/** The timer of an initialisation: how long it runs, and what becomes of its waits. */
module InitTimer {
  import opened Common
  import opened InitMachine
  import opened InitSafety
  import opened InitSocket

  // ---------- the timeout in force

  /** The timeout last given to `asyncInit`, or that of the constructor, in milliseconds. */
  function TimeoutOf(events: seq<Event>): int {
    if events == [] then 5000
    else
      var last := events[|events| - 1];
      if last.Init? && last.timeout.Some? then last.timeout.value else TimeoutOf(events[..|events| - 1])
  }

  /** While an operation is guarded, its timer has been set for the timeout in force: from the time of resolution for
      connecting, and not before that for the handshake. */
  ghost predicate Timed(s: State) {
    && (s.live != [] ==> s.deadline >= s.since + s.timeout)
    && (s.live != [] && (s.ops == [Connect] || (s.ready != [] && s.ready[0].OnConnect?)) ==>
          s.deadline == s.since + s.timeout)
    && s.since <= s.now
  }

  lemma StepKeepsTimed(kind: Kind, s: State, e: Event)
    requires Inv(kind, s) && Timed(s) && Enabled(s, e)
    ensures Timed(Step(kind, s, e))
  {
    match e
    case Complete(i, ec) => OnlyOne(s.ops, i);
    case Handle(i) =>
      OnlyOne(s.ready, i);
      HandleKeepsTimed(kind, s.(ready := []), s.ready[0]);
    case _ =>
  }

  lemma HandleKeepsTimed(kind: Kind, s: State, r: Ready)
    requires s.ops == [] && s.ready == [] && s.since <= s.now
    requires s.live != [] ==> s.deadline >= s.since + s.timeout
    requires r.OnResolve? || r.OnAlreadyOpen? ==> s.live == []
    ensures Timed(HandleReady(kind, s, r))
  {
    if r.OnConnect? && kind == Websocket && r.ec == Success {
      assert HandleConnect(kind, s, r.ec).ops == [Handshake];
    }
  }

  lemma {:induction false} RunKeepsTimed(kind: Kind, s: State, events: seq<Event>)
    requires Inv(kind, s) && Timed(s) && ValidRun(kind, s, events)
    ensures Timed(Run(kind, s, events))
    decreases |events|
  {
    if events != [] {
      StepKeepsTimed(kind, s, events[0]);
      StepKeepsInv(kind, s, events[0]);
      RunKeepsTimed(kind, Step(kind, s, events[0]), events[1..]);
    }
  }

  lemma {:induction false} TimeoutIsLastGiven(kind: Kind, now: int, events: seq<Event>)
    requires ValidRun(kind, Fresh(now), events)
    ensures Run(kind, Fresh(now), events).timeout == TimeoutOf(events)
    decreases |events|
  {
    if events != [] {
      var front, last := events[..|events| - 1], events[|events| - 1];
      assert events == front + [last];
      ValidPrefix(kind, Fresh(now), front, last);
      TimeoutIsLastGiven(kind, now, front);
      RunAppend(kind, Fresh(now), front, last);
      StepKeepsTimeout(kind, Run(kind, Fresh(now), front), last);
    }
  }

  lemma StepKeepsTimeout(kind: Kind, s: State, e: Event)
    requires Enabled(s, e)
    ensures Step(kind, s, e).timeout == if e.Init? && e.timeout.Some? then e.timeout.value else s.timeout
  {
  }

  lemma {:induction false} ValidPrefix(kind: Kind, s: State, front: seq<Event>, last: Event)
    requires ValidRun(kind, s, front + [last])
    ensures ValidRun(kind, s, front) && Enabled(Run(kind, s, front), last)
    decreases |front|
  {
    if front == [] {
      assert (front + [last])[0] == last;
    } else {
      assert (front + [last])[0] == front[0] && (front + [last])[1..] == front[1..] + [last];
      ValidPrefix(kind, Step(kind, s, front[0]), front[1..], last);
    }
  }

  /** In every reachable state the timeout is the one last given, 5000 ms if none was, and a connection attempt is given
      exactly that long from the time its address was resolved. */
  lemma ConnectDeadline(kind: Kind, now: int, events: seq<Event>)
    requires ValidRun(kind, Fresh(now), events)
    ensures var s := Run(kind, Fresh(now), events);
      && s.timeout == TimeoutOf(events)
      && (s.ops == [Connect] && s.live != [] ==> s.deadline == s.since + TimeoutOf(events))
      && (s.live != [] ==> s.deadline >= s.since + TimeoutOf(events))
  {
    TimeoutIsLastGiven(kind, now, events);
    RunKeepsTimed(kind, Fresh(now), events);
  }

  // ---------- no wait expires early

  function Elapsed(events: seq<Event>): nat {
    if events == [] then 0 else (if events[0].Tick? then events[0].d else 0) + Elapsed(events[1..])
  }

  /** Nothing has expired since `b`, and nothing will for less than `left`. */
  ghost predicate NotYet(b: State, s: State, left: int) {
    s.expired == b.expired && left <= s.timeout && (s.live != [] ==> s.deadline >= s.now + left)
  }

  lemma HandleKeepsNotYet(kind: Kind, b: State, s: State, r: Ready, left: int)
    requires NotYet(b, s, left)
    ensures NotYet(b, HandleReady(kind, s, r), left)
  {
  }

  lemma StepKeepsNotYet(kind: Kind, b: State, s: State, e: Event, left: int)
    requires NotYet(b, s, left) && left > 0 && Enabled(s, e) && !e.Init?
    ensures NotYet(b, Step(kind, s, e), if e.Tick? then left - e.d else left)
  {
    if e.Handle? {
      HandleKeepsNotYet(kind, b, s.(ready := RemoveAt(s.ready, e.i)), s.ready[e.i], left);
    }
  }

  lemma {:induction false} RunKeepsNotYet(kind: Kind, b: State, s: State, events: seq<Event>, left: int)
    requires NotYet(b, s, left) && Elapsed(events) < left
    requires ValidRun(kind, s, events) && forall e | e in events :: !e.Init?
    ensures Run(kind, s, events).expired == b.expired
    decreases |events|
  {
    if events != [] {
      var e := events[0];
      assert e in events;
      StepKeepsNotYet(kind, b, s, e, left);
      RunKeepsNotYet(kind, b, Step(kind, s, e), events[1..], if e.Tick? then left - e.d else left);
    }
  }

  /** No timer expires in an initialisation that takes less time than its timeout, counted from `asyncInit`. So if no
      expired timer is left over and the user closes nothing, its success leaves the socket open. */
  lemma FastSuccessIsOpen(kind: Kind, b: State, timeout: Option<int>, events: seq<Event>)
    requires WaitsAccounted(b) && Settled(b) && (IsOpen(kind, b) ==> b.socketOpen)
    requires ValidRun(kind, Step(kind, b, Init(timeout)), events)
    requires forall e | e in events :: !e.Init? && !e.Close?
    requires Elapsed(events) < Step(kind, b, Init(timeout)).timeout
    ensures var s := Run(kind, Step(kind, b, Init(timeout)), events);
      && s.expired == b.expired
      && (Settled(s) && |s.callbacks| > |b.callbacks| && s.callbacks[|b.callbacks|].ec == Success ==> s.socketOpen)
  {
    var s := Step(kind, b, Init(timeout));
    RunKeepsNotYet(kind, b, s, events, s.timeout);
    SuccessIsOpenIffNoExpiry(kind, b, timeout, events);
  }

  // ---------- every wait has its handler called once

  function CountTimeouts(events: seq<Event>): nat {
    if events == [] then 0 else (if events[0].Timeout? then 1 else 0) + CountTimeouts(events[1..])
  }

  /** Waits that are live or whose handler is queued. */
  function Waiting(s: State): nat { |s.live| + |s.fired| }

  lemma CancelKeepsWaiting(s: State)
    ensures Waiting(Cancel(s)) == Waiting(s) && Cancel(s).waits == s.waits
  {
  }

  lemma ArmKeepsWaiting(s: State)
    ensures var t := AsyncWait(ExpiresFromNow(s, s.timeout)); Waiting(t) - t.waits == Waiting(s) - s.waits
  {
    CancelKeepsWaiting(s);
  }

  lemma HandleKeepsWaiting(kind: Kind, s: State, r: Ready)
    ensures var t := HandleReady(kind, s, r); Waiting(t) - t.waits == Waiting(s) - s.waits
  {
    CancelKeepsWaiting(s);
    ArmKeepsWaiting(Mark(s));
    ArmKeepsWaiting(SetOptions(Cancel(s)));
  }

  lemma StepKeepsWaiting(kind: Kind, s: State, e: Event)
    requires Enabled(s, e)
    ensures var t := Step(kind, s, e);
      Waiting(t) - t.waits == Waiting(s) - s.waits - if e.Timeout? then 1 else 0
  {
    if e.Handle? {
      HandleKeepsWaiting(kind, s.(ready := RemoveAt(s.ready, e.i)), s.ready[e.i]);
    }
  }

  /** Each wait ever armed is live, has its handler queued, or has had it called: cancelled, replaced or expired, none is
      forgotten and none is called twice. */
  lemma {:induction false} WaitsAreConserved(kind: Kind, s: State, events: seq<Event>)
    requires ValidRun(kind, s, events)
    ensures var t := Run(kind, s, events);
      Waiting(t) + CountTimeouts(events) + s.waits == Waiting(s) + t.waits
    decreases |events|
  {
    if events != [] {
      StepKeepsWaiting(kind, s, events[0]);
      WaitsAreConserved(kind, Step(kind, s, events[0]), events[1..]);
    }
  }
}
