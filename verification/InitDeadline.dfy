/** How long an initialisation takes once its address is resolved. */
module InitDeadline {
  import opened Common
  import opened InitMachine
  import opened InitSafety

  /** Time stands still while a handler is ready, while an operation is pending on a closed socket (it is
      about to be aborted), and it does not pass the expiry of a live wait. */
  predicate Prompt(s: State, e: Event) {
    e.Tick? && e.d > 0 ==>
      && s.ready == [] && s.fired == []
      && (s.live != [] ==> s.now + e.d <= s.deadline)
      && (s.ops != [] && s.ops[0] != Resolve ==> s.socketOpen)
  }

  predicate PromptRun(kind: Kind, s: State, events: seq<Event>)
    requires ValidRun(kind, s, events)
    decreases |events|
  {
    events == [] || (Prompt(s, events[0]) && PromptRun(kind, Step(kind, s, events[0]), events[1..]))
  }

  function Budget(timeout: int): nat { if timeout < 0 then 0 else timeout }

  /** One timeout for each phase that arms the timer: connecting, and for websocket the handshake. */
  function Allowance(kind: Kind, timeout: int): nat {
    if kind == Tcp then Budget(timeout) else 2 * Budget(timeout)
  }

  predicate InTime(kind: Kind, c: Completion) { c.since <= c.at <= c.since + Allowance(kind, c.timeout) }

  /** A pending operation will be over by `bound`: its timer is running, has fired, or has closed the socket. */
  ghost predicate Guarded(s: State, bound: int) {
    && s.now <= bound
    && (|| (s.live != [] && s.deadline <= bound)
        || (exists f | f in s.fired :: f.ec == Success)
        || !s.socketOpen)
  }

  /** The end of the phase the outstanding operation belongs to. */
  function PhaseBound(s: State): int {
    s.since + if s.ops != [] && s.ops[0] == Connect then Budget(s.timeout) else 2 * Budget(s.timeout)
  }

  ghost predicate OnTime(kind: Kind, s: State) {
    var t := Budget(s.timeout);
    && (s.ops != [] && s.ops[0] != Resolve ==> Guarded(s, PhaseBound(s)))
    && (s.ready != [] && s.ready[0].OnConnect? ==> s.now <= s.since + t)
    && (s.ready != [] && s.ready[0].OnUpgrade? ==> s.now <= s.since + 2 * t)
    && (s.ready != [] && s.ready[0].OnAlreadyOpen? ==> s.now == s.since)
    && forall c | c in s.callbacks :: InTime(kind, c)
  }

  lemma InvokedInTime(kind: Kind, s: State, ec: ErrorCode)
    requires s.ops == [] && s.ready == [] && s.since <= s.now <= s.since + Allowance(kind, s.timeout)
    requires forall c | c in s.callbacks :: InTime(kind, c)
    ensures OnTime(kind, Invoke(s, ec))
  {
  }

  lemma ConnectStartsOnTime(kind: Kind, s: State)
    requires s.ops == [] && s.ready == []
    requires forall c | c in s.callbacks :: InTime(kind, c)
    ensures OnTime(kind, HandleResolve(s, Success))
  {
    var t := HandleResolve(s, Success);
    assert t.ops == [Connect] && Guarded(t, t.since + Budget(t.timeout));
  }

  lemma HandshakeStartsOnTime(s: State)
    requires s.ops == [] && s.ready == [] && s.now <= s.since + Budget(s.timeout)
    requires forall c | c in s.callbacks :: InTime(Websocket, c)
    ensures OnTime(Websocket, HandleConnect(Websocket, s, Success))
  {
    var t := HandleConnect(Websocket, s, Success);
    assert t.ops == [Handshake] && Guarded(t, t.since + 2 * Budget(t.timeout));
  }

  lemma HandleKeepsOnTime(kind: Kind, s: State, r: Ready)
    requires s.ops == [] && s.ready == [] && (kind == Tcp ==> !r.OnUpgrade?)
    requires s.since <= s.now
    requires forall c | c in s.callbacks :: InTime(kind, c)
    requires r.OnConnect? ==> s.now <= s.since + Budget(s.timeout)
    requires r.OnUpgrade? ==> s.now <= s.since + 2 * Budget(s.timeout)
    requires r.OnAlreadyOpen? ==> s.now == s.since
    ensures OnTime(kind, HandleReady(kind, s, r))
  {
    match r
    case OnResolve(ec) =>
      if ec == Success {
        ConnectStartsOnTime(kind, s);
      } else {
        InvokedInTime(kind, Mark(s), ec);
      }
    case OnConnect(ec) =>
      if kind == Websocket && ec == Success {
        HandshakeStartsOnTime(s);
      } else {
        InvokedInTime(kind, Cancel(s), ec);
      }
    case OnUpgrade(ec) => InvokedInTime(kind, Cancel(s), ec);
    case OnAlreadyOpen => InvokedInTime(kind, s, Success);
  }

  lemma ExpireKeepsGuarded(s: State, bound: int)
    requires s.live != [] && Guarded(s, bound)
    ensures Guarded(ExpireTimer(s), bound)
  {
    FiresMembers(s.live, Success);
    assert Fired(s.live[0], Success) in ExpireTimer(s).fired;
  }

  lemma TimeoutKeepsGuarded(s: State, i: nat, bound: int)
    requires i < |s.fired| && Guarded(s, bound)
    ensures Guarded(HandleTimeout(s.(fired := RemoveAt(s.fired, i)), s.fired[i]), bound)
  {
    RemoveAtKeepsOthers(s.fired, i);
  }

  lemma ExpireKeepsOnTime(kind: Kind, s: State)
    requires OnTime(kind, s) && s.live != []
    ensures OnTime(kind, ExpireTimer(s))
  {
    if Guarded(s, PhaseBound(s)) {
      ExpireKeepsGuarded(s, PhaseBound(s));
    }
  }

  lemma TimeoutKeepsOnTime(kind: Kind, s: State, i: nat)
    requires OnTime(kind, s) && i < |s.fired|
    ensures OnTime(kind, HandleTimeout(s.(fired := RemoveAt(s.fired, i)), s.fired[i]))
  {
    if Guarded(s, PhaseBound(s)) {
      TimeoutKeepsGuarded(s, i, PhaseBound(s));
    }
  }

  lemma CompleteKeepsOnTime(kind: Kind, s: State, i: nat, ec: ErrorCode)
    requires Counted(kind, s) && OnTime(kind, s) && i < |s.ops|
    ensures OnTime(kind, CompleteOp(s, i, ec))
  {
    OnlyOne(s.ops, i);
    assert CompleteOp(s, i, ec).ready == [HandlerOf(s.ops[0], ec)];
  }

  lemma TickKeepsOnTime(kind: Kind, s: State, d: nat)
    requires OnTime(kind, s) && Prompt(s, Tick(d))
    ensures OnTime(kind, s.(now := s.now + d))
  {
    if d > 0 {
      assert !exists f | f in s.fired :: f.ec == Success;
    }
  }

  lemma InitKeepsOnTime(kind: Kind, s: State, timeout: Option<int>)
    requires OnTime(kind, s) && Tokens(s) == 0
    ensures OnTime(kind, AsyncInit(kind, s, timeout))
  {
  }

  lemma CloseKeepsOnTime(kind: Kind, s: State)
    requires OnTime(kind, s)
    ensures OnTime(kind, s.(socketOpen := false, streamOpen := false, closedByUser := true, closedBy := s.closedBy + {User}))
  {
  }

  lemma HandleKeepsSince(kind: Kind, s: State, r: Ready)
    requires s.since <= s.now
    ensures HandleReady(kind, s, r).since <= HandleReady(kind, s, r).now
  {
  }

  lemma StepKeepsSince(kind: Kind, s: State, e: Event)
    requires s.since <= s.now && Enabled(s, e)
    ensures Step(kind, s, e).since <= Step(kind, s, e).now
  {
    if e.Handle? {
      HandleKeepsSince(kind, s.(ready := RemoveAt(s.ready, e.i)), s.ready[e.i]);
    }
  }

  lemma StepKeepsOnTime(kind: Kind, s: State, e: Event)
    requires Counted(kind, s) && OnTime(kind, s) && s.since <= s.now && Enabled(s, e) && Prompt(s, e)
    ensures OnTime(kind, Step(kind, s, e))
  {
    match e
    case Init(timeout) => InitKeepsOnTime(kind, s, timeout);
    case Complete(i, ec) => CompleteKeepsOnTime(kind, s, i, ec);
    case Handle(i) =>
      OnlyOne(s.ready, i);
      HandleKeepsOnTime(kind, s.(ready := []), s.ready[0]);
    case Expire => ExpireKeepsOnTime(kind, s);
    case Timeout(i) => TimeoutKeepsOnTime(kind, s, i);
    case Close => CloseKeepsOnTime(kind, s);
    case Tick(d) => TickKeepsOnTime(kind, s, d);
  }

  lemma {:induction false} RunKeepsOnTime(kind: Kind, s: State, events: seq<Event>)
    requires Inv(kind, s) && OnTime(kind, s) && s.since <= s.now
    requires ValidRun(kind, s, events) && PromptRun(kind, s, events)
    ensures OnTime(kind, Run(kind, s, events)) && Run(kind, s, events).since <= Run(kind, s, events).now
    decreases |events|
  {
    if events != [] {
      StepKeepsOnTime(kind, s, events[0]);
      StepKeepsSince(kind, s, events[0]);
      StepKeepsInv(kind, s, events[0]);
      RunKeepsOnTime(kind, Step(kind, s, events[0]), events[1..]);
    }
  }

  /** In a prompt run every completion callback comes within one timeout of resolution for TCP and within two
      for websocket, for any number of initialisations, each with its own timeout; and an initialisation that
      has its address resolved and has not called back is not overdue either: time does not pass the bound
      before the callback. */
  lemma CompletesInTime(kind: Kind, now: int, events: seq<Event>)
    requires ValidRun(kind, Fresh(now), events) && PromptRun(kind, Fresh(now), events)
    ensures var s := Run(kind, Fresh(now), events);
      && (forall c | c in s.callbacks ::
            c.since <= c.at <= c.since + (if kind == Tcp then Budget(c.timeout) else 2 * Budget(c.timeout)))
      && (|s.callbacks| < s.inits && !BeforeConnect(s) ==>
            s.since <= s.now <= s.since + (if kind == Tcp then Budget(s.timeout) else 2 * Budget(s.timeout)))
  {
    RunKeepsOnTime(kind, Fresh(now), events);
    FreshRunKeepsInv(kind, now, events);
    assert forall c | c in Run(kind, Fresh(now), events).callbacks :: InTime(kind, c);
  }

  // ---------- the bounds are reached

  lemma ExtendPromptly(kind: Kind, now: int, events: seq<Event>, e: Event) returns (longer: seq<Event>)
    requires ValidRun(kind, Fresh(now), events) && PromptRun(kind, Fresh(now), events)
    requires Enabled(Run(kind, Fresh(now), events), e) && Prompt(Run(kind, Fresh(now), events), e)
    ensures ValidRun(kind, Fresh(now), longer) && PromptRun(kind, Fresh(now), longer)
    ensures Run(kind, Fresh(now), longer) == Step(kind, Run(kind, Fresh(now), events), e)
  {
    RunAppend(kind, Fresh(now), events, e);
    PromptAppend(kind, Fresh(now), events, e);
    longer := events + [e];
  }

  lemma {:induction false} PromptAppend(kind: Kind, s: State, events: seq<Event>, e: Event)
    requires ValidRun(kind, s, events) && PromptRun(kind, s, events)
    requires Enabled(Run(kind, s, events), e) && Prompt(Run(kind, s, events), e)
    requires ValidRun(kind, s, events + [e])
    ensures PromptRun(kind, s, events + [e])
    decreases |events|
  {
    if events == [] {
      assert PromptRun(kind, Step(kind, s, e), []);
    } else {
      assert (events + [e])[1..] == events[1..] + [e];
      RunAppend(kind, Step(kind, s, events[0]), events[1..], e);
      PromptAppend(kind, Step(kind, s, events[0]), events[1..], e);
    }
  }

  lemma ConnectedAtLast(now: int, timeout: nat) returns (r: seq<Event>)
    ensures ValidRun(Websocket, Fresh(now), r) && PromptRun(Websocket, Fresh(now), r)
    ensures var s := Run(Websocket, Fresh(now), r);
      && s.ops == [] && s.ready == [OnConnect(Success)] && s.live == [0] && s.fired == []
      && s.now == s.since + timeout && s.timeout == timeout && s.callbacks == [] && s.socketOpen
  {
    r := [];
    r := ExtendPromptly(Websocket, now, r, Init(Some(timeout)));
    r := ExtendPromptly(Websocket, now, r, Complete(0, Success));
    r := ExtendPromptly(Websocket, now, r, Handle(0));
    r := ExtendPromptly(Websocket, now, r, Tick(timeout));
    r := ExtendPromptly(Websocket, now, r, Complete(0, Success));
  }

  /** A websocket initialisation may succeed as late as twice its timeout, because the handshake gets a
      timeout of its own: no smaller bound holds. */
  lemma WebsocketCanTakeTwice(now: int, timeout: nat)
    ensures exists events ::
      && ValidRun(Websocket, Fresh(now), events) && PromptRun(Websocket, Fresh(now), events)
      && var s := Run(Websocket, Fresh(now), events);
         && |s.callbacks| == 1 && s.callbacks[0].ec == Success && s.callbacks[0].timeout == timeout
         && s.callbacks[0].at == s.callbacks[0].since + 2 * timeout
  {
    var r := ConnectedAtLast(now, timeout);
    r := ExtendPromptly(Websocket, now, r, Handle(0));
    r := ExtendPromptly(Websocket, now, r, Timeout(0));
    r := ExtendPromptly(Websocket, now, r, Tick(timeout));
    r := ExtendPromptly(Websocket, now, r, Complete(0, Success));
    r := ExtendPromptly(Websocket, now, r, Handle(0));
  }

  /** Every callback of an initialisation with this timeout comes within one timeout of resolution. */
  ghost predicate OneTimeoutSuffices(kind: Kind, now: int, timeout: int) {
    forall events | ValidRun(kind, Fresh(now), events) && PromptRun(kind, Fresh(now), events) ::
      forall c | c in Run(kind, Fresh(now), events).callbacks && c.timeout == timeout :: c.at <= c.since + Budget(timeout)
  }

  /** The documented single maximum wait is kept by TCP clients and by timeouts of zero or less, and by nothing
      else. */
  lemma OneTimeoutSufficesIff(kind: Kind, now: int, timeout: int)
    ensures OneTimeoutSuffices(kind, now, timeout) <==> kind == Tcp || timeout <= 0
  {
    if kind == Tcp || timeout <= 0 {
      forall events | ValidRun(kind, Fresh(now), events) && PromptRun(kind, Fresh(now), events)
        ensures forall c | c in Run(kind, Fresh(now), events).callbacks && c.timeout == timeout ::
          c.at <= c.since + Budget(timeout)
      {
        CompletesInTime(kind, now, events);
      }
    } else {
      WebsocketCanTakeTwice(now, timeout);
      var events :| && ValidRun(Websocket, Fresh(now), events) && PromptRun(Websocket, Fresh(now), events)
        && var s := Run(Websocket, Fresh(now), events);
           && |s.callbacks| == 1 && s.callbacks[0].timeout == timeout
           && s.callbacks[0].at == s.callbacks[0].since + 2 * timeout;
      assert Run(Websocket, Fresh(now), events).callbacks[0] in Run(Websocket, Fresh(now), events).callbacks;
    }
  }
}
