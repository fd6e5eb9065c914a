/** When the socket is open after a reported success. */
module InitSocket {
  import opened Common
  import opened InitMachine
  import opened InitSafety

  // ---------- the run of one initialisation, relative to the state `b` in which it began

  /** Waits from before are told from this initialisation's own: those are numbered from `b.waits` on. An older
      timer handler that can close the socket, or has done so, was queued in `b`. */
  ghost predicate Traced(b: State, s: State) {
    && b.waits <= s.waits
    && (forall w | w in s.live :: b.waits <= w)
    && (forall f | f in s.fired :: f.ec == Success && f.wait < b.waits ==> f in b.fired)
    && (forall w: nat | Timer(w) in s.closedBy :: w in s.closers && (w < b.waits ==> Fired(w, Success) in b.fired))
    && (forall w | w in s.expired && w < b.waits :: w in b.expired)
    && b.expired <= s.expired
  }

  /** Connecting opened the socket, and it is open unless it was closed since. */
  ghost predicate Connected(b: State, s: State) {
    && (s.socketOpen <==> s.closedBy == {})
    && (forall w | w in s.closers && b.waits <= w :: Timer(w) in s.closedBy)
  }

  /** The stream counted as open; the socket is as it was, unless it was closed since. */
  ghost predicate FoundOpen(b: State, s: State) {
    && (s.socketOpen <==> b.socketOpen && s.closedBy == {})
    && (forall f | f in b.fired && f.ec == Success :: f in s.fired || Timer(f.wait) in s.closedBy)
  }

  /** No timer has been armed yet. */
  ghost predicate NotConnected(kind: Kind, b: State, s: State)
    requires |s.callbacks| + Tokens(s) == |b.callbacks| + 1
  {
    && s.live == [] && s.expired == b.expired && !PastResolve(s)
    && (IsOpen(kind, b) ==> FoundOpen(b, s) && !BeforeConnect(s))
    && (!IsOpen(kind, b) ==>
          && (s.ready != [] ==> !s.ready[0].OnAlreadyOpen?)
          && (Tokens(s) == 0 ==> s.callbacks[|b.callbacks|].ec != Success))
  }

  /** Where the one initialisation begun in `b` has got to. */
  ghost predicate Under(kind: Kind, b: State, s: State) {
    && Tokens(s) <= 1 && |s.callbacks| + Tokens(s) == |b.callbacks| + 1
    && Traced(b, s)
    && if s.waits == b.waits then NotConnected(kind, b, s)
       else !IsOpen(kind, b) && Connected(b, s) && (Tokens(s) == 1 ==> PastResolve(s))
  }

  lemma CancelKeepsTraced(b: State, s: State)
    requires Traced(b, s)
    ensures Traced(b, Cancel(s))
  {
    FiresMembers(s.live, OperationAborted);
  }

  lemma ResolveUnder(kind: Kind, b: State, s: State, ec: ErrorCode)
    requires s.ops == [] && s.ready == [] && |s.callbacks| == |b.callbacks| && WaitsAccounted(s)
    requires Traced(b, s) && s.waits == b.waits && s.live == [] && s.expired == b.expired && !IsOpen(kind, b)
    ensures Under(kind, b, HandleResolve(s, ec))
  {
    var t := HandleResolve(s, ec);
    if ec == Success {
      assert t.ops == [Connect] && t.live == [s.waits] && t.fired == s.fired + [] && t.closedBy == {};
    }
  }

  lemma ConnectUnder(kind: Kind, b: State, s: State, ec: ErrorCode)
    requires s.ops == [] && s.ready == [] && |s.callbacks| == |b.callbacks|
    requires Traced(b, s) && b.waits < s.waits && !IsOpen(kind, b) && Connected(b, s)
    ensures Under(kind, b, HandleConnect(kind, s, ec))
  {
    CancelKeepsTraced(b, s);
    var t := HandleConnect(kind, s, ec);
    if kind == Websocket && ec == Success {
      assert t.ops == [Handshake] && t.live == [s.waits] && t.fired == Cancel(s).fired + [];
    }
  }

  lemma UpgradeUnder(kind: Kind, b: State, s: State, ec: ErrorCode)
    requires s.ops == [] && s.ready == [] && |s.callbacks| == |b.callbacks|
    requires Traced(b, s) && b.waits < s.waits && !IsOpen(kind, b) && Connected(b, s)
    ensures Under(kind, b, HandleUpgrade(s, ec))
  {
    CancelKeepsTraced(b, s);
  }

  lemma HandleKeepsUnder(kind: Kind, b: State, s: State)
    requires Under(kind, b, s) && WaitsAccounted(s) && s.ready != []
    ensures Under(kind, b, HandleReady(kind, s.(ready := []), s.ready[0]))
  {
    var t := s.(ready := []);
    match s.ready[0]
    case OnResolve(ec) => ResolveUnder(kind, b, t, ec);
    case OnConnect(ec) => ConnectUnder(kind, b, t, ec);
    case OnUpgrade(ec) => UpgradeUnder(kind, b, t, ec);
    case OnAlreadyOpen =>
  }

  lemma CompleteKeepsUnder(kind: Kind, b: State, s: State, i: nat, ec: ErrorCode)
    requires Under(kind, b, s) && i < |s.ops|
    ensures Under(kind, b, CompleteOp(s, i, ec))
  {
    OnlyOne(s.ops, i);
    assert CompleteOp(s, i, ec).ready == [HandlerOf(s.ops[0], ec)];
  }

  lemma ExpireKeepsUnder(kind: Kind, b: State, s: State)
    requires Under(kind, b, s) && s.live != []
    ensures Under(kind, b, ExpireTimer(s))
  {
    FiresMembers(s.live, Success);
  }

  lemma TimeoutKeepsTraced(b: State, s: State, i: nat)
    requires Traced(b, s) && WaitsAccounted(s) && i < |s.fired|
    ensures Traced(b, HandleTimeout(s.(fired := RemoveAt(s.fired, i)), s.fired[i]))
  {
    RemoveAtKeepsOthers(s.fired, i);
    assert s.fired[i] in s.fired;
  }

  lemma TimeoutKeepsUnder(kind: Kind, b: State, s: State, i: nat)
    requires Under(kind, b, s) && WaitsAccounted(s) && i < |s.fired|
    ensures Under(kind, b, HandleTimeout(s.(fired := RemoveAt(s.fired, i)), s.fired[i]))
  {
    TimeoutKeepsTraced(b, s, i);
    RemoveAtKeepsOthers(s.fired, i);
    var t := HandleTimeout(s.(fired := RemoveAt(s.fired, i)), s.fired[i]);
    assert s.fired[i].ec != OperationAborted ==> Timer(s.fired[i].wait) in t.closedBy;
  }

  lemma CloseKeepsUnder(kind: Kind, b: State, s: State)
    requires Under(kind, b, s)
    ensures Under(kind, b, Step(kind, s, Close))
  {
    assert User in Step(kind, s, Close).closedBy;
  }

  lemma StepKeepsUnder(kind: Kind, b: State, s: State, e: Event)
    requires Under(kind, b, s) && WaitsAccounted(s) && Enabled(s, e) && !e.Init?
    ensures Under(kind, b, Step(kind, s, e))
  {
    match e
    case Complete(i, ec) => CompleteKeepsUnder(kind, b, s, i, ec);
    case Handle(i) =>
      OnlyOne(s.ready, i);
      HandleKeepsUnder(kind, b, s);
    case Expire => ExpireKeepsUnder(kind, b, s);
    case Timeout(i) => TimeoutKeepsUnder(kind, b, s, i);
    case Close => CloseKeepsUnder(kind, b, s);
    case Tick(_) =>
  }

  lemma {:induction false} RunKeepsUnder(kind: Kind, b: State, s: State, events: seq<Event>)
    requires Under(kind, b, s) && WaitsAccounted(s)
    requires ValidRun(kind, s, events) && forall e | e in events :: !e.Init?
    ensures Under(kind, b, Run(kind, s, events)) && WaitsAccounted(Run(kind, s, events))
    decreases |events|
  {
    if events != [] {
      assert events[0] in events;
      StepKeepsUnder(kind, b, s, events[0]);
      StepKeepsWaits(kind, s, events[0]);
      RunKeepsUnder(kind, b, Step(kind, s, events[0]), events[1..]);
    }
  }

  // ---------- the exact condition

  /** Take any initialisation in any history, with any timer handlers of earlier ones still queued, and run it to
      the end in any order, the user closing the stream at will. If it reported success, the socket is open if
      and only if the user did not close it, and
      - if the stream counted as open from the start: the socket was open and no expired handler was queued;
      - else: no wait of this initialisation expired, and no handler of an earlier expired wait ran after this
        initialisation had begun to connect. */
  lemma SuccessIsOpenIff(kind: Kind, b: State, timeout: Option<int>, events: seq<Event>)
    requires WaitsAccounted(b) && Idle(b)
    requires ValidRun(kind, Step(kind, b, Init(timeout)), events) && forall e | e in events :: !e.Init?
    ensures var s := Run(kind, Step(kind, b, Init(timeout)), events);
      Settled(s) ==>
        && |s.callbacks| == |b.callbacks| + 1
        && (s.callbacks[|b.callbacks|].ec == Success ==>
              (s.socketOpen <==>
                 && User !in s.closedBy
                 && (IsOpen(kind, b) ==> b.socketOpen && AbortedOnly(b.fired))
                 && (!IsOpen(kind, b) ==>
                       && s.expired == b.expired
                       && forall f | f in b.fired && f.ec == Success :: Timer(f.wait) !in s.closedBy)))
  {
    RunKeepsUnder(kind, b, Step(kind, b, Init(timeout)), events);
    var s := Run(kind, Step(kind, b, Init(timeout)), events);
    if Settled(s) && s.callbacks[|b.callbacks|].ec == Success {
      assert s.closers == s.expired;
      ClosedBySomeone(s.closedBy);
      assert s.expired == b.expired <==> forall w | w in s.expired :: w < b.waits;
    }
  }

  lemma ClosedBySomeone(closedBy: set<Closer>)
    ensures closedBy == {} <==> User !in closedBy && forall w: nat :: Timer(w) !in closedBy
  {
    if c :| c in closedBy {
      assert c == User || c == Timer(c.wait);
    }
  }

  lemma {:induction false} NotClosedByUser(kind: Kind, s: State, events: seq<Event>)
    requires User !in s.closedBy && ValidRun(kind, s, events) && forall e | e in events :: !e.Close?
    ensures User !in Run(kind, s, events).closedBy
    decreases |events|
  {
    if events != [] {
      assert events[0] in events;
      NotClosedByUser(kind, Step(kind, s, events[0]), events[1..]);
    }
  }

  /** When no expired timer is left over from earlier initialisations and the user closes nothing, the socket
      is open after a success if and only if no wait of this initialisation expired (and, in case the stream
      counted as open from the start, the socket was open then). */
  lemma SuccessIsOpenIffNoExpiry(kind: Kind, b: State, timeout: Option<int>, events: seq<Event>)
    requires WaitsAccounted(b) && Settled(b)
    requires ValidRun(kind, Step(kind, b, Init(timeout)), events)
    requires forall e | e in events :: !e.Init? && !e.Close?
    ensures var s := Run(kind, Step(kind, b, Init(timeout)), events);
      Settled(s) ==>
        && |s.callbacks| == |b.callbacks| + 1
        && (s.callbacks[|b.callbacks|].ec == Success ==>
              (s.socketOpen <==> s.expired == b.expired && (IsOpen(kind, b) ==> b.socketOpen)))
  {
    SuccessIsOpenIff(kind, b, timeout, events);
    NotClosedByUser(kind, Step(kind, b, Init(timeout)), events);
    RunKeepsUnder(kind, b, Step(kind, b, Init(timeout)), events);
  }
}
