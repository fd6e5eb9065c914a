/** The asynchronous initialisation does what the synchronous one does. */
module InitAgreement {
  import opened Common
  import opened InitMachine
  import opened InitSafety

  function OutcomeOf(o: Outcomes, op: Op): ErrorCode {
    match op case Resolve => o.resolve case Connect => o.connect case Handshake => o.handshake
  }

  /** A step in which the library behaves as `o` says, no timer expires and the user does not interfere. */
  predicate Follows(o: Outcomes, s: State, e: Event) {
    && !e.Init? && !e.Expire? && !e.Close?
    && (e.Complete? && e.i < |s.ops| ==> e.ec == OutcomeOf(o, s.ops[e.i]))
  }

  /** The handler of a timer wait that has expired (before the initialisation was begun) does not run. */
  predicate Harmless(s: State, e: Event) {
    e.Timeout? && e.i < |s.fired| ==> s.fired[e.i].ec == OperationAborted
  }

  predicate HarmlessRun(kind: Kind, s: State, events: seq<Event>)
    requires ValidRun(kind, s, events)
    decreases |events|
  {
    events == [] || (Harmless(s, events[0]) && HarmlessRun(kind, Step(kind, s, events[0]), events[1..]))
  }

  predicate FollowingRun(kind: Kind, o: Outcomes, s: State, events: seq<Event>)
    requires ValidRun(kind, s, events)
    decreases |events|
  {
    events == [] || (Follows(o, s, events[0]) && FollowingRun(kind, o, Step(kind, s, events[0]), events[1..]))
  }

  /** Same descriptor, same websocket state, same actions in the same order. */
  predicate SameStream(s: State, t: State) {
    s.socketOpen == t.socketOpen && s.streamOpen == t.streamOpen && s.actions == t.actions
  }

  // ---------- the states on the way, relative to the state `b` in which asyncInit was called

  predicate Resolving(kind: Kind, b: State, s: State) {
    !IsOpen(kind, b) && SameStream(s, b.(actions := b.actions + [ResolveStarted]))
  }

  predicate Connecting(kind: Kind, o: Outcomes, b: State, s: State) {
    && !IsOpen(kind, b) && o.resolve == Success
    && SameStream(s, b.(actions := b.actions + [ResolveStarted] + [ConnectStarted], socketOpen := true))
  }

  predicate Upgrading(kind: Kind, o: Outcomes, b: State, s: State, streamOpen: bool) {
    && kind == Websocket && !IsOpen(kind, b) && o.resolve == Success && o.connect == Success
    && SameStream(s, b.(
         actions := b.actions + [ResolveStarted] + [ConnectStarted] + [OptionsSet] + [HandshakeStarted],
         socketOpen := true, streamOpen := streamOpen))
  }

  /** The initialisation begun in `b` is where `o` allows it to be. */
  predicate OnTrack(kind: Kind, o: Outcomes, b: State, s: State) {
    && Tokens(s) <= 1
    && |s.live| <= 1 && (s.live != [] ==> Tokens(s) == 1)
    && (Tokens(s) == 1 ==> s.callbacks == b.callbacks)
    && (s.ops != [] ==>
          match s.ops[0]
          case Resolve => s.live == [] && Resolving(kind, b, s)
          case Connect => Connecting(kind, o, b, s)
          case Handshake => Upgrading(kind, o, b, s, false))
    && (s.ready != [] ==>
          match s.ready[0]
          case OnResolve(ec) => s.live == [] && ec == o.resolve && Resolving(kind, b, s)
          case OnConnect(ec) => ec == o.connect && Connecting(kind, o, b, s)
          case OnUpgrade(ec) => ec == o.handshake && Upgrading(kind, o, b, s, o.handshake == Success)
          case OnAlreadyOpen => s.live == [] && IsOpen(kind, b) && SameStream(s, b))
    && (Tokens(s) == 0 ==> Agreed(kind, o, b, s))
  }

  /** Called back once, with the error code of the synchronous call, and the stream as it leaves it. */
  predicate Agreed(kind: Kind, o: Outcomes, b: State, s: State) {
    && |s.callbacks| == |b.callbacks| + 1
    && s.callbacks[..|b.callbacks|] == b.callbacks
    && s.callbacks[|b.callbacks|].ec == SyncInit(kind, b, o).0
    && SameStream(s, SyncInit(kind, b, o).1)
  }

  lemma ResolveKeepsOnTrack(kind: Kind, o: Outcomes, b: State, t: State)
    requires t.ops == [] && t.ready == [] && t.live == [] && t.callbacks == b.callbacks
    requires Resolving(kind, b, t)
    ensures OnTrack(kind, o, b, HandleResolve(t, o.resolve))
  {
    if o.resolve == Success {
      assert HandleResolve(t, o.resolve).ops == [Connect];
    }
  }

  lemma ConnectKeepsOnTrack(kind: Kind, o: Outcomes, b: State, t: State)
    requires t.ops == [] && t.ready == [] && |t.live| <= 1 && t.callbacks == b.callbacks
    requires Connecting(kind, o, b, t)
    ensures OnTrack(kind, o, b, HandleConnect(kind, t, o.connect))
  {
    if kind == Websocket && o.connect == Success {
      assert HandleConnect(kind, t, o.connect).ops == [Handshake];
    }
  }

  lemma UpgradeKeepsOnTrack(kind: Kind, o: Outcomes, b: State, t: State)
    requires t.ops == [] && t.ready == [] && |t.live| <= 1 && t.callbacks == b.callbacks
    requires Upgrading(kind, o, b, t, o.handshake == Success)
    ensures OnTrack(kind, o, b, HandleUpgrade(t, o.handshake))
  {
  }

  lemma HandleKeepsOnTrack(kind: Kind, o: Outcomes, b: State, s: State)
    requires OnTrack(kind, o, b, s) && s.ready != []
    ensures OnTrack(kind, o, b, HandleReady(kind, s.(ready := []), s.ready[0]))
  {
    var t := s.(ready := []);
    match s.ready[0]
    case OnResolve(_) => ResolveKeepsOnTrack(kind, o, b, t);
    case OnConnect(_) => ConnectKeepsOnTrack(kind, o, b, t);
    case OnUpgrade(_) => UpgradeKeepsOnTrack(kind, o, b, t);
    case OnAlreadyOpen =>
  }

  lemma CompleteKeepsOnTrack(kind: Kind, o: Outcomes, b: State, s: State, i: nat)
    requires OnTrack(kind, o, b, s) && i < |s.ops|
    ensures OnTrack(kind, o, b, CompleteOp(s, i, OutcomeOf(o, s.ops[i])))
  {
    OnlyOne(s.ops, i);
    assert CompleteOp(s, i, OutcomeOf(o, s.ops[i])).ready == [HandlerOf(s.ops[0], OutcomeOf(o, s.ops[0]))];
  }

  lemma TimeoutKeepsOnTrack(kind: Kind, o: Outcomes, b: State, s: State, i: nat)
    requires OnTrack(kind, o, b, s) && i < |s.fired| && s.fired[i].ec == OperationAborted
    ensures OnTrack(kind, o, b, HandleTimeout(s.(fired := RemoveAt(s.fired, i)), s.fired[i]))
  {
  }

  lemma StepKeepsOnTrack(kind: Kind, o: Outcomes, b: State, s: State, e: Event)
    requires OnTrack(kind, o, b, s) && Enabled(s, e) && Follows(o, s, e) && Harmless(s, e)
    ensures OnTrack(kind, o, b, Step(kind, s, e))
  {
    match e
    case Complete(i, ec) => CompleteKeepsOnTrack(kind, o, b, s, i);
    case Handle(i) =>
      OnlyOne(s.ready, i);
      HandleKeepsOnTrack(kind, o, b, s);
    case Timeout(i) => TimeoutKeepsOnTrack(kind, o, b, s, i);
    case _ =>
  }

  lemma {:induction false} RunKeepsOnTrack(kind: Kind, o: Outcomes, b: State, s: State, events: seq<Event>)
    requires OnTrack(kind, o, b, s) && ValidRun(kind, s, events)
    requires FollowingRun(kind, o, s, events) && HarmlessRun(kind, s, events)
    ensures OnTrack(kind, o, b, Run(kind, s, events))
    decreases |events|
  {
    if events != [] {
      StepKeepsOnTrack(kind, o, b, s, events[0]);
      RunKeepsOnTrack(kind, o, b, Step(kind, s, events[0]), events[1..]);
    }
  }

  /** From any state in which nothing is under way, whatever the earlier history, whatever is open and whatever
      timer handlers are queued: once asyncInit has called back, in any order of handlers, everything is as
      after init, provided no handler of an expired wait has run meanwhile. */
  lemma AsyncInitAgreesWithInit(kind: Kind, o: Outcomes, b: State, timeout: Option<int>, events: seq<Event>)
    requires Idle(b)
    requires var s := Step(kind, b, Init(timeout));
      && ValidRun(kind, s, events) && FollowingRun(kind, o, s, events) && HarmlessRun(kind, s, events)
      && Tokens(Run(kind, s, events)) == 0
    ensures Agreed(kind, o, b, Run(kind, Step(kind, b, Init(timeout)), events))
  {
    RunKeepsOnTrack(kind, o, b, Step(kind, b, Init(timeout)), events);
  }

  // ---------- when only handlers of cancelled waits are left over

  lemma StepKeepsAborted(kind: Kind, s: State, e: Event)
    requires AbortedOnly(s.fired) && Enabled(s, e) && !e.Expire?
    ensures AbortedOnly(Step(kind, s, e).fired)
  {
    FiresMembers(s.live, OperationAborted);
    if e.Timeout? {
      RemoveAtKeepsOthers(s.fired, e.i);
    }
  }

  lemma {:induction false} AbortedRunIsHarmless(kind: Kind, o: Outcomes, s: State, events: seq<Event>)
    requires AbortedOnly(s.fired) && ValidRun(kind, s, events) && FollowingRun(kind, o, s, events)
    ensures HarmlessRun(kind, s, events) && AbortedOnly(Run(kind, s, events).fired)
    decreases |events|
  {
    if events != [] {
      StepKeepsAborted(kind, s, events[0]);
      AbortedRunIsHarmless(kind, o, Step(kind, s, events[0]), events[1..]);
    }
  }

  /** Without expiry now or before, nothing else is needed. */
  lemma SettledInitAgreesWithInit(kind: Kind, o: Outcomes, b: State, timeout: Option<int>, events: seq<Event>)
    requires Settled(b)
    requires var s := Step(kind, b, Init(timeout));
      ValidRun(kind, s, events) && FollowingRun(kind, o, s, events) && Tokens(Run(kind, s, events)) == 0
    ensures Agreed(kind, o, b, Run(kind, Step(kind, b, Init(timeout)), events))
  {
    AbortedRunIsHarmless(kind, o, Step(kind, b, Init(timeout)), events);
    AsyncInitAgreesWithInit(kind, o, b, timeout, events);
  }

  // ---------- there is such a run

  lemma {:induction false} RunsToCallback(kind: Kind, o: Outcomes, b: State, s: State) returns (events: seq<Event>)
    requires OnTrack(kind, o, b, s) && Counted(kind, s)
    ensures ValidRun(kind, s, events) && FollowingRun(kind, o, s, events) && HarmlessRun(kind, s, events)
    ensures Tokens(Run(kind, s, events)) == 0
    ensures AbortedOnly(s.fired) ==> Quiescent(Run(kind, s, events))
    decreases Measure(kind, s)
  {
    if Tokens(s) == 0 && (s.fired == [] || !AbortedOnly(s.fired)) {
      return [];
    }
    var e := if s.ops != [] then Complete(0, OutcomeOf(o, s.ops[0])) else if s.ready != [] then Handle(0) else Timeout(0);
    StepKeepsOnTrack(kind, o, b, s, e);
    StepKeepsCounted(kind, s, e);
    StepLowersMeasure(kind, s, e);
    if AbortedOnly(s.fired) {
      StepKeepsAborted(kind, s, e);
    }
    var rest := RunsToCallback(kind, o, b, Step(kind, s, e));
    events := [e] + rest;
    assert events[1..] == rest;
  }

  /** For all outcomes of resolve, connect and handshake there is a run of `asyncInit` from `b` that follows them
      to the callback, and to quiescence if nothing expired is left over. */
  lemma RunsToQuiescence(kind: Kind, o: Outcomes, b: State, timeout: Option<int>) returns (events: seq<Event>)
    requires Counted(kind, b) && Idle(b)
    ensures var s := Step(kind, b, Init(timeout));
      && ValidRun(kind, s, events) && FollowingRun(kind, o, s, events) && HarmlessRun(kind, s, events)
      && Tokens(Run(kind, s, events)) == 0
      && Agreed(kind, o, b, Run(kind, s, events))
      && (Settled(b) ==> Quiescent(Run(kind, s, events)))
  {
    var s := Step(kind, b, Init(timeout));
    StepKeepsCounted(kind, b, Init(timeout));
    events := RunsToCallback(kind, o, b, s);
    AsyncInitAgreesWithInit(kind, o, b, timeout, events);
  }
}
