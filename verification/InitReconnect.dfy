/** A reported success means that a connection was made, also after a close. */
module InitReconnect {
  import opened Common
  import opened InitMachine
  import opened InitSafety

  /** What connecting from scratch consists of. */
  function Connecting(kind: Kind): seq<Action> {
    if kind == Tcp then [ResolveStarted, ConnectStarted]
    else [ResolveStarted, ConnectStarted, OptionsSet, HandshakeStarted]
  }

  lemma SyncInitOutcome(kind: Kind, s: State, o: Outcomes)
    ensures var (ec, t) := SyncInit(kind, s, o);
      && (ec == Success <==>
            || IsOpen(kind, s)
            || (o.resolve == Success && o.connect == Success && (kind == Websocket ==> o.handshake == Success)))
      && (ec == Success ==> IsOpen(kind, t))
      && (ec != Success ==> ec in {o.resolve, o.connect, o.handshake})
      && (ec != Success ==> (IsOpen(kind, t) <==> kind == Tcp && o.resolve == Success))
      && (IsOpen(kind, s) ==> t == s)
      && (!IsOpen(kind, s) && ec == Success ==> t.actions == s.actions + Connecting(kind))
  {
  }

  /** How many of those actions an operation, or its handler, comes after. */
  function Stage(op: Op): nat {
    match op case Resolve => 1 case Connect => 2 case Handshake => 4
  }

  function HandlerStage(r: Ready): nat {
    match r case OnResolve(_) => 1 case OnConnect(_) => 2 case OnUpgrade(_) => 4 case OnAlreadyOpen => 5
  }

  /** The actions since `b` are the first n of connecting from scratch. */
  predicate Done(kind: Kind, b: State, s: State, n: nat) {
    n <= |Connecting(kind)| && s.actions == b.actions + Connecting(kind)[..n]
  }

  /** How far the one initialisation begun in `b` has got, where the stream did not count as open. */
  ghost predicate Reconnecting(kind: Kind, b: State, s: State) {
    && Tokens(s) <= 1 && |s.callbacks| + Tokens(s) == |b.callbacks| + 1
    && (s.ops != [] ==> Done(kind, b, s, Stage(s.ops[0])))
    && (s.ready != [] ==> Done(kind, b, s, HandlerStage(s.ready[0])))
    && (Tokens(s) == 0 && s.callbacks[|b.callbacks|].ec == Success ==> Done(kind, b, s, |Connecting(kind)|))
  }

  lemma ResolveReconnecting(kind: Kind, b: State, s: State, ec: ErrorCode)
    requires s.ops == [] && s.ready == [] && |s.callbacks| == |b.callbacks| && Done(kind, b, s, 1)
    ensures Reconnecting(kind, b, HandleResolve(s, ec))
  {
    var t := HandleResolve(s, ec);
    if ec == Success {
      assert t.ops == [Connect] && t.actions == b.actions + (Connecting(kind)[..1] + [ConnectStarted]);
    }
  }

  lemma ConnectReconnecting(kind: Kind, b: State, s: State, ec: ErrorCode)
    requires s.ops == [] && s.ready == [] && |s.callbacks| == |b.callbacks| && Done(kind, b, s, 2)
    ensures Reconnecting(kind, b, HandleConnect(kind, s, ec))
  {
    var t := HandleConnect(kind, s, ec);
    if kind == Websocket && ec == Success {
      assert t.ops == [Handshake] && t.actions == b.actions + (Connecting(kind)[..2] + [OptionsSet] + [HandshakeStarted]);
    }
  }

  lemma HandleKeepsReconnecting(kind: Kind, b: State, s: State)
    requires Reconnecting(kind, b, s) && s.ready != []
    ensures Reconnecting(kind, b, HandleReady(kind, s.(ready := []), s.ready[0]))
  {
    var t := s.(ready := []);
    match s.ready[0]
    case OnResolve(ec) => ResolveReconnecting(kind, b, t, ec);
    case OnConnect(ec) => ConnectReconnecting(kind, b, t, ec);
    case OnUpgrade(ec) =>
  }

  lemma StepKeepsReconnecting(kind: Kind, b: State, s: State, e: Event)
    requires Reconnecting(kind, b, s) && Enabled(s, e) && !e.Init?
    ensures Reconnecting(kind, b, Step(kind, s, e))
  {
    match e
    case Complete(i, ec) =>
      OnlyOne(s.ops, i);
      assert CompleteOp(s, i, ec).ready == [HandlerOf(s.ops[0], ec)];
    case Handle(i) =>
      OnlyOne(s.ready, i);
      HandleKeepsReconnecting(kind, b, s);
    case _ =>
  }

  lemma {:induction false} RunKeepsReconnecting(kind: Kind, b: State, s: State, events: seq<Event>)
    requires Reconnecting(kind, b, s) && ValidRun(kind, s, events) && forall e | e in events :: !e.Init?
    ensures Reconnecting(kind, b, Run(kind, s, events))
    decreases |events|
  {
    if events != [] {
      assert events[0] in events;
      StepKeepsReconnecting(kind, b, s, events[0]);
      RunKeepsReconnecting(kind, b, Step(kind, s, events[0]), events[1..]);
    }
  }

  /** An initialisation of a stream that does not count as open begins by resolving, and reports success only after it
      has connected from scratch, each part once and in order, whatever expires or is closed meanwhile. */
  lemma SuccessMeansConnected(kind: Kind, b: State, timeout: Option<int>, events: seq<Event>)
    requires Idle(b) && !IsOpen(kind, b)
    requires ValidRun(kind, Step(kind, b, Init(timeout)), events) && forall e | e in events :: !e.Init?
    ensures var begun := Step(kind, b, Init(timeout));
      && begun.ops == [Resolve] && begun.ready == []
      && var s := Run(kind, begun, events);
         |s.callbacks| > |b.callbacks| && s.callbacks[|b.callbacks|].ec == Success ==>
           s.actions == b.actions + Connecting(kind)
  {
    var begun := Step(kind, b, Init(timeout));
    assert Connecting(kind)[..1] == [ResolveStarted];
    RunKeepsReconnecting(kind, b, begun, events);
    assert Connecting(kind)[..|Connecting(kind)|] == Connecting(kind);
  }

  /** A closed stream does not count as open, so that the next initialisation connects again. */
  lemma ClosedStreamReconnects(kind: Kind, b: State, timeout: Option<int>, events: seq<Event>)
    requires Idle(b)
    requires var closed := Step(kind, b, Close);
      ValidRun(kind, Step(kind, closed, Init(timeout)), events) && forall e | e in events :: !e.Init?
    ensures var closed := Step(kind, b, Close);
      && !closed.socketOpen && !IsOpen(kind, closed)
      && var begun := Step(kind, closed, Init(timeout));
         && begun.ops == [Resolve] && begun.ready == []
         && var s := Run(kind, begun, events);
            |s.callbacks| > |b.callbacks| && s.callbacks[|b.callbacks|].ec == Success ==>
              s.actions == b.actions + Connecting(kind)
  {
    SuccessMeansConnected(kind, Step(kind, b, Close), timeout, events);
  }

  /** A close during an initialisation counts too: no connect or handshake succeeds after it. */
  lemma NothingSucceedsWhenClosed(kind: Kind, s: State, i: nat, ec: ErrorCode)
    requires Enabled(Step(kind, s, Close), Complete(i, ec)) && s.ops[i] != Resolve
    ensures ec != Success && !IsOpen(kind, Step(kind, Step(kind, s, Close), Complete(i, ec)))
  {
  }
}
