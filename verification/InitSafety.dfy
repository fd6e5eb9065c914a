/** What holds in every run of the initialisation machine. */
module InitSafety {
  import opened Common
  import opened InitMachine

  // ---------- the invariant

  /** An initialisation is at most one operation or one handler; every other one has called back. */
  ghost predicate Counted(kind: Kind, s: State) {
    && Tokens(s) <= 1
    && |s.callbacks| + Tokens(s) == s.inits
    && (kind == Tcp ==> (s.ops != [] ==> s.ops[0] != Handshake) && (s.ready != [] ==> !s.ready[0].OnUpgrade?))
  }

  /** The initialisation under way is past resolving. */
  ghost predicate PastResolve(s: State) {
    || (s.ops != [] && s.ops[0] != Resolve)
    || (s.ready != [] && (s.ready[0].OnConnect? || s.ready[0].OnUpgrade?))
  }

  /** At most one wait is live, and only while the operation it guards has not been handled. */
  ghost predicate OneWait(s: State) {
    && |s.live| <= 1
    && (s.live != [] ==> PastResolve(s))
  }

  /** Every wait that is no longer live either expired or was cancelled, never both, and its handler is
      told which; the handlers of expired waits, and only those, close the socket. */
  ghost predicate WaitsAccounted(s: State) {
    && (forall w | w in s.live :: w < s.waits && w !in s.expired && w !in s.cancelled)
    && (forall w | w in s.expired || w in s.cancelled :: w < s.waits)
    && s.expired !! s.cancelled
    && (forall f | f in s.fired ::
          (f.ec == Success && f.wait in s.expired) || (f.ec == OperationAborted && f.wait in s.cancelled))
    && s.closers <= s.expired
    && (forall w | w in s.expired :: w in s.closers || Fired(w, Success) in s.fired)
  }

  /** Something has depended on the socket being open. */
  ghost predicate NeedsSocket(s: State) {
    || PastResolve(s)
    || OnAlreadyOpen in s.ready
    || s.streamOpen
    || exists c | c in s.callbacks :: c.ec == Success
  }

  /** Only an expired timer or the user closes the socket. */
  ghost predicate SocketAccounted(s: State) {
    s.closers == {} && !s.closedByUser && NeedsSocket(s) ==> s.socketOpen
  }

  ghost predicate Inv(kind: Kind, s: State) {
    Counted(kind, s) && OneWait(s) && WaitsAccounted(s) && SocketAccounted(s)
  }

  // ---------- every step keeps it

  lemma RemoveAtKeepsOthers<T>(s: seq<T>, i: nat)
    requires i < |s|
    ensures forall x | x in s && x != s[i] :: x in RemoveAt(s, i)
    ensures forall x | x in RemoveAt(s, i) :: x in s
  {
    forall x | x in s && x != s[i] ensures x in RemoveAt(s, i) {
      var j :| 0 <= j < |s| && s[j] == x;
      assert RemoveAt(s, i)[if j < i then j else j - 1] == x;
    }
  }

  /** A run under way has one operation or one handler, so each of these lists has one element at most. */
  lemma OnlyOne<T>(s: seq<T>, i: nat)
    requires i < |s| <= 1
    ensures i == 0 && RemoveAt(s, i) == []
  {
  }

  lemma ResolveKeepsCounted(kind: Kind, s: State, ec: ErrorCode)
    requires s.ops == [] && s.ready == [] && |s.callbacks| + 1 == s.inits
    ensures Counted(kind, HandleResolve(s, ec))
  {
  }

  lemma ConnectKeepsCounted(kind: Kind, s: State, ec: ErrorCode)
    requires s.ops == [] && s.ready == [] && |s.callbacks| + 1 == s.inits
    ensures Counted(kind, HandleConnect(kind, s, ec))
  {
  }

  lemma HandleKeepsCounted(kind: Kind, s: State, r: Ready)
    requires s.ops == [] && s.ready == [] && |s.callbacks| + 1 == s.inits
    requires kind == Tcp ==> !r.OnUpgrade?
    ensures Counted(kind, HandleReady(kind, s, r))
  {
    match r
    case OnResolve(ec) => ResolveKeepsCounted(kind, s, ec);
    case OnConnect(ec) => ConnectKeepsCounted(kind, s, ec);
    case _ =>
  }

  lemma StepKeepsCounted(kind: Kind, s: State, e: Event)
    requires Counted(kind, s) && Enabled(s, e)
    ensures Counted(kind, Step(kind, s, e))
  {
    match e
    case Complete(i, ec) => OnlyOne(s.ops, i);
    case Handle(i) =>
      OnlyOne(s.ready, i);
      HandleKeepsCounted(kind, s.(ready := []), s.ready[0]);
    case _ =>
  }

  lemma HandleKeepsOneWait(kind: Kind, s: State, r: Ready)
    requires s.ops == [] && s.ready == [] && |s.live| <= 1
    requires r.OnResolve? || r.OnAlreadyOpen? ==> s.live == []
    ensures OneWait(HandleReady(kind, s, r))
  {
  }

  lemma StepKeepsOneWait(kind: Kind, s: State, e: Event)
    requires Counted(kind, s) && OneWait(s) && Enabled(s, e)
    ensures OneWait(Step(kind, s, e))
  {
    match e
    case Complete(i, ec) => OnlyOne(s.ops, i);
    case Handle(i) =>
      OnlyOne(s.ready, i);
      HandleKeepsOneWait(kind, s.(ready := []), s.ready[0]);
    case _ =>
  }

  lemma FiresMembers(waits: seq<nat>, ec: ErrorCode)
    ensures forall f | f in Fires(waits, ec) :: f.ec == ec && f.wait in waits
    ensures forall w | w in waits :: Fired(w, ec) in Fires(waits, ec)
  {
    forall w | w in waits ensures Fired(w, ec) in Fires(waits, ec) {
      var i :| 0 <= i < |waits| && waits[i] == w;
      assert Fires(waits, ec)[i] == Fired(w, ec);
    }
  }

  lemma CancelKeepsWaits(s: State)
    requires WaitsAccounted(s)
    ensures WaitsAccounted(Cancel(s)) && Cancel(s).live == []
  {
    FiresMembers(s.live, OperationAborted);
  }

  lemma ArmKeepsWaits(s: State, timeout: int)
    requires WaitsAccounted(s)
    ensures WaitsAccounted(AsyncWait(ExpiresFromNow(s, timeout)))
  {
    CancelKeepsWaits(s);
  }

  lemma ConnectKeepsWaits(kind: Kind, s: State, ec: ErrorCode)
    requires WaitsAccounted(s)
    ensures WaitsAccounted(HandleConnect(kind, s, ec))
  {
    CancelKeepsWaits(s);
    if kind == Websocket && ec == Success {
      ArmKeepsWaits(SetOptions(Cancel(s)), s.timeout);
    }
  }

  lemma HandleKeepsWaits(kind: Kind, s: State, r: Ready)
    requires WaitsAccounted(s)
    ensures WaitsAccounted(HandleReady(kind, s, r))
  {
    match r
    case OnResolve(_) => ArmKeepsWaits(Mark(s), s.timeout);
    case OnConnect(ec) => ConnectKeepsWaits(kind, s, ec);
    case OnUpgrade(_) => CancelKeepsWaits(s);
    case OnAlreadyOpen =>
  }

  lemma StepKeepsWaits(kind: Kind, s: State, e: Event)
    requires WaitsAccounted(s) && Enabled(s, e)
    ensures WaitsAccounted(Step(kind, s, e))
  {
    match e
    case Handle(i) => HandleKeepsWaits(kind, s.(ready := RemoveAt(s.ready, i)), s.ready[i]);
    case Expire => FiresMembers(s.live, Success);
    case Timeout(i) => RemoveAtKeepsOthers(s.fired, i);
    case _ =>
  }

  lemma HandleKeepsSocket(kind: Kind, s: State, r: Ready)
    requires s.ops == [] && s.ready == [] && SocketAccounted(s)
    requires s.closers == {} && !s.closedByUser && !r.OnResolve? ==> s.socketOpen
    ensures SocketAccounted(HandleReady(kind, s, r))
  {
  }

  lemma StepKeepsSocket(kind: Kind, s: State, e: Event)
    requires Inv(kind, s) && Enabled(s, e)
    ensures SocketAccounted(Step(kind, s, e))
  {
    match e
    case Complete(i, ec) => OnlyOne(s.ops, i);
    case Handle(i) =>
      OnlyOne(s.ready, i);
      var t := s.(ready := []);
      assert !s.ready[0].OnResolve? ==> NeedsSocket(s);
      assert NeedsSocket(t) ==> NeedsSocket(s);
      HandleKeepsSocket(kind, t, s.ready[0]);
    case _ =>
  }

  lemma StepKeepsInv(kind: Kind, s: State, e: Event)
    requires Inv(kind, s) && Enabled(s, e)
    ensures Inv(kind, Step(kind, s, e))
  {
    StepKeepsCounted(kind, s, e);
    StepKeepsOneWait(kind, s, e);
    StepKeepsWaits(kind, s, e);
    StepKeepsSocket(kind, s, e);
  }

  lemma SyncInitOnlyOpens(kind: Kind, s: State, o: Outcomes)
    ensures var t := SyncInit(kind, s, o).1;
      && t == s.(actions := t.actions, socketOpen := t.socketOpen, streamOpen := t.streamOpen)
      && (s.socketOpen ==> t.socketOpen) && (t.streamOpen && !s.streamOpen ==> t.socketOpen)
  {
  }

  /** The synchronous form keeps it too. */
  lemma SyncInitKeepsInv(kind: Kind, s: State, o: Outcomes)
    requires Inv(kind, s)
    ensures Inv(kind, SyncInit(kind, s, o).1)
  {
    SyncInitOnlyOpens(kind, s, o);
  }

  lemma {:induction false} RunKeepsInv(kind: Kind, s: State, events: seq<Event>)
    requires Inv(kind, s) && ValidRun(kind, s, events)
    ensures Inv(kind, Run(kind, s, events))
    decreases |events|
  {
    if events != [] {
      StepKeepsInv(kind, s, events[0]);
      RunKeepsInv(kind, Step(kind, s, events[0]), events[1..]);
    }
  }

  lemma FreshRunKeepsInv(kind: Kind, now: int, events: seq<Event>)
    requires ValidRun(kind, Fresh(now), events)
    ensures Inv(kind, Run(kind, Fresh(now), events))
  {
    RunKeepsInv(kind, Fresh(now), events);
  }

  // ---------- what a handler leaves behind

  /** Handler `r` has been taken from the queue and runs in state `s`. */
  ghost predicate Called(s: State, r: Ready) {
    && s.ops == [] && s.ready == [] && |s.callbacks| + 1 == s.inits
    && (r.OnResolve? || r.OnAlreadyOpen? ==> s.live == [])
  }

  /** Nothing is under way: the callback has been called for every `asyncInit`, and no wait is live. */
  ghost predicate Over(s: State) {
    s.ops == [] && s.ready == [] && s.live == [] && |s.callbacks| == s.inits
  }

  /** One operation is outstanding, under a timer that was set just now. */
  ghost predicate Guards(s: State, op: Op) {
    && s.ops == [op] && s.ready == [] && |s.callbacks| + 1 == s.inits
    && s.deadline == s.now + s.timeout && |s.live| == 1
  }

  lemma InitOutcome(kind: Kind, s: State, timeout: Option<int>)
    requires Inv(kind, s) && Tokens(s) == 0
    ensures var t := AsyncInit(kind, s, timeout);
      && Inv(kind, t)
      && (if IsOpen(kind, s) then t.ready == [OnAlreadyOpen] && t.ops == [] else t.ops == [Resolve] && t.ready == [])
      && t.callbacks == s.callbacks && t.socketOpen == s.socketOpen && t.live == []
      && t.actions == s.actions + if IsOpen(kind, s) then [] else [ResolveStarted]
  {
    StepKeepsInv(kind, s, Init(timeout));
  }

  lemma ResolveOutcome(s: State, ec: ErrorCode)
    requires Called(s, OnResolve(ec))
    ensures var t := HandleResolve(s, ec);
      && (ec != Success ==> Over(t) && t.callbacks == s.callbacks + [Completion(ec, s.now, s.now, s.timeout)])
      && (ec == Success ==>
            && Guards(t, Connect) && t.socketOpen && t.callbacks == s.callbacks
            && t.actions == s.actions + [ConnectStarted])
  {
  }

  lemma ConnectOutcome(kind: Kind, s: State, ec: ErrorCode)
    requires Called(s, OnConnect(ec))
    ensures var t := HandleConnect(kind, s, ec);
      && (kind == Tcp || ec != Success ==>
            Over(t) && t.callbacks == s.callbacks + [Completion(ec, s.now, s.since, s.timeout)])
      && (kind == Websocket && ec == Success ==>
            && Guards(t, Handshake) && t.callbacks == s.callbacks
            && t.actions == s.actions + [OptionsSet, HandshakeStarted])
      && (forall w | w in s.live :: w in t.cancelled && Fired(w, OperationAborted) in t.fired)
      && t.expired == s.expired && t.socketOpen == s.socketOpen
  {
    FiresMembers(s.live, OperationAborted);
  }

  lemma UpgradeOutcome(s: State, ec: ErrorCode)
    requires Called(s, OnUpgrade(ec))
    ensures var t := HandleUpgrade(s, ec);
      && Over(t) && t.callbacks == s.callbacks + [Completion(ec, s.now, s.since, s.timeout)]
      && (forall w | w in s.live :: w in t.cancelled && Fired(w, OperationAborted) in t.fired) && t.expired == s.expired
      && t.socketOpen == s.socketOpen
  {
    FiresMembers(s.live, OperationAborted);
  }

  // ---------- exactly one completion

  /** In every reachable state the completion callback has been invoked for every `asyncInit` except the one
      under way, if there is one; no timer wait is left when none is under way, and there is never a second. */
  lemma ExactlyOnce(kind: Kind, now: int, events: seq<Event>)
    requires ValidRun(kind, Fresh(now), events)
    ensures var s := Run(kind, Fresh(now), events);
      && s.inits - 1 <= |s.callbacks| <= s.inits
      && (s.ops == [] && s.ready == [] <==> |s.callbacks| == s.inits)
      && (|s.callbacks| == s.inits ==> s.live == [])
      && |s.live| <= 1
  {
    FreshRunKeepsInv(kind, now, events);
  }

  // ---------- runs are finite

  function OpWeight(kind: Kind, op: Op): nat {
    match op
    case Resolve => if kind == Tcp then 6 else 10
    case Connect => if kind == Tcp then 2 else 6
    case Handshake => 2
  }

  function ReadyWeight(kind: Kind, r: Ready): nat {
    match r
    case OnResolve(_) => OpWeight(kind, Resolve) - 1
    case OnConnect(_) => OpWeight(kind, Connect) - 1
    case OnUpgrade(_) => 1
    case OnAlreadyOpen => 1
  }

  /** An upper bound on the library steps and handlers still to come. */
  function Measure(kind: Kind, s: State): nat {
    (if s.ops == [] then 0 else OpWeight(kind, s.ops[0])) + (if s.ready == [] then 0 else ReadyWeight(kind, s.ready[0]))
    + 2 * |s.live| + |s.fired|
  }

  predicate IsWork(e: Event) { e.Complete? || e.Handle? || e.Expire? || e.Timeout? }

  lemma ResolveLowersMeasure(kind: Kind, s: State, ec: ErrorCode)
    requires s.ops == [] && s.ready == []
    ensures Measure(kind, HandleResolve(s, ec)) < Measure(kind, s) + ReadyWeight(kind, OnResolve(ec))
  {
    if ec == Success {
      assert HandleResolve(s, ec).ops == [Connect];
    }
  }

  lemma ConnectLowersMeasure(kind: Kind, s: State, ec: ErrorCode)
    requires s.ops == [] && s.ready == []
    ensures Measure(kind, HandleConnect(kind, s, ec)) < Measure(kind, s) + ReadyWeight(kind, OnConnect(ec))
  {
    if kind == Websocket && ec == Success {
      assert HandleConnect(kind, s, ec).ops == [Handshake];
    }
  }

  lemma HandleLowersMeasure(kind: Kind, s: State, r: Ready)
    requires s.ops == [] && s.ready == [] && (kind == Tcp ==> !r.OnUpgrade?)
    ensures Measure(kind, HandleReady(kind, s, r)) < Measure(kind, s) + ReadyWeight(kind, r)
  {
    match r
    case OnResolve(ec) => ResolveLowersMeasure(kind, s, ec);
    case OnConnect(ec) => ConnectLowersMeasure(kind, s, ec);
    case _ =>
  }

  /** Every completion, handler and expiry lowers the measure; `asyncInit` raises it by a constant; closing
      and the passing of time leave it alone. */
  lemma StepLowersMeasure(kind: Kind, s: State, e: Event)
    requires Counted(kind, s) && Enabled(s, e)
    ensures var m := Measure(kind, Step(kind, s, e));
      && (IsWork(e) ==> m < Measure(kind, s))
      && (e.Init? ==> m <= Measure(kind, s) + OpWeight(kind, Resolve))
      && (e.Close? || e.Tick? ==> m == Measure(kind, s))
  {
    match e
    case Complete(i, ec) => CompleteLowersMeasure(kind, s, i, ec);
    case Handle(i) =>
      OnlyOne(s.ready, i);
      HandleLowersMeasure(kind, s.(ready := []), s.ready[0]);
    case Init(timeout) => InitRaisesMeasure(kind, s, timeout);
    case Expire => ExpireLowersMeasure(kind, s);
    case Timeout(i) => TimeoutLowersMeasure(kind, s, i);
    case _ =>
  }

  lemma InitRaisesMeasure(kind: Kind, s: State, timeout: Option<int>)
    requires Tokens(s) == 0
    ensures Measure(kind, AsyncInit(kind, s, timeout)) <= Measure(kind, s) + OpWeight(kind, Resolve)
  {
  }

  lemma ExpireLowersMeasure(kind: Kind, s: State)
    requires s.live != []
    ensures Measure(kind, ExpireTimer(s)) < Measure(kind, s)
  {
  }

  lemma TimeoutLowersMeasure(kind: Kind, s: State, i: nat)
    requires i < |s.fired|
    ensures Measure(kind, HandleTimeout(s.(fired := RemoveAt(s.fired, i)), s.fired[i])) < Measure(kind, s)
  {
  }

  lemma CompleteLowersMeasure(kind: Kind, s: State, i: nat, ec: ErrorCode)
    requires Counted(kind, s) && i < |s.ops|
    ensures Measure(kind, CompleteOp(s, i, ec)) < Measure(kind, s)
  {
    OnlyOne(s.ops, i);
    assert CompleteOp(s, i, ec).ready == [HandlerOf(s.ops[0], ec)];
  }

  function CountWork(events: seq<Event>): nat {
    if events == [] then 0 else (if IsWork(events[0]) then 1 else 0) + CountWork(events[1..])
  }

  function CountInits(events: seq<Event>): nat {
    if events == [] then 0 else (if events[0].Init? then 1 else 0) + CountInits(events[1..])
  }

  /** A run makes at most 6 library steps and handler calls for each TCP `asyncInit`, and 10 for each
      websocket one, whatever the order of completions, expiry and cancelled timers. */
  lemma {:induction false} RunsAreFinite(kind: Kind, s: State, events: seq<Event>)
    requires Inv(kind, s) && ValidRun(kind, s, events)
    ensures CountWork(events) + Measure(kind, Run(kind, s, events))
         <= Measure(kind, s) + if kind == Tcp then 6 * CountInits(events) else 10 * CountInits(events)
    decreases |events|
  {
    if events != [] {
      StepLowersMeasure(kind, s, events[0]);
      StepKeepsInv(kind, s, events[0]);
      RunsAreFinite(kind, Step(kind, s, events[0]), events[1..]);
    }
  }

  /** A run never gets stuck: while an initialisation is under way the library can complete its operation
      or a handler can run. Together with `RunsAreFinite` this makes every run reach its callback. */
  lemma NeverStuck(kind: Kind, now: int, events: seq<Event>)
    requires ValidRun(kind, Fresh(now), events)
    ensures var s := Run(kind, Fresh(now), events);
      |s.callbacks| < s.inits ==> exists e :: IsWork(e) && Enabled(s, e)
  {
    FreshRunKeepsInv(kind, now, events);
    var s := Run(kind, Fresh(now), events);
    if s.ops != [] {
      assert Enabled(s, Complete(0, Other(1)));
    } else if s.ready != [] {
      assert Enabled(s, Handle(0));
    }
  }

  // ---------- timeouts

  /** A wait that was still live when it was cancelled or replaced never closes the socket; the socket is
      closed by waits that expired before that, and once nothing is left to run, by every one of those. */
  lemma OnlyExpiredWaitsClose(kind: Kind, now: int, events: seq<Event>)
    requires ValidRun(kind, Fresh(now), events)
    ensures var s := Run(kind, Fresh(now), events);
      && s.cancelled !! s.closers
      && s.closers <= s.expired
      && (s.fired == [] ==> s.closers == s.expired)
  {
    FreshRunKeepsInv(kind, now, events);
  }

  /** As long as no wait expires and the user does not close the stream, a success that was reported leaves
      the socket open, over any number of initialisations. */
  lemma SuccessMeansOpen(kind: Kind, now: int, events: seq<Event>)
    requires ValidRun(kind, Fresh(now), events)
    ensures var s := Run(kind, Fresh(now), events);
      s.expired == {} && !s.closedByUser && (exists c | c in s.callbacks :: c.ec == Success) ==> s.socketOpen
  {
    FreshRunKeepsInv(kind, now, events);
    var s := Run(kind, Fresh(now), events);
    assert (exists c | c in s.callbacks :: c.ec == Success) ==> NeedsSocket(s);
  }

  /** The condition is needed: a connection established just as the timer expires is reported as a success
      although the expired timer's handler closes the socket. */
  lemma SuccessOnClosedSocket(now: int)
    ensures exists events ::
      && ValidRun(Tcp, Fresh(now), events)
      && var s := Run(Tcp, Fresh(now), events);
         Quiescent(s) && |s.callbacks| == 1 && s.callbacks[0].ec == Success && !s.socketOpen
  {
    var r := ConnectedJustInTime(now);
    r := Extend(Tcp, Fresh(now), r, Expire);
    r := Extend(Tcp, Fresh(now), r, Timeout(0));
    r := Extend(Tcp, Fresh(now), r, Handle(0));
  }

  lemma ConnectedJustInTime(now: int) returns (r: seq<Event>)
    ensures ValidRun(Tcp, Fresh(now), r)
    ensures var s := Run(Tcp, Fresh(now), r);
      && s.ops == [] && s.ready == [OnConnect(Success)] && s.live == [0] && s.fired == []
      && s.now == s.deadline && s.callbacks == []
  {
    r := [];
    r := Extend(Tcp, Fresh(now), r, Init(Some(5)));
    r := Extend(Tcp, Fresh(now), r, Complete(0, Success));
    r := Extend(Tcp, Fresh(now), r, Handle(0));
    r := Extend(Tcp, Fresh(now), r, Tick(5));
    r := Extend(Tcp, Fresh(now), r, Complete(0, Success));
  }

  lemma {:induction false} RunAppend(kind: Kind, s: State, events: seq<Event>, e: Event)
    requires ValidRun(kind, s, events) && Enabled(Run(kind, s, events), e)
    ensures ValidRun(kind, s, events + [e])
    ensures Run(kind, s, events + [e]) == Step(kind, Run(kind, s, events), e)
    decreases |events|
  {
    if events == [] {
      assert [e][1..] == [];
      assert ValidRun(kind, Step(kind, s, e), []);
    } else {
      assert (events + [e])[1..] == events[1..] + [e];
      RunAppend(kind, Step(kind, s, events[0]), events[1..], e);
    }
  }

  /** The run `events` from `s`, and one step more. */
  lemma Extend(kind: Kind, s: State, events: seq<Event>, e: Event) returns (longer: seq<Event>)
    requires ValidRun(kind, s, events) && Enabled(Run(kind, s, events), e)
    ensures longer == events + [e] && ValidRun(kind, s, longer)
    ensures Run(kind, s, longer) == Step(kind, Run(kind, s, events), e)
  {
    RunAppend(kind, s, events, e);
    longer := events + [e];
  }
}
