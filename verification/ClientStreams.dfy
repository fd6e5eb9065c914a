/** The client classes `TcpClientStream` and `WebsocketClientStream`, proved to make exactly the steps of the
    initialisation machine. Their code differs in the open test, in `init` and in what follows a connection, so
    that one class with the kind of client serves for both. */
module ClientStreams {
  import opened Common
  import M = InitMachine
  import S = InitSafety
  import R = InitReconnect

  /** What the I/O library holds for one client: its resolver, socket and timer, and the ready handlers. */
  class Io {
    var ops: seq<M.Op>
    var ready: seq<M.Ready>
    var deadline: int
    var live: seq<nat>
    var fired: seq<M.Fired>
    var socketOpen: bool
    var streamOpen: bool
    var now: int
    /** Numbers the waits. */
    var waits: nat
    ghost var actions: seq<M.Action>
    ghost var expired: set<nat>
    ghost var cancelled: set<nat>
    ghost var closers: set<nat>
    ghost var closedByUser: bool
    ghost var closedBy: set<M.Closer>

    constructor (now: int)
      ensures Part() == M.Fresh(now).(timeout := 0, since := 0)
    {
      ops, ready, deadline, live, fired := [], [], now, [], [];
      socketOpen, streamOpen, this.now, waits := false, false, now, 0;
      actions, expired, cancelled, closers, closedByUser, closedBy := [], {}, {}, {}, false, {};
    }

    /** The library's part of the machine state. */
    ghost function Part(): M.State
      reads this
    {
      M.State(0, ops, ready, deadline, live, fired, socketOpen, streamOpen, now,
              0, waits, 0, [], actions, expired, cancelled, closers, closedByUser, closedBy)
    }

    method Cancel()
      modifies this
      ensures Part() == M.Cancel(old(Part()))
    {
      fired := fired + M.Fires(live, OperationAborted);
      cancelled := cancelled + (set w | w in live);
      live := [];
    }

    method ExpiresFromNow(timeout: int)
      modifies this
      ensures Part() == M.ExpiresFromNow(old(Part()), timeout)
    {
      Cancel();
      deadline := now + timeout;
    }

    method AsyncWait()
      modifies this
      ensures Part() == M.AsyncWait(old(Part()))
    {
      live, waits := live + [waits], waits + 1;
    }

    /** A new expiry time and a new wait. */
    method Arm(timeout: int)
      modifies this
      ensures Part() == M.AsyncWait(M.ExpiresFromNow(old(Part()), timeout))
    {
      ExpiresFromNow(timeout);
      AsyncWait();
    }

    method AsyncResolve()
      modifies this
      ensures Part() == M.AsyncResolve(old(Part()))
    {
      ops, actions := ops + [M.Resolve], actions + [M.ResolveStarted];
    }

    method AsyncConnect()
      modifies this
      ensures Part() == M.AsyncConnect(old(Part()))
    {
      ops, socketOpen, actions := ops + [M.Connect], true, actions + [M.ConnectStarted];
    }

    method AsyncHandshake()
      modifies this
      ensures Part() == M.AsyncHandshake(old(Part()))
    {
      ops, actions := ops + [M.Handshake], actions + [M.HandshakeStarted];
    }

    method SetOptions()
      modifies `actions
      ensures Part() == M.SetOptions(old(Part()))
    {
      actions := actions + [M.OptionsSet];
    }

    method Dispatch(handler: M.Ready)
      modifies `ready
      ensures Part() == old(Part()).(ready := old(ready) + [handler])
    {
      ready := ready + [handler];
    }

    /** Called by the handler of the wait given. */
    method CloseSocket(ghost wait: nat)
      modifies this
      ensures Part() == old(Part()).(socketOpen := false, closers := old(closers) + {wait},
                                          closedBy := old(closedBy) + {M.Timer(wait)})
    {
      socketOpen := false;
      closers, closedBy := closers + {wait}, closedBy + {M.Timer(wait)};
    }

    // the blocking forms

    method ResolveNow(outcome: ErrorCode) returns (ec: ErrorCode)
      modifies `actions
      ensures ec == outcome && Part() == old(Part()).(actions := old(actions) + [M.ResolveStarted])
    {
      actions := actions + [M.ResolveStarted];
      ec := outcome;
    }

    method ConnectNow(outcome: ErrorCode) returns (ec: ErrorCode)
      modifies this
      ensures ec == outcome
      ensures Part() == old(Part()).(actions := old(actions) + [M.ConnectStarted], socketOpen := true)
    {
      socketOpen, actions := true, actions + [M.ConnectStarted];
      ec := outcome;
    }

    method HandshakeNow(outcome: ErrorCode) returns (ec: ErrorCode)
      modifies this
      ensures ec == outcome
      ensures Part() == old(Part()).(actions := old(actions) + [M.HandshakeStarted], streamOpen := outcome == Success)
    {
      streamOpen, actions := outcome == Success, actions + [M.HandshakeStarted];
      ec := outcome;
    }

    method CompleteOp(i: nat, ec: ErrorCode)
      requires i < |ops|
      modifies this
      ensures Part() == M.CompleteOp(old(Part()), i, ec)
    {
      var op := ops[i];
      ops := RemoveAt(ops, i);
      ready := ready + [M.HandlerOf(op, ec)];
      if op == M.Handshake && ec == Success {
        streamOpen := true;
      }
    }

    method ExpireTimer()
      modifies this
      ensures Part() == M.ExpireTimer(old(Part()))
    {
      fired := fired + M.Fires(live, Success);
      expired := expired + (set w | w in live);
      live := [];
    }

    /** The library's own steps, the same for both kinds of client. */
    method Proceed(e: M.Event)
      requires e.Complete? || e.Expire? || e.Close? || e.Tick?
      requires M.Enabled(Part(), e)
      modifies this
      ensures Part() == M.Step(M.Tcp, old(Part()), e)
      ensures e.Close? ==> !socketOpen && !streamOpen
    {
      match e
      case Complete(i, ec) => CompleteOp(i, ec);
      case Expire => ExpireTimer();
      case Close => socketOpen, streamOpen, closedByUser, closedBy := false, false, true, closedBy + {M.User};
      case Tick(d) => now := now + d;
    }
  }

  class ClientStream {
    const kind: M.Kind
    const io: Io
    var timeout: int
    /** The calls of the completion callback. */
    var completions: seq<M.Completion>
    ghost var inits: nat
    var resolvedAt: int

    constructor (kind: M.Kind, io: Io)
      requires io.Part() == M.Fresh(io.now).(timeout := 0, since := 0)
      ensures this.kind == kind && this.io == io && Model() == M.Fresh(io.now) && Valid()
    {
      this.kind, this.io := kind, io;
      timeout, completions, inits, resolvedAt := M.DEFAULT_CONNECT_TIMEOUT, [], 0, io.now;
    }

    ghost function Model(): M.State
      reads this, io
    {
      io.Part().(timeout := timeout, inits := inits, since := resolvedAt, callbacks := completions)
    }

    /** The invariant that every run keeps. */
    ghost predicate Valid()
      reads this, io
    {
      S.Inv(kind, Model())
    }

    predicate IsOpen()
      reads io
    {
      if kind == M.Tcp then io.socketOpen else io.streamOpen
    }

    /** The event loop has taken this handler from the queue to run it. */
    ghost predicate Runs(handler: M.Ready)
      reads this, io
    {
      io.ready == [] && S.Inv(kind, Model().(ready := [handler]))
    }

    /** Nothing is under way: the callback has been called for every `asyncInit`, and no wait is live. */
    ghost predicate Over()
      reads this, io
    {
      S.Over(Model())
    }

    /** One operation is outstanding on an open socket, under a timer that was set just now. */
    ghost predicate Guards(op: M.Op)
      reads this, io
    {
      S.Guards(Model(), op)
    }

    lemma HandlerKeepsInv(handler: M.Ready)
      requires Runs(handler)
      ensures S.Inv(kind, M.HandleReady(kind, Model(), handler)) && S.Called(Model(), handler)
    {
      var s := Model().(ready := [handler]);
      S.StepKeepsInv(kind, s, M.Handle(0));
      assert s.(ready := RemoveAt(s.ready, 0)) == Model();
    }

    method InvokeInitCompletionCb(ec: ErrorCode)
      modifies `completions
      ensures Model() == M.Invoke(old(Model()), ec)
    {
      completions := completions + [M.Completion(ec, io.now, resolvedAt, timeout)];
    }

    /** An open stream has its callback dispatched, not called; otherwise resolving is under way. The timeout given
        is kept for later calls. */
    method AsyncInit(initTimeout: Option<int>)
      requires Valid() && M.Enabled(Model(), M.Init(initTimeout))
      modifies this, io
      ensures Valid() && Model() == M.AsyncInit(kind, old(Model()), initTimeout)
      ensures if old(IsOpen()) then io.ready == [M.OnAlreadyOpen] && io.ops == [] else io.ops == [M.Resolve] && io.ready == []
      ensures completions == old(completions) && io.socketOpen == old(io.socketOpen) && io.live == []
      ensures timeout == if initTimeout.Some? then initTimeout.value else old(timeout)
    {
      S.InitOutcome(kind, Model(), initTimeout);
      ghost var next := M.AsyncInit(kind, Model(), initTimeout);
      if initTimeout.Some? {
        timeout := initTimeout.value;
      }
      inits, resolvedAt := inits + 1, io.now;
      io.closedBy := {};
      if IsOpen() {
        io.Dispatch(M.OnAlreadyOpen);
      } else {
        io.AsyncResolve();
      }
      assert Model() == next;
    }

    /** Reports success exactly when the stream was open or every operation succeeded, and then it is open; an open
        stream is left alone. A TCP stream is open as soon as its address is resolved, also when connecting then
        fails. No timer is used and no callback called. */
    method Init(o: M.Outcomes) returns (ec: ErrorCode)
      requires Valid()
      modifies this, io
      ensures Valid() && (ec, Model()) == M.SyncInit(kind, old(Model()), o)
      ensures ec == Success <==>
        || old(IsOpen())
        || (o.resolve == Success && o.connect == Success && (kind == M.Websocket ==> o.handshake == Success))
      ensures ec == Success ==> IsOpen()
      ensures ec != Success ==> ec in {o.resolve, o.connect, o.handshake}
      ensures ec != Success ==> (IsOpen() <==> kind == M.Tcp && o.resolve == Success)
      ensures old(IsOpen()) ==> Model() == old(Model())
      ensures !old(IsOpen()) && ec == Success ==> io.actions == old(io.actions) + R.Connecting(kind)
      ensures completions == old(completions) && io.live == old(io.live) && io.fired == old(io.fired)
    {
      S.SyncInitKeepsInv(kind, Model(), o);
      R.SyncInitOutcome(kind, Model(), o);
      ghost var result := M.SyncInit(kind, Model(), o);
      if IsOpen() {
        return Success;
      }
      ec := io.ResolveNow(o.resolve);
      if ec != Success {
        assert (ec, Model()) == result;
        return;
      }
      ec := io.ConnectNow(o.connect);
      if kind == M.Tcp || ec != Success {
        assert (ec, Model()) == result;
        return;
      }
      io.SetOptions();
      ec := io.HandshakeNow(o.handshake);
      assert (ec, Model()) == result;
    }

    method StartConnect()
      modifies io
      ensures Model() == M.AsyncConnect(M.AsyncWait(M.ExpiresFromNow(old(Model()), timeout)))
    {
      io.Arm(timeout);
      io.AsyncConnect();
    }

    /** An error ends the initialisation with one callback; otherwise connecting is under way, guarded by a new
        timer. */
    method OnResolve(ec: ErrorCode)
      requires Runs(M.OnResolve(ec))
      modifies this, io
      ensures Valid() && Model() == M.HandleResolve(old(Model()), ec)
      ensures ec != Success ==> Over() && completions == old(completions) + [M.Completion(ec, io.now, io.now, timeout)]
      ensures ec == Success ==>
        Guards(M.Connect) && io.socketOpen && completions == old(completions) && io.actions == old(io.actions) + [M.ConnectStarted]
    {
      HandlerKeepsInv(M.OnResolve(ec));
      S.ResolveOutcome(Model(), ec);
      ghost var next := M.HandleResolve(Model(), ec);
      resolvedAt := io.now;
      io.closedBy := {};
      if ec != Success {
        InvokeInitCompletionCb(ec);
        assert Model() == next;
        return;
      }
      StartConnect();
      assert Model() == next;
    }

    method StartHandshake()
      modifies io
      ensures Model() == M.AsyncHandshake(M.AsyncWait(M.ExpiresFromNow(M.SetOptions(old(Model())), timeout)))
    {
      io.SetOptions();
      io.Arm(timeout);
      io.AsyncHandshake();
    }

    /** TCP is done, with this error code; websocket is done if connecting failed, otherwise the handshake is under
        way, guarded by a new timer. A timer wait that was live can no longer close the socket; one that had
        expired is not affected. */
    method OnConnect(ec: ErrorCode)
      requires Runs(M.OnConnect(ec))
      modifies this, io
      ensures Valid() && Model() == M.HandleConnect(kind, old(Model()), ec)
      ensures kind == M.Tcp || ec != Success ==>
        Over() && completions == old(completions) + [M.Completion(ec, io.now, resolvedAt, timeout)]
      ensures kind == M.Websocket && ec == Success ==>
        && Guards(M.Handshake) && completions == old(completions)
        && io.actions == old(io.actions) + [M.OptionsSet, M.HandshakeStarted]
      ensures forall w | w in old(io.live) :: w in io.cancelled && M.Fired(w, OperationAborted) in io.fired
      ensures io.expired == old(io.expired) && io.socketOpen == old(io.socketOpen)
    {
      HandlerKeepsInv(M.OnConnect(ec));
      S.ConnectOutcome(kind, Model(), ec);
      ghost var next := M.HandleConnect(kind, Model(), ec);
      io.Cancel();
      if kind == M.Tcp || ec != Success {
        InvokeInitCompletionCb(ec);
        assert Model() == next;
        return;
      }
      StartHandshake();
      assert Model() == next;
    }

    /** Done, with this error code; a live timer wait can no longer close the socket. */
    method OnUpgrade(ec: ErrorCode)
      requires Runs(M.OnUpgrade(ec))
      modifies this, io
      ensures Valid() && Model() == M.HandleUpgrade(old(Model()), ec)
      ensures Over() && completions == old(completions) + [M.Completion(ec, io.now, resolvedAt, timeout)]
      ensures forall w | w in old(io.live) :: w in io.cancelled && M.Fired(w, OperationAborted) in io.fired
      ensures io.expired == old(io.expired) && io.socketOpen == old(io.socketOpen)
    {
      HandlerKeepsInv(M.OnUpgrade(ec));
      S.UpgradeOutcome(Model(), ec);
      io.Cancel();
      InvokeInitCompletionCb(ec);
    }

    /** Closes the socket unless the wait was cancelled. It ends no initialisation: the operation that fails on the
        closed socket does. */
    method TimeoutCb(ec: ErrorCode, ghost wait: nat)
      modifies io
      ensures Model() == M.HandleTimeout(old(Model()), M.Fired(wait, ec))
      ensures io.socketOpen <==> old(io.socketOpen) && ec == OperationAborted
      ensures io.streamOpen == old(io.streamOpen)
      ensures io.ops == old(io.ops) && io.ready == old(io.ready) && io.live == old(io.live) && io.fired == old(io.fired)
    {
      if ec == OperationAborted {
        return;
      }
      io.CloseSocket(wait);
    }

    // ---------- steps of the library, the user and the event loop

    /** A step of the library, of the user closing the stream, or of the clock. A closed stream does not count as
        open. */
    method Proceed(e: M.Event)
      requires Valid() && (e.Complete? || e.Expire? || e.Close? || e.Tick?) && M.Enabled(Model(), e)
      modifies io
      ensures Valid() && Model() == M.Step(kind, old(Model()), e)
      ensures e.Close? ==> !IsOpen()
    {
      S.StepKeepsInv(kind, Model(), e);
      ghost var next := M.Step(kind, Model(), e);
      io.Proceed(e);
      assert Model() == next;
    }

    method HandleReady(handler: M.Ready)
      requires Runs(handler)
      modifies this, io
      ensures Valid() && Model() == M.HandleReady(kind, old(Model()), handler)
      ensures
        || (Over() && |completions| == |old(completions)| + 1 && completions[..|old(completions)|] == old(completions))
        || ((Guards(M.Connect) || Guards(M.Handshake)) && completions == old(completions))
    {
      match handler {
        case OnResolve(ec) => OnResolve(ec);
        case OnConnect(ec) => OnConnect(ec);
        case OnUpgrade(ec) => OnUpgrade(ec);
        case OnAlreadyOpen =>
          HandlerKeepsInv(handler);
          InvokeInitCompletionCb(Success);
      }
    }

    /** The event loop runs a ready completion handler. Each one either ends the initialisation with the only call
        of its callback, or leaves the next operation under way, guarded by a new timer. */
    method RunHandler(i: nat)
      requires Valid() && i < |io.ready|
      modifies this, io
      ensures Valid() && Model() == M.Step(kind, old(Model()), M.Handle(i))
      ensures
        || (Over() && |completions| == |old(completions)| + 1 && completions[..|old(completions)|] == old(completions))
        || ((Guards(M.Connect) || Guards(M.Handshake)) && completions == old(completions))
    {
      S.OnlyOne(io.ready, i);
      ghost var before := Model();
      ghost var next := M.Step(kind, before, M.Handle(i));
      var handler := io.ready[i];
      io.ready := [];
      assert Model().(ready := [handler]) == before;
      HandleReady(handler);
      assert Model() == next;
    }

    /** The event loop runs a ready timer handler. It closes the socket exactly if its wait was not cancelled. */
    method RunTimerHandler(i: nat)
      requires Valid() && i < |io.fired|
      modifies io
      ensures Valid() && Model() == M.Step(kind, old(Model()), M.Timeout(i))
      ensures io.socketOpen <==> old(io.socketOpen && io.fired[i].wait in io.cancelled)
    {
      S.StepKeepsInv(kind, Model(), M.Timeout(i));
      ghost var next := M.Step(kind, Model(), M.Timeout(i));
      var f := io.fired[i];
      assert f in io.fired;
      io.fired := RemoveAt(io.fired, i);
      TimeoutCb(f.ec, f.wait);
      assert Model() == next;
    }
  }
}
