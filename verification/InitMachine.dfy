/** The asynchronous initialisation of `TcpClientStream` and `WebsocketClientStream`.

    The state holds what the client object holds (the timeout), what the I/O library holds (outstanding
    operations, ready handlers, the timer, the socket) and a history. Library operations follow their
    documented contracts: an operation completes once, `cancel` and re-arming complete live waits with
    `operation_aborted` and cannot recall a wait that has already expired, and no operation succeeds on a
    closed socket. Ready handlers may run in any order; one handler runs at a time. */
module InitMachine {
  import opened Common

  datatype Kind = Tcp | Websocket

  datatype Op = Resolve | Connect | Handshake

  /** Completion handlers waiting to be run. */
  datatype Ready = OnResolve(ec: ErrorCode) | OnConnect(ec: ErrorCode) | OnUpgrade(ec: ErrorCode) | OnAlreadyOpen

  /** A timer handler waiting to be run: the wait it belongs to and the error code it will get. */
  datatype Fired = Fired(wait: nat, ec: ErrorCode)

  datatype Action = ResolveStarted | ConnectStarted | OptionsSet | HandshakeStarted

  /** One call of the completion callback: its error code and time, when this initialisation had its
      address resolved (or was found open already), and the timeout in force. */
  datatype Completion = Completion(ec: ErrorCode, at: int, since: int, timeout: int)

  /** Who closed the socket: the user, or the handler of a timer wait. */
  datatype Closer = User | Timer(wait: nat)

  datatype State = State(
    // client
    timeout: int,
    // library
    ops: seq<Op>, ready: seq<Ready>,
    deadline: int, live: seq<nat>, fired: seq<Fired>,
    socketOpen: bool,   // the descriptor is open
    streamOpen: bool,   // the websocket handshake has completed
    now: int,
    // history
    inits: nat, waits: nat, since: int, callbacks: seq<Completion>, actions: seq<Action>,
    expired: set<nat>, cancelled: set<nat>, closers: set<nat>, closedByUser: bool,
    closedBy: set<Closer>)   // since the time `since`

  const DEFAULT_CONNECT_TIMEOUT := 5000

  function Fresh(now: int): State {
    State(DEFAULT_CONNECT_TIMEOUT, [], [], now, [], [], false, false, now, 0, 0, now, [], [], {}, {}, {}, false, {})
  }

  /** Initialisations under way, counted by their outstanding operations and ready handlers. */
  function Tokens(s: State): nat { |s.ops| + |s.ready| }

  predicate Quiescent(s: State) { s.ops == [] && s.ready == [] && s.live == [] && s.fired == [] }

  predicate AbortedOnly(fired: seq<Fired>) { forall f | f in fired :: f.ec == OperationAborted }

  /** No initialisation is under way; handlers of expired or cancelled waits may still be queued. */
  predicate Idle(s: State) { Tokens(s) == 0 && s.live == [] }

  /** And if any are queued, they are those of cancelled waits. */
  predicate Settled(s: State) { Idle(s) && AbortedOnly(s.fired) }

  /** The address is not resolved yet, or the handler for it has yet to run. */
  predicate BeforeConnect(s: State) {
    (s.ops != [] && s.ops[0] == Resolve) || (s.ready != [] && s.ready[0].OnResolve?)
  }

  // ---------- the library

  function Fires(waits: seq<nat>, ec: ErrorCode): seq<Fired> {
    seq(|waits|, i requires 0 <= i < |waits| => Fired(waits[i], ec))
  }

  function Cancel(s: State): State {
    s.(live := [], fired := s.fired + Fires(s.live, OperationAborted),
       cancelled := s.cancelled + (set w | w in s.live))
  }

  function ExpiresFromNow(s: State, timeout: int): State { Cancel(s).(deadline := s.now + timeout) }

  function AsyncWait(s: State): State { s.(live := s.live + [s.waits], waits := s.waits + 1) }

  function AsyncResolve(s: State): State {
    s.(ops := s.ops + [Resolve], actions := s.actions + [ResolveStarted])
  }

  /** Starting to connect opens the descriptor. */
  function AsyncConnect(s: State): State {
    s.(ops := s.ops + [Connect], socketOpen := true, actions := s.actions + [ConnectStarted])
  }

  function AsyncHandshake(s: State): State {
    s.(ops := s.ops + [Handshake], actions := s.actions + [HandshakeStarted])
  }

  function SetOptions(s: State): State { s.(actions := s.actions + [OptionsSet]) }

  function HandlerOf(op: Op, ec: ErrorCode): Ready {
    match op case Resolve => OnResolve(ec) case Connect => OnConnect(ec) case Handshake => OnUpgrade(ec)
  }

  // ---------- the client

  predicate IsOpen(kind: Kind, s: State) {
    match kind case Tcp => s.socketOpen case Websocket => s.streamOpen
  }

  /** The present is what times and closings of this initialisation are counted from. */
  function Mark(s: State): State { s.(since := s.now, closedBy := {}) }

  function Invoke(s: State, ec: ErrorCode): State {
    s.(callbacks := s.callbacks + [Completion(ec, s.now, s.since, s.timeout)])
  }

  function AsyncInit(kind: Kind, s: State, timeout: Option<int>): State {
    var t := Mark(s).(inits := s.inits + 1, timeout := if timeout.Some? then timeout.value else s.timeout);
    if IsOpen(kind, t) then t.(ready := t.ready + [OnAlreadyOpen]) else AsyncResolve(t)
  }

  function HandleResolve(s: State, ec: ErrorCode): State {
    var t := Mark(s);
    if ec != Success then Invoke(t, ec) else AsyncConnect(AsyncWait(ExpiresFromNow(t, t.timeout)))
  }

  function HandleConnect(kind: Kind, s: State, ec: ErrorCode): State {
    var t := Cancel(s);
    if kind == Tcp || ec != Success then Invoke(t, ec)
    else AsyncHandshake(AsyncWait(ExpiresFromNow(SetOptions(t), t.timeout)))
  }

  function HandleUpgrade(s: State, ec: ErrorCode): State { Invoke(Cancel(s), ec) }

  function HandleTimeout(s: State, f: Fired): State {
    if f.ec == OperationAborted then s else s.(socketOpen := false, closers := s.closers + {f.wait},
                                               closedBy := s.closedBy + {Timer(f.wait)})
  }

  function HandleReady(kind: Kind, s: State, r: Ready): State {
    match r
    case OnResolve(ec) => HandleResolve(s, ec)
    case OnConnect(ec) => HandleConnect(kind, s, ec)
    case OnUpgrade(ec) => HandleUpgrade(s, ec)
    case OnAlreadyOpen => Invoke(s, Success)
  }

  // ---------- steps

  datatype Event =
    | Init(timeout: Option<int>)          // the user calls asyncInit
    | Complete(i: nat, ec: ErrorCode)     // an outstanding operation completes
    | Handle(i: nat)                      // a ready completion handler runs
    | Expire                              // the timer reaches its expiry time
    | Timeout(i: nat)                     // a ready timer handler runs
    | Close                               // the user closes the stream
    | Tick(d: nat)                        // time passes

  /** `asyncInit` is not called while an earlier one is under way. */
  predicate Enabled(s: State, e: Event) {
    match e
    case Init(_) => Tokens(s) == 0
    case Complete(i, ec) => i < |s.ops| && (ec == Success && s.ops[i] != Resolve ==> s.socketOpen)
    case Handle(i) => i < |s.ready|
    case Expire => s.live != [] && s.now >= s.deadline
    case Timeout(i) => i < |s.fired|
    case Close => true
    case Tick(_) => true
  }

  function CompleteOp(s: State, i: nat, ec: ErrorCode): State
    requires i < |s.ops|
  {
    var op := s.ops[i];
    s.(ops := RemoveAt(s.ops, i), ready := s.ready + [HandlerOf(op, ec)],
       streamOpen := s.streamOpen || (op == Handshake && ec == Success))
  }

  function ExpireTimer(s: State): State {
    s.(live := [], fired := s.fired + Fires(s.live, Success), expired := s.expired + (set w | w in s.live))
  }

  function Step(kind: Kind, s: State, e: Event): State
    requires Enabled(s, e)
  {
    match e
    case Init(timeout) => AsyncInit(kind, s, timeout)
    case Complete(i, ec) => CompleteOp(s, i, ec)
    case Handle(i) => HandleReady(kind, s.(ready := RemoveAt(s.ready, i)), s.ready[i])
    case Expire => ExpireTimer(s)
    case Timeout(i) => HandleTimeout(s.(fired := RemoveAt(s.fired, i)), s.fired[i])
    case Close => s.(socketOpen := false, streamOpen := false, closedByUser := true, closedBy := s.closedBy + {User})
    case Tick(d) => s.(now := s.now + d)
  }

  predicate ValidRun(kind: Kind, s: State, events: seq<Event>)
    decreases |events|
  {
    events == [] || (Enabled(s, events[0]) && ValidRun(kind, Step(kind, s, events[0]), events[1..]))
  }

  function Run(kind: Kind, s: State, events: seq<Event>): State
    requires ValidRun(kind, s, events)
    decreases |events|
  {
    if events == [] then s else Run(kind, Step(kind, s, events[0]), events[1..])
  }

  // ---------- the synchronous form

  /** What resolving, connecting and shaking hands come to. */
  datatype Outcomes = Outcomes(resolve: ErrorCode, connect: ErrorCode, handshake: ErrorCode)

  /** `init`: the error code returned and the state left behind. */
  function SyncInit(kind: Kind, s: State, o: Outcomes): (ErrorCode, State) {
    if IsOpen(kind, s) then (Success, s)
    else
      var r := s.(actions := s.actions + [ResolveStarted]);
      if o.resolve != Success then (o.resolve, r)
      else
        var c := r.(actions := r.actions + [ConnectStarted], socketOpen := true);
        if kind == Tcp || o.connect != Success then (o.connect, c)
        else
          var h := SetOptions(c);
          (o.handshake, h.(actions := h.actions + [HandshakeStarted], streamOpen := o.handshake == Success))
  }
}
