/** `WebsocketServer`: two accept loops that can be stopped and restarted, and any number of websocket
    upgrades in flight.

    Opening an acceptor can be refused (also because it is open already), in which case that acceptor is
    skipped, or a later call can throw (bind fails), which leaves `start` at once. */
module WebsocketServerModel {
  import opened Common
  import opened Counting
  import opened Acceptors

  /** `broken`: binding failed or an accept failed since the acceptor was opened. */
  datatype Listener = Listener(acceptor: Acceptor, broken: bool)

  /** A finished upgrade whose handler is ready. */
  datatype Upgraded = Upgraded(conn: Conn, ec: ErrorCode)

  datatype Server = Server(
    v4: Listener, v6: Listener,
    upgrading: seq<Conn>, upgraded: seq<Upgraded>,
    // history
    accepted: seq<Conn>, outcome: map<Conn, ErrorCode>, failed: seq<Conn>, offered: seq<Conn>)

  datatype Opening = OpenFails | BindThrows | Listens

  function Closed(): Listener { Listener(Acceptor(false, 0, []), false) }

  function Fresh(): Server { Server(Closed(), Closed(), [], [], [], map[], [], []) }

  /** The listener afterwards, and whether an exception was thrown. */
  function StartListener(l: Listener, o: Opening): (Listener, bool) {
    if l.acceptor.open || o == OpenFails then (l, false)
    else
      var listening := l.acceptor.(open := true);
      if o == BindThrows then (Listener(listening, true), true) else (Listener(AsyncAccept(listening), false), false)
  }

  function StopListener(l: Listener): Listener { Listener(CloseAcceptor(l.acceptor), false) }

  function Get(s: Server, f: Family): Listener { if f == V6 then s.v6 else s.v4 }

  function Set(s: Server, f: Family, l: Listener): Server { if f == V6 then s.(v6 := l) else s.(v4 := l) }

  function Start(s: Server, o4: Opening, o6: Opening): Server {
    var r4 := StartListener(s.v4, o4);
    if r4.1 then s.(v4 := r4.0) else s.(v4 := r4.0, v6 := StartListener(s.v6, o6).0)
  }

  function Stop(s: Server): Server { s.(v4 := StopListener(s.v4), v6 := StopListener(s.v6)) }

  function StartTcpAccept(s: Server, f: Family): Server {
    Set(s, f, Get(s, f).(acceptor := AsyncAccept(Get(s, f).acceptor)))
  }

  function OnAccept(s: Server, f: Family, r: AcceptResult): Server {
    match r
    case Refused(_) => s
    case Accepted(conn) => StartTcpAccept(s.(upgrading := s.upgrading + [conn]), f)
  }

  function OnUpgrade(s: Server, conn: Conn, ec: ErrorCode): Server {
    if ec != Success then s.(failed := s.failed + [conn]) else s.(offered := s.offered + [conn])
  }

  // ---------- steps

  datatype Event =
    | StartEv(o4: Opening, o6: Opening) | StopEv
    | Arrive(family: Family, id: nat)                 // an outstanding accept succeeds
    | AcceptFails(family: Family, error: Failure)     // an outstanding accept fails
    | RunAccept(family: Family, i: nat)               // a ready accept handler runs
    | FinishUpgrade(conn: Conn, ec: ErrorCode)        // an upgrade in flight ends
    | RunUpgrade(done: Upgraded)                      // its handler runs

  predicate Enabled(s: Server, e: Event) {
    match e
    case StartEv(_, _) => true
    case StopEv => true
    case Arrive(f, id) => Get(s, f).acceptor.pending > 0 && Conn(f, id) !in s.accepted
    case AcceptFails(f, _) => Get(s, f).acceptor.pending > 0
    case RunAccept(f, i) => i < |Get(s, f).acceptor.ready|
    case FinishUpgrade(conn, _) => conn in s.upgrading
    case RunUpgrade(done) => done in s.upgraded
  }

  function WithAcceptor(s: Server, f: Family, a: Acceptor): Server { Set(s, f, Get(s, f).(acceptor := a)) }

  function Step(s: Server, e: Event): Server
    requires Enabled(s, e)
  {
    match e
    case StartEv(o4, o6) => Start(s, o4, o6)
    case StopEv => Stop(s)
    case Arrive(f, id) =>
      var conn := Conn(f, id);
      WithAcceptor(s.(accepted := s.accepted + [conn]), f, Deliver(Get(s, f).acceptor, Accepted(conn)))
    case AcceptFails(f, ec) => Set(s, f, Listener(Deliver(Get(s, f).acceptor, Refused(ec)), true))
    case RunAccept(f, i) =>
      var a := Get(s, f).acceptor;
      OnAccept(WithAcceptor(s, f, Take(a, i)), f, a.ready[i])
    case FinishUpgrade(conn, ec) =>
      s.(upgrading := Remove(s.upgrading, conn), upgraded := s.upgraded + [Upgraded(conn, ec)],
         outcome := s.outcome[conn := ec])
    case RunUpgrade(done) => OnUpgrade(s.(upgraded := Remove(s.upgraded, done)), done.conn, done.ec)
  }

  predicate ValidRun(s: Server, events: seq<Event>)
    decreases |events|
  {
    events == [] || (Enabled(s, events[0]) && ValidRun(Step(s, events[0]), events[1..]))
  }

  function Run(s: Server, events: seq<Event>): Server
    requires ValidRun(s, events)
    decreases |events|
  {
    if events == [] then s else Run(Step(s, events[0]), events[1..])
  }

  predicate Initial(s: Server) { s == Fresh() }
}
