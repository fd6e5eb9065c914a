/** The class `WebsocketServer`, proved to make exactly the steps of the server machine: the methods the user calls,
    the handlers the event loop runs, and what the I/O library does in between. */
module WebsocketServerObject {
  import opened Common
  import opened Counting
  import opened Acceptors
  import M = WebsocketServerModel
  import C = WebsocketConservation

  /** An acceptor of the library; bind errors are thrown, open errors are returned. */
  class TcpAcceptor {
    const family: Family
    var acceptor: Acceptor
    ghost var broken: bool

    constructor (family: Family)
      ensures this.family == family && Listener() == M.Closed()
    {
      this.family := family;
      acceptor, broken := Acceptor(false, 0, []), false;
    }

    ghost function Listener(): M.Listener
      reads this
    {
      M.Listener(acceptor, broken)
    }

    method Open(o: M.Opening) returns (ec: ErrorCode)
      modifies this
      ensures ec == Success <==> !old(acceptor.open) && o != M.OpenFails
      ensures acceptor == old(acceptor).(open := old(acceptor.open) || ec == Success) && broken == old(broken)
    {
      if acceptor.open || o == M.OpenFails {
        return Other(1);
      }
      acceptor := acceptor.(open := true);
      ec := Success;
    }

    method BindAndListen(o: M.Opening) returns (threw: bool)
      modifies `broken
      ensures threw == broken == (o == M.BindThrows)
    {
      threw := o == M.BindThrows;
      broken := threw;
    }

    method AsyncAccept()
      modifies `acceptor
      ensures Listener() == old(Listener()).(acceptor := Acceptors.AsyncAccept(old(acceptor)))
    {
      acceptor := Acceptors.AsyncAccept(acceptor);
    }

    /** An outstanding accept completes. */
    method Deliver(r: AcceptResult)
      requires acceptor.pending > 0
      modifies this
      ensures Listener() == M.Listener(Acceptors.Deliver(old(acceptor), r), old(broken) || r.Refused?)
    {
      acceptor := Acceptors.Deliver(acceptor, r);
      broken := broken || r.Refused?;
    }

    method Close()
      modifies this
      ensures Listener() == M.StopListener(old(Listener()))
    {
      acceptor := CloseAcceptor(acceptor);
      broken := false;
    }
  }

  /** The machine's event for an accept that completes. */
  function Completion(f: Family, r: AcceptResult): M.Event {
    match r case Accepted(conn) => M.Arrive(f, conn.id) case Refused(ec) => M.AcceptFails(f, ec)
  }

  class WebsocketServer {
    const tcpAcceptorV4: TcpAcceptor
    const tcpAcceptorV6: TcpAcceptor
    /** Upgrades in flight, and finished ones whose handler is ready. */
    var upgrading: seq<Conn>
    var upgraded: seq<M.Upgraded>
    /** The calls of the new-stream callback. */
    var offered: seq<Conn>
    ghost var failed: seq<Conn>
    ghost var accepted: seq<Conn>
    ghost var outcome: map<Conn, ErrorCode>

    ghost function Model(): M.Server
      reads this, tcpAcceptorV4, tcpAcceptorV6
    {
      M.Server(tcpAcceptorV4.Listener(), tcpAcceptorV6.Listener(), upgrading, upgraded, accepted, outcome, failed, offered)
    }

    ghost predicate Distinct() {
      tcpAcceptorV4 != tcpAcceptorV6 && tcpAcceptorV4.family == V4 && tcpAcceptorV6.family == V6
    }

    /** Every accepted connection is in one place, and the outcome of its upgrade decides which. */
    ghost predicate Valid()
      reads this, tcpAcceptorV4, tcpAcceptorV6
    {
      Distinct() && C.AllConserved(Model()) && C.AllSorted(Model())
    }

    constructor ()
      ensures Valid() && M.Initial(Model()) && fresh(tcpAcceptorV4) && fresh(tcpAcceptorV6)
    {
      tcpAcceptorV4 := new TcpAcceptor(V4);
      tcpAcceptorV6 := new TcpAcceptor(V6);
      upgrading, upgraded, offered, failed, accepted, outcome := [], [], [], [], [], map[];
    }

    method StartTcpAccept(tcpAcceptor: TcpAcceptor)
      requires Distinct() && tcpAcceptor in {tcpAcceptorV4, tcpAcceptorV6}
      modifies tcpAcceptor
      ensures Model() == M.StartTcpAccept(old(Model()), tcpAcceptor.family)
    {
      tcpAcceptor.AsyncAccept();
    }

    method StartOne(tcpAcceptor: TcpAcceptor, o: M.Opening) returns (threw: bool)
      requires Distinct() && tcpAcceptor in {tcpAcceptorV4, tcpAcceptorV6}
      modifies tcpAcceptor
      ensures (tcpAcceptor.Listener(), threw) == M.StartListener(old(tcpAcceptor.Listener()), o)
    {
      threw := false;
      var ec := tcpAcceptor.Open(o);
      if ec == Success {
        threw := tcpAcceptor.BindAndListen(o);
        if !threw {
          StartTcpAccept(tcpAcceptor);
        }
      }
    }

    /** An exception leaves the method at once. */
    method Start(o4: M.Opening, o6: M.Opening) returns (threw: bool)
      requires Valid()
      modifies tcpAcceptorV4, tcpAcceptorV6
      ensures Valid() && Model() == M.Step(old(Model()), M.StartEv(o4, o6))
      ensures old(tcpAcceptorV4.acceptor.open) && old(tcpAcceptorV6.acceptor.open) ==> Model() == old(Model())
      ensures var v4Threw := !old(tcpAcceptorV4.acceptor.open) && o4 == M.BindThrows;
        threw <==> v4Threw || (!old(tcpAcceptorV6.acceptor.open) && o6 == M.BindThrows)
    {
      C.StepKeepsAll(Model(), M.StartEv(o4, o6));
      threw := StartOne(tcpAcceptorV4, o4);
      if threw {
        return;
      }
      threw := StartOne(tcpAcceptorV6, o6);
    }

    method Stop()
      requires Valid()
      modifies tcpAcceptorV4, tcpAcceptorV6
      ensures Valid() && Model() == M.Step(old(Model()), M.StopEv)
    {
      C.StepKeepsAll(Model(), M.StopEv);
      tcpAcceptorV4.Close();
      tcpAcceptorV6.Close();
    }

    /** Puts the connection it is given in one place, the upgrades in flight, and goes on accepting on the same
        acceptor; an error ends the loop. The other acceptor and the other connections stay as they are. */
    method OnAccept(tcpAcceptor: TcpAcceptor, r: AcceptResult)
      requires Distinct() && tcpAcceptor in {tcpAcceptorV4, tcpAcceptorV6}
      modifies `upgrading, tcpAcceptor
      ensures Model() == M.OnAccept(old(Model()), tcpAcceptor.family, r)
      ensures r.Refused? ==> Model() == old(Model())
      ensures forall c :: C.Places(Model(), c) == old(C.Places(Model(), c)) + if r == Accepted(c) then 1 else 0
      ensures r.Accepted? ==>
        && upgrading == old(upgrading) + [r.conn]
        && if old(tcpAcceptor.acceptor.open) then tcpAcceptor.acceptor.pending == old(tcpAcceptor.acceptor.pending) + 1
           else tcpAcceptor.acceptor.pending == old(tcpAcceptor.acceptor.pending)
    {
      forall c ensures C.Places(M.OnAccept(Model(), tcpAcceptor.family, r), c)
                    == C.Places(Model(), c) + if r == Accepted(c) then 1 else 0
      {
        C.OnAcceptPlaces(Model(), tcpAcceptor.family, r, c);
      }
      if r.Refused? {
        return;
      }
      upgrading := upgrading + [r.conn];
      StartTcpAccept(tcpAcceptor);
    }

    /** Puts the connection in one place: offered once after a successful upgrade, whether or not the new-stream
        callback throws, and dropped after a failed one. */
    method OnUpgrade(ec: ErrorCode, websocket: Conn, throws: bool)
      requires Distinct()
      modifies `failed, `offered
      ensures Model() == M.OnUpgrade(old(Model()), websocket, ec)
      ensures offered == old(offered) + (if ec == Success then [websocket] else [])
      ensures failed == old(failed) + (if ec == Success then [] else [websocket])
      ensures forall c :: C.Places(Model(), c) == old(C.Places(Model(), c)) + if c == websocket then 1 else 0
    {
      forall c ensures C.Places(M.OnUpgrade(Model(), websocket, ec), c)
                    == C.Places(Model(), c) + if c == websocket then 1 else 0
      {
        C.OnUpgradePlaces(Model(), websocket, ec, c);
      }
      if ec != Success {
        failed := failed + [websocket];
        return;
      }
      var threw := NewStreamCb(websocket, throws);
      if threw {
        // caught and logged
      }
    }

    method NewStreamCb(stream: Conn, throws: bool) returns (threw: bool)
      modifies `offered
      ensures offered == old(offered) + [stream]
    {
      offered := offered + [stream];
      threw := throws;
    }

    // ---------- the I/O library

    /** An outstanding accept completes, with a connection that is new. */
    method CompleteAccept(tcpAcceptor: TcpAcceptor, r: AcceptResult)
      requires Valid() && tcpAcceptor in {tcpAcceptorV4, tcpAcceptorV6} && tcpAcceptor.acceptor.pending > 0
      requires r.Accepted? ==> r.conn.family == tcpAcceptor.family && r.conn !in accepted
      modifies this, tcpAcceptor
      ensures Valid() && Model() == M.Step(old(Model()), Completion(tcpAcceptor.family, r))
    {
      ghost var e := Completion(tcpAcceptor.family, r);
      C.StepKeepsAll(Model(), e);
      ghost var next := M.Step(Model(), e);
      tcpAcceptor.Deliver(r);
      if r.Accepted? {
        accepted := accepted + [r.conn];
      }
      assert Model() == next;
    }

    /** An upgrade in flight ends; its handler becomes ready. */
    method CompleteUpgrade(websocket: Conn, ec: ErrorCode)
      requires Valid() && websocket in upgrading
      modifies this
      ensures Valid() && Model() == M.Step(old(Model()), M.FinishUpgrade(websocket, ec))
      ensures upgraded == old(upgraded) + [M.Upgraded(websocket, ec)] && offered == old(offered) && failed == old(failed)
    {
      C.StepKeepsAll(Model(), M.FinishUpgrade(websocket, ec));
      upgrading, upgraded := Remove(upgrading, websocket), upgraded + [M.Upgraded(websocket, ec)];
      outcome := outcome[websocket := ec];
    }

    // ---------- the event loop

    method RunAcceptHandler(tcpAcceptor: TcpAcceptor, i: nat)
      requires Valid() && tcpAcceptor in {tcpAcceptorV4, tcpAcceptorV6} && i < |tcpAcceptor.acceptor.ready|
      modifies this, tcpAcceptor
      ensures Valid() && Model() == M.Step(old(Model()), M.RunAccept(tcpAcceptor.family, i))
    {
      C.StepKeepsAll(Model(), M.RunAccept(tcpAcceptor.family, i));
      var r := tcpAcceptor.acceptor.ready[i];
      tcpAcceptor.acceptor := Take(tcpAcceptor.acceptor, i);
      OnAccept(tcpAcceptor, r);
    }

    method RunUpgradeHandler(done: M.Upgraded, throws: bool)
      requires Valid() && done in upgraded
      modifies this
      ensures Valid() && Model() == M.Step(old(Model()), M.RunUpgrade(done))
    {
      C.StepKeepsAll(Model(), M.RunUpgrade(done));
      upgraded := Remove(upgraded, done);
      OnUpgrade(done.ec, done.conn, throws);
    }
  }
}
