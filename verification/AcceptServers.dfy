/** `TcpServer` and `LocalServer`, which differ only in the kind of socket they accept. */
module AcceptServers {
  import opened Common
  import opened Acceptors
  import L = AcceptLoop

  /** What the user's callback does with one new stream. */
  datatype Callback = Callback(stops: bool, throws: bool)

  /** One accept handler from beginning to end, the callback included. */
  function Handled(s: L.Loop, r: AcceptResult, cb: Callback): L.Loop {
    var begun := L.BeginHandler(s, r);
    if r.Refused? then begun
    else
      var called := if cb.stops then L.Step(begun, L.Stop) else begun;
      L.EndHandler(called, |called.running| - 1)
  }

  lemma FinishKeepsInv(s: L.Loop)
    requires L.Inv(s) && s.running != []
    ensures L.Inv(L.EndHandler(s, |s.running| - 1))
  {
    L.StepKeepsInv(s, L.End(|s.running| - 1, false));
  }

  lemma HandledKeepsInv(s: L.Loop, i: nat, cb: Callback)
    requires L.Inv(s) && i < |s.acceptor.ready|
    ensures L.Inv(Handled(s.(acceptor := Take(s.acceptor, i)), s.acceptor.ready[i], cb))
  {
    var begun := L.Step(s, L.Begin(i));
    L.StepKeepsInv(s, L.Begin(i));
    if s.acceptor.ready[i].Accepted? {
      L.StepKeepsInv(begun, L.Stop);
      FinishKeepsInv(if cb.stops then L.Step(begun, L.Stop) else begun);
    }
  }

  /** A handler that runs after a stop, or whose callback stops the server, leaves no accept outstanding. */
  lemma HandledStops(s: L.Loop, i: nat, cb: Callback)
    requires L.Counted(s) && i < |s.acceptor.ready|
    requires !s.acceptor.open || (s.acceptor.ready[i].Accepted? && cb.stops)
    ensures L.Stopped(Handled(s.(acceptor := Take(s.acceptor, i)), s.acceptor.ready[i], cb))
  {
  }

  class StreamServer {
    var acceptor: Acceptor
    /** The calls of the new-stream callback. */
    var offered: seq<Conn>
    ghost var running: seq<Conn>
    ghost var accepted: seq<Conn>
    ghost var starts: nat
    ghost var errors: nat

    ghost function Model(): L.Loop
      reads this
    {
      L.Loop(acceptor, running, accepted, offered, starts, errors)
    }

    ghost predicate Valid()
      reads this
    {
      L.Inv(Model())
    }

    /** The constructor opens, binds and listens. */
    constructor ()
      ensures Valid() && L.Initial(Model())
      ensures acceptor.open && acceptor.pending == 0 && acceptor.ready == []
    {
      acceptor, offered := Acceptor(true, 0, []), [];
      running, accepted, starts, errors := [], [], 0, 0;
      new;
      L.InitialKeepsInv(Model());
    }

    method StartAccept()
      modifies `acceptor
      ensures Model() == L.StartAccept(old(Model()))
    {
      acceptor := AsyncAccept(acceptor);
    }

    method Start()
      requires Valid()
      modifies this
      ensures Valid() && Model() == L.Step(old(Model()), L.Start)
      ensures acceptor.open == old(acceptor.open)
      ensures acceptor.open ==> acceptor.pending == old(acceptor.pending) + 1 && acceptor.ready == old(acceptor.ready)
      ensures !acceptor.open ==> acceptor.pending == old(acceptor.pending)
    {
      L.StepKeepsInv(Model(), L.Start);
      starts := starts + 1;
      StartAccept();
    }

    method Stop()
      modifies `acceptor
      ensures Model() == L.Step(old(Model()), L.Stop)
      ensures !acceptor.open && acceptor.pending == 0
    {
      acceptor := CloseAcceptor(acceptor);
    }

    /** The library completes an outstanding accept. */
    method CompleteAccept(r: AcceptResult)
      requires Valid() && acceptor.pending > 0
      modifies this
      ensures Valid()
      ensures Model() == L.Step(old(Model()), match r case Accepted(c) => L.Arrive(c) case Refused(ec) => L.AcceptFails(ec))
    {
      L.StepKeepsInv(Model(), match r case Accepted(c) => L.Arrive(c) case Refused(ec) => L.AcceptFails(ec));
      acceptor := Deliver(acceptor, r);
      if r.Accepted? {
        accepted := accepted + [r.conn];
      }
    }

    /** The user's callback, which may stop the server and may throw. */
    method NewStreamCb(stream: Conn, cb: Callback) returns (threw: bool)
      modifies `offered, `acceptor
      ensures var called := old(Model()).(offered := old(offered) + [stream]);
        Model() == if cb.stops then L.Step(called, L.Stop) else called
      ensures threw == cb.throws
    {
      offered := offered + [stream];
      if cb.stops {
        Stop();
      }
      threw := cb.throws;
    }

    /** An accepted connection is offered once, and one accept goes on, except when the callback stops the server
        or it was stopped before: then none is outstanding. An error ends the loop. A callback that throws makes
        no difference. */
    method OnAccept(r: AcceptResult, cb: Callback)
      requires acceptor.pending > 0 ==> acceptor.open
      modifies this
      ensures Model() == Handled(old(Model()), r, cb)
      ensures r.Refused? ==> offered == old(offered) && acceptor == old(acceptor)
      ensures r.Accepted? ==>
        && offered == old(offered) + [r.conn]
        && L.Tokens(Model()) == old(L.Tokens(Model())) + 1
        && (acceptor.open <==> old(acceptor.open) && !cb.stops)
        && acceptor.pending == (if acceptor.open then old(acceptor.pending) + 1 else 0)
      ensures running == old(running) && accepted == old(accepted)
    {
      if r.Refused? {
        errors := errors + 1;
        return;
      }
      running := running + [r.conn];
      var threw := NewStreamCb(r.conn, cb);
      if threw {
        // caught and logged
      }
      running := RemoveAt(running, |running| - 1);
      StartAccept();
    }

    /** The event loop runs a ready accept handler. */
    method RunHandler(i: nat, cb: Callback)
      requires Valid() && i < |acceptor.ready|
      modifies this
      ensures Valid()
      ensures var s := old(Model());
        Model() == Handled(s.(acceptor := Take(s.acceptor, i)), s.acceptor.ready[i], cb)
      ensures !old(acceptor.open) || (old(acceptor.ready[i]).Accepted? && cb.stops) ==> L.Stopped(Model())
    {
      HandledKeepsInv(Model(), i, cb);
      if !acceptor.open || (acceptor.ready[i].Accepted? && cb.stops) {
        HandledStops(Model(), i, cb);
      }
      ghost var next := Handled(Model().(acceptor := Take(acceptor, i)), acceptor.ready[i], cb);
      var r := acceptor.ready[i];
      acceptor := Take(acceptor, i);
      OnAccept(r, cb);
      assert Model() == next;
    }
  }
}
