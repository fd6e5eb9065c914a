/** Starting, stopping and restarting the websocket server. */
module WebsocketRestart {
  import opened Common
  import opened Acceptors
  import opened WebsocketServerModel

  /** An open listener has one accept outstanding or ready to be handled, unless binding or accepting failed;
      a closed one has none outstanding and at most one connection left to hand over. */
  ghost predicate OneAccept(l: Listener) {
    && (l.acceptor.open ==> Live(l) == if l.broken then 0 else 1)
    && (!l.acceptor.open ==> l.acceptor.pending == 0 && |Queued(l.acceptor.ready)| <= 1)
  }

  /** The accepts that keep a loop going: outstanding ones and those whose connection is still queued. */
  function Live(l: Listener): nat { l.acceptor.pending + |Queued(l.acceptor.ready)| }

  /** No connection accepted before the last stop is still queued on a closed listener. */
  predicate Drained(l: Listener) { l.acceptor.open || Queued(l.acceptor.ready) == [] }

  /** Every start finds the handlers of the previous cycle drained. */
  predicate DrainedStarts(s: Server, events: seq<Event>)
    requires ValidRun(s, events)
    decreases |events|
  {
    events == [] ||
    ((events[0].StartEv? ==> Drained(s.v4) && Drained(s.v6)) && DrainedStarts(Step(s, events[0]), events[1..]))
  }

  lemma RunAcceptKeepsOneAccept(s: Server, f: Family, i: nat)
    requires Enabled(s, RunAccept(f, i)) && OneAccept(Get(s, f))
    ensures OneAccept(Get(Step(s, RunAccept(f, i)), f))
  {
    var a := Get(s, f).acceptor;
    QueuedRemove(a.ready, i);
    QueuedSnoc(RemoveAt(a.ready, i), Refused(BadDescriptor));
  }

  lemma StepKeepsOneAccept(s: Server, e: Event)
    requires OneAccept(s.v4) && OneAccept(s.v6) && Enabled(s, e)
    requires e.StartEv? ==> Drained(s.v4) && Drained(s.v6)
    ensures OneAccept(Step(s, e).v4) && OneAccept(Step(s, e).v6)
  {
    match e
    case StopEv =>
      QueuedAfterClose(s.v4.acceptor);
      QueuedAfterClose(s.v6.acceptor);
    case Arrive(f, id) => QueuedSnoc(Get(s, f).acceptor.ready, Accepted(Conn(f, id)));
    case AcceptFails(f, ec) => QueuedSnoc(Get(s, f).acceptor.ready, Refused(ec));
    case RunAccept(f, i) => RunAcceptKeepsOneAccept(s, f, i);
    case _ =>
  }

  lemma {:induction false} RunKeepsOneAccept(s: Server, events: seq<Event>)
    requires OneAccept(s.v4) && OneAccept(s.v6) && ValidRun(s, events) && DrainedStarts(s, events)
    ensures OneAccept(Run(s, events).v4) && OneAccept(Run(s, events).v6)
    decreases |events|
  {
    if events != [] {
      StepKeepsOneAccept(s, events[0]);
      RunKeepsOneAccept(Step(s, events[0]), events[1..]);
    }
  }

  /** Over any number of start/stop cycles with drained handlers, with connections, failures and upgrades at any
      time: each open listener that neither failed to bind nor had an accept fail since has exactly one live
      accept, a failed one has none, and a closed one has none outstanding. */
  lemma RestartInvariant(s0: Server, events: seq<Event>, f: Family)
    requires Initial(s0) && ValidRun(s0, events) && DrainedStarts(s0, events)
    ensures var l := Get(Run(s0, events), f);
      if l.acceptor.open then Live(l) == (if l.broken then 0 else 1) else l.acceptor.pending == 0
  {
    RunKeepsOneAccept(s0, events);
  }

  // ---------- loops live until an accept fails

  function CountFails(events: seq<Event>, f: Family): nat {
    if events == [] then 0
    else (if events[0].AcceptFails? && events[0].family == f then 1 else 0) + CountFails(events[1..], f)
  }

  lemma StepKeepsLive(s: Server, e: Event, f: Family)
    requires Enabled(s, e) && !e.StopEv? && Get(s, f).acceptor.open
    ensures var l := Get(Step(s, e), f);
      l.acceptor.open && Live(l) + CountFails([e], f) == Live(Get(s, f))
  {
    assert [e][1..] == [];
    var ready := Get(s, f).acceptor.ready;
    match e
    case Arrive(g, id) => QueuedSnoc(ready, Accepted(Conn(f, id)));
    case AcceptFails(g, ec) => QueuedSnoc(ready, Refused(ec));
    case RunAccept(g, i) => if g == f { QueuedRemove(ready, i); }
    case _ =>
  }

  /** On an open acceptor no loop starts and none ends, except by an accept that fails: whatever is started again,
      accepted, upgraded or handled until the next stop. */
  lemma {:induction false} LiveIsConserved(s: Server, events: seq<Event>, f: Family)
    requires Get(s, f).acceptor.open && ValidRun(s, events) && forall e | e in events :: !e.StopEv?
    ensures var l := Get(Run(s, events), f);
      l.acceptor.open && Live(l) + CountFails(events, f) == Live(Get(s, f))
    decreases |events|
  {
    if events != [] {
      assert events[0] in events && [events[0]][1..] == [];
      StepKeepsLive(s, events[0], f);
      LiveIsConserved(Step(s, events[0]), events[1..], f);
    }
  }

  /** A start leaves an acceptor that is open already as it is: a second start adds no loop. */
  lemma SecondStartAddsNoLoop(s: Server, o4: Opening, o6: Opening, f: Family)
    requires Get(s, f).acceptor.open
    ensures var t := Step(s, StartEv(o4, o6));
      && Get(t, f) == Get(s, f)
      && (s.v4.acceptor.open && s.v6.acceptor.open ==> t == s)
  {
  }

  // ---------- what a start comes to

  /** How the acceptor of family f fares in a start: a v4 bind error leaves `start` before v6 is tried. */
  function Fate(f: Family, o4: Opening, o6: Opening): Opening {
    if f == V4 then o4 else if o4 == BindThrows then OpenFails else o6
  }

  lemma StartFromStopped(s: Server, o4: Opening, o6: Opening, f: Family)
    requires Stopped(s)
    ensures var l, t, fate := Get(s, f), Get(Start(s, o4, o6), f), Fate(f, o4, o6);
      && (t.acceptor.open <==> fate != OpenFails)
      && Live(t) == |Queued(l.acceptor.ready)| + (if fate == Listens then 1 else 0)
  {
  }

  /** The number of loops of each family at any time after a start and before the next stop, from the outcomes of
      open and bind and the handlers left over from the previous cycle: one if the acceptor listens, one for each
      connection accepted in the previous cycle and still queued, less one for each failed accept. Starts made in
      between make no difference to an acceptor that opened. */
  lemma LoopsAfterStart(s: Server, o4: Opening, o6: Opening, events: seq<Event>, f: Family)
    requires Stopped(s) && Fate(f, o4, o6) != OpenFails
    requires ValidRun(Start(s, o4, o6), events) && forall e | e in events :: !e.StopEv?
    ensures var l := Get(Run(Start(s, o4, o6), events), f);
      && l.acceptor.open
      && Live(l) + CountFails(events, f)
         == |Queued(Get(s, f).acceptor.ready)| + (if Fate(f, o4, o6) == Listens then 1 else 0)
  {
    StartFromStopped(s, o4, o6, f);
    LiveIsConserved(Start(s, o4, o6), events, f);
  }

  /** From a stopped and drained server a start makes one loop on each acceptor if and only if neither open nor
      bind fails; each acceptor by itself is left open without a loop if and only if its bind was reached and
      failed. */
  lemma StartServesIff(s: Server, o4: Opening, o6: Opening)
    requires Stopped(s) && Drained(s.v4) && Drained(s.v6)
    ensures var t := Start(s, o4, o6);
      && (Live(t.v4) == 1 && Live(t.v6) == 1 <==> o4 == Listens && o6 == Listens)
      && (t.v4.acceptor.open && Live(t.v4) == 0 <==> o4 == BindThrows)
      && (t.v6.acceptor.open && Live(t.v6) == 0 <==> o4 != BindThrows && o6 == BindThrows)
      && (!t.v4.acceptor.open <==> o4 == OpenFails)
      && (!t.v6.acceptor.open <==> o4 == BindThrows || o6 == OpenFails)
  {
    StartFromStopped(s, o4, o6, V4);
    StartFromStopped(s, o4, o6, V6);
  }

  /** An acceptor whose bind failed stays open without a loop whatever happens, starts included, until a stop.
      After a stop, a start whose bind succeeds gives it one loop again, if the handlers are drained. */
  lemma BindErrorNeedsStop(s: Server, o4: Opening, o6: Opening, events: seq<Event>, p4: Opening, p6: Opening, f: Family)
    requires Stopped(s) && Drained(s.v4) && Drained(s.v6) && Fate(f, o4, o6) == BindThrows
    requires ValidRun(Start(s, o4, o6), events) && forall e | e in events :: !e.StopEv?
    ensures var t := Run(Start(s, o4, o6), events);
      && Get(t, f).acceptor.open && Live(Get(t, f)) == 0
      && (Fate(f, p4, p6) == Listens ==> Live(Get(Start(Stop(t), p4, p6), f)) == 1)
  {
    LoopsAfterStart(s, o4, o6, events, f);
    var t := Run(Start(s, o4, o6), events);
    QueuedAfterClose(t.v4.acceptor);
    QueuedAfterClose(t.v6.acceptor);
    StartFromStopped(Stop(t), p4, p6, f);
  }

  /** From the first start of a new server until a stop, each acceptor that neither failed to open nor to bind has one
      loop as long as no accept fails. */
  lemma FirstStartServes(o4: Opening, o6: Opening, events: seq<Event>, f: Family)
    requires ValidRun(Start(Fresh(), o4, o6), events) && forall e | e in events :: !e.StopEv?
    requires Fate(f, o4, o6) == Listens
    ensures Stopped(Fresh()) && Drained(Fresh().v4) && Drained(Fresh().v6)
    ensures Get(Start(Fresh(), o4, o6), f).acceptor == Acceptor(true, 1, [])
    ensures Live(Get(Run(Start(Fresh(), o4, o6), events), f)) + CountFails(events, f) == 1
  {
    LoopsAfterStart(Fresh(), o4, o6, events, f);
  }

  // ---------- why the handlers must be drained

  /** Reopening a stopped acceptor gives exactly one loop for good, as long as no accept fails, if and only if no
      connection accepted before the stop was still queued. */
  lemma OneLoopIffDrained(s: Server, o4: Opening, o6: Opening, events: seq<Event>, f: Family)
    requires Stopped(s) && Fate(f, o4, o6) == Listens
    requires ValidRun(Start(s, o4, o6), events) && forall e | e in events :: !e.StopEv?
    requires CountFails(events, f) == 0
    ensures Live(Get(Run(Start(s, o4, o6), events), f)) == 1 <==> Drained(Get(s, f))
  {
    LoopsAfterStart(s, o4, o6, events, f);
  }

  /** Such a start happens: a connection arrives, the server is stopped and started again before the accept
      handler runs, and then two loops accept. */
  lemma RestartCanDoubleLoop()
    ensures exists events :: ValidRun(Fresh(), events) && Live(Run(Fresh(), events).v4) == 2
  {
    var started := Step(Fresh(), StartEv(Listens, OpenFails));
    var arrived := Step(started, Arrive(V4, 0));
    var stopped := Step(arrived, StopEv);
    assert arrived.v4.acceptor.ready == [Accepted(Conn(V4, 0))];
    QueuedAfterClose(arrived.v4.acceptor);
    assert Queued(arrived.v4.acceptor.ready) == [Conn(V4, 0)] + Queued([]);
    var again := Step(stopped, StartEv(Listens, OpenFails));
    assert Live(again.v4) == 2;
    var events := [StartEv(Listens, OpenFails), Arrive(V4, 0), StopEv, StartEv(Listens, OpenFails)];
    RunFour(Fresh(), events[0], events[1], events[2], events[3]);
    assert Run(Fresh(), events) == again;
  }

  lemma RunFour(s: Server, a: Event, b: Event, c: Event, d: Event)
    requires Enabled(s, a) && Enabled(Step(s, a), b) && Enabled(Step(Step(s, a), b), c)
    requires Enabled(Step(Step(Step(s, a), b), c), d)
    ensures ValidRun(s, [a, b, c, d]) && Run(s, [a, b, c, d]) == Step(Step(Step(Step(s, a), b), c), d)
  {
    var x := Step(s, a);
    var y := Step(x, b);
    var z := Step(y, c);
    assert [a, b, c, d][1..] == [b, c, d] && [b, c, d][1..] == [c, d] && [c, d][1..] == [d] && [d][1..] == [];
    assert ValidRun(Step(z, d), []) && Run(Step(z, d), []) == Step(z, d);
    assert ValidRun(z, [d]) && Run(z, [d]) == Step(z, d);
    assert ValidRun(y, [c, d]) && Run(y, [c, d]) == Step(z, d);
    assert ValidRun(x, [b, c, d]) && Run(x, [b, c, d]) == Step(z, d);
  }

  // ---------- stop

  function Backlog(s: Server): nat { Weight(s.v4.acceptor.ready) + Weight(s.v6.acceptor.ready) }

  predicate Stopped(s: Server) {
    !s.v4.acceptor.open && s.v4.acceptor.pending == 0 && !s.v6.acceptor.open && s.v6.acceptor.pending == 0
  }

  lemma WeightSnoc(ready: seq<AcceptResult>, r: AcceptResult)
    ensures Weight(ready + [r]) == Weight(ready) + if r.Accepted? then 3 else 1
  {
    WeightConcat(ready, [r]);
    assert Weight([r]) == (if r.Accepted? then 3 else 1) + Weight([]);
  }

  /** After a stop and until the next start nothing is accepted, and each accept handler that still runs
      brings the end of both loops nearer; upgrades in flight go on. */
  lemma StoppedServerWindsDown(s: Server, e: Event)
    requires Stopped(s) && Enabled(s, e) && !e.StartEv?
    ensures var t := Step(s, e);
      && Stopped(t) && t.accepted == s.accepted
      && Backlog(t) <= Backlog(s)
      && (e.RunAccept? ==> Backlog(t) < Backlog(s))
  {
    match e
    case StopEv =>
      assert s.v4.acceptor.ready + [] == s.v4.acceptor.ready;
      assert s.v6.acceptor.ready + [] == s.v6.acceptor.ready;
    case RunAccept(f, i) =>
      var ready := Get(s, f).acceptor.ready;
      WeightRemove(ready, i);
      WeightSnoc(RemoveAt(ready, i), Refused(BadDescriptor));
    case _ =>
  }
}
