/** Where the accepted connections of a websocket server are. */
module WebsocketConservation {
  import opened Common
  import opened Counting
  import opened Acceptors
  import opened WebsocketServerModel

  function Conns(upgraded: seq<Upgraded>): seq<Conn> {
    if upgraded == [] then [] else [upgraded[0].conn] + Conns(upgraded[1..])
  }

  /** In how many places a connection is: its accept handler is ready (v4 or v6), its upgrade is in flight, the
      upgrade's handler is ready, the upgrade failed, it was offered to the new-stream callback. */
  function Places(s: Server, c: Conn): nat {
    Count(Queued(s.v4.acceptor.ready), c) + Count(Queued(s.v6.acceptor.ready), c)
    + Count(s.upgrading, c) + Count(Conns(s.upgraded), c) + Count(s.failed, c) + Count(s.offered, c)
  }

  ghost predicate Conserved(s: Server, c: Conn) {
    Places(s, c) == Count(s.accepted, c) <= 1
  }

  ghost predicate AllConserved(s: Server) { forall c: Conn :: Conserved(s, c) }

  // ---------- lists

  lemma {:induction false} ConnsConcat(a: seq<Upgraded>, b: seq<Upgraded>)
    ensures Conns(a + b) == Conns(a) + Conns(b)
  {
    if a == [] {
      assert a + b == b;
    } else {
      assert (a + b)[1..] == a[1..] + b;
      ConnsConcat(a[1..], b);
    }
  }

  lemma ConnsSnoc(s: seq<Upgraded>, u: Upgraded)
    ensures Conns(s + [u]) == Conns(s) + [u.conn]
  {
    ConnsConcat(s, [u]);
    assert Conns([u]) == [u.conn] + Conns([]);
  }

  lemma {:induction false} ConnsRemove(s: seq<Upgraded>, u: Upgraded, c: Conn)
    requires u in s
    ensures Count(Conns(s), c) == Count(Conns(Remove(s, u)), c) + if u.conn == c then 1 else 0
  {
    assert s == [s[0]] + s[1..];
    if s[0] != u {
      ConnsRemove(s[1..], u, c);
      assert Remove(s, u)[1..] == Remove(s[1..], u);
    }
  }

  lemma QueuedRemoveCount(ready: seq<AcceptResult>, i: nat, c: Conn)
    requires i < |ready|
    ensures Count(Queued(ready), c) == Count(Queued(RemoveAt(ready, i)), c) + if ready[i] == Accepted(c) then 1 else 0
  {
    QueuedSplits(ready, i);
    var front, back := Queued(ready[..i]), Queued(ready[i + 1..]);
    var one := if ready[i].Accepted? then [ready[i].conn] else [];
    CountConcat(front + one, back, c);
    CountConcat(front, one, c);
    CountConcat(front, back, c);
    if ready[i].Accepted? {
      assert Count(one, c) == (if ready[i].conn == c then 1 else 0) + Count([], c);
    }
  }

  // ---------- every step conserves

  lemma AsyncAcceptKeepsQueue(a: Acceptor)
    ensures Queued(AsyncAccept(a).ready) == Queued(a.ready)
  {
    QueuedSnoc(a.ready, Refused(BadDescriptor));
  }

  /** The handler puts the connection it is given in one place. */
  lemma OnAcceptPlaces(s: Server, f: Family, r: AcceptResult, c: Conn)
    ensures Places(OnAccept(s, f, r), c) == Places(s, c) + if r == Accepted(c) then 1 else 0
  {
    AsyncAcceptKeepsQueue(Get(s, f).acceptor);
    if r.Accepted? {
      CountSnoc(s.upgrading, r.conn, c);
    }
  }

  lemma RunAcceptConserves(s: Server, f: Family, i: nat, c: Conn)
    requires Enabled(s, RunAccept(f, i))
    ensures Places(Step(s, RunAccept(f, i)), c) == Places(s, c)
  {
    var a := Get(s, f).acceptor;
    QueuedRemoveCount(a.ready, i, c);
    OnAcceptPlaces(WithAcceptor(s, f, Take(a, i)), f, a.ready[i], c);
  }

  lemma ArrivePlaces(s: Server, f: Family, id: nat, c: Conn)
    requires Enabled(s, Arrive(f, id))
    ensures Places(Step(s, Arrive(f, id)), c) == Places(s, c) + if Conn(f, id) == c then 1 else 0
  {
    var ready := Get(s, f).acceptor.ready;
    QueuedSnoc(ready, Accepted(Conn(f, id)));
    CountSnoc(Queued(ready), Conn(f, id), c);
  }

  lemma StopConserves(s: Server, c: Conn)
    ensures Places(Stop(s), c) == Places(s, c)
  {
    QueuedAfterClose(s.v4.acceptor);
    QueuedAfterClose(s.v6.acceptor);
  }

  lemma AcceptFailsConserves(s: Server, f: Family, ec: Failure, c: Conn)
    requires Enabled(s, AcceptFails(f, ec))
    ensures Places(Step(s, AcceptFails(f, ec)), c) == Places(s, c)
  {
    QueuedSnoc(Get(s, f).acceptor.ready, Refused(ec));
  }

  lemma StartConserves(s: Server, o4: Opening, o6: Opening, c: Conn)
    ensures Places(Start(s, o4, o6), c) == Places(s, c)
  {
  }

  lemma FinishUpgradeConserves(s: Server, conn: Conn, ec: ErrorCode, c: Conn)
    requires conn in s.upgrading
    ensures Places(Step(s, FinishUpgrade(conn, ec)), c) == Places(s, c)
  {
    CountRemove(s.upgrading, conn, c);
    ConnsSnoc(s.upgraded, Upgraded(conn, ec));
    CountSnoc(Conns(s.upgraded), conn, c);
  }

  /** The same for the upgrade's handler. */
  lemma OnUpgradePlaces(s: Server, conn: Conn, ec: ErrorCode, c: Conn)
    ensures Places(OnUpgrade(s, conn, ec), c) == Places(s, c) + if conn == c then 1 else 0
  {
    CountSnoc(s.failed, conn, c);
    CountSnoc(s.offered, conn, c);
  }

  lemma RunUpgradeConserves(s: Server, done: Upgraded, c: Conn)
    requires done in s.upgraded
    ensures Places(Step(s, RunUpgrade(done)), c) == Places(s, c)
  {
    ConnsRemove(s.upgraded, done, c);
    OnUpgradePlaces(s.(upgraded := Remove(s.upgraded, done)), done.conn, done.ec, c);
  }

  /** An arrival puts the new connection in one place; every other step moves connections about. */
  lemma StepConserves(s: Server, e: Event, c: Conn)
    requires Enabled(s, e)
    ensures Places(Step(s, e), c) == Places(s, c) + if e.Arrive? && Conn(e.family, e.id) == c then 1 else 0
  {
    match e
    case StartEv(o4, o6) => StartConserves(s, o4, o6, c);
    case StopEv => StopConserves(s, c);
    case Arrive(f, id) => ArrivePlaces(s, f, id, c);
    case AcceptFails(f, ec) => AcceptFailsConserves(s, f, ec, c);
    case RunAccept(f, i) => RunAcceptConserves(s, f, i, c);
    case FinishUpgrade(conn, ec) => FinishUpgradeConserves(s, conn, ec, c);
    case RunUpgrade(done) => RunUpgradeConserves(s, done, c);
  }

  lemma StepKeepsConserved(s: Server, e: Event, c: Conn)
    requires Conserved(s, c) && Enabled(s, e)
    ensures Conserved(Step(s, e), c)
  {
    StepConserves(s, e, c);
    if e.Arrive? {
      CountSnoc(s.accepted, Conn(e.family, e.id), c);
      CountIsMembership(s.accepted, c);
    }
  }

  lemma {:induction false} RunKeepsConserved(s: Server, events: seq<Event>, c: Conn)
    requires Conserved(s, c) && ValidRun(s, events)
    ensures Conserved(Run(s, events), c)
    decreases |events|
  {
    if events != [] {
      StepKeepsConserved(s, events[0], c);
      RunKeepsConserved(Step(s, events[0]), events[1..], c);
    }
  }

  // ---------- failed means failed, offered means upgraded

  function Ended(s: Server, c: Conn): nat {
    Count(Conns(s.upgraded), c) + Count(s.failed, c) + Count(s.offered, c)
  }

  /** A connection whose upgrade has ended went where the upgrade's error code sends it. */
  ghost predicate Sorted(s: Server, c: Conn) {
    && (c in s.outcome <==> Ended(s, c) > 0)
    && (forall u | u in s.upgraded :: u.conn == c ==> c in s.outcome && s.outcome[c] == u.ec)
    && (Count(s.failed, c) > 0 ==> c in s.outcome && s.outcome[c] != Success)
    && (Count(s.offered, c) > 0 ==> c in s.outcome && s.outcome[c] == Success)
  }

  lemma {:induction false} MemberCounts(s: seq<Upgraded>, u: Upgraded)
    requires u in s
    ensures Count(Conns(s), u.conn) > 0
  {
    if s[0] != u {
      assert s == [s[0]] + s[1..];
      MemberCounts(s[1..], u);
    }
  }

  lemma FinishUpgradeKeepsSorted(s: Server, conn: Conn, ec: ErrorCode, c: Conn)
    requires Conserved(s, c) && Sorted(s, c) && conn in s.upgrading
    ensures Sorted(Step(s, FinishUpgrade(conn, ec)), c)
  {
    ConnsSnoc(s.upgraded, Upgraded(conn, ec));
    CountSnoc(Conns(s.upgraded), conn, c);
    if conn == c {
      CountIsMembership(s.upgrading, c);
      forall u | u in s.upgraded ensures u.conn != c {
        MemberCounts(s.upgraded, u);
      }
    }
  }

  lemma RunUpgradeKeepsSorted(s: Server, done: Upgraded, c: Conn)
    requires Conserved(s, c) && Sorted(s, c) && done in s.upgraded
    ensures Sorted(Step(s, RunUpgrade(done)), c)
  {
    ConnsRemove(s.upgraded, done, c);
    RemoveIsSublist(s.upgraded, done);
    CountSnoc(s.failed, done.conn, c);
    CountSnoc(s.offered, done.conn, c);
  }

  lemma OtherKeepsSorted(s: Server, t: Server, c: Conn)
    requires Sorted(s, c)
    requires s.upgraded == t.upgraded && s.failed == t.failed && s.offered == t.offered && s.outcome == t.outcome
    ensures Sorted(t, c)
  {
  }

  lemma OtherKeepsLists(s: Server, e: Event)
    requires Enabled(s, e) && !e.FinishUpgrade? && !e.RunUpgrade?
    ensures var t := Step(s, e);
      s.upgraded == t.upgraded && s.failed == t.failed && s.offered == t.offered && s.outcome == t.outcome
  {
  }

  lemma StepKeepsSorted(s: Server, e: Event, c: Conn)
    requires Conserved(s, c) && Sorted(s, c) && Enabled(s, e)
    ensures Sorted(Step(s, e), c)
  {
    match e
    case FinishUpgrade(conn, ec) => FinishUpgradeKeepsSorted(s, conn, ec, c);
    case RunUpgrade(done) => RunUpgradeKeepsSorted(s, done, c);
    case _ =>
      OtherKeepsLists(s, e);
      OtherKeepsSorted(s, Step(s, e), c);
  }

  ghost predicate AllSorted(s: Server) { forall c: Conn :: Sorted(s, c) }

  lemma StepKeepsAll(s: Server, e: Event)
    requires AllConserved(s) && AllSorted(s) && Enabled(s, e)
    ensures AllConserved(Step(s, e)) && AllSorted(Step(s, e))
  {
    forall c: Conn ensures Conserved(Step(s, e), c) && Sorted(Step(s, e), c) {
      StepKeepsConserved(s, e, c);
      StepKeepsSorted(s, e, c);
    }
  }

  lemma {:induction false} RunKeepsSorted(s: Server, events: seq<Event>, c: Conn)
    requires Conserved(s, c) && Sorted(s, c) && ValidRun(s, events)
    ensures Sorted(Run(s, events), c)
    decreases |events|
  {
    if events != [] {
      StepKeepsConserved(s, events[0], c);
      StepKeepsSorted(s, events[0], c);
      RunKeepsSorted(Step(s, events[0]), events[1..], c);
    }
  }

  // ---------- the history is that of the events

  lemma StepRecords(s: Server, e: Event, c: Conn)
    requires Enabled(s, e)
    ensures var t := Step(s, e);
      && (c in t.accepted <==> c in s.accepted || e == Arrive(c.family, c.id))
      && (c in t.outcome ==> e == FinishUpgrade(c, t.outcome[c]) || (c in s.outcome && s.outcome[c] == t.outcome[c]))
  {
  }

  lemma {:induction false} RunRecords(s: Server, events: seq<Event>, c: Conn)
    requires ValidRun(s, events)
    ensures var t := Run(s, events);
      && (c in t.accepted <==> c in s.accepted || Arrive(c.family, c.id) in events)
      && (c in t.outcome ==> FinishUpgrade(c, t.outcome[c]) in events || (c in s.outcome && s.outcome[c] == t.outcome[c]))
    decreases |events|
  {
    if events != [] {
      assert events == [events[0]] + events[1..];
      StepRecords(s, events[0], c);
      RunRecords(Step(s, events[0]), events[1..], c);
    }
  }

  // ---------- the theorem

  /** In every reachable state each connection that arrived is in exactly one place, and no other connection is
      anywhere: none is lost, offered twice, or both offered and failed. It was offered only if its upgrade
      succeeded and dropped only if it failed. */
  lemma EachConnectionInOnePlace(s0: Server, events: seq<Event>, c: Conn)
    requires Initial(s0) && ValidRun(s0, events)
    ensures var s := Run(s0, events);
      && (c in s.accepted <==> Arrive(c.family, c.id) in events)
      && Places(s, c) == (if c in s.accepted then 1 else 0)
      && (c in s.offered ==> FinishUpgrade(c, Success) in events)
      && (c in s.failed ==> exists ec :: ec != Success && FinishUpgrade(c, ec) in events)
  {
    RunRecords(s0, events, c);
    RunKeepsConserved(s0, events, c);
    RunKeepsSorted(s0, events, c);
    var s := Run(s0, events);
    CountIsMembership(s.accepted, c);
    CountIsMembership(s.offered, c);
    CountIsMembership(s.failed, c);
  }
}
