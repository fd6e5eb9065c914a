/** The v4 and the v6 accept loop of a websocket server do not affect each other. */
module WebsocketIsolation {
  import opened Common
  import opened Counting
  import opened Acceptors
  import opened WebsocketServerModel

  function Keep<T>(p: T -> bool, s: seq<T>): seq<T> {
    if s == [] then [] else (if p(s[0]) then [s[0]] else []) + Keep(p, s[1..])
  }

  function Of(f: Family): Conn -> bool { (c: Conn) => c.family == f }

  function UpgradedOf(f: Family): Upgraded -> bool { (u: Upgraded) => u.conn.family == f }

  /** Everything about a server that concerns one address family. */
  datatype Share = Share(listener: Listener, upgrading: seq<Conn>, upgraded: seq<Upgraded>,
                         accepted: seq<Conn>, failed: seq<Conn>, offered: seq<Conn>)

  function View(s: Server, f: Family): Share {
    Share(Get(s, f), Keep(Of(f), s.upgrading), Keep(UpgradedOf(f), s.upgraded),
          Keep(Of(f), s.accepted), Keep(Of(f), s.failed), Keep(Of(f), s.offered))
  }

  /** Start and stop are common to both families; every other event belongs to one. */
  predicate Concerns(e: Event, f: Family) {
    match e
    case StartEv(_, _) => true
    case StopEv => true
    case Arrive(g, _) => g == f
    case AcceptFails(g, _) => g == f
    case RunAccept(g, _) => g == f
    case FinishUpgrade(conn, _) => conn.family == f
    case RunUpgrade(done) => done.conn.family == f
  }

  function Purge(events: seq<Event>, f: Family): seq<Event> {
    if events == [] then []
    else (if Concerns(events[0], f) then [events[0]] else []) + Purge(events[1..], f)
  }

  /** Each acceptor delivers connections of its own family. */
  ghost predicate Tagged(s: Server) {
    && (forall r | r in s.v4.acceptor.ready :: r.Accepted? ==> r.conn.family == V4)
    && (forall r | r in s.v6.acceptor.ready :: r.Accepted? ==> r.conn.family == V6)
  }

  /** Alike for family f; whether v4 is open decides whether a bind error can keep v6 from starting. */
  predicate Alike(s: Server, t: Server, f: Family) {
    View(s, f) == View(t, f) && s.v4.acceptor.open == t.v4.acceptor.open
  }

  // ---------- lists

  lemma KeepCons<T>(p: T -> bool, x: T, s: seq<T>)
    ensures Keep(p, [x] + s) == if p(x) then [x] + Keep(p, s) else Keep(p, s)
  {
    assert ([x] + s)[1..] == s;
  }

  lemma {:induction false} KeepSnoc<T>(p: T -> bool, s: seq<T>, x: T)
    ensures Keep(p, s + [x]) == if p(x) then Keep(p, s) + [x] else Keep(p, s)
  {
    if s == [] {
      KeepCons(p, x, []);
    } else {
      assert s == [s[0]] + s[1..] && s + [x] == [s[0]] + (s[1..] + [x]);
      KeepCons(p, s[0], s[1..]);
      KeepCons(p, s[0], s[1..] + [x]);
      KeepSnoc(p, s[1..], x);
    }
  }

  lemma {:induction false} KeepMembers<T>(p: T -> bool, s: seq<T>, x: T)
    requires p(x)
    ensures x in Keep(p, s) <==> x in s
  {
    if s != [] {
      assert s == [s[0]] + s[1..];
      KeepMembers(p, s[1..], x);
    }
  }

  lemma {:induction false} KeepRemove<T>(p: T -> bool, s: seq<T>, x: T)
    ensures Keep(p, Remove(s, x)) == if p(x) then Remove(Keep(p, s), x) else Keep(p, s)
  {
    if s != [] {
      var y, tail := s[0], s[1..];
      assert s == [y] + tail;
      KeepCons(p, y, tail);
      KeepRemove(p, tail, x);
      if y != x {
        KeepCons(p, y, Remove(tail, x));
        if p(y) && p(x) {
          assert ([y] + Keep(p, tail))[1..] == Keep(p, tail);
        }
      } else if p(y) {
        assert ([y] + Keep(p, tail))[1..] == Keep(p, tail);
      }
    }
  }

  // ---------- steps

  lemma TakeKeepsMembers(a: Acceptor, i: nat)
    requires i < |a.ready|
    ensures forall r | r in Take(a, i).ready :: r in a.ready
  {
  }

  lemma StepKeepsTagged(s: Server, e: Event)
    requires Tagged(s) && Enabled(s, e)
    ensures Tagged(Step(s, e))
  {
    if e.RunAccept? {
      TakeKeepsMembers(Get(s, e.family).acceptor, e.i);
    }
  }

  /** A step of the other family is not seen. */
  lemma OtherStepIsUnseen(s: Server, e: Event, f: Family)
    requires Tagged(s) && Enabled(s, e) && !Concerns(e, f)
    ensures Alike(Step(s, e), s, f)
  {
    match e
    case Arrive(g, id) => KeepSnoc(Of(f), s.accepted, Conn(g, id));
    case AcceptFails(g, ec) =>
    case RunAccept(g, i) =>
      var r := Get(s, g).acceptor.ready[i];
      assert r in Get(s, g).acceptor.ready;
      if r.Accepted? {
        KeepSnoc(Of(f), s.upgrading, r.conn);
      }
    case FinishUpgrade(conn, ec) =>
      KeepRemove(Of(f), s.upgrading, conn);
      KeepSnoc(UpgradedOf(f), s.upgraded, Upgraded(conn, ec));
    case RunUpgrade(done) =>
      KeepRemove(UpgradedOf(f), s.upgraded, done);
      KeepSnoc(Of(f), s.failed, done.conn);
      KeepSnoc(Of(f), s.offered, done.conn);
  }

  lemma OwnAcceptKeepsAlike(s: Server, t: Server, e: Event, f: Family)
    requires Alike(s, t, f) && Enabled(s, e) && Concerns(e, f) && (e.Arrive? || e.RunAccept?)
    ensures Enabled(t, e) && Alike(Step(s, e), Step(t, e), f)
  {
    if e.Arrive? {
      var conn := Conn(f, e.id);
      KeepMembers(Of(f), s.accepted, conn);
      KeepMembers(Of(f), t.accepted, conn);
      KeepSnoc(Of(f), s.accepted, conn);
      KeepSnoc(Of(f), t.accepted, conn);
    } else {
      var r := Get(s, f).acceptor.ready[e.i];
      if r.Accepted? {
        KeepSnoc(Of(f), s.upgrading, r.conn);
        KeepSnoc(Of(f), t.upgrading, r.conn);
      }
    }
  }

  /** What an upgrade step of family f does to the share of f, which is all it depends on. */
  function UpgradeShare(v: Share, e: Event): Share
    requires e.FinishUpgrade? || e.RunUpgrade?
  {
    match e
    case FinishUpgrade(conn, ec) =>
      v.(upgrading := Remove(v.upgrading, conn), upgraded := v.upgraded + [Upgraded(conn, ec)])
    case RunUpgrade(done) =>
      var w := v.(upgraded := Remove(v.upgraded, done));
      if done.ec != Success then w.(failed := w.failed + [done.conn]) else w.(offered := w.offered + [done.conn])
  }

  lemma UpgradeStepViewed(s: Server, e: Event, f: Family)
    requires Enabled(s, e) && Concerns(e, f) && (e.FinishUpgrade? || e.RunUpgrade?)
    ensures View(Step(s, e), f) == UpgradeShare(View(s, f), e) && Step(s, e).v4 == s.v4
  {
    match e
    case FinishUpgrade(conn, ec) =>
      KeepRemove(Of(f), s.upgrading, conn);
      KeepSnoc(UpgradedOf(f), s.upgraded, Upgraded(conn, ec));
    case RunUpgrade(done) =>
      KeepRemove(UpgradedOf(f), s.upgraded, done);
      KeepSnoc(Of(f), s.failed, done.conn);
      KeepSnoc(Of(f), s.offered, done.conn);
  }

  lemma UpgradeEnabled(s: Server, t: Server, e: Event, f: Family)
    requires Alike(s, t, f) && Enabled(s, e) && Concerns(e, f) && (e.FinishUpgrade? || e.RunUpgrade?)
    ensures Enabled(t, e)
  {
    match e
    case FinishUpgrade(conn, ec) =>
      KeepMembers(Of(f), s.upgrading, conn);
      KeepMembers(Of(f), t.upgrading, conn);
    case RunUpgrade(done) =>
      KeepMembers(UpgradedOf(f), s.upgraded, done);
      KeepMembers(UpgradedOf(f), t.upgraded, done);
  }

  lemma OwnUpgradeKeepsAlike(s: Server, t: Server, e: Event, f: Family)
    requires Alike(s, t, f) && Enabled(s, e) && Concerns(e, f) && (e.FinishUpgrade? || e.RunUpgrade?)
    ensures Enabled(t, e) && Alike(Step(s, e), Step(t, e), f)
  {
    UpgradeEnabled(s, t, e, f);
    UpgradeStepViewed(s, e, f);
    UpgradeStepViewed(t, e, f);
  }

  /** What a start does to one listener, given only whether the v4 acceptor is open already. */
  function Started(l: Listener, f: Family, v4Open: bool, o4: Opening, o6: Opening): Listener {
    if f == V4 then StartListener(l, o4).0
    else if !v4Open && o4 == BindThrows then l
    else StartListener(l, o6).0
  }

  lemma StartViewed(s: Server, o4: Opening, o6: Opening, f: Family)
    ensures var t := Start(s, o4, o6);
      && View(t, f) == View(s, f).(listener := Started(Get(s, f), f, s.v4.acceptor.open, o4, o6))
      && t.v4.acceptor.open == (s.v4.acceptor.open || o4 != OpenFails)
  {
  }

  lemma StopViewed(s: Server, f: Family)
    ensures View(Stop(s), f) == View(s, f).(listener := StopListener(Get(s, f)))
  {
  }

  lemma CommonStepKeepsAlike(s: Server, t: Server, e: Event, f: Family)
    requires Alike(s, t, f) && (e.StartEv? || e.StopEv?)
    ensures Alike(Step(s, e), Step(t, e), f)
  {
    match e
    case StartEv(o4, o6) =>
      StartViewed(s, o4, o6, f);
      StartViewed(t, o4, o6, f);
    case StopEv =>
      StopViewed(s, f);
      StopViewed(t, f);
  }

  lemma OwnFailureKeepsAlike(s: Server, t: Server, error: Failure, f: Family)
    requires Alike(s, t, f) && Enabled(s, AcceptFails(f, error))
    ensures Alike(Step(s, AcceptFails(f, error)), Step(t, AcceptFails(f, error)), f)
  {
  }

  /** A step of family f is possible in both of two servers that are alike for f, and keeps them alike. */
  lemma OwnStepKeepsAlike(s: Server, t: Server, e: Event, f: Family)
    requires Alike(s, t, f) && Enabled(s, e) && Concerns(e, f)
    ensures Enabled(t, e) && Alike(Step(s, e), Step(t, e), f)
  {
    match e
    case StartEv(_, _) => CommonStepKeepsAlike(s, t, e, f);
    case StopEv => CommonStepKeepsAlike(s, t, e, f);
    case Arrive(_, _) => OwnAcceptKeepsAlike(s, t, e, f);
    case AcceptFails(_, error) => OwnFailureKeepsAlike(s, t, error, f);
    case RunAccept(_, _) => OwnAcceptKeepsAlike(s, t, e, f);
    case FinishUpgrade(_, _) => OwnUpgradeKeepsAlike(s, t, e, f);
    case RunUpgrade(_) => OwnUpgradeKeepsAlike(s, t, e, f);
  }

  lemma {:induction false} PurgedRunIsAlike(s: Server, t: Server, events: seq<Event>, f: Family)
    requires Tagged(s) && Alike(s, t, f) && ValidRun(s, events)
    ensures ValidRun(t, Purge(events, f)) && Alike(Run(s, events), Run(t, Purge(events, f)), f)
    decreases |events|
  {
    if events != [] {
      var e := events[0];
      StepKeepsTagged(s, e);
      if Concerns(e, f) {
        OwnStepKeepsAlike(s, t, e, f);
        PurgedRunIsAlike(Step(s, e), Step(t, e), events[1..], f);
        assert Purge(events, f)[1..] == Purge(events[1..], f);
      } else {
        OtherStepIsUnseen(s, e, f);
        assert Purge(events, f) == Purge(events[1..], f);
        PurgedRunIsAlike(Step(s, e), t, events[1..], f);
      }
    }
  }

  /** Take any run and delete all connections, failures, handlers and upgrades of the other family: the run is
      still possible, and the listener and every list of connections of this family end up the same. */
  lemma FamiliesAreIsolated(s0: Server, events: seq<Event>, f: Family)
    requires Initial(s0) && ValidRun(s0, events)
    ensures ValidRun(s0, Purge(events, f))
    ensures View(Run(s0, events), f) == View(Run(s0, Purge(events, f)), f)
  {
    PurgedRunIsAlike(s0, s0, events, f);
  }
}
