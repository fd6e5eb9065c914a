/** The accept loop of `TcpServer` and `LocalServer`: one acceptor, opened by the constructor, whose handler
    offers the new stream to the user's callback and then accepts again. */
module AcceptLoop {
  import opened Common
  import opened Acceptors

  /** `running` are the handlers inside the user's callback; the rest after the acceptor is history. */
  datatype Loop = Loop(acceptor: Acceptor, running: seq<Conn>,
                       accepted: seq<Conn>, offered: seq<Conn>, starts: nat, errors: nat)

  function Fresh(): Loop { Loop(Acceptor(true, 0, []), [], [], [], 0, 0) }

  datatype Event =
    | Start | Stop
    | Arrive(conn: Conn)           // an outstanding accept succeeds
    | AcceptFails(ec: Failure)     // an outstanding accept fails
    | Begin(i: nat)                // a ready handler runs up to the callback
    | End(i: nat, threw: bool)     // the callback returns or throws, and the handler finishes

  predicate Enabled(s: Loop, e: Event) {
    match e
    case Start => true
    case Stop => true
    case Arrive(_) => s.acceptor.pending > 0
    case AcceptFails(_) => s.acceptor.pending > 0
    case Begin(i) => i < |s.acceptor.ready|
    case End(i, _) => i < |s.running|
  }

  function StartAccept(s: Loop): Loop { s.(acceptor := AsyncAccept(s.acceptor)) }

  function BeginHandler(s: Loop, r: AcceptResult): Loop {
    match r
    case Refused(_) => s.(errors := s.errors + 1)
    case Accepted(conn) => s.(running := s.running + [conn], offered := s.offered + [conn])
  }

  /** An exception from the callback is swallowed, so it makes no difference. */
  function EndHandler(s: Loop, i: nat): Loop
    requires i < |s.running|
  {
    StartAccept(s.(running := RemoveAt(s.running, i)))
  }

  function Step(s: Loop, e: Event): Loop
    requires Enabled(s, e)
  {
    match e
    case Start => StartAccept(s.(starts := s.starts + 1))
    case Stop => s.(acceptor := CloseAcceptor(s.acceptor))
    case Arrive(conn) => s.(acceptor := Deliver(s.acceptor, Accepted(conn)), accepted := s.accepted + [conn])
    case AcceptFails(ec) => s.(acceptor := Deliver(s.acceptor, Refused(ec)))
    case Begin(i) => BeginHandler(s.(acceptor := Take(s.acceptor, i)), s.acceptor.ready[i])
    case End(i, _) => EndHandler(s, i)
  }

  predicate ValidRun(s: Loop, events: seq<Event>)
    decreases |events|
  {
    events == [] || (Enabled(s, events[0]) && ValidRun(Step(s, events[0]), events[1..]))
  }

  function Run(s: Loop, events: seq<Event>): Loop
    requires ValidRun(s, events)
    decreases |events|
  {
    if events == [] then s else Run(Step(s, events[0]), events[1..])
  }

  // ---------- the invariant

  /** Accepts outstanding, ready to be handled, or being handled. */
  function Tokens(s: Loop): nat { s.acceptor.pending + |s.acceptor.ready| + |s.running| }

  /** Each `start` is an accept under way or one that ended in an error. */
  ghost predicate Counted(s: Loop) {
    Tokens(s) + s.errors == s.starts && (s.acceptor.pending > 0 ==> s.acceptor.open)
  }

  /** Every accepted connection has been offered or waits for its handler; for a single loop in order. */
  ghost predicate Offered(s: Loop) {
    && multiset(s.accepted) == multiset(s.offered) + multiset(Queued(s.acceptor.ready))
    && (s.starts <= 1 ==> s.accepted == s.offered + Queued(s.acceptor.ready))
  }

  ghost predicate Inv(s: Loop) { Counted(s) && Offered(s) }

  lemma BeginKeepsAll(s: Loop, i: nat)
    requires i < |s.acceptor.ready|
    requires multiset(s.accepted) == multiset(s.offered) + multiset(Queued(s.acceptor.ready))
    ensures var t := BeginHandler(s.(acceptor := Take(s.acceptor, i)), s.acceptor.ready[i]);
      multiset(t.accepted) == multiset(t.offered) + multiset(Queued(t.acceptor.ready))
  {
    QueuedRemove(s.acceptor.ready, i);
    var rest := RemoveAt(s.acceptor.ready, i);
    match s.acceptor.ready[i]
    case Refused(_) =>
    case Accepted(conn) => assert multiset(s.offered + [conn]) == multiset(s.offered) + multiset{conn};
  }

  lemma BeginKeepsOrder(s: Loop, i: nat)
    requires i < |s.acceptor.ready| == 1
    requires s.accepted == s.offered + Queued(s.acceptor.ready)
    ensures var t := BeginHandler(s.(acceptor := Take(s.acceptor, i)), s.acceptor.ready[i]);
      t.accepted == t.offered + Queued(t.acceptor.ready)
  {
    var ready := s.acceptor.ready;
    assert ready[1..] == [] && RemoveAt(ready, i) == [];
  }

  lemma ArriveKeepsOffered(s: Loop, conn: Conn)
    requires Offered(s) && s.acceptor.pending > 0
    ensures Offered(Step(s, Arrive(conn)))
  {
    var queued := Queued(s.acceptor.ready);
    QueuedSnoc(s.acceptor.ready, Accepted(conn));
    assert multiset(queued + [conn]) == multiset(queued) + multiset{conn};
    assert multiset(s.accepted + [conn]) == multiset(s.accepted) + multiset{conn};
    assert s.offered + (queued + [conn]) == s.offered + queued + [conn];
  }

  lemma StepKeepsOffered(s: Loop, e: Event)
    requires Inv(s) && Enabled(s, e)
    ensures Offered(Step(s, e))
  {
    var ready := s.acceptor.ready;
    match e
    case Start => QueuedSnoc(ready, Refused(BadDescriptor));
    case Stop => QueuedAfterClose(s.acceptor);
    case Arrive(conn) => ArriveKeepsOffered(s, conn);
    case AcceptFails(ec) => QueuedSnoc(ready, Refused(ec));
    case Begin(i) =>
      BeginKeepsAll(s, i);
      if s.starts <= 1 {
        BeginKeepsOrder(s, i);
      }
    case End(i, _) => QueuedSnoc(ready, Refused(BadDescriptor));
  }

  lemma StepKeepsCounted(s: Loop, e: Event)
    requires Counted(s) && Enabled(s, e)
    ensures Counted(Step(s, e))
  {
  }

  lemma StepKeepsInv(s: Loop, e: Event)
    requires Inv(s) && Enabled(s, e)
    ensures Inv(Step(s, e))
  {
    StepKeepsCounted(s, e);
    StepKeepsOffered(s, e);
  }

  predicate Initial(s: Loop) { s == Fresh() }

  lemma InitialKeepsInv(s: Loop)
    requires Initial(s)
    ensures Unstarted(s)
  {
    assert Serving(s);
    var none: seq<Conn> := [];
    assert s.accepted == none && s.offered == none && Queued(s.acceptor.ready) == none;
    assert multiset(none) == multiset{};
    assert none + none == none;
  }

  lemma {:induction false} RunKeepsInv(s: Loop, events: seq<Event>)
    requires Inv(s) && ValidRun(s, events)
    ensures Inv(Run(s, events))
    decreases |events|
  {
    if events != [] {
      StepKeepsInv(s, events[0]);
      RunKeepsInv(Step(s, events[0]), events[1..]);
    }
  }

  function CountStarts(events: seq<Event>): nat {
    if events == [] then 0 else (if events[0].Start? then 1 else 0) + CountStarts(events[1..])
  }

  lemma {:induction false} StartsCounted(s: Loop, events: seq<Event>)
    requires ValidRun(s, events)
    ensures Run(s, events).starts == s.starts + CountStarts(events)
    decreases |events|
  {
    if events != [] {
      StartsCounted(Step(s, events[0]), events[1..]);
    }
  }

  /** The connections that the library delivered, in order. */
  function Arrivals(events: seq<Event>): seq<Conn> {
    if events == [] then [] else ArrivalsOf(events[0]) + Arrivals(events[1..])
  }

  function ArrivalsOf(e: Event): seq<Conn> { if e.Arrive? then [e.conn] else [] }

  lemma {:induction false} AcceptedAreArrivals(s: Loop, events: seq<Event>)
    requires ValidRun(s, events)
    ensures Run(s, events).accepted == s.accepted + Arrivals(events)
    decreases |events|
  {
    if events != [] {
      var t, rest := Step(s, events[0]), events[1..];
      StepAccepts(s, events[0]);
      AcceptedAreArrivals(t, rest);
      Reassociate(s.accepted, ArrivalsOf(events[0]), Arrivals(rest));
    } else {
      assert s.accepted + [] == s.accepted;
    }
  }

  lemma StepAccepts(s: Loop, e: Event)
    requires Enabled(s, e)
    ensures Step(s, e).accepted == s.accepted + ArrivalsOf(e)
  {
    assert s.accepted + [] == s.accepted;
  }

  lemma Reassociate<T>(a: seq<T>, b: seq<T>, c: seq<T>)
    ensures a + b + c == a + (b + c)
  {
  }

  /** No start has been made and nothing has been accepted. */
  ghost predicate Unstarted(s: Loop) {
    Inv(s) && s.starts == 0 && s.accepted == [] && Serving(s)
  }

  /** What the invariant comes to after a run. */
  lemma Summary(s: Loop, events: seq<Event>)
    requires Unstarted(s) && ValidRun(s, events)
    ensures var t := Run(s, events);
      && Inv(t) && t.starts == CountStarts(events)
      && Tokens(t) + t.errors == CountStarts(events)
      && t.accepted == Arrivals(events) && multiset(t.accepted) == multiset(t.offered) + multiset(Queued(t.acceptor.ready))
      && (CountStarts(events) <= 1 ==> t.accepted == t.offered + Queued(t.acceptor.ready))
  {
    RunKeepsInv(s, events);
    StartsCounted(s, events);
    AcceptedAreArrivals(s, events);
    assert s.accepted + Arrivals(events) == Arrivals(events);
  }

  ghost predicate Serving(s: Loop) {
    s.acceptor.open && s.errors == 0 && forall r | r in s.acceptor.ready :: r.Accepted?
  }

  predicate Undisturbed(events: seq<Event>) { forall e | e in events :: !e.Stop? && !e.AcceptFails? }

  lemma {:induction false} RunKeepsServing(s: Loop, events: seq<Event>)
    requires Serving(s) && ValidRun(s, events) && Undisturbed(events)
    ensures Serving(Run(s, events))
    decreases |events|
  {
    if events != [] {
      assert events[0] in events;
      assert events[0].Begin? ==> s.acceptor.ready[events[0].i] in s.acceptor.ready;
      RunKeepsServing(Step(s, events[0]), events[1..]);
    }
  }

  lemma {:induction false} AllQueued(ready: seq<AcceptResult>)
    requires forall r | r in ready :: r.Accepted?
    ensures |Queued(ready)| == |ready|
  {
    if ready != [] {
      AllQueued(ready[1..]);
    }
  }

  lemma ServingSummary(s: Loop, events: seq<Event>)
    requires Unstarted(s) && ValidRun(s, events) && Undisturbed(events)
    ensures var t := Run(s, events);
      && t.acceptor.open && t.errors == 0
      && t.acceptor.pending + |Queued(t.acceptor.ready)| + |t.running| == CountStarts(events)
  {
    Summary(s, events);
    RunKeepsServing(s, events);
    AllQueued(Run(s, events).acceptor.ready);
  }

  lemma OneLoopFrom(s0: Loop, events: seq<Event>)
    requires Unstarted(s0) && ValidRun(s0, events) && CountStarts(events) == 1
    ensures var s := Run(s0, events);
      && s.errors <= 1 && Tokens(s) == 1 - s.errors
      && s.accepted == Arrivals(events) == s.offered + Queued(s.acceptor.ready)
      && |Queued(s.acceptor.ready)| <= 1
  {
    Summary(s0, events);
    var ready := Run(s0, events).acceptor.ready;
    if ready != [] {
      assert ready == [ready[0]] && ready[1..] == [];
    }
  }

  /** After one `start`, whatever arrives, throws or is stopped: until the first accept error exactly one accept
      is outstanding, ready or in its callback, after it none; the streams offered are the connections
      that arrived, in order, without the last one while its handler has yet to run. */
  lemma OneLoop(s0: Loop, events: seq<Event>)
    requires Initial(s0) && ValidRun(s0, events) && CountStarts(events) == 1
    ensures var s := Run(s0, events);
      && s.errors <= 1 && Tokens(s) == 1 - s.errors
      && s.accepted == Arrivals(events) == s.offered + Queued(s.acceptor.ready)
      && |Queued(s.acceptor.ready)| <= 1
  {
    InitialKeepsInv(s0);
    OneLoopFrom(s0, events);
  }

  /** A new server accepts: until a stop or a failed accept, none of the accepts started ends, each is outstanding, has
      a connection to hand over, or is in its callback. */
  lemma ServesUntilDisturbed(s0: Loop, events: seq<Event>)
    requires Initial(s0) && ValidRun(s0, events) && Undisturbed(events)
    ensures var s := Run(s0, events);
      && s.acceptor.open && s.errors == 0
      && s.acceptor.pending + |Queued(s.acceptor.ready)| + |s.running| == CountStarts(events)
  {
    InitialKeepsInv(s0);
    ServingSummary(s0, events);
  }

  /** Any number of `start` calls makes that many loops, and still offers every accepted connection once. */
  lemma ManyLoops(s0: Loop, events: seq<Event>)
    requires Initial(s0) && ValidRun(s0, events)
    ensures var s := Run(s0, events);
      && Tokens(s) + s.errors == CountStarts(events)
      && s.accepted == Arrivals(events)
      && multiset(s.accepted) == multiset(s.offered) + multiset(Queued(s.acceptor.ready))
  {
    InitialKeepsInv(s0);
    Summary(s0, events);
  }

  // ---------- stop

  /** The handler steps still to come once the acceptor is closed. */
  function Remaining(s: Loop): nat { Weight(s.acceptor.ready) + 2 * |s.running| }

  predicate Stopped(s: Loop) { !s.acceptor.open && s.acceptor.pending == 0 }

  lemma StoppedStep(s: Loop, e: Event)
    requires Stopped(s) && Enabled(s, e)
    ensures var t := Step(s, e);
      && Stopped(t) && t.accepted == s.accepted
      && (e.Begin? || e.End? ==> Remaining(t) < Remaining(s))
      && (e.Start? ==> Remaining(t) == Remaining(s) + 1)
      && (e.Stop? ==> Remaining(t) == Remaining(s))
  {
    var ready := s.acceptor.ready;
    WeightConcat(ready, [Refused(BadDescriptor)]);
    assert Weight([Refused(BadDescriptor)]) == 1;
    match e
    case Begin(i) => WeightRemove(ready, i);
    case Stop => assert ready + [] == ready;
    case _ =>
  }

  function CountHandlers(events: seq<Event>): nat {
    if events == [] then 0 else (if events[0].Begin? || events[0].End? then 1 else 0) + CountHandlers(events[1..])
  }

  lemma {:induction false} StoppedRun(s: Loop, events: seq<Event>)
    requires Stopped(s) && ValidRun(s, events)
    ensures var t := Run(s, events);
      && Stopped(t) && t.accepted == s.accepted
      && CountHandlers(events) + Remaining(t) <= Remaining(s) + CountStarts(events)
    decreases |events|
  {
    if events != [] {
      StoppedStep(s, events[0]);
      StoppedRun(Step(s, events[0]), events[1..]);
    }
  }

  lemma AllOfferedWhenDone(s: Loop)
    requires Inv(s) && Stopped(s)
    ensures Remaining(s) == 0 <==> Tokens(s) == 0
    ensures Remaining(s) == 0 ==> multiset(s.offered) == multiset(s.accepted)
  {
    QueuedIsWeighed(s.acceptor.ready);
  }

  ghost predicate Reachable(s: Loop) {
    exists s0, events :: Initial(s0) && ValidRun(s0, events) && Run(s0, events) == s
  }

  lemma ReachableKeepsInv(s: Loop)
    requires Reachable(s)
    ensures Inv(s)
  {
    var s0, events :| Initial(s0) && ValidRun(s0, events) && Run(s0, events) == s;
    InitialKeepsInv(s0);
    RunKeepsInv(s0, events);
  }

  lemma StoppedSummary(stopped: Loop, after: seq<Event>)
    requires Inv(stopped) && Stopped(stopped) && ValidRun(stopped, after)
    ensures var t := Run(stopped, after);
      && t.acceptor.pending == 0 && !t.acceptor.open
      && t.accepted == stopped.accepted
      && CountHandlers(after) + Remaining(t) <= Remaining(stopped) + CountStarts(after)
      && (Remaining(t) == 0 <==> Tokens(t) == 0)
      && (Remaining(t) == 0 ==> multiset(t.offered) == multiset(t.accepted))
  {
    RunKeepsInv(stopped, after);
    StoppedRun(stopped, after);
    AllOfferedWhenDone(Run(stopped, after));
  }

  /** `stop` at any point of any run, also inside the callback, ends the loop: no accept is outstanding or will
      be again, nothing more is accepted, a bounded number of handler steps is left, and when they have run,
      every connection ever accepted has been offered and no handler is left. */
  lemma StopEndsLoop(s: Loop, after: seq<Event>)
    requires Reachable(s) && ValidRun(Step(s, Stop), after)
    ensures var stopped := Step(s, Stop);
      var t := Run(stopped, after);
      && t.acceptor.pending == 0 && !t.acceptor.open
      && t.accepted == s.accepted
      && CountHandlers(after) + Remaining(t) <= Remaining(stopped) + CountStarts(after)
      && (Remaining(t) == 0 <==> Tokens(t) == 0)
      && (Remaining(t) == 0 ==> multiset(t.offered) == multiset(t.accepted))
  {
    ReachableKeepsInv(s);
    StepKeepsInv(s, Stop);
    StoppedSummary(Step(s, Stop), after);
  }
}
