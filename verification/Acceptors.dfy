/** An acceptor of the I/O library: outstanding accepts and accept handlers that are ready to run. */
module Acceptors {
  import opened Common

  datatype Family = V4 | V6

  /** Every connection is a new one. The family matters to the websocket server alone, which has two acceptors. */
  datatype Conn = Conn(family: Family, id: nat)

  datatype AcceptResult = Accepted(conn: Conn) | Refused(ec: Failure)

  datatype Acceptor = Acceptor(open: bool, pending: nat, ready: seq<AcceptResult>)

  /** Accepting on a closed acceptor completes at once with an error. */
  function AsyncAccept(a: Acceptor): Acceptor {
    if a.open then a.(pending := a.pending + 1) else a.(ready := a.ready + [Refused(BadDescriptor)])
  }

  function Aborts(n: nat): (r: seq<AcceptResult>)
    ensures |r| == n && Queued(r) == [] && forall x | x in r :: x.Refused?
  {
    if n == 0 then [] else [Refused(OperationAborted)] + Aborts(n - 1)
  }

  /** Closing aborts what is pending; it cannot recall a handler that is ready. */
  function CloseAcceptor(a: Acceptor): Acceptor {
    Acceptor(false, 0, a.ready + Aborts(a.pending))
  }

  function Deliver(a: Acceptor, r: AcceptResult): Acceptor
    requires a.pending > 0
  {
    a.(pending := a.pending - 1, ready := a.ready + [r])
  }

  function Take(a: Acceptor, i: nat): Acceptor
    requires i < |a.ready|
  {
    a.(ready := RemoveAt(a.ready, i))
  }

  /** The connections whose accept handler has not run yet. */
  function Queued(ready: seq<AcceptResult>): seq<Conn> {
    if ready == [] then []
    else (if ready[0].Accepted? then [ready[0].conn] else []) + Queued(ready[1..])
  }

  lemma {:induction false} QueuedConcat(a: seq<AcceptResult>, b: seq<AcceptResult>)
    ensures Queued(a + b) == Queued(a) + Queued(b)
  {
    if a == [] {
      assert a + b == b;
    } else {
      assert (a + b)[0] == a[0] && (a + b)[1..] == a[1..] + b;
      QueuedConcat(a[1..], b);
      var head := if a[0].Accepted? then [a[0].conn] else [];
      assert head + (Queued(a[1..]) + Queued(b)) == head + Queued(a[1..]) + Queued(b);
    }
  }

  lemma QueuedSnoc(ready: seq<AcceptResult>, r: AcceptResult)
    ensures Queued(ready + [r]) == if r.Accepted? then Queued(ready) + [r.conn] else Queued(ready)
  {
    QueuedConcat(ready, [r]);
    assert Queued([r]) == if r.Accepted? then [r.conn] else [];
  }

  lemma QueuedRemove(ready: seq<AcceptResult>, i: nat)
    requires i < |ready|
    ensures var conns := if ready[i].Accepted? then multiset{ready[i].conn} else multiset{};
      && multiset(Queued(ready)) == multiset(Queued(RemoveAt(ready, i))) + conns
      && |Queued(ready)| == |Queued(RemoveAt(ready, i))| + |conns|
  {
    QueuedSplits(ready, i);
    var one := if ready[i].Accepted? then [ready[i].conn] else [];
    MultisetInsert(Queued(ready[..i]), one, Queued(ready[i + 1..]));
  }

  lemma QueuedSplits(ready: seq<AcceptResult>, i: nat)
    requires i < |ready|
    ensures var front, back := Queued(ready[..i]), Queued(ready[i + 1..]);
      && Queued(ready) == front + (if ready[i].Accepted? then [ready[i].conn] else []) + back
      && Queued(RemoveAt(ready, i)) == front + back
  {
    var one := [ready[i]];
    assert ready == ready[..i] + one + ready[i + 1..];
    QueuedConcat(ready[..i] + one, ready[i + 1..]);
    QueuedConcat(ready[..i], one);
    QueuedConcat(ready[..i], ready[i + 1..]);
    assert Queued(one) == if ready[i].Accepted? then [ready[i].conn] else [];
  }

  lemma MultisetInsert(front: seq<Conn>, middle: seq<Conn>, back: seq<Conn>)
    ensures multiset(front + middle + back) == multiset(front + back) + multiset(middle)
  {
  }

  lemma QueuedAfterClose(a: Acceptor)
    ensures Queued(CloseAcceptor(a).ready) == Queued(a.ready)
  {
    QueuedConcat(a.ready, Aborts(a.pending));
  }

  /** The handler steps that a closed acceptor's ready handlers can still make, three for an accepted connection. */
  function Weight(ready: seq<AcceptResult>): nat {
    if ready == [] then 0 else (if ready[0].Accepted? then 3 else 1) + Weight(ready[1..])
  }

  lemma {:induction false} WeightConcat(a: seq<AcceptResult>, b: seq<AcceptResult>)
    ensures Weight(a + b) == Weight(a) + Weight(b)
  {
    if a == [] {
      assert a + b == b;
    } else {
      assert (a + b)[1..] == a[1..] + b;
      WeightConcat(a[1..], b);
    }
  }

  lemma WeightRemove(ready: seq<AcceptResult>, i: nat)
    requires i < |ready|
    ensures Weight(ready) == Weight(RemoveAt(ready, i)) + if ready[i].Accepted? then 3 else 1
  {
    assert ready == ready[..i] + ([ready[i]] + ready[i + 1..]);
    WeightConcat(ready[..i], [ready[i]] + ready[i + 1..]);
    WeightConcat([ready[i]], ready[i + 1..]);
    WeightConcat(ready[..i], ready[i + 1..]);
  }

  lemma {:induction false} QueuedIsWeighed(ready: seq<AcceptResult>)
    ensures 3 * |Queued(ready)| <= Weight(ready) && |ready| <= Weight(ready)
  {
    if ready != [] {
      QueuedIsWeighed(ready[1..]);
    }
  }
}
