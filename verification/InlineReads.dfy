/** Nested completion callbacks of `asyncRead`.

    A consumer that asks for more from inside its callback is called back inside that call whenever
    the buffer already holds enough. Request number i asks for sizes(i) bytes. */
module InlineReads {
  import opened Common
  import opened ReadAhead

  /** The bytes asked for by `count` requests from number i on. */
  ghost function Sum(sizes: nat -> nat, i: nat, count: nat): nat
    decreases count
  {
    if count == 0 then 0 else sizes(i) + Sum(sizes, i + 1, count - 1)
  }

  lemma {:induction false} SumGrows(sizes: nat -> nat, i: nat, c: nat, d: nat)
    requires c <= d
    ensures Sum(sizes, i, c) <= Sum(sizes, i, d)
    decreases c
  {
    if c > 0 {
      SumGrows(sizes, i + 1, c - 1, d - 1);
    }
  }

  lemma {:induction false} PositiveRequestsBound(sizes: nat -> nat, i: nat, d: nat)
    requires forall k: nat :: sizes(k) >= 1
    ensures Sum(sizes, i, d) >= d
    decreases d
  {
    if d > 0 {
      PositiveRequestsBound(sizes, i + 1, d - 1);
    }
  }

  // ---------- the nested calls on a stream

  /** The state in which the callback of a served request asks again. */
  ghost function Serve(s: State, n: nat): State
    requires n <= |s.buffer|
  {
    Consume(AsyncRead(s, n), n)
  }

  lemma Served(s: State, n: nat)
    requires n <= |s.buffer|
    ensures var t := Serve(s, n);
      && t.buffer == s.buffer[n..] && t.chunks == s.chunks && t.pending == s.pending
      && t.log == s.log + [ReadDone(Success)]
  {
  }

  lemma SumUnfolds(sizes: nat -> nat, i: nat, count: nat)
    ensures Sum(sizes, i, count + 1) == sizes(i) + Sum(sizes, i + 1, count)
  {
  }

  /** `asyncRead` with a callback that consumes what was asked for and asks for the next part: the state in
      which the outermost call returns, and how deep the callbacks were nested. The requests must ask for
      more than is buffered within `bound` steps. */
  ghost function Nest(s: State, sizes: nat -> nat, i: nat, bound: nat): (State, nat)
    requires s.pending.None? && Sum(sizes, i, bound) > |s.buffer|
    decreases bound
  {
    if |s.buffer| < sizes(i) then (AsyncRead(s, sizes(i)), 0)
    else
      var r := Nest(Serve(s, sizes(i)), sizes, i + 1, bound - 1);
      (r.0, r.1 + 1)
  }

  /** The callbacks of n reads served from the buffer. */
  ghost function Successes(n: nat): seq<Answer> {
    if n == 0 then [] else [ReadDone(Success)] + Successes(n - 1)
  }

  /** The depth is the number of requests the buffer can serve. */
  lemma {:induction false} NestDepth(s: State, sizes: nat -> nat, i: nat, bound: nat)
    requires s.pending.None? && Sum(sizes, i, bound) > |s.buffer|
    ensures var depth := Nest(s, sizes, i, bound).1;
      Sum(sizes, i, depth) <= |s.buffer| < Sum(sizes, i, depth + 1)
    decreases bound
  {
    if |s.buffer| < sizes(i) {
      SumUnfolds(sizes, i, 0);
    } else {
      var t := Serve(s, sizes(i));
      NestDepth(t, sizes, i + 1, bound - 1);
      var inner := Nest(t, sizes, i + 1, bound - 1).1;
      SumUnfolds(sizes, i, inner);
      SumUnfolds(sizes, i, inner + 1);
    }
  }

  // ---------- when the nesting ends

  /** At least d callbacks are nested: each of the first d requests is answered inside its own call, before the
      callback consumes and asks again. */
  ghost predicate CallsBack(s: State, sizes: nat -> nat, i: nat, d: nat)
    decreases d
  {
    d == 0 ||
    var t := AsyncRead(s, sizes(i));
    t.pending.None? && t.log == s.log + [ReadDone(Success)] && CallsBack(Consume(t, sizes(i)), sizes, i + 1, d - 1)
  }

  /** The d-th nested callback is made if and only if the buffer holds what the first d requests ask for. */
  lemma {:induction false} CallsBackIff(s: State, sizes: nat -> nat, i: nat, d: nat)
    requires s.pending.None?
    ensures CallsBack(s, sizes, i, d) <==> Sum(sizes, i, d) <= |s.buffer|
    decreases d
  {
    if d > 0 && sizes(i) <= |s.buffer| {
      CallsBackIff(Serve(s, sizes(i)), sizes, i + 1, d - 1);
    }
  }

  ghost predicate NestingEnds(s: State, sizes: nat -> nat, i: nat) { exists d: nat :: !CallsBack(s, sizes, i, d) }

  /** The nesting comes to an end if and only if the requests together ask for more than is buffered; then it is
      as deep as `Nest` says. Otherwise, as with a consumer that asks for zero bytes for ever, every callback
      makes another. */
  lemma NestingEndsIff(s: State, sizes: nat -> nat, i: nat)
    requires s.pending.None?
    ensures NestingEnds(s, sizes, i) <==> (exists d: nat :: Sum(sizes, i, d) > |s.buffer|)
    ensures forall bound: nat, d: nat | Sum(sizes, i, bound) > |s.buffer| ::
      CallsBack(s, sizes, i, d) <==> d <= Nest(s, sizes, i, bound).1
  {
    if NestingEnds(s, sizes, i) {
      var d: nat :| !CallsBack(s, sizes, i, d);
      CallsBackIff(s, sizes, i, d);
      assert Sum(sizes, i, d) > |s.buffer|;
    }
    if d: nat :| Sum(sizes, i, d) > |s.buffer| {
      CallsBackIff(s, sizes, i, d);
      assert !CallsBack(s, sizes, i, d);
    }
    forall bound: nat, d: nat | Sum(sizes, i, bound) > |s.buffer|
      ensures CallsBack(s, sizes, i, d) <==> d <= Nest(s, sizes, i, bound).1
    {
      CallsBackIff(s, sizes, i, d);
      NestDepth(s, sizes, i, bound);
      var depth := Nest(s, sizes, i, bound).1;
      if d <= depth {
        SumGrows(sizes, i, d, depth);
      } else {
        SumGrows(sizes, i, depth + 1, d);
      }
    }
  }

  /** A consumer that asks for zero bytes for ever is called back without end, whatever is buffered. */
  lemma ZeroRequestsNeverEnd(s: State, sizes: nat -> nat, i: nat, d: nat)
    requires s.pending.None? && forall k: nat :: sizes(k) == 0
    ensures CallsBack(s, sizes, i, d)
  {
    CallsBackIff(s, sizes, i, d);
    SumOfEqual(sizes, 0, i, d);
  }

  // ---------- what the nesting leaves

  lemma {:induction false} NestLog(s: State, sizes: nat -> nat, i: nat, bound: nat)
    requires s.pending.None? && Sum(sizes, i, bound) > |s.buffer|
    ensures var (t, depth) := Nest(s, sizes, i, bound);
      t.log == s.log + Successes(depth) && t.chunks == s.chunks
    decreases bound
  {
    if |s.buffer| < sizes(i) {
      assert s.log + Successes(0) == s.log;
    } else {
      Served(s, sizes(i));
      NestLog(Serve(s, sizes(i)), sizes, i + 1, bound - 1);
      var inner := Nest(Serve(s, sizes(i)), sizes, i + 1, bound - 1).1;
      assert s.log + [ReadDone(Success)] + Successes(inner) == s.log + Successes(inner + 1);
    }
  }

  lemma {:induction false} NestBuffer(s: State, sizes: nat -> nat, i: nat, bound: nat)
    requires s.pending.None? && Sum(sizes, i, bound) > |s.buffer|
    ensures var (t, depth) := Nest(s, sizes, i, bound);
      Sum(sizes, i, depth) <= |s.buffer| && t.buffer == s.buffer[Sum(sizes, i, depth)..]
    decreases bound
  {
    if |s.buffer| >= sizes(i) {
      Served(s, sizes(i));
      NestBuffer(Serve(s, sizes(i)), sizes, i + 1, bound - 1);
      SumUnfolds(sizes, i, Nest(Serve(s, sizes(i)), sizes, i + 1, bound - 1).1);
    }
  }

  lemma {:induction false} NestSuspends(s: State, sizes: nat -> nat, i: nat, bound: nat)
    requires s.pending.None? && Sum(sizes, i, bound) > |s.buffer|
    ensures var (t, depth) := Nest(s, sizes, i, bound);
      var next := sizes(i + depth);
      |t.buffer| < next && t.pending == Some(Pending(next - |t.buffer|, 0, false))
    decreases bound
  {
    if |s.buffer| >= sizes(i) {
      Served(s, sizes(i));
      NestSuspends(Serve(s, sizes(i)), sizes, i + 1, bound - 1);
    }
  }

  /** Each of them was answered with success, the bytes they asked for are consumed, and a read for what the
      next one lacks is outstanding. */
  lemma NestServes(s: State, sizes: nat -> nat, i: nat, bound: nat)
    requires s.pending.None? && Sum(sizes, i, bound) > |s.buffer|
    ensures var (t, depth) := Nest(s, sizes, i, bound);
      && Sum(sizes, i, depth) <= |s.buffer| && t.buffer == s.buffer[Sum(sizes, i, depth)..] && t.chunks == s.chunks
      && |t.buffer| < sizes(i + depth) && t.pending == Some(Pending(sizes(i + depth) - |t.buffer|, 0, false))
      && t.log == s.log + Successes(depth)
  {
    NestLog(s, sizes, i, bound);
    NestBuffer(s, sizes, i, bound);
    NestSuspends(s, sizes, i, bound);
  }

  /** Requests of at least one byte nest at most as deep as there are bytes. */
  lemma PositiveRequestsDepth(s: State, sizes: nat -> nat, i: nat, bound: nat)
    requires s.pending.None? && Sum(sizes, i, bound) > |s.buffer| && forall k: nat :: sizes(k) >= 1
    ensures Nest(s, sizes, i, bound).1 <= |s.buffer|
  {
    NestDepth(s, sizes, i, bound);
    PositiveRequestsBound(sizes, i, Nest(s, sizes, i, bound).1);
  }

  lemma {:induction false} SumOfEqual(sizes: nat -> nat, n: nat, i: nat, d: nat)
    requires forall k: nat :: sizes(k) == n
    ensures Sum(sizes, i, d) == d * n
    decreases d
  {
    if d > 0 {
      SumOfEqual(sizes, n, i + 1, d - 1);
      assert d * n == n + (d - 1) * n;
    }
  }

  lemma {:induction false} TimesIsMonotone(a: nat, b: nat, n: nat)
    requires a <= b
    ensures a * n <= b * n
    decreases b
  {
    if a < b {
      TimesIsMonotone(a, b - 1, n);
      assert b * n == (b - 1) * n + n;
    }
  }

  lemma QuotientIsUnique(size: nat, n: nat, d: nat)
    requires n >= 1 && d * n <= size < (d + 1) * n
    ensures d == size / n && size - d * n == size % n
  {
    var q := size / n;
    if d < q {
      TimesIsMonotone(d + 1, q, n);
    } else if q < d {
      TimesIsMonotone(q + 1, d, n);
    }
  }

  /** Equal requests of n bytes: exactly size / n nested callbacks, leaving size % n bytes. */
  lemma EqualRequestsDepth(s: State, sizes: nat -> nat, n: nat, bound: nat)
    requires s.pending.None? && n >= 1 && forall k: nat :: sizes(k) == n
    requires Sum(sizes, 0, bound) > |s.buffer|
    ensures var (t, depth) := Nest(s, sizes, 0, bound);
      && depth == |s.buffer| / n && |t.buffer| == |s.buffer| % n
      && t.pending == Some(Pending(n - |t.buffer|, 0, false))
  {
    NestServes(s, sizes, 0, bound);
    NestDepth(s, sizes, 0, bound);
    var depth := Nest(s, sizes, 0, bound).1;
    SumOfEqual(sizes, n, 0, depth);
    SumOfEqual(sizes, n, 0, depth + 1);
    QuotientIsUnique(|s.buffer|, n, depth);
  }
}
