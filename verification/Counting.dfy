/** How often an element occurs in a list. */
module Counting {
  import opened Common

  function Count<T(==)>(s: seq<T>, x: T): nat {
    if s == [] then 0 else (if s[0] == x then 1 else 0) + Count(s[1..], x)
  }

  lemma {:induction false} CountConcat<T>(a: seq<T>, b: seq<T>, x: T)
    ensures Count(a + b, x) == Count(a, x) + Count(b, x)
  {
    if a == [] {
      assert a + b == b;
    } else {
      assert (a + b)[1..] == a[1..] + b;
      CountConcat(a[1..], b, x);
    }
  }

  lemma CountSnoc<T>(s: seq<T>, y: T, x: T)
    ensures Count(s + [y], x) == Count(s, x) + if y == x then 1 else 0
  {
    CountConcat(s, [y], x);
    assert Count([y], x) == (if y == x then 1 else 0) + Count([], x);
  }

  lemma {:induction false} CountIsMembership<T>(s: seq<T>, x: T)
    ensures Count(s, x) > 0 <==> x in s
  {
    if s != [] {
      CountIsMembership(s[1..], x);
      assert s == [s[0]] + s[1..];
    }
  }

  /** `s` without the first occurrence of `x`. */
  function Remove<T(==)>(s: seq<T>, x: T): seq<T> {
    if s == [] then [] else if s[0] == x then s[1..] else [s[0]] + Remove(s[1..], x)
  }

  lemma {:induction false} RemoveIsSublist<T>(s: seq<T>, y: T)
    ensures forall x | x in Remove(s, y) :: x in s
  {
    if s != [] {
      RemoveIsSublist(s[1..], y);
      assert s == [s[0]] + s[1..];
    }
  }

  lemma {:induction false} CountRemove<T>(s: seq<T>, y: T, x: T)
    requires y in s
    ensures Count(s, x) == Count(Remove(s, y), x) + if y == x then 1 else 0
  {
    assert s == [s[0]] + s[1..];
    if s[0] != y {
      CountRemove(s[1..], y, x);
      CountConcat([s[0]], Remove(s[1..], y), x);
      assert Count([s[0]], x) == (if s[0] == x then 1 else 0) + Count([], x);
    }
  }
}
