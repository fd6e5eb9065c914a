/** The stream id of a server-side stream: the remote address with dots replaced by underscores, an
    underscore, and the decimal port. */
module StreamId {

  // ---------- decimal numbers

  function Digit(d: nat): char
    requires d < 10
  {
    "0123456789"[d]
  }

  function ToString(n: nat): string {
    if n < 10 then [Digit(n)] else ToString(n / 10) + [Digit(n % 10)]
  }

  predicate IsDigit(c: char) { '0' <= c <= '9' }

  function Value(c: char): nat
    requires IsDigit(c)
  {
    (c - '0') as nat
  }

  function Parse(s: string): nat
    requires forall c | c in s :: IsDigit(c)
  {
    if s == [] then 0 else 10 * Parse(s[..|s| - 1]) + Value(s[|s| - 1])
  }

  lemma {:induction false} ToStringIsDecimal(n: nat)
    ensures ToString(n) != []
    ensures forall c | c in ToString(n) :: IsDigit(c)
    ensures Parse(ToString(n)) == n
    decreases n
  {
    if n < 10 {
      assert ToString(n)[..0] == [];
    } else {
      ToStringIsDecimal(n / 10);
      var s := ToString(n);
      assert s[..|s| - 1] == ToString(n / 10) && s[|s| - 1] == Digit(n % 10);
      forall c | c in s ensures IsDigit(c) {
        assert c in ToString(n / 10) || c == Digit(n % 10);
      }
    }
  }

  /** The digits of n in base ten, without a leading zero. */
  predicate IsDecimal(s: string, n: nat) {
    && s != [] && (forall c | c in s :: IsDigit(c))
    && (s[0] == '0' ==> |s| == 1)
    && Parse(s) == n
  }

  lemma {:induction false} ToStringHasNoLeadingZero(n: nat)
    ensures ToString(n) != [] && (ToString(n)[0] == '0' <==> n == 0) && (n < 10 ==> |ToString(n)| == 1)
    decreases n
  {
    if n >= 10 {
      ToStringHasNoLeadingZero(n / 10);
    }
  }

  lemma {:induction false} PositiveWithoutLeadingZero(s: string)
    requires s != [] && (forall c | c in s :: IsDigit(c)) && s[0] != '0'
    ensures Parse(s) > 0
    decreases |s|
  {
    assert s[0] in s && Value(s[0]) > 0;
    if |s| == 1 {
      assert s[..|s| - 1] == [] && Parse(s) == 10 * Parse([]) + Value(s[0]);
    } else {
      PositiveWithoutLeadingZero(s[..|s| - 1]);
    }
  }

  /** The decimal form of a number is the only string of that kind, and `ToString` gives it. */
  lemma {:induction false} DecimalIsUnique(s: string, n: nat)
    ensures IsDecimal(s, n) <==> s == ToString(n)
    decreases |s|
  {
    ToStringIsDecimal(n);
    ToStringHasNoLeadingZero(n);
    if IsDecimal(s, n) {
      var front, last := s[..|s| - 1], s[|s| - 1];
      LastDigit(s, n);
      if front != [] {
        DecimalIsUnique(front, n / 10);
      }
    }
  }

  lemma LastDigit(s: string, n: nat)
    requires IsDecimal(s, n)
    ensures var front, last := s[..|s| - 1], s[|s| - 1];
      && s == front + [last] && last == Digit(n % 10)
      && (front == [] ==> n < 10)
      && (front != [] ==> n >= 10 && IsDecimal(front, n / 10))
  {
    var front, last := s[..|s| - 1], s[|s| - 1];
    assert last in s && Digit(Value(last)) == last;
    assert n == 10 * Parse(front) + Value(last);
    if front != [] {
      assert front[0] == s[0];
      PositiveWithoutLeadingZero(front);
    }
  }

  // ---------- the id

  /** Every occurrence of `a` replaced by `b`. */
  function Replace(s: string, a: char, b: char): (r: string)
    ensures |r| == |s|
    ensures forall i | 0 <= i < |s| :: r[i] == if s[i] == a then b else s[i]
  {
    if s == [] then [] else [if s[0] == a then b else s[0]] + Replace(s[1..], a, b)
  }

  function Url(address: string, port: nat): string {
    Replace(address, '.', '_') + "_" + ToString(port)
  }

  method EndPointUrl(address: string, port: nat) returns (streamId: string)
    ensures streamId == Url(address, port)
    ensures |address| + 1 < |streamId| && streamId[|address|] == '_'
    ensures forall i | 0 <= i < |address| :: streamId[i] == if address[i] == '.' then '_' else address[i]
    ensures IsDecimal(streamId[|address| + 1..], port)
  {
    DecimalIsUnique(ToString(port), port);
    streamId := address;
    var i := 0;
    while i < |streamId|
      invariant 0 <= i <= |streamId| == |address|
      invariant forall k | 0 <= k < i :: streamId[k] == if address[k] == '.' then '_' else address[k]
      invariant forall k | i <= k < |address| :: streamId[k] == address[k]
    {
      if streamId[i] == '.' {
        streamId := streamId[i := '_'];
      }
      i := i + 1;
    }
    assert streamId == Replace(address, '.', '_');
    streamId := streamId + ("_" + ToString(port));
    assert streamId == Replace(address, '.', '_') + "_" + ToString(port);
  }

  // ---------- reading it back

  /** The position of the last underscore, or |s| if there is none. */
  function LastUnderscore(s: string): (k: nat)
    ensures k <= |s|
    ensures k < |s| ==> s[k] == '_' && forall i | k < i < |s| :: s[i] != '_'
    ensures k == |s| ==> '_' !in s
  {
    if s == [] then 0
    else if s[|s| - 1] == '_' then |s| - 1
    else
      var k := LastUnderscore(s[..|s| - 1]);
      assert s == s[..|s| - 1] + [s[|s| - 1]];
      if k == |s| - 1 then |s| else k
  }

  datatype EndPoint = EndPoint(address: string, port: nat) | NotAnId

  function ParseUrl(id: string): EndPoint {
    var k := LastUnderscore(id);
    if k == |id| || k + 1 == |id| || exists c | c in id[k + 1..] :: !IsDigit(c) then NotAnId
    else EndPoint(Replace(id[..k], '_', '.'), Parse(id[k + 1..]))
  }

  lemma {:induction false} LastUnderscoreBefore(a: string, digits: string)
    requires forall c | c in digits :: IsDigit(c)
    ensures LastUnderscore(a + "_" + digits) == |a|
  {
    var s := a + "_" + digits;
    if digits != [] {
      var last := digits[|digits| - 1];
      assert last in digits && s[|s| - 1] == last;
      assert s[..|s| - 1] == a + "_" + digits[..|digits| - 1];
      LastUnderscoreBefore(a, digits[..|digits| - 1]);
    }
  }

  lemma UrlSplits(address: string, port: nat)
    ensures var id := Url(address, port);
      LastUnderscore(id) == |address| && id[..|address|] == Replace(address, '.', '_')
      && id[|address| + 1..] == ToString(port)
  {
    ToStringIsDecimal(port);
    LastUnderscoreBefore(Replace(address, '.', '_'), ToString(port));
  }

  /** Reading an id back gives the address with its underscores turned into dots, and the port. */
  lemma ParseUrlOfUrl(address: string, port: nat)
    ensures ParseUrl(Url(address, port)) == EndPoint(Replace(address, '_', '.'), port)
  {
    UrlSplits(address, port);
    ToStringIsDecimal(port);
    assert Replace(Replace(address, '.', '_'), '_', '.') == Replace(address, '_', '.');
  }

  /** The id can be read back to the endpoint if and only if the address contains no underscore. */
  lemma RoundTripIffNoUnderscore(address: string, port: nat)
    ensures ParseUrl(Url(address, port)) == EndPoint(address, port) <==> '_' !in address
  {
    ParseUrlOfUrl(address, port);
    var back := Replace(address, '_', '.');
    if '_' in address {
      var i :| 0 <= i < |address| && address[i] == '_';
      assert back[i] != address[i];
    } else {
      assert forall i | 0 <= i < |address| :: address[i] in address;
      assert back == address;
    }
  }

  /** Distinct endpoints have distinct ids; exactly, two endpoints share an id if and only if their ports are
      equal and their addresses differ at most in dots against underscores. */
  lemma SameIdIff(a: string, p: nat, b: string, q: nat)
    ensures Url(a, p) == Url(b, q) <==> p == q && Replace(a, '.', '_') == Replace(b, '.', '_')
    ensures '_' !in a && '_' !in b ==> (Url(a, p) == Url(b, q) <==> a == b && p == q)
  {
    UrlSplits(a, p);
    UrlSplits(b, q);
    ParseUrlOfUrl(a, p);
    ParseUrlOfUrl(b, q);
    RoundTripIffNoUnderscore(a, p);
    RoundTripIffNoUnderscore(b, q);
  }

  /** An IPv6 scope id may contain an underscore; then the id is ambiguous. */
  lemma UnderscoresCollide(port: nat)
    ensures "fe80::1%a_0" != "fe80::1%a.0" && Url("fe80::1%a_0", port) == Url("fe80::1%a.0", port)
  {
    var a, b := "fe80::1%a_0", "fe80::1%a.0";
    assert a[9] != b[9];
    ReplaceOfEqual(a, b);
  }

  lemma ReplaceOfEqual(a: string, b: string)
    requires |a| == |b|
    requires forall i | 0 <= i < |a| :: a[i] == b[i] || (a[i] in "._" && b[i] in "._")
    ensures Replace(a, '.', '_') == Replace(b, '.', '_')
  {
  }
}
