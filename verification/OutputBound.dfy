/**
 Bounding an execution's output (`receiptTx` in jobs.go): cut at 65536 bytes,
 then trim byte by byte until the text is valid UTF-8 again, by the grammar of
 RFC 3629, section 4.
 */
module OutputBound {

  import opened Records

  const MAX_OUTPUT := 65536

  predicate Tail(b: Byte) { 0x80 <= b <= 0xBF }

  /** The second byte allowed after a given first byte of a longer character. */
  predicate Second(first: Byte, b: Byte) {
    if first == 0xE0 then 0xA0 <= b <= 0xBF
    else if first == 0xED then 0x80 <= b <= 0x9F
    else if first == 0xF0 then 0x90 <= b <= 0xBF
    else if first == 0xF4 then 0x80 <= b <= 0x8F
    else Tail(b)
  }

  /** The length a first byte announces; 0 if no character starts with it. */
  function Announced(first: Byte): (r: nat)
    ensures r <= 4
  {
    if first <= 0x7F then 1
    else if 0xC2 <= first <= 0xDF then 2
    else if 0xE0 <= first <= 0xEF then 3
    else if 0xF0 <= first <= 0xF4 then 4
    else 0
  }

  /** The text starts with a whole, well-formed character. */
  predicate StartsWell(s: seq<Byte>) {
    && s != [] && 1 <= Announced(s[0]) <= |s|
    && (Announced(s[0]) >= 2 ==> Second(s[0], s[1]))
    && (Announced(s[0]) >= 3 ==> Tail(s[2]))
    && (Announced(s[0]) >= 4 ==> Tail(s[3]))
  }

  predicate ValidText(s: seq<Byte>) { s == [] || (StartsWell(s) && ValidText(s[Announced(s[0])..])) }

  /** A position of a text up to which it is valid. */
  predicate Boundary(s: seq<Byte>, n: nat) { n <= |s| && ValidText(s[..n]) }

  /** Within three bytes before any position of a valid text there is a boundary where the text so far is valid. */
  lemma {:induction false} BoundaryNear(s: seq<Byte>, n: nat) returns (m: nat)
    requires ValidText(s) && n <= |s|
    ensures m <= n <= m + 3 && Boundary(s, m)
  {
    if n == 0 || n < Announced(s[0]) {
      m := 0;
    } else {
      var k := Announced(s[0]);
      var rest := BoundaryNear(s[k..], n - k);
      m := k + rest;
      assert s[..m][k..] == s[k..][..rest];
    }
  }

  /** The longest valid text within the first n bytes. */
  function Longest(s: seq<Byte>, n: nat): (r: nat)
    requires n <= |s|
    ensures r <= n && Boundary(s, r) && forall m :: r < m <= n ==> !Boundary(s, m)
  {
    if ValidText(s[..n]) then n else Longest(s, n - 1)
  }

  /** What is kept of a valid text. */
  function Bounded(s: seq<Byte>): seq<Byte> {
    if |s| <= MAX_OUTPUT then s else s[..Longest(s, MAX_OUTPUT)]
  }

  /** The longest valid text within the limit, at most three bytes below it. */
  method Bound(s: seq<Byte>) returns (output: seq<Byte>)
    requires ValidText(s)
    ensures output <= s && ValidText(output) && |output| <= MAX_OUTPUT && output == Bounded(s)
    ensures |s| <= MAX_OUTPUT ==> output == s
    ensures |s| > MAX_OUTPUT ==> MAX_OUTPUT - 3 <= |output|
    ensures forall n :: |output| < n <= MAX_OUTPUT ==> !Boundary(s, n)
  {
    output := s;
    if |output| > MAX_OUTPUT {
      ghost var boundary := BoundaryNear(s, MAX_OUTPUT);
      output := output[..MAX_OUTPUT];
      while !ValidText(output)
        invariant boundary <= |output| <= MAX_OUTPUT && output == s[..|output|]
        invariant forall n :: |output| < n <= MAX_OUTPUT ==> !Boundary(s, n)
        decreases |output|
      {
        output := output[..|output| - 1];
      }
      assert Boundary(s, |output|) && Boundary(s, Longest(s, MAX_OUTPUT));
    }
  }

  /** `strings.ToValidUTF8(s, "")`: every byte that belongs to no well-formed character is dropped. */
  function Cleaned(s: seq<Byte>): seq<Byte> {
    if s == [] then []
    else if StartsWell(s) then s[..Announced(s[0])] + Cleaned(s[Announced(s[0])..])
    else Cleaned(s[1..])
  }

  /** Cleaning makes any bytes valid, and changes nothing that is. */
  lemma {:induction false} CleanedIsValid(s: seq<Byte>)
    ensures ValidText(Cleaned(s)) && (ValidText(s) ==> Cleaned(s) == s)
    decreases |s|
  {
    if s != [] {
      if StartsWell(s) {
        var n := Announced(s[0]);
        CleanedIsValid(s[n..]);
        var rest := Cleaned(s[n..]);
        assert (s[..n] + rest)[n..] == rest && (s[..n] + rest)[0] == s[0];
        assert s == s[..n] + s[n..];
      } else {
        CleanedIsValid(s[1..]);
      }
    }
  }

  /** A valid text is read whole before what follows it. */
  lemma {:induction false} CleansAfter(u: seq<Byte>, b: seq<Byte>)
    requires ValidText(u)
    ensures Cleaned(u + b) == u + Cleaned(b)
  {
    if u == [] {
      assert u + b == b;
    } else {
      var n := Announced(u[0]);
      assert (u + b)[..n] == u[..n] && (u + b)[n..] == u[n..] + b && u == u[..n] + u[n..];
      CleansAfter(u[n..], b);
    }
  }

  /** What stands before a well-formed character cannot swallow it: no later byte of one can start another. */
  lemma StartsAlone(a: seq<Byte>, u: seq<Byte>, b: seq<Byte>)
    requires a != [] && StartsWell(u)
    ensures StartsWell(a + u + b) <==> StartsWell(a)
  {
    var s := a + u + b;
    assert s[0] == a[0] && forall k :: 0 <= k < |a| ==> s[k] == a[k];
    assert s[|a|] == u[0];
  }

  lemma Regroup(a: seq<Byte>, u: seq<Byte>, b: seq<Byte>, n: nat)
    requires 1 <= n <= |a|
    ensures (a + u + b)[n..] == a[n..] + u + b && (a + u + b)[..n] == a[..n] && (a + u + b)[0] == a[0]
  {
  }

  lemma Prepend(x: seq<Byte>, y: seq<Byte>, u: seq<Byte>, z: seq<Byte>)
    ensures x + (y + u + z) == x + y + u + z
  {
  }

  lemma CleanedStep(s: seq<Byte>)
    requires s != []
    ensures StartsWell(s) ==>
      1 <= Announced(s[0]) <= |s| && Cleaned(s) == s[..Announced(s[0])] + Cleaned(s[Announced(s[0])..])
    ensures !StartsWell(s) ==> Cleaned(s) == Cleaned(s[1..])
  {
  }

  /** Cleaning keeps every well-formed stretch of the bytes, wherever it stands and whatever surrounds it. */
  lemma {:induction false} CleaningKeeps(a: seq<Byte>, u: seq<Byte>, b: seq<Byte>)
    requires u != [] && ValidText(u)
    ensures Cleaned(a + u + b) == Cleaned(a) + u + Cleaned(b)
    decreases |a|
  {
    if a == [] {
      assert a + u + b == u + b;
      CleansAfter(u, b);
    } else {
      StartsAlone(a, u, b);
      hide *;
      CleanedStep(a);
      CleanedStep(a + u + b);
      var n := if StartsWell(a) then Announced(a[0]) else 1;
      Regroup(a, u, b, n);
      CleaningKeeps(a[n..], u, b);
      Prepend(a[..n], Cleaned(a[n..]), u, Cleaned(b));
    }
  }

  /** Bytes among which no well-formed character starts leave nothing. */
  lemma {:induction false} CleaningDrops(s: seq<Byte>)
    requires forall k :: 0 <= k < |s| ==> !StartsWell(s[k..])
    ensures Cleaned(s) == []
  {
    if s != [] {
      assert s[0..] == s;
      assert forall k :: 0 <= k < |s| - 1 ==> s[1..][k..] == s[k + 1..];
      CleaningDrops(s[1..]);
    }
  }
}
