/** Sorting of target lists: the order a request names its targets in does not matter. */
module TextSort {
  import opened Ordering

  ghost predicate Sorted(s: seq<string>) {
    forall i, j :: 0 <= i < j < |s| ==> !TextLess(s[j], s[i])
  }

  function InsertText(x: string, s: seq<string>): (r: seq<string>)
    ensures |r| == |s| + 1
  {
    if s == [] || !TextLess(s[0], x) then [x] + s else [s[0]] + InsertText(x, s[1..])
  }

  function SortTexts(s: seq<string>): (r: seq<string>)
    ensures |r| == |s|
  {
    if s == [] then [] else InsertText(s[0], SortTexts(s[1..]))
  }

  lemma {:induction false} InsertKeeps(x: string, s: seq<string>)
    requires Sorted(s)
    ensures Sorted(InsertText(x, s)) && multiset(InsertText(x, s)) == multiset{x} + multiset(s)
  {
    if s == [] {
    } else if !TextLess(s[0], x) {
      forall j | 0 <= j < |s| ensures !TextLess(s[j], x) {
        if TextLess(s[j], x) {
          TextTotal(x, s[0]);
          TextTotal(s[0], s[j]);
          if x != s[0] && TextLess(s[0], s[j]) { TextTransitive(x, s[0], s[j]); }
          TextTotal(x, s[j]);
        }
      }
    } else {
      var rest := s[1..];
      assert s == [s[0]] + rest;
      InsertKeeps(x, rest);
      var tail := InsertText(x, rest);
      forall j | 0 <= j < |tail| ensures !TextLess(tail[j], s[0]) {
        assert tail[j] in multiset(tail);
        if tail[j] == x {
          TextTotal(s[0], x);
        } else {
          assert tail[j] in multiset(rest);
          var k :| 0 <= k < |rest| && rest[k] == tail[j];
          assert s[k + 1] == tail[j];
        }
      }
    }
  }

  lemma {:induction false} SortSorts(s: seq<string>)
    ensures Sorted(SortTexts(s)) && multiset(SortTexts(s)) == multiset(s)
  {
    if s != [] {
      assert s == [s[0]] + s[1..];
      SortSorts(s[1..]);
      InsertKeeps(s[0], SortTexts(s[1..]));
    }
  }

  lemma HeadNotAbove(a: seq<string>, b: seq<string>)
    requires Sorted(a) && a != [] && b != [] && multiset(a) == multiset(b)
    ensures !TextLess(b[0], a[0])
  {
    assert b[0] in multiset(a);
    var j :| 0 <= j < |a| && a[j] == b[0];
    TextTotal(a[0], a[0]);
  }

  lemma {:induction false} SortedUnique(a: seq<string>, b: seq<string>)
    requires Sorted(a) && Sorted(b) && multiset(a) == multiset(b)
    ensures a == b
    decreases |a|
  {
    assert |a| == |multiset(a)| == |multiset(b)| == |b|;
    if a != [] {
      HeadNotAbove(a, b);
      HeadNotAbove(b, a);
      TextTotal(a[0], b[0]);
      RestSorted(a);
      RestSorted(b);
      hide Sorted, TextLess;
      SortedUnique(a[1..], b[1..]);
      assert a == [a[0]] + a[1..] && b == [b[0]] + b[1..];
    }
  }

  lemma RestSorted(s: seq<string>)
    requires Sorted(s) && s != []
    ensures Sorted(s[1..]) && multiset(s[1..]) == multiset(s) - multiset{s[0]}
  {
    hide TextLess;
    assert s == [s[0]] + s[1..];
  }

  /** Two lists of the same targets sort to the same list. */
  lemma {:induction false} SortIgnoresOrder(a: seq<string>, b: seq<string>)
    requires multiset(a) == multiset(b)
    ensures SortTexts(a) == SortTexts(b)
  {
    SortSorts(a);
    SortSorts(b);
    SortedUnique(SortTexts(a), SortTexts(b));
  }
}
