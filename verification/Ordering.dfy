/** The order of stored text and of (lamport, origin, sequence) triples, as the database compares them. */
module Ordering {
  import opened Records

  /** Text comparison, character by character; a proper prefix comes first. */
  predicate TextLess(a: string, b: string) {
    if a == [] then b != []
    else b != [] && (a[0] < b[0] || (a[0] == b[0] && TextLess(a[1..], b[1..])))
  }

  predicate RankLess(a: Rank, b: Rank) {
    a.lamport < b.lamport
    || (a.lamport == b.lamport
        && (TextLess(a.origin, b.origin) || (a.origin == b.origin && a.sequence < b.sequence)))
  }

  function RankOf(id: EventId): Rank { Rank(id.of.lamport, id.of.origin, id.of.sequence) }

  predicate Before(a: EventId, b: EventId) { RankLess(RankOf(a), RankOf(b)) }

  lemma {:induction false} TextTotal(a: string, b: string)
    ensures TextLess(a, b) || a == b || TextLess(b, a)
    ensures !(TextLess(a, b) && TextLess(b, a))
    ensures !TextLess(a, a)
    decreases |a|
  {
    if a != [] {
      TextTotal(a[1..], a[1..]);
      if b != [] {
        TextTotal(a[1..], b[1..]);
        if a[0] == b[0] && a[1..] == b[1..] {
          assert a == [a[0]] + a[1..];
          assert b == [b[0]] + b[1..];
        }
      }
    }
  }

  lemma {:induction false} TextTransitive(a: string, b: string, c: string)
    requires TextLess(a, b) && TextLess(b, c)
    ensures TextLess(a, c)
  {
    if a != [] && a[0] == b[0] == c[0] {
      TextTransitive(a[1..], b[1..], c[1..]);
    }
  }

  /** `RankLess` is a strict total order, so no two distinct ranks tie. */
  lemma RankTotal(a: Rank, b: Rank)
    ensures RankLess(a, b) || a == b || RankLess(b, a)
    ensures !(RankLess(a, b) && RankLess(b, a))
    ensures !RankLess(a, a)
  {
    TextTotal(a.origin, b.origin);
    TextTotal(a.origin, a.origin);
  }

  lemma RankTransitive(a: Rank, b: Rank, c: Rank)
    requires RankLess(a, b) && RankLess(b, c)
    ensures RankLess(a, c)
  {
    if TextLess(a.origin, b.origin) && TextLess(b.origin, c.origin) {
      TextTransitive(a.origin, b.origin, c.origin);
    }
  }
}
