/**
 The catalog's upsert as the database does it: ranks are stored as the text
 `%020d:origin:%020d` and compared as text.  The text order is the order of the
 triples, and the upsert is a merge that does not depend on arrival order.
 */
module CatalogText {
  import opened Records
  import opened Ordering
  import opened Admission
  import opened LogInvariant

  const WIDTH := 20

  function Digit(d: nat): (c: char)
    requires d < 10
    ensures '0' <= c <= '9'
  {
    '0' + d as char
  }

  function Power(w: nat): (r: nat)
    ensures r >= 1
  {
    if w == 0 then 1 else 10 * Power(w - 1)
  }

  /** A number in exactly w decimal digits, most significant first. */
  function Padded(n: nat, w: nat): (r: string)
    ensures |r| == w
  {
    if w == 0 then "" else Padded(n / 10, w - 1) + [Digit(n % 10)]
  }

  /** `fmt.Sprintf("%020d:%s:%020d", lamport, origin, sequence)`. */
  function RankText(r: Rank): string
    requires r.lamport >= 0 && r.sequence >= 0
  {
    Padded(r.lamport, WIDTH) + ":" + OriginText(r.origin, r.sequence)
  }

  function OriginText(origin: NodeId, sequence: nat): string { origin + ":" + Padded(sequence, WIDTH) }

  // ---- text order ------------------------------------------------------------

  /** Texts with prefixes of the same length compare by prefix first. */
  lemma {:induction false} PrefixOrder(a: string, b: string, x: string, y: string)
    requires |a| == |b|
    ensures TextLess(a + x, b + y) <==> TextLess(a, b) || (a == b && TextLess(x, y))
    decreases |a|
  {
    if a == [] {
      assert a + x == x && b + y == y;
    } else {
      assert (a + x)[0] == a[0] && (b + y)[0] == b[0];
      assert (a + x)[1..] == a[1..] + x && (b + y)[1..] == b[1..] + y;
      PrefixOrder(a[1..], b[1..], x, y);
      assert a == [a[0]] + a[1..] && b == [b[0]] + b[1..];
    }
  }

  lemma DigitOrder(d: nat, e: nat)
    requires d < 10 && e < 10
    ensures TextLess([Digit(d)], [Digit(e)]) <==> d < e
    ensures [Digit(d)] == [Digit(e)] <==> d == e
  {
    assert [Digit(d)][0] == Digit(d) && [Digit(e)][0] == Digit(e);
  }

  /** Padded numbers compare as the numbers do. */
  lemma {:induction false} PaddedOrder(m: nat, n: nat, w: nat)
    requires m < Power(w) && n < Power(w)
    ensures TextLess(Padded(m, w), Padded(n, w)) <==> m < n
    ensures Padded(m, w) == Padded(n, w) <==> m == n
  {
    if w > 0 {
      PaddedOrder(m / 10, n / 10, w - 1);
      DigitOrder(m % 10, n % 10);
      PrefixOrder(Padded(m / 10, w - 1), Padded(n / 10, w - 1), [Digit(m % 10)], [Digit(n % 10)]);
      var p, q := Padded(m, w), Padded(n, w);
      assert p[..w - 1] == Padded(m / 10, w - 1) && q[..w - 1] == Padded(n / 10, w - 1);
      assert p[w - 1] == [Digit(m % 10)][0] && q[w - 1] == [Digit(n % 10)][0];
    }
  }

  lemma TwentyDigits()
    ensures INT64_MAX < Power(WIDTH)
  {
    assert Power(10) == 10 * Power(9) == 100 * Power(8) == 1000 * Power(7) == 10000 * Power(6) == 100000 * Power(5);
    assert Power(5) == 10 * Power(4) == 100 * Power(3) == 1000 * Power(2) == 10000 * Power(1) == 100000;
    assert Power(20) == 10 * Power(19) == 100 * Power(18) == 1000 * Power(17) == 10000 * Power(16);
    assert Power(16) == 10 * Power(15);
    assert Power(15) == 10 * Power(14) == 100 * Power(13) == 1000 * Power(12) == 10000 * Power(11);
    assert Power(11) == 10 * Power(10);
  }

  predicate Counters(r: Rank) { 0 <= r.lamport <= INT64_MAX && 0 <= r.sequence <= INT64_MAX }

  /** Two texts of the form prefix, colon, rest, with prefixes of one length. */
  lemma ColonOrder(p: string, q: string, x: string, y: string)
    requires |p| == |q|
    ensures TextLess(p + ":" + x, q + ":" + y) <==> TextLess(p, q) || (p == q && TextLess(x, y))
  {
    hide TextLess;
    assert p + ":" + x == p + (":" + x) && q + ":" + y == q + (":" + y);
    PrefixOrder(p, q, ":" + x, ":" + y);
    PrefixOrder(":", ":", x, y);
    TextTotal(":", ":");
  }

  lemma OriginTextOrder(s: NodeId, m: nat, t: NodeId, n: nat)
    requires |s| == |t| && m <= INT64_MAX && n <= INT64_MAX
    ensures TextLess(OriginText(s, m), OriginText(t, n)) <==> TextLess(s, t) || (s == t && m < n)
  {
    hide Padded, TextLess, Power;
    TwentyDigits();
    PaddedOrder(m, n, WIDTH);
    ColonOrder(s, t, Padded(m, WIDTH), Padded(n, WIDTH));
  }

  lemma RankTextLess(a: Rank, b: Rank)
    requires Counters(a) && Counters(b) && |a.origin| == |b.origin|
    ensures TextLess(RankText(a), RankText(b)) <==> RankLess(a, b)
  {
    hide Padded, TextLess, OriginText, Power;
    TwentyDigits();
    PaddedOrder(a.lamport, b.lamport, WIDTH);
    OriginTextOrder(a.origin, a.sequence, b.origin, b.sequence);
    ColonOrder(Padded(a.lamport, WIDTH), Padded(b.lamport, WIDTH),
      OriginText(a.origin, a.sequence), OriginText(b.origin, b.sequence));
  }

  /** For all 64-bit counters and identities of one length, text order on ranks is the order of the triples. */
  lemma {:induction false} RankTextOrder(a: Rank, b: Rank)
    requires Counters(a) && Counters(b) && |a.origin| == |b.origin|
    ensures TextLess(RankText(a), RankText(b)) <==> RankLess(a, b)
    ensures RankText(a) == RankText(b) <==> a == b
  {
    hide RankText, TextLess, RankLess;
    RankTextLess(a, b);
    RankTextLess(b, a);
    TextTotal(RankText(a), RankText(b));
    RankTotal(a, b);
  }

  /** In every database, any two admitted events have rank texts in the order of their triples, and never tie. */
  lemma {:induction false} StoredRanks(log: Log, a: EventId, b: EventId)
    requires a in log.events && b in log.events && Authentic(log) && Unforked(log)
    ensures Counters(RankOf(a)) && Counters(RankOf(b)) && |a.of.origin| == |b.of.origin|
    ensures TextLess(RankText(RankOf(a)), RankText(RankOf(b))) <==> Before(a, b)
    ensures RankText(RankOf(a)) == RankText(RankOf(b)) <==> a == b
  {
    hide RankText, TextLess, RankLess;
    assert Verify(Signed(a.of), log.fleet).None? && Verify(Signed(b.of), log.fleet).None?;
    RankTextOrder(RankOf(a), RankOf(b));
  }

  // ---- the merge -----------------------------------------------------------------

  /** The `ON CONFLICT` clause, on rank texts. */
  function UpsertText(row: CatalogRow, edit: CatalogRow): CatalogRow
    requires Counters(row.rank) && Counters(edit.rank)
  {
    var newer := TextLess(RankText(row.rank), RankText(edit.rank));
    CatalogRow(if newer then edit.event else row.event, if newer then edit.rank else row.rank,
               if newer then edit.item else row.item, row.removed || edit.removed)
  }

  /** Comparing the texts is comparing the ranks. */
  lemma {:induction false} UpsertTextIsUpsert(row: CatalogRow, edit: CatalogRow)
    requires Counters(row.rank) && Counters(edit.rank) && |row.rank.origin| == |edit.rank.origin|
    ensures UpsertText(row, edit) == UpsertCatalog(Some(row), edit)
  {
    RankTextOrder(row.rank, edit.rank);
  }

  function Merge(a: CatalogRow, b: CatalogRow): CatalogRow { UpsertCatalog(Some(a), b) }

  /** Rows of the same rank come from the same event. */
  predicate NoTie(a: CatalogRow, b: CatalogRow) { a.rank == b.rank ==> a.event == b.event && a.item == b.item }

  lemma {:induction false} MergeCommutes(a: CatalogRow, b: CatalogRow)
    requires NoTie(a, b)
    ensures Merge(a, b) == Merge(b, a)
  {
    RankTotal(a.rank, b.rank);
  }

  lemma {:induction false} MergeAssociates(a: CatalogRow, b: CatalogRow, c: CatalogRow)
    ensures Merge(Merge(a, b), c) == Merge(a, Merge(b, c))
  {
    RankTotal(a.rank, b.rank);
    RankTotal(b.rank, c.rank);
    RankTotal(a.rank, c.rank);
    if RankLess(a.rank, b.rank) && RankLess(b.rank, c.rank) { RankTransitive(a.rank, b.rank, c.rank); }
    if RankLess(b.rank, a.rank) && RankLess(c.rank, b.rank) { RankTransitive(c.rank, b.rank, a.rank); }
  }

  lemma {:induction false} MergeIdempotent(a: CatalogRow)
    ensures Merge(a, a) == a
  {
    RankTotal(a.rank, a.rank);
  }

  /** Rows merged in order of arrival. */
  function MergeAll(rows: seq<CatalogRow>): CatalogRow
    requires rows != []
  {
    if |rows| == 1 then rows[0] else Merge(MergeAll(rows[..|rows| - 1]), rows[|rows| - 1])
  }

  ghost predicate NoTies(rows: seq<CatalogRow>) {
    forall i, j :: 0 <= i < |rows| && 0 <= j < |rows| ==> NoTie(rows[i], rows[j])
  }

  /** m is what any order of the rows merges to: the content of the greatest rank, removed if any row was. */
  ghost predicate IsMerged(rows: seq<CatalogRow>, m: CatalogRow) {
    && (exists k :: 0 <= k < |rows| && rows[k].rank == m.rank && rows[k].event == m.event && rows[k].item == m.item)
    && (forall k :: 0 <= k < |rows| ==> !RankLess(m.rank, rows[k].rank))
    && (m.removed <==> exists k :: 0 <= k < |rows| && rows[k].removed)
  }

  lemma {:induction false} MergeAllIsMerged(rows: seq<CatalogRow>)
    requires rows != []
    ensures IsMerged(rows, MergeAll(rows))
    decreases |rows|
  {
    var last := rows[|rows| - 1];
    RankTotal(last.rank, last.rank);
    if |rows| > 1 {
      var init := rows[..|rows| - 1];
      MergeAllIsMerged(init);
      var m := MergeAll(init);
      var k :| 0 <= k < |init| && init[k].rank == m.rank && init[k].event == m.event && init[k].item == m.item;
      assert rows[k] == init[k];
      RankTotal(m.rank, last.rank);
      forall j | 0 <= j < |rows| ensures !RankLess(MergeAll(rows).rank, rows[j].rank) {
        if j < |init| {
          assert rows[j] == init[j];
          if RankLess(m.rank, last.rank) && RankLess(last.rank, rows[j].rank) {
            RankTransitive(m.rank, last.rank, rows[j].rank);
          }
        }
      }
      assert forall j :: 0 <= j < |init| ==> init[j] == rows[j];
      if j :| 0 <= j < |rows| && rows[j].removed { assert j < |init| ==> init[j].removed; }
    }
    hide RankLess;
  }

  /** The same edits, in any order and any number of times, leave the same row; one deletion among them wins. */
  lemma {:induction false} ArrivalOrderIrrelevant(a: seq<CatalogRow>, b: seq<CatalogRow>)
    requires a != [] && b != [] && NoTies(a) && forall r :: r in a <==> r in b
    ensures MergeAll(a) == MergeAll(b)
    ensures MergeAll(a).removed <==> exists k :: 0 <= k < |a| && a[k].removed
  {
    hide RankLess;
    MergeAllIsMerged(a);
    MergeAllIsMerged(b);
    var m, n := MergeAll(a), MergeAll(b);
    var i :| 0 <= i < |a| && a[i].rank == m.rank && a[i].event == m.event && a[i].item == m.item;
    var j :| 0 <= j < |b| && b[j].rank == n.rank && b[j].event == n.event && b[j].item == n.item;
    assert a[i] in b && b[j] in a;
    var j' :| 0 <= j' < |a| && a[j'] == b[j];
    var i' :| 0 <= i' < |b| && b[i'] == a[i];
    RankTotal(m.rank, n.rank);
    assert NoTie(a[i], a[j']);
    if x :| 0 <= x < |a| && a[x].removed { assert a[x] in b; }
    if y :| 0 <= y < |b| && b[y].removed { assert b[y] in a; }
  }
}
