/** Reciprocal-rank fusion of two result lists (qc/rag.py), over exact rationals instead of floats. */
module RankFusion {
  import opened Common
  import opened Sorting

  datatype Ranked = Ranked(key: string, score: real)

  datatype Row = Row(key: string, denseRank: Option<nat>, bm25Rank: Option<nat>,
                     denseScore: Option<real>, bm25Score: Option<real>, fused: real)

  /** No rank of the list cancels the constant; otherwise the source divides by zero. */
  predicate Divisible(list: seq<Ranked>, k: int) {
    k >= 0 || k + |list| < 0
  }

  function Share(k: int, rank: nat): real {
    if k + rank == 0 then 0.0 else 1.0 / (k + rank) as real
  }

  /** What a list adds to the fused score of a key: one share per occurrence. */
  function Contribution(list: seq<Ranked>, k: int, key: string): real {
    if list == [] then 0.0
    else Contribution(list[..|list| - 1], k, key) + if list[|list| - 1].key == key then Share(k, |list|) else 0.0
  }

  /** The rank of the last occurrence, counted from one. */
  function RankIn(list: seq<Ranked>, key: string): (r: Option<nat>)
    ensures r.Some? ==> 1 <= r.value <= |list| && list[r.value - 1].key == key
                        && forall j | r.value <= j < |list| :: list[j].key != key
    ensures r.None? ==> forall j | 0 <= j < |list| :: list[j].key != key
  {
    if list == [] then None
    else if list[|list| - 1].key == key then Some(|list|)
    else RankIn(list[..|list| - 1], key)
  }

  function ScoreIn(list: seq<Ranked>, key: string): Option<real> {
    match RankIn(list, key)
    case None => None
    case Some(rank) => Some(list[rank - 1].score)
  }

  function RowOf(dense: seq<Ranked>, bm25: seq<Ranked>, k: int, key: string): Row {
    Row(key, RankIn(dense, key), RankIn(bm25, key), ScoreIn(dense, key), ScoreIn(bm25, key),
        Contribution(dense, k, key) + Contribution(bm25, k, key))
  }

  predicate Listed(dense: seq<Ranked>, bm25: seq<Ranked>, key: string) {
    RankIn(dense, key).Some? || RankIn(bm25, key).Some?
  }

  /** Higher fused score first, then the smaller key. */
  predicate Ahead(a: Row, b: Row) {
    a.fused > b.fused || (a.fused == b.fused && StringLess(a.key, b.key))
  }

  /** The complete ranking: one row per key of either list, with its exact score, in order. */
  ghost predicate IsRanking(all: seq<Row>, dense: seq<Ranked>, bm25: seq<Ranked>, k: int) {
    && (forall i | 0 <= i < |all| :: Listed(dense, bm25, all[i].key) && all[i] == RowOf(dense, bm25, k, all[i].key))
    && (forall key | Listed(dense, bm25, key) :: RowOf(dense, bm25, k, key) in all)
    && (forall i, j | 0 <= i < j < |all| :: all[i].key != all[j].key && Ahead(all[i], all[j]))
  }

  /** `[:limit]`, which for a negative limit drops rows from the end. */
  function Sliced<T>(s: seq<T>, limit: int): (r: seq<T>)
    ensures r <= s
    ensures |r| == if limit >= 0 then Min(limit, |s|) else Max(0, |s| + limit)
  {
    if limit >= 0 then s[..Min(limit, |s|)] else s[..Max(0, |s| + limit)]
  }

  // ---------------------------------------------------------------- the merge

  lemma RowStepDense(dense: seq<Ranked>, n: nat, k: int, key: string)
    requires n < |dense|
    ensures var before, after := RowOf(dense[..n], [], k, key), RowOf(dense[..n + 1], [], k, key);
            after == if dense[n].key != key then before
                     else before.(denseRank := Some(n + 1), denseScore := Some(dense[n].score),
                                   fused := before.fused + Share(k, n + 1))
    ensures Listed(dense[..n + 1], [], key) <==> Listed(dense[..n], [], key) || dense[n].key == key
  {
    hide Share;
    assert dense[..n + 1][..n] == dense[..n];
  }

  lemma RowStepBm25(dense: seq<Ranked>, bm25: seq<Ranked>, n: nat, k: int, key: string)
    requires n < |bm25|
    ensures var before, after := RowOf(dense, bm25[..n], k, key), RowOf(dense, bm25[..n + 1], k, key);
            after == if bm25[n].key != key then before
                     else before.(bm25Rank := Some(n + 1), bm25Score := Some(bm25[n].score),
                                   fused := before.fused + Share(k, n + 1))
    ensures Listed(dense, bm25[..n + 1], key) <==> Listed(dense, bm25[..n], key) || bm25[n].key == key
  {
    hide Share;
    assert bm25[..n + 1][..n] == bm25[..n];
  }

  lemma UnlistedRow(dense: seq<Ranked>, bm25: seq<Ranked>, k: int, key: string)
    requires !Listed(dense, bm25, key)
    ensures RowOf(dense, bm25, k, key) == Row(key, None, None, None, None, 0.0)
  {
    NoContribution(dense, k, key);
    NoContribution(bm25, k, key);
  }

  lemma {:induction false} NoContribution(list: seq<Ranked>, k: int, key: string)
    requires RankIn(list, key).None?
    ensures Contribution(list, k, key) == 0.0
  {
    if list != [] {
      NoContribution(list[..|list| - 1], k, key);
    }
  }

  /** The dictionary of rows and its keys in insertion order. */
  ghost predicate Holds(values: map<string, Row>, inserted: seq<string>, dense: seq<Ranked>, bm25: seq<Ranked>,
                        k: int) {
    && (forall key :: key in values <==> Listed(dense, bm25, key))
    && (forall key | key in values :: values[key] == RowOf(dense, bm25, k, key))
    && (forall key :: key in values <==> key in inserted)
    && (forall i, j | 0 <= i < j < |inserted| :: inserted[i] != inserted[j])
  }

  method RrfMerge(dense: seq<Ranked>, bm25: seq<Ranked>, k: int, limit: int) returns (rows: seq<Row>)
    requires Divisible(dense, k) && Divisible(bm25, k)
    ensures exists all :: IsRanking(all, dense, bm25, k) && rows == Sliced(all, limit)
  {
    hide RowOf, Listed, Share, IsRanking;
    var values: map<string, Row> := map[];
    var inserted: seq<string> := [];
    NothingHeld(k);
    assert dense[..0] == [] && bm25[..0] == [];
    for n := 0 to |dense|
      invariant Holds(values, inserted, dense[..n], [], k)
    {
      forall key {
        RowStepDense(dense, n, k, key);
      }
      var key := dense[n].key;
      if key !in values {
        UnlistedRow(dense[..n], [], k, key);
        inserted := inserted + [key];
      }
      var row := if key in values then values[key] else Row(key, None, None, None, None, 0.0);
      var fused := row.fused + Share(k, n + 1);
      values := values[key := row.(denseRank := Some(n + 1), denseScore := Some(dense[n].score), fused := fused)];
    }
    assert dense[..|dense|] == dense;
    for n := 0 to |bm25|
      invariant Holds(values, inserted, dense, bm25[..n], k)
    {
      forall key {
        RowStepBm25(dense, bm25, n, k, key);
      }
      var key := bm25[n].key;
      if key !in values {
        UnlistedRow(dense, bm25[..n], k, key);
        inserted := inserted + [key];
      }
      var row := if key in values then values[key] else Row(key, None, None, None, None, 0.0);
      var fused := row.fused + Share(k, n + 1);
      values := values[key := row.(bm25Rank := Some(n + 1), bm25Score := Some(bm25[n].score), fused := fused)];
    }
    assert bm25[..|bm25|] == bm25;
    assert forall i | 0 <= i < |inserted| :: inserted[i] in inserted;
    var sorted := Sort(seq(|inserted|, i requires 0 <= i < |inserted| => values[inserted[i]]), Ahead);
    SortedIsRanking(values, inserted, dense, bm25, k);
    rows := Sliced(sorted, limit);
  }

  lemma NothingHeld(k: int)
    ensures Holds(map[], [], [], [], k)
  {
  }

  lemma AheadOrdersStrictly(domain: set<Row>)
    requires forall a, b | a in domain && b in domain && a.key == b.key :: a == b
    ensures OrdersStrictly(Ahead, domain)
  {
    forall a, b | a in domain && b in domain
      ensures a != b ==> Ahead(a, b) != Ahead(b, a)
      ensures !Ahead(a, a)
    {
      StringLessTrichotomy(a.key, b.key);
      StringLessTrichotomy(a.key, a.key);
    }
    forall a, b, c | a in domain && b in domain && c in domain && Ahead(a, b) && Ahead(b, c)
      ensures Ahead(a, c)
    {
      if StringLess(a.key, b.key) && StringLess(b.key, c.key) {
        StringLessTransitive(a.key, b.key, c.key);
      }
    }
  }

  lemma SortedIsRanking(values: map<string, Row>, inserted: seq<string>, dense: seq<Ranked>, bm25: seq<Ranked>, k: int)
    requires Holds(values, inserted, dense, bm25, k)
    requires forall i | 0 <= i < |inserted| :: inserted[i] in values
    ensures IsRanking(Sort(seq(|inserted|, i requires 0 <= i < |inserted| => values[inserted[i]]), Ahead), dense, bm25,
                      k)
  {
    hide Listed, Ahead, Sort, IsRanking, Contribution, RankIn, ScoreIn;
    var rows := seq(|inserted|, i requires 0 <= i < |inserted| => values[inserted[i]]);
    forall key | Listed(dense, bm25, key)
      ensures RowOf(dense, bm25, k, key) in rows
    {
      var i :| 0 <= i < |inserted| && inserted[i] == key;
      assert rows[i] in rows;
    }
    forall i | 0 <= i < |rows|
      ensures rows[i].key == inserted[i] && Listed(dense, bm25, rows[i].key)
              && rows[i] == RowOf(dense, bm25, k, rows[i].key)
    {
      assert values[inserted[i]] == RowOf(dense, bm25, k, inserted[i]);
    }
    RowsSortToRanking(rows, dense, bm25, k);
  }

  lemma RowsSortToRanking(rows: seq<Row>, dense: seq<Ranked>, bm25: seq<Ranked>, k: int)
    requires forall i | 0 <= i < |rows| ::
               Listed(dense, bm25, rows[i].key) && rows[i] == RowOf(dense, bm25, k, rows[i].key)
    requires forall key | Listed(dense, bm25, key) :: RowOf(dense, bm25, k, key) in rows
    requires forall i, j | 0 <= i < j < |rows| :: rows[i].key != rows[j].key
    ensures IsRanking(Sort(rows, Ahead), dense, bm25, k)
  {
    hide Listed, Ahead, Sort, RowOf;
    var sorted := Sort(rows, Ahead);
    SortedRows(rows);
    forall i | 0 <= i < |sorted|
      ensures Listed(dense, bm25, sorted[i].key) && sorted[i] == RowOf(dense, bm25, k, sorted[i].key)
    {
      assert sorted[i] in rows;
    }
  }

  lemma SortedRows(rows: seq<Row>)
    requires forall i, j | 0 <= i < j < |rows| :: rows[i].key != rows[j].key
    ensures var sorted := Sort(rows, Ahead);
            && (forall r :: r in sorted <==> r in rows)
            && forall i, j | 0 <= i < j < |sorted| :: sorted[i].key != sorted[j].key && Ahead(sorted[i], sorted[j])
  {
    hide Ahead, Sort;
    var domain := set r | r in rows;
    AheadOrdersStrictly(domain);
    SortAscending(rows, Ahead, domain);
    SortKeepsElements(rows, Ahead);
    SortedKeysDiffer(Sort(rows, Ahead), domain);
  }

  lemma SortedKeysDiffer(sorted: seq<Row>, domain: set<Row>)
    requires Ascending(sorted, Ahead) && OrdersStrictly(Ahead, domain)
    requires forall r | r in sorted :: r in domain
    requires forall a, b | a in domain && b in domain && a.key == b.key :: a == b
    ensures forall i, j | 0 <= i < j < |sorted| :: sorted[i].key != sorted[j].key && Ahead(sorted[i], sorted[j])
  {
    hide Ahead;
    forall i, j | 0 <= i < j < |sorted|
      ensures sorted[i].key != sorted[j].key && Ahead(sorted[i], sorted[j])
    {
      assert sorted[i] in sorted && sorted[j] in sorted;
    }
  }

  // ---------------------------------------------------------------- what the ranking means

  predicate WithoutRepeats(list: seq<Ranked>) {
    forall i, j | 0 <= i < j < |list| :: list[i].key != list[j].key
  }

  /** In a list without repeats a key contributes exactly the share of its rank. */
  lemma {:induction false} SingleContribution(list: seq<Ranked>, k: int, key: string)
    requires WithoutRepeats(list)
    ensures Contribution(list, k, key) == match RankIn(list, key) case None => 0.0 case Some(rank) => Share(k, rank)
  {
    hide Share;
    if list != [] {
      var init := list[..|list| - 1];
      SingleContribution(init, k, key);
      if list[|list| - 1].key == key {
        NoContribution(init, k, key);
      }
    }
  }

  lemma ReciprocalDecreases(x: real, y: real)
    requires 0.0 < x < y
    ensures 1.0 / x > 1.0 / y > 0.0
  {
    var p, q := 1.0 / x, 1.0 / y;
    assert p * x == 1.0 && q * y == 1.0;
    assert q > 0.0;
    Scaled(x, y, q);
    if p <= q {
      Scaled(p, q, x);
    }
  }

  lemma Scaled(a: real, b: real, c: real)
    requires a <= b && c > 0.0
    ensures a * c <= b * c && (a < b ==> a * c < b * c)
  {
  }

  lemma ShareDecreases(k: int, a: nat, b: nat)
    requires k >= 0 && 1 <= a < b
    ensures Share(k, a) > Share(k, b) > 0.0
  {
    ReciprocalDecreases((k + a) as real, (k + b) as real);
  }

  /** `a` is ranked strictly better than `b` in the list, if `b` is in it at all. */
  predicate Beats(list: seq<Ranked>, a: string, b: string) {
    RankIn(list, b).Some? ==> RankIn(list, a).Some? && RankIn(list, a).value < RankIn(list, b).value
  }

  lemma BeatingContributesMore(list: seq<Ranked>, k: int, a: string, b: string)
    requires WithoutRepeats(list) && k >= 0 && Beats(list, a, b)
    ensures Contribution(list, k, a) >= Contribution(list, k, b)
    ensures RankIn(list, b).Some? ==> Contribution(list, k, a) > Contribution(list, k, b)
  {
    hide Contribution, Share;
    SingleContribution(list, k, a);
    SingleContribution(list, k, b);
    if RankIn(list, b).Some? {
      ShareDecreases(k, RankIn(list, a).value, RankIn(list, b).value);
    } else if RankIn(list, a).Some? {
      ShareDecreases(k, RankIn(list, a).value, RankIn(list, a).value + 1);
    }
  }

  lemma BeatingScoresHigher(dense: seq<Ranked>, bm25: seq<Ranked>, k: int, a: string, b: string)
    requires WithoutRepeats(dense) && WithoutRepeats(bm25) && k >= 0
    requires Beats(dense, a, b) && Beats(bm25, a, b) && Listed(dense, bm25, b)
    ensures Listed(dense, bm25, a) && RowOf(dense, bm25, k, a).fused > RowOf(dense, bm25, k, b).fused
  {
    hide RankIn, Contribution, WithoutRepeats, ScoreIn;
    BeatingContributesMore(dense, k, a, b);
    BeatingContributesMore(bm25, k, a, b);
  }

  lemma HigherComesFirst(all: seq<Row>, dense: seq<Ranked>, bm25: seq<Ranked>, k: int, a: string, j: nat)
    returns (i: nat)
    requires IsRanking(all, dense, bm25, k) && j < |all| && Listed(dense, bm25, a)
    requires RowOf(dense, bm25, k, a).fused > all[j].fused
    ensures i < j && all[i].key == a
  {
    hide RankIn, Contribution, ScoreIn, Listed;
    assert RowOf(dense, bm25, k, a) in all;
    i :| 0 <= i < |all| && all[i] == RowOf(dense, bm25, k, a);
    assert j < i ==> Ahead(all[j], all[i]);
  }

  lemma RankedRow(all: seq<Row>, dense: seq<Ranked>, bm25: seq<Ranked>, k: int, j: nat)
    requires IsRanking(all, dense, bm25, k) && j < |all|
    ensures Listed(dense, bm25, all[j].key) && all[j] == RowOf(dense, bm25, k, all[j].key)
  {
    hide RowOf, Listed, Ahead;
  }

  /** A key that beats another in every list where the other appears comes before it whenever the other is returned. */
  lemma Dominance(all: seq<Row>, dense: seq<Ranked>, bm25: seq<Ranked>, k: int, limit: int, a: string, j: nat)
    returns (i: nat)
    requires IsRanking(all, dense, bm25, k) && WithoutRepeats(dense) && WithoutRepeats(bm25) && k >= 0
    requires j < |Sliced(all, limit)|
    requires Beats(dense, a, all[j].key) && Beats(bm25, a, all[j].key)
    ensures i < j && Sliced(all, limit)[i].key == a
  {
    hide IsRanking, Beats, WithoutRepeats, RowOf, Listed;
    RankedRow(all, dense, bm25, k, j);
    BeatingScoresHigher(dense, bm25, k, a, all[j].key);
    i := HigherComesFirst(all, dense, bm25, k, a, j);
  }

  function KeysOf(list: seq<Ranked>): set<string> {
    set i | 0 <= i < |list| :: list[i].key
  }

  /** The number of rows is the size of the union, cut to the limit. */
  lemma LengthIsUnion(all: seq<Row>, dense: seq<Ranked>, bm25: seq<Ranked>, k: int, limit: nat)
    requires IsRanking(all, dense, bm25, k)
    ensures |Sliced(all, limit)| == Min(limit, |KeysOf(dense) + KeysOf(bm25)|)
  {
    hide Contribution, Ahead;
    var keys := seq(|all|, i requires 0 <= i < |all| => all[i].key);
    forall key
      ensures key in keys <==> key in KeysOf(dense) + KeysOf(bm25)
    {
      if key in KeysOf(dense) + KeysOf(bm25) {
        assert Listed(dense, bm25, key);
        var i :| 0 <= i < |all| && all[i] == RowOf(dense, bm25, k, key);
        assert keys[i] == key;
      }
      if key in keys {
        var i :| 0 <= i < |keys| && keys[i] == key;
        assert Listed(dense, bm25, all[i].key);
      }
    }
    DistinctLength(keys, KeysOf(dense) + KeysOf(bm25));
  }

  lemma {:induction false} DistinctLength<T>(s: seq<T>, elements: set<T>)
    requires forall i, j | 0 <= i < j < |s| :: s[i] != s[j]
    requires forall x :: x in s <==> x in elements
    ensures |s| == |elements|
  {
    if s == [] {
      assert elements == {};
    } else {
      var last := s[|s| - 1];
      assert s == s[..|s| - 1] + [last];
      DistinctLength(s[..|s| - 1], elements - {last});
      assert last in elements;
    }
  }

  /** The ranking is unique, so the result does not depend on how the rows were collected. */
  lemma RankingIsUnique(a: seq<Row>, b: seq<Row>, dense: seq<Ranked>, bm25: seq<Ranked>, k: int)
    requires IsRanking(a, dense, bm25, k) && IsRanking(b, dense, bm25, k)
    ensures a == b
  {
    hide Listed, RowOf, Ahead;
    var domain := set r | r in a + b;
    forall r
      ensures r in a <==> r in b
    {
      if r in a {
        assert Listed(dense, bm25, r.key);
      }
      if r in b {
        assert Listed(dense, bm25, r.key);
      }
    }
    assert forall x, y | x in domain && y in domain && x.key == y.key :: x == y by {
      assert forall x | x in domain :: x == RowOf(dense, bm25, k, x.key);
    }
    AheadOrdersStrictly(domain);
    AscendingUnique(a, b, Ahead, domain);
  }
}
