/** What a search returns (qc/rag.py), read off the index, the query and the scores: who is listed, what the lists
    add up to, who is chosen and what is reported, without the functions that compute it. */
module SearchLaws {
  import opened Common
  import opened Reports
  import opened Sorting
  import opened RankFusion
  import opened Knowledge
  import opened KnowledgeSearch

  // ---------------------------------------------------------------- the two lists

  /** The document is published, of the type asked for, in force, and related to the rule asked for. */
  ghost predicate Admits(q: Query, d: Document) {
    && d.status == Some("published") && d.topic.Of? && d.topic.etype == q.etype
    && d.from.Starts? && d.from.instant <= q.at
    && !d.until.Unparseable? && (d.until.Ends? ==> q.at < d.until.instant)
    && (q.relation != "" ==> q.relation in d.relatedRuleIds)
  }

  /** How many of `n` a Python slice up to `limit` keeps. */
  ghost function Kept(limit: int, n: nat): (r: nat)
    ensures r <= n
  {
    if limit >= n then n else if limit >= 0 then limit else if n + limit >= 0 then n + limit else 0
  }

  ghost function Admitted(chunks: seq<Chunk>, q: Query): set<nat> {
    set i: nat | i < |chunks| && Admits(q, chunks[i].of)
  }

  ghost predicate Outranks(chunks: seq<Chunk>, score: nat -> real, i: nat, j: nat)
    requires i < |chunks| && j < |chunks|
  {
    var a, b := chunks[i].chunkId, chunks[j].chunkId;
    score(i) > score(j) || (score(i) == score(j) && (StringLess(a, b) || (a == b && i < j)))
  }

  /** The best admitted chunks, best first. */
  ghost predicate Tops(chunks: seq<Chunk>, q: Query, score: nat -> real, limit: int, order: seq<nat>) {
    && |order| == Kept(limit, |Admitted(chunks, q)|)
    && (forall n | 0 <= n < |order| :: order[n] in Admitted(chunks, q))
    && (forall m, n | 0 <= m < n < |order| :: Outranks(chunks, score, order[m], order[n]))
    && (forall i, n | i in Admitted(chunks, q) && i !in order && 0 <= n < |order| ::
          Outranks(chunks, score, order[n], i))
  }

  ghost predicate Lists(chunks: seq<Chunk>, score: nat -> real, order: seq<nat>, list: seq<Ranked>) {
    && |list| == |order|
    && forall n | 0 <= n < |order| ::
         order[n] < |chunks| && list[n] == Ranked(chunks[order[n]].chunkId, score(order[n]))
  }

  /** The list of the best admitted chunks. */
  ghost predicate TopList(chunks: seq<Chunk>, q: Query, score: nat -> real, limit: int, list: seq<Ranked>) {
    exists order :: Tops(chunks, q, score, limit, order) && Lists(chunks, score, order, list)
  }

  ghost predicate Held(chunks: seq<Chunk>, id: string) {
    exists c :: c in chunks && c.chunkId == id
  }

  /** `list` is `rows` without those whose chunk the index does not hold; `at` says where the others stood. */
  ghost predicate Drops(chunks: seq<Chunk>, rows: seq<Ranked>, list: seq<Ranked>, at: seq<nat>) {
    && |at| == |list| && (forall i, j | 0 <= i < j < |at| :: at[i] < at[j])
    && (forall i | 0 <= i < |at| :: at[i] < |rows| && rows[at[i]] == list[i])
    && (forall k: nat | k < |rows| :: k in at <==> Held(chunks, rows[k].key))
  }

  ghost predicate DenseIs(chunks: seq<Chunk>, config: SearchConfig, q: Query, dense: Dense, list: seq<Ranked>) {
    match dense
    case InMemory(similarity) => TopList(chunks, q, similarity, config.denseTopK, list)
    case PgVector(rows) => exists at :: Drops(chunks, rows, list, at)
  }

  lemma {:induction false} EligibleAscends(chunks: seq<Chunk>, q: Query)
    ensures forall i, j | 0 <= i < j < |EligibleAmong(chunks, q)| ::
              EligibleAmong(chunks, q)[i] < EligibleAmong(chunks, q)[j]
  {
    hide Eligible;
    if chunks != [] {
      var init := chunks[..|chunks| - 1];
      EligibleAscends(init, q);
      assert forall i: nat | i in EligibleAmong(init, q) :: i < |init|;
      assert forall k | 0 <= k < |EligibleAmong(init, q)| :: EligibleAmong(init, q)[k] in EligibleAmong(init, q);
    }
  }

  lemma EligibleAreAdmitted(chunks: seq<Chunk>, q: Query)
    ensures forall i: nat :: i in EligibleAmong(chunks, q) <==> i in Admitted(chunks, q)
    ensures |EligibleAmong(chunks, q)| == |Admitted(chunks, q)|
  {
    forall i: nat | i < |chunks|
      ensures Eligible(chunks[i].of, q) <==> Admits(q, chunks[i].of)
    {
    }
    hide Eligible, Admits;
    EligibleAscends(chunks, q);
    DistinctLength(EligibleAmong(chunks, q), Admitted(chunks, q));
  }

  lemma PrecedesOrders(chunks: seq<Chunk>, score: nat -> real, domain: set<nat>)
    ensures OrdersStrictly((i: nat, j: nat) => Precedes(chunks, score, i, j), domain)
  {
    forall i: nat, j: nat
      ensures i != j ==> Precedes(chunks, score, i, j) != Precedes(chunks, score, j, i)
      ensures !Precedes(chunks, score, i, i)
    {
      StringLessTrichotomy(IdAt(chunks, i), IdAt(chunks, j));
      StringLessTrichotomy(IdAt(chunks, i), IdAt(chunks, i));
    }
    forall i: nat, j: nat, k: nat | Precedes(chunks, score, i, j) && Precedes(chunks, score, j, k)
      ensures Precedes(chunks, score, i, k)
    {
      if StringLess(IdAt(chunks, i), IdAt(chunks, j)) && StringLess(IdAt(chunks, j), IdAt(chunks, k)) {
        StringLessTransitive(IdAt(chunks, i), IdAt(chunks, j), IdAt(chunks, k));
      }
    }
  }

  /** The first elements of a sorted list are the best ones of the list. */
  lemma FirstAreBest<T>(s: seq<T>, less: (T, T) -> bool, domain: set<T>, limit: int)
    requires OrdersStrictly(less, domain) && NoRepeats(s) && forall x | x in s :: x in domain
    ensures var best := Sliced(Sort(s, less), limit);
            && |best| == Kept(limit, |s|) && (forall x | x in best :: x in s)
            && (forall m, n | 0 <= m < n < |best| :: less(best[m], best[n]))
            && forall x, n | x in s && x !in best && 0 <= n < |best| :: less(best[n], x)
  {
    SortAscending(s, less, domain);
    SortKeepsElements(s, less);
    hide Sort;
    var all := Sort(s, less);
    var best := Sliced(all, limit);
    assert forall x | x in best :: x in all;
    assert forall m | 0 <= m < |best| :: best[m] in best;
    forall x, n | x in s && x !in best && 0 <= n < |best|
      ensures less(best[n], x)
    {
      assert x in all;
      var m :| 0 <= m < |all| && all[m] == x;
    }
  }

  /** The ranking in memory lists the best admitted chunks. */
  lemma ListingTops(chunks: seq<Chunk>, q: Query, score: nat -> real, limit: int)
    ensures TopList(chunks, q, score, limit, Listing(chunks, q, score, limit))
  {
    hide Admits, Eligible, StringLess, Sort, OrdersStrictly, Admitted;
    var eligible, less := EligibleAmong(chunks, q), (i: nat, j: nat) => Precedes(chunks, score, i, j);
    EligibleAreAdmitted(chunks, q);
    EligibleAscends(chunks, q);
    PrecedesOrders(chunks, score, Admitted(chunks, q));
    FirstAreBest(eligible, less, Admitted(chunks, q), limit);
    var order := Sliced(Sort(eligible, less), limit);
    AdmittedAreChunks(chunks, q);
    assert forall n | 0 <= n < |order| :: order[n] in order;
    assert Tops(chunks, q, score, limit, order);
    assert Lists(chunks, score, order, Listing(chunks, q, score, limit));
  }

  lemma AdmittedAreChunks(chunks: seq<Chunk>, q: Query)
    ensures forall i | i in Admitted(chunks, q) :: i < |chunks|
  {
  }

  lemma {:induction false} KnownRowsDrop(chunks: seq<Chunk>, rows: seq<Ranked>) returns (at: seq<nat>)
    ensures Drops(chunks, rows, KnownRows(chunks, rows), at)
  {
    hide Resolve, Held;
    if rows == [] {
      at := [];
    } else {
      var init, last := rows[..|rows| - 1], rows[|rows| - 1];
      var before := KnownRowsDrop(chunks, init);
      HeldResolves(chunks, last.key);
      at := before + if Resolve(chunks, last.key).Some? then [|init|] else [];
      forall k: nat | k < |rows|
        ensures k in at <==> Held(chunks, rows[k].key)
      {
        assert k < |init| ==> init[k] == rows[k];
        assert |init| !in before;
      }
    }
  }

  lemma HeldResolves(chunks: seq<Chunk>, id: string)
    ensures Held(chunks, id) <==> Resolve(chunks, id).Some?
  {
  }

  lemma DenseListIs(chunks: seq<Chunk>, config: SearchConfig, q: Query, dense: Dense)
    ensures DenseIs(chunks, config, q, dense, DenseList(chunks, config, q, dense))
  {
    hide TopList, Listing, KnownRows, Drops;
    match dense
    case InMemory(similarity) => ListingTops(chunks, q, similarity, config.denseTopK);
    case PgVector(rows) =>
      var at := KnownRowsDrop(chunks, rows);
  }

  // ---------------------------------------------------------------- fusion

  /** The reciprocals that a key collects in a list whose first rank is `rank`. */
  ghost function Reciprocals(list: seq<Ranked>, k: int, rank: nat, key: string): real {
    if list == [] then 0.0
    else (if list[0].key == key && k + rank != 0 then 1.0 / (k + rank) as real else 0.0)
         + Reciprocals(list[1..], k, rank + 1, key)
  }

  ghost function Fused(dense: seq<Ranked>, bm25: seq<Ranked>, k: int, key: string): real {
    Reciprocals(dense, k, 1, key) + Reciprocals(bm25, k, 1, key)
  }

  /** The keys of the two lists. */
  ghost function Keys(dense: seq<Ranked>, bm25: seq<Ranked>): set<string> {
    (set i | 0 <= i < |dense| :: dense[i].key) + (set i | 0 <= i < |bm25| :: bm25[i].key)
  }

  /** `rows` are the keys with the greatest fused scores, the greatest first, each once. */
  ghost predicate Fuses(rows: seq<Row>, dense: seq<Ranked>, bm25: seq<Ranked>, k: int, limit: int) {
    && |rows| == Kept(limit, |Keys(dense, bm25)|)
    && (forall i | 0 <= i < |rows| ::
          rows[i].key in Keys(dense, bm25) && rows[i].fused == Fused(dense, bm25, k, rows[i].key))
    && (forall i, j | 0 <= i < j < |rows| :: Leads(rows[i], rows[j].key, rows[j].fused))
    && (forall key, i | key in Keys(dense, bm25) && 0 <= i < |rows| ::
          (exists j :: 0 <= j < |rows| && rows[j].key == key) || Leads(rows[i], key, Fused(dense, bm25, k, key)))
  }

  ghost predicate Leads(row: Row, key: string, fused: real) {
    row.key != key && (row.fused > fused || (row.fused == fused && StringLess(row.key, key)))
  }

  lemma {:induction false} ReciprocalsAppend(list: seq<Ranked>, last: Ranked, k: int, rank: nat, key: string)
    ensures Reciprocals(list + [last], k, rank, key)
         == Reciprocals(list, k, rank, key)
            + if last.key == key && k + rank + |list| != 0 then 1.0 / (k + rank + |list|) as real else 0.0
  {
    if list == [] {
      assert [last][1..] == [];
      assert Reciprocals([], k, rank + 1, key) == 0.0;
    } else {
      assert (list + [last])[1..] == list[1..] + [last];
      ReciprocalsAppend(list[1..], last, k, rank + 1, key);
    }
  }

  lemma {:induction false} ContributionIsReciprocals(list: seq<Ranked>, k: int, key: string)
    ensures Contribution(list, k, key) == Reciprocals(list, k, 1, key)
  {
    if list != [] {
      var init, last := list[..|list| - 1], list[|list| - 1];
      assert list == init + [last];
      ContributionIsReciprocals(init, k, key);
      ReciprocalsAppend(init, last, k, 1, key);
    }
  }

  lemma ListedKeys(dense: seq<Ranked>, bm25: seq<Ranked>, key: string)
    ensures Listed(dense, bm25, key) <==> key in Keys(dense, bm25)
  {
    hide RankIn;
  }

  lemma RankingFuses(all: seq<Row>, dense: seq<Ranked>, bm25: seq<Ranked>, k: int, limit: int)
    requires IsRanking(all, dense, bm25, k)
    ensures Fuses(Sliced(all, limit), dense, bm25, k, limit)
  {
    hide Contribution, RankIn, ScoreIn, Reciprocals, Keys, Listed, Ahead, StringLess;
    forall key
      ensures Listed(dense, bm25, key) <==> key in Keys(dense, bm25)
      ensures RowOf(dense, bm25, k, key).fused == Fused(dense, bm25, k, key)
    {
      ListedKeys(dense, bm25, key);
      ContributionIsReciprocals(dense, k, key);
      ContributionIsReciprocals(bm25, k, key);
    }
    RowsAreKeys(all, dense, bm25, k);
    hide RowOf, Fused;
    SortedRowsFuse(all, dense, bm25, k, limit);
  }

  lemma SortedRowsFuse(all: seq<Row>, dense: seq<Ranked>, bm25: seq<Ranked>, k: int, limit: int)
    requires |all| == |Keys(dense, bm25)|
    requires forall i | 0 <= i < |all| ::
               all[i].key in Keys(dense, bm25) && all[i].fused == Fused(dense, bm25, k, all[i].key)
    requires forall key | key in Keys(dense, bm25) :: exists j :: 0 <= j < |all| && all[j].key == key
    requires forall i, j | 0 <= i < j < |all| :: all[i].key != all[j].key && Ahead(all[i], all[j])
    ensures Fuses(Sliced(all, limit), dense, bm25, k, limit)
  {
    hide Fused, Keys, StringLess;
    var rows := Sliced(all, limit);
    forall key, i | key in Keys(dense, bm25) && 0 <= i < |rows|
      ensures (exists j :: 0 <= j < |rows| && rows[j].key == key) || Leads(rows[i], key, Fused(dense, bm25, k, key))
    {
      var j :| 0 <= j < |all| && all[j].key == key;
      if j < |rows| {
        assert rows[j].key == key;
      }
    }
  }

  lemma RowsAreKeys(all: seq<Row>, dense: seq<Ranked>, bm25: seq<Ranked>, k: int)
    requires IsRanking(all, dense, bm25, k)
    requires forall key :: Listed(dense, bm25, key) <==> key in Keys(dense, bm25)
    ensures |all| == |Keys(dense, bm25)|
    ensures forall key | key in Keys(dense, bm25) :: exists j :: 0 <= j < |all| && all[j].key == key
  {
    hide Contribution, RankIn, ScoreIn, Keys, Listed, Ahead;
    var keys := seq(|all|, i requires 0 <= i < |all| => all[i].key);
    forall key
      ensures key in keys <==> key in Keys(dense, bm25)
    {
      if key in Keys(dense, bm25) {
        var i :| 0 <= i < |all| && all[i] == RowOf(dense, bm25, k, key);
        assert keys[i] == key;
      }
    }
    DistinctLength(keys, Keys(dense, bm25));
  }

  // ---------------------------------------------------------------- the choice

  /** The last chunk that carries the id. */
  ghost predicate IsLast(chunks: seq<Chunk>, id: string, c: Chunk) {
    exists i :: 0 <= i < |chunks| && chunks[i] == c && c.chunkId == id
                && forall j | i < j < |chunks| :: chunks[j].chunkId != id
  }

  lemma LastOfLonger(init: seq<Chunk>, last: Chunk, id: string, c: Chunk)
    requires IsLast(init, id, c) && last.chunkId != id
    ensures IsLast(init + [last], id, c)
  {
    var i :| 0 <= i < |init| && init[i] == c && forall j | i < j < |init| :: init[j].chunkId != id;
    assert (init + [last])[i] == c;
  }

  lemma {:induction false} ResolveIsLast(chunks: seq<Chunk>, id: string)
    requires Resolve(chunks, id).Some?
    ensures IsLast(chunks, id, Resolve(chunks, id).value)
  {
    var init, last := chunks[..|chunks| - 1], chunks[|chunks| - 1];
    assert chunks == init + [last];
    if last.chunkId != id {
      ResolveIsLast(init, id);
      LastOfLonger(init, last, id, Resolve(init, id).value);
    }
  }

  ghost predicate Reranked(rerank: Option<seq<real>>, count: nat) {
    rerank.Some? && |rerank.value| >= count
  }

  /** What the n-th candidate weighs: the reranker's score where there are enough of them, else the fused score with a
      bonus for the kind of document. */
  ghost predicate Weighs(weight: real, c: Chunk, fused: real, rerank: Option<seq<real>>, n: nat, count: nat)
    requires n < count
  {
    var category := c.of.category;
    && (Reranked(rerank, count) ==> weight == rerank.value[n])
    && (!Reranked(rerank, count) ==>
          && (category == "POLICY" ==> weight == fused + 0.01)
          && (category == "RULE" ==> weight == fused + 0.006)
          && (category == "GOOD_CASE" || category == "BAD_CASE" ==> weight == fused + 0.002)
          && (category !in {"POLICY", "RULE", "GOOD_CASE", "BAD_CASE"} ==> weight == fused))
  }

  /** The hit reports the document, with the score brought into the unit interval. */
  ghost predicate Shows(h: Hit, d: Document, score: real) {
    && h.documentId == d.documentId
    && (0.0 <= score <= 1.0 ==> h.score == score)
    && (score < 0.0 ==> h.score == 0.0) && (score > 1.0 ==> h.score == 1.0)
    && h.metadata.documentStatus == d.status
    && d.topic == (if h.metadata.eventType.Some? then Of(h.metadata.eventType.value) else Foreign)
    && d.from == (if h.metadata.effectiveFrom.Some? then Starts(h.metadata.effectiveFrom.value) else Unreadable)
    && h.metadata.effectiveTo == d.until && h.metadata.relatedRuleIds == d.relatedRuleIds && h.metadata.ruleIds == []
  }

  ghost predicate Heavier(rows: seq<Row>, weights: seq<real>, i: nat, j: nat)
    requires i < |rows| == |weights| && j < |rows|
  {
    weights[i] > weights[j] || (weights[i] == weights[j] && StringLess(rows[i].key, rows[j].key))
  }

  /** The heaviest candidates, the heaviest first. */
  ghost predicate Picks(rows: seq<Row>, weights: seq<real>, order: seq<nat>, count: int) {
    && |weights| == |rows| && |order| == Kept(count, |rows|)
    && (forall n | 0 <= n < |order| :: order[n] < |rows|)
    && (forall m, n | 0 <= m < n < |order| :: Heavier(rows, weights, order[m], order[n]))
    && (forall i: nat, n | i < |rows| && i !in order && 0 <= n < |order| :: Heavier(rows, weights, order[n], i))
  }

  /** A search, told from the index to the hits. */
  ghost predicate Found(chunks: seq<Chunk>, config: SearchConfig, q: Query, scoring: Scoring, hits: seq<Hit>,
                        dense: seq<Ranked>, bm25: seq<Ranked>, rows: seq<Row>, weights: seq<real>, order: seq<nat>)
  {
    && DenseIs(chunks, config, q, scoring.dense, dense) && TopList(chunks, q, scoring.bm25, config.bm25TopK, bm25)
    && Fuses(rows, dense, bm25, config.rrfK, config.rrfLimit)
    && Picks(rows, weights, order, if q.topK < config.finalTopK then q.topK else config.finalTopK)
    && (forall n: nat | n < |rows| :: RowWeighs(chunks, rows, weights[n], scoring.rerank, n))
    && |hits| == |order| && forall n: nat | n < |hits| :: ShowsRow(chunks, rows, hits[n], scoring.rerank, order[n])
  }

  /** The weight is that of the last chunk with the id of the n-th row. */
  ghost predicate RowWeighs(chunks: seq<Chunk>, rows: seq<Row>, weight: real, rerank: Option<seq<real>>, n: nat)
    requires n < |rows|
  {
    exists c :: IsLast(chunks, rows[n].key, c) && Weighs(weight, c, rows[n].fused, rerank, n, |rows|)
  }

  /** The hit shows that chunk's document, with the reranker's score or the fused one. */
  ghost predicate ShowsRow(chunks: seq<Chunk>, rows: seq<Row>, h: Hit, rerank: Option<seq<real>>, n: nat)
    requires n < |rows|
  {
    var score := if Reranked(rerank, |rows|) then rerank.value[n] else rows[n].fused;
    exists c :: IsLast(chunks, rows[n].key, c) && Shows(h, c.of, score)
  }

  lemma RanksOrders(domain: set<Scored>)
    requires forall a, b | a in domain && b in domain && a.chunk.chunkId == b.chunk.chunkId :: a == b
    ensures OrdersStrictly(Ranks, domain)
  {
    forall a, b | a in domain && b in domain
      ensures a != b ==> Ranks(a, b) != Ranks(b, a)
      ensures !Ranks(a, a)
    {
      StringLessTrichotomy(a.chunk.chunkId, b.chunk.chunkId);
      StringLessTrichotomy(a.chunk.chunkId, a.chunk.chunkId);
    }
    forall a, b, c | a in domain && b in domain && c in domain && Ranks(a, b) && Ranks(b, c)
      ensures Ranks(a, c)
    {
      if StringLess(a.chunk.chunkId, b.chunk.chunkId) && StringLess(b.chunk.chunkId, c.chunk.chunkId) {
        StringLessTransitive(a.chunk.chunkId, b.chunk.chunkId, c.chunk.chunkId);
      }
    }
  }

  lemma {:induction false} PositionsOf<T>(s: seq<T>, best: seq<T>) returns (order: seq<nat>)
    requires forall x | x in best :: x in s
    ensures |order| == |best| && forall n | 0 <= n < |best| :: order[n] < |s| && s[order[n]] == best[n]
  {
    if best == [] {
      order := [];
    } else {
      order := PositionsOf(s, best[..|best| - 1]);
      assert best[|best| - 1] in s;
      var i: nat :| i < |s| && s[i] == best[|best| - 1];
      order := order + [i];
    }
  }

  lemma CandidateWeighs(chunks: seq<Chunk>, rows: seq<Row>, rerank: Option<seq<real>>, n: nat)
    requires n < |rows| && AllResolve(chunks, rows)
    ensures var c := Candidates(chunks, rows, rerank)[n];
            && IsLast(chunks, rows[n].key, c.chunk) && c.chunk.chunkId == rows[n].key
            && Weighs(c.weight, c.chunk, rows[n].fused, rerank, n, |rows|)
            && c.score == if Reranked(rerank, |rows|) then rerank.value[n] else rows[n].fused
  {
    assert rows[n] in rows;
    ResolveIsLast(chunks, rows[n].key);
    hide Resolve, IsLast;
  }

  /** The candidates chosen are the heaviest. */
  lemma ChosenArePicked(chunks: seq<Chunk>, rows: seq<Row>, rerank: Option<seq<real>>, count: int)
    returns (weights: seq<real>, order: seq<nat>)
    requires AllResolve(chunks, rows) && forall i, j | 0 <= i < j < |rows| :: rows[i].key != rows[j].key
    ensures Picks(rows, weights, order, count)
    ensures var candidates, best := Candidates(chunks, rows, rerank), Chosen(chunks, rows, rerank, count);
            && |order| == |best| && (forall n | 0 <= n < |order| :: best[n] == candidates[order[n]])
            && forall n | 0 <= n < |rows| :: weights[n] == candidates[n].weight
  {
    hide AllResolve, StringLess, Sort, Weighs, IsLast, OrdersStrictly;
    var candidates := Candidates(chunks, rows, rerank);
    forall n | 0 <= n < |rows|
      ensures candidates[n].chunk.chunkId == rows[n].key
    {
      CandidateWeighs(chunks, rows, rerank, n);
    }
    weights := seq(|rows|, n requires 0 <= n < |rows| => candidates[n].weight);
    order := HeaviestFirst(rows, candidates, weights, count);
  }

  lemma HeaviestFirst(rows: seq<Row>, candidates: seq<Scored>, weights: seq<real>, count: int)
    returns (order: seq<nat>)
    requires |candidates| == |weights| == |rows| && forall i, j | 0 <= i < j < |rows| :: rows[i].key != rows[j].key
    requires forall n | 0 <= n < |rows| ::
               candidates[n].chunk.chunkId == rows[n].key && weights[n] == candidates[n].weight
    ensures Picks(rows, weights, order, count)
    ensures var best := Sliced(Sort(candidates, Ranks), count);
            |order| == |best| && forall n | 0 <= n < |order| :: best[n] == candidates[order[n]]
  {
    hide StringLess, Sort, OrdersStrictly;
    var domain := set c | c in candidates;
    RanksOrders(domain);
    FirstAreBest(candidates, Ranks, domain, count);
    var best := Sliced(Sort(candidates, Ranks), count);
    order := PositionsOf(candidates, best);
    forall i: nat, n | i < |rows| && i !in order && 0 <= n < |order|
      ensures Heavier(rows, weights, order[n], i)
    {
      forall m | 0 <= m < |best|
        ensures best[m] != candidates[i]
      {
        assert order[m] in order && order[m] != i;
      }
      assert candidates[i] in candidates && candidates[i] !in best;
    }
  }

  /** Every search that answers finds, fuses, weighs, chooses and reports in this way. */
  lemma SearchFinds(chunks: seq<Chunk>, config: SearchConfig, q: Query, scoring: Scoring, hits: seq<Hit>)
    returns (dense: seq<Ranked>, bm25: seq<Ranked>, rows: seq<Row>, weights: seq<real>, order: seq<nat>)
    requires IsAnswer(chunks, config, q, scoring, Success(hits))
    ensures Found(chunks, config, q, scoring, hits, dense, bm25, rows, weights, order)
  {
    hide IsRanking, AllResolve, DenseList, Listing, Divisible, Candidates, Chosen, HitOf, DenseIs, TopList, Fuses,
         Picks, Weighs, IsLast, Shows, Reportable;
    dense, bm25 := DenseList(chunks, config, q, scoring.dense), Listing(chunks, q, scoring.bm25, config.bm25TopK);
    DenseListIs(chunks, config, q, scoring.dense);
    ListingTops(chunks, q, scoring.bm25, config.bm25TopK);
    var all :| IsRanking(all, dense, bm25, config.rrfK) && AllResolve(chunks, Sliced(all, config.rrfLimit))
      && Success(hits)
         == Reported(Chosen(chunks, Sliced(all, config.rrfLimit), scoring.rerank, Min(q.topK, config.finalTopK)));
    rows := Sliced(all, config.rrfLimit);
    RankingFuses(all, dense, bm25, config.rrfK, config.rrfLimit);
    KeysDiffer(all, dense, bm25, config.rrfK);
    weights, order := ChosenArePicked(chunks, rows, scoring.rerank, Min(q.topK, config.finalTopK));
    PickedInRange(rows, weights, order, Min(q.topK, config.finalTopK));
    var candidates := Candidates(chunks, rows, scoring.rerank);
    var best := Chosen(chunks, rows, scoring.rerank, Min(q.topK, config.finalTopK));
    forall n: nat | n < |rows|
      ensures RowWeighs(chunks, rows, weights[n], scoring.rerank, n)
    {
      CandidateWeighs(chunks, rows, scoring.rerank, n);
      assert IsLast(chunks, rows[n].key, candidates[n].chunk);
    }
    forall n: nat | n < |hits|
      ensures ShowsRow(chunks, rows, hits[n], scoring.rerank, order[n])
    {
      CandidateWeighs(chunks, rows, scoring.rerank, order[n]);
      assert best[n] in best;
      HitShows(best[n].chunk, best[n].score);
      assert IsLast(chunks, rows[order[n]].key, best[n].chunk);
    }
  }

  lemma KeysDiffer(all: seq<Row>, dense: seq<Ranked>, bm25: seq<Ranked>, k: int)
    requires IsRanking(all, dense, bm25, k)
    ensures forall i, j | 0 <= i < j < |all| :: all[i].key != all[j].key
  {
  }

  lemma PickedInRange(rows: seq<Row>, weights: seq<real>, order: seq<nat>, count: int)
    requires Picks(rows, weights, order, count)
    ensures |weights| == |rows| && forall n | 0 <= n < |order| :: order[n] < |rows|
  {
  }

  lemma HitShows(c: Chunk, score: real)
    requires Reportable(c.of)
    ensures Shows(HitOf(c, score), c.of, score)
  {
  }

  /** A search fails for a rank that cancels the fusion constant, and for a chosen document that lacks a field. */
  lemma SearchFailsExactly(chunks: seq<Chunk>, config: SearchConfig, q: Query, scoring: Scoring,
                           r: Result<seq<Hit>, SearchError>)
    requires IsAnswer(chunks, config, q, scoring, r)
    ensures var dense := DenseList(chunks, config, q, scoring.dense);
            var bm25 := Listing(chunks, q, scoring.bm25, config.bm25TopK);
            r == Failure(DivisionByZero) <==> 1 <= -config.rrfK <= |dense| || 1 <= -config.rrfK <= |bm25|
    ensures r.Failure? && r.error != DivisionByZero ==> r.error == MissingField
  {
    hide DenseList, Listing, IsRanking, Chosen, AllResolve;
  }
}
