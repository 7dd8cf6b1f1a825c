/** Hybrid search over the knowledge index (qc/rag.py): metadata filter, dense and BM25 ranking, fusion, reranking, and
    the hits that come of it. Similarities and reranker scores are given; scores are exact. */
module KnowledgeSearch {
  import opened Common
  import opened Rules
  import opened Reports
  import opened Sorting
  import opened RankFusion
  import opened ChunkIds
  import opened Knowledge

  datatype SearchConfig = SearchConfig(denseTopK: int, bm25TopK: int, rrfLimit: int, rrfK: int, finalTopK: int)

  const DEFAULT_CONFIG := SearchConfig(20, 20, 20, 60, 5)

  /** What is asked for; a blank relation does not filter. */
  datatype Query = Query(etype: EventType, at: int, relation: string, topK: int)

  /** Similarities by position in the index, or the rows of the vector store. */
  datatype Dense = InMemory(similarity: nat -> real) | PgVector(rows: seq<Ranked>)

  /** `rerank` holds the scores of the candidates, or None where the reranker raises. */
  datatype Scoring = Scoring(dense: Dense, bm25: nat -> real, rerank: Option<seq<real>>)

  datatype SearchError = NotBuilt | DivisionByZero | MissingField

  /** A resolved row: what it is ordered by, and the score it is reported with. */
  datatype Scored = Scored(chunk: Chunk, weight: real, score: real)

  // ---------------------------------------------------------------- filtering and ranking

  /** `_eligible`. */
  predicate Eligible(d: Document, q: Query) {
    && d.status == Some("published") && d.topic == Of(q.etype)
    && d.from.Starts? && d.from.instant <= q.at
    && (d.until.Open? || (d.until.Ends? && q.at < d.until.instant))
    && (q.relation == "" || q.relation in d.relatedRuleIds)
  }

  /** The positions of the eligible chunks, in order. */
  function EligibleAmong(chunks: seq<Chunk>, q: Query): (r: seq<nat>)
    ensures forall i: nat :: i in r <==> i < |chunks| && Eligible(chunks[i].of, q)
  {
    if chunks == [] then []
    else
      var last := |chunks| - 1;
      EligibleAmong(chunks[..last], q) + if Eligible(chunks[last].of, q) then [last] else []
  }

  function IdAt(chunks: seq<Chunk>, i: nat): string {
    if i < |chunks| then chunks[i].chunkId else ""
  }

  /** Higher score first, then the smaller chunk id; the sort is stable. */
  predicate Precedes(chunks: seq<Chunk>, score: nat -> real, i: nat, j: nat) {
    || score(i) > score(j)
    || (score(i) == score(j)
        && (StringLess(IdAt(chunks, i), IdAt(chunks, j)) || (IdAt(chunks, i) == IdAt(chunks, j) && i < j)))
  }

  function Listing(chunks: seq<Chunk>, q: Query, score: nat -> real, limit: int): seq<Ranked> {
    var order := Sliced(Sort(EligibleAmong(chunks, q), (i: nat, j: nat) => Precedes(chunks, score, i, j)), limit);
    seq(|order|, n requires 0 <= n < |order| => Ranked(IdAt(chunks, order[n]), score(order[n])))
  }

  /** Rows of the vector store whose chunk the index does not hold are dropped. */
  function KnownRows(chunks: seq<Chunk>, rows: seq<Ranked>): (r: seq<Ranked>)
    ensures forall row | row in r :: Resolve(chunks, row.key).Some?
  {
    if rows == [] then []
    else
      var last := rows[|rows| - 1];
      KnownRows(chunks, rows[..|rows| - 1]) + if Resolve(chunks, last.key).Some? then [last] else []
  }

  function DenseList(chunks: seq<Chunk>, config: SearchConfig, q: Query, dense: Dense): seq<Ranked> {
    match dense
    case InMemory(similarity) => Listing(chunks, q, similarity, config.denseTopK)
    case PgVector(rows) => KnownRows(chunks, rows)
  }

  // ---------------------------------------------------------------- candidates and hits

  function Bonus(category: string): real {
    if category == "POLICY" then 0.01
    else if category == "RULE" then 0.006
    else if category == "GOOD_CASE" || category == "BAD_CASE" then 0.002
    else 0.0
  }

  /** The reranker's scores count when there is one for every candidate; otherwise the fused score does. */
  function ScoredAt(chunk: Chunk, row: Row, rerank: Option<seq<real>>, n: nat, count: nat): Scored
    requires n < count
  {
    if rerank.Some? && |rerank.value| >= count then Scored(chunk, rerank.value[n], rerank.value[n])
    else Scored(chunk, row.fused + Bonus(chunk.of.category), row.fused)
  }

  predicate Ranks(a: Scored, b: Scored) {
    a.weight > b.weight || (a.weight == b.weight && StringLess(a.chunk.chunkId, b.chunk.chunkId))
  }

  predicate AllResolve(chunks: seq<Chunk>, rows: seq<Row>) {
    forall row | row in rows :: Resolve(chunks, row.key).Some?
  }

  function Candidates(chunks: seq<Chunk>, rows: seq<Row>, rerank: Option<seq<real>>): (r: seq<Scored>)
    requires AllResolve(chunks, rows)
    ensures |r| == |rows|
  {
    seq(|rows|, n requires 0 <= n < |rows| =>
        ScoredAt(Resolve(chunks, rows[n].key).value, rows[n], rerank, n, |rows|))
  }

  /** The report of a hit reads both fields. */
  predicate Reportable(d: Document) {
    !d.topic.Untyped? && !d.from.Absent?
  }

  function Chosen(chunks: seq<Chunk>, rows: seq<Row>, rerank: Option<seq<real>>, count: int): (r: seq<Scored>)
    requires AllResolve(chunks, rows)
  {
    Sliced(Sort(Candidates(chunks, rows, rerank), Ranks), count)
  }

  function AsHits(candidates: seq<Scored>): (r: seq<Hit>)
    ensures |r| == |candidates|
  {
    seq(|candidates|, n requires 0 <= n < |candidates| => HitOf(candidates[n].chunk, candidates[n].score))
  }

  function Reported(candidates: seq<Scored>): Result<seq<Hit>, SearchError> {
    if forall c | c in candidates :: Reportable(c.chunk.of) then Success(AsHits(candidates)) else Failure(MissingField)
  }

  /** The answer of a search, for the given scores. */
  ghost predicate IsAnswer(chunks: seq<Chunk>, config: SearchConfig, q: Query, scoring: Scoring,
                           r: Result<seq<Hit>, SearchError>)
  {
    var dense := DenseList(chunks, config, q, scoring.dense);
    var bm25 := Listing(chunks, q, scoring.bm25, config.bm25TopK);
    if !Divisible(dense, config.rrfK) || !Divisible(bm25, config.rrfK) then r == Failure(DivisionByZero)
    else
      exists all :: IsRanking(all, dense, bm25, config.rrfK) && AllResolve(chunks, Sliced(all, config.rrfLimit))
        && r == Reported(Chosen(chunks, Sliced(all, config.rrfLimit), scoring.rerank, Min(q.topK, config.finalTopK)))
  }

  // ---------------------------------------------------------------- the index

  class KnowledgeIndex {
    const config: SearchConfig
    var documents: seq<Chunk>
    var built: bool

    constructor (config: SearchConfig)
      ensures this.config == config && !built && documents == []
    {
      this.config := config;
      documents, built := [], false;
    }

    /** `build`, for policies, cases and rule entries already read. */
    method Build(given: seq<Document>, entries: seq<RuleEntry>)
      modifies this
      ensures built && documents == Chunked(Loaded(given, entries))
    {
      var loaded := LoadDocuments(given, entries);
      documents := [];
      assert loaded[..0] == [];
      for i := 0 to |loaded|
        invariant documents == Chunked(loaded[..i])
      {
        assert loaded[..i + 1][..i] == loaded[..i];
        var chunks := ChunkDocument(loaded[i]);
        documents := documents + chunks;
      }
      assert loaded[..|loaded|] == loaded;
      built := true;
    }

    /** `_search`. */
    method Search(q: Query, scoring: Scoring) returns (r: Result<seq<Hit>, SearchError>)
      ensures !built ==> r == Failure(NotBuilt)
      ensures built ==> IsAnswer(documents, config, q, scoring, r)
      ensures r.Success? ==> FromIndex(documents, r.value)
    {
      hide IsRanking, Resolve, Sort, FromIndex, Listing, KnownRows, Divisible, AsHits, ScoredAt;
      if !built {
        return Failure(NotBuilt);
      }
      var dense := DenseList(documents, config, q, scoring.dense);
      var bm25 := Listing(documents, q, scoring.bm25, config.bm25TopK);
      if !Divisible(dense, config.rrfK) || !Divisible(bm25, config.rrfK) {
        return Failure(DivisionByZero);
      }
      var rows := RrfMerge(dense, bm25, config.rrfK, config.rrfLimit);
      RowsResolve(documents, config, q, scoring, rows);
      var candidates := Resolved(documents, rows, scoring.rerank);
      var best := Sliced(Sort(candidates, Ranks), Min(q.topK, config.finalTopK));
      r := ReportAll(best);
      if r.Success? {
        AnswerIsFromIndex(documents, config, q, scoring, r.value);
      }
    }
  }

  /** `StructuredChunker.chunk`. */
  method ChunkDocument(d: Document) returns (chunks: seq<Chunk>)
    ensures chunks == ChunksOf(d)
  {
    hide PartsOf, ChunkId;
    var parts := PartsOf(d);
    chunks := [];
    for n := 0 to |parts|
      invariant |chunks| == n && forall k: nat | k < n :: chunks[k] == ChunkOf(d, k)
    {
      chunks := chunks + [Chunk(ChunkId(d.documentId, n), d.(content := parts[n]))];
    }
  }

  method Resolved(chunks: seq<Chunk>, rows: seq<Row>, rerank: Option<seq<real>>) returns (candidates: seq<Scored>)
    requires AllResolve(chunks, rows)
    ensures candidates == Candidates(chunks, rows, rerank)
  {
    hide Resolve, ScoredAt;
    var byId := ById(chunks);
    candidates := [];
    for n := 0 to |rows|
      invariant candidates == Candidates(chunks, rows, rerank)[..n]
    {
      assert rows[n] in rows;
      candidates := candidates + [ScoredAt(byId[rows[n].key], rows[n], rerank, n, |rows|)];
    }
  }

  method ReportAll(candidates: seq<Scored>) returns (r: Result<seq<Hit>, SearchError>)
    ensures r == Reported(candidates)
  {
    hide HitOf;
    var hits := [];
    for n := 0 to |candidates|
      invariant hits == AsHits(candidates)[..n] && forall k | 0 <= k < n :: Reportable(candidates[k].chunk.of)
    {
      var c := candidates[n];
      if !Reportable(c.chunk.of) {
        assert c in candidates;
        return Failure(MissingField);
      }
      hits := hits + [HitOf(c.chunk, c.score)];
    }
    assert hits == AsHits(candidates);
    r := Success(hits);
  }

  // ---------------------------------------------------------------- where hits come from

  /** Every hit speaks for a chunk that its own id resolves to. */
  ghost predicate FromIndex(chunks: seq<Chunk>, hits: seq<Hit>) {
    forall h | h in hits :: exists c, score :: Served(chunks, c) && h == HitOf(c, score)
  }

  lemma ListedResolves(chunks: seq<Chunk>, q: Query, score: nat -> real, limit: int)
    ensures forall row | row in Listing(chunks, q, score, limit) :: Resolve(chunks, row.key).Some?
  {
    hide Resolve, Sort, Precedes, Eligible;
    var eligible, less := EligibleAmong(chunks, q), (i: nat, j: nat) => Precedes(chunks, score, i, j);
    SortKeepsElements(eligible, less);
    var order := Sliced(Sort(eligible, less), limit);
    forall row | row in Listing(chunks, q, score, limit)
      ensures Resolve(chunks, row.key).Some?
    {
      var n :| 0 <= n < |order| && row == Ranked(IdAt(chunks, order[n]), score(order[n]));
      assert order[n] in Sort(eligible, less);
      assert chunks[order[n]] in chunks;
    }
  }

  lemma RowsResolve(chunks: seq<Chunk>, config: SearchConfig, q: Query, scoring: Scoring, rows: seq<Row>)
    requires var dense := DenseList(chunks, config, q, scoring.dense);
             var bm25 := Listing(chunks, q, scoring.bm25, config.bm25TopK);
             exists all :: IsRanking(all, dense, bm25, config.rrfK) && rows == Sliced(all, config.rrfLimit)
    ensures AllResolve(chunks, rows)
  {
    hide Resolve, Listing, KnownRows, RowOf, Ahead;
    var dense := DenseList(chunks, config, q, scoring.dense);
    var bm25 := Listing(chunks, q, scoring.bm25, config.bm25TopK);
    if scoring.dense.InMemory? {
      ListedResolves(chunks, q, scoring.dense.similarity, config.denseTopK);
    }
    ListedResolves(chunks, q, scoring.bm25, config.bm25TopK);
    var all :| IsRanking(all, dense, bm25, config.rrfK) && rows == Sliced(all, config.rrfLimit);
    forall row | row in rows
      ensures Resolve(chunks, row.key).Some?
    {
      var i :| 0 <= i < |rows| && rows[i] == row;
      assert all[i] == row;
      assert Listed(dense, bm25, row.key);
    }
  }

  /** Whatever the scores, a search returns resolved chunks only, and no more than it is asked for. */
  lemma AnswerIsFromIndex(chunks: seq<Chunk>, config: SearchConfig, q: Query, scoring: Scoring, hits: seq<Hit>)
    requires IsAnswer(chunks, config, q, scoring, Success(hits))
    ensures FromIndex(chunks, hits)
    ensures Min(q.topK, config.finalTopK) >= 0 ==> |hits| <= Min(q.topK, config.finalTopK)
  {
    hide IsRanking, Resolve, DenseList, Listing, Divisible, Candidates, HitOf, Chosen, Served;
    var dense, bm25 := DenseList(chunks, config, q, scoring.dense), Listing(chunks, q, scoring.bm25, config.bm25TopK);
    var all :| IsRanking(all, dense, bm25, config.rrfK) && AllResolve(chunks, Sliced(all, config.rrfLimit))
      && Success(hits)
         == Reported(Chosen(chunks, Sliced(all, config.rrfLimit), scoring.rerank, Min(q.topK, config.finalTopK)));
    var best := Chosen(chunks, Sliced(all, config.rrfLimit), scoring.rerank, Min(q.topK, config.finalTopK));
    BestAreServed(chunks, Sliced(all, config.rrfLimit), scoring.rerank, Min(q.topK, config.finalTopK));
    forall h | h in hits
      ensures exists c, score :: Served(chunks, c) && h == HitOf(c, score)
    {
      var n :| 0 <= n < |hits| && hits[n] == h;
      assert best[n] in best;
      assert h == HitOf(best[n].chunk, best[n].score);
    }
  }

  lemma BestAreServed(chunks: seq<Chunk>, rows: seq<Row>, rerank: Option<seq<real>>, count: int)
    requires AllResolve(chunks, rows)
    ensures forall c | c in Chosen(chunks, rows, rerank, count) :: Served(chunks, c.chunk)
    ensures count >= 0 ==> |Chosen(chunks, rows, rerank, count)| <= count
  {
    hide Resolve, Sort, Ranks;
    var candidates := Candidates(chunks, rows, rerank);
    SortKeepsElements(candidates, Ranks);
    forall c | c in Chosen(chunks, rows, rerank, count)
      ensures Served(chunks, c.chunk)
    {
      assert c in Sort(candidates, Ranks);
      var n :| 0 <= n < |candidates| && candidates[n] == c;
      ResolvedIsServed(chunks, rows[n].key);
    }
  }

  lemma ResolvedIsServed(chunks: seq<Chunk>, id: string)
    requires Resolve(chunks, id).Some?
    ensures Served(chunks, Resolve(chunks, id).value)
  {
  }

  // ---------------------------------------------------------------- the metadata filter

  /** Some chunk with this id passes the filter. */
  ghost predicate EligibleId(chunks: seq<Chunk>, q: Query, id: string) {
    exists i: nat :: i < |chunks| && chunks[i].chunkId == id && Eligible(chunks[i].of, q)
  }

  lemma ListedIsEligible(chunks: seq<Chunk>, q: Query, score: nat -> real, limit: int)
    ensures forall row | row in Listing(chunks, q, score, limit) :: EligibleId(chunks, q, row.key)
  {
    hide Sort, Precedes, Eligible;
    var eligible, less := EligibleAmong(chunks, q), (i: nat, j: nat) => Precedes(chunks, score, i, j);
    SortKeepsElements(eligible, less);
    var order := Sliced(Sort(eligible, less), limit);
    forall row | row in Listing(chunks, q, score, limit)
      ensures EligibleId(chunks, q, row.key)
    {
      var n :| 0 <= n < |order| && row == Ranked(IdAt(chunks, order[n]), score(order[n]));
      assert order[n] in Sort(eligible, less);
    }
  }

  lemma RowsAreEligible(chunks: seq<Chunk>, config: SearchConfig, q: Query, scoring: Scoring, all: seq<Row>, row: Row)
    requires scoring.dense.InMemory? && row in all
    requires IsRanking(all, DenseList(chunks, config, q, scoring.dense),
                       Listing(chunks, q, scoring.bm25, config.bm25TopK), config.rrfK)
    ensures EligibleId(chunks, q, row.key)
  {
    hide EligibleId, Listing, RowOf, Ahead;
    ListedIsEligible(chunks, q, scoring.dense.similarity, config.denseTopK);
    ListedIsEligible(chunks, q, scoring.bm25, config.bm25TopK);
    var i :| 0 <= i < |all| && all[i] == row;
    assert Listed(DenseList(chunks, config, q, scoring.dense), Listing(chunks, q, scoring.bm25, config.bm25TopK),
                  row.key);
  }

  /** Every chunk passes the filter only where what its id resolves to passes it, or cannot be reported. */
  ghost predicate ResolutionIsFiltered(chunks: seq<Chunk>) {
    forall c, q | c in chunks && Eligible(c.of, q) && Reportable(Resolve(chunks, c.chunkId).value.of) ::
      Eligible(Resolve(chunks, c.chunkId).value.of, q)
  }

  /** The filter, read off a hit. */
  predicate HitIsEligible(h: Hit, q: Query) {
    && h.metadata.documentStatus == Some("published") && h.metadata.eventType == Some(q.etype)
    && DocumentIsActive(h, q.at) && (q.relation == "" || q.relation in h.metadata.relatedRuleIds)
  }

  lemma EligibleReadsOff(c: Chunk, score: real, q: Query)
    ensures HitIsEligible(HitOf(c, score), q) <==> Eligible(c.of, q)
  {
  }

  /** No search that ranks in memory returns a hit the filter was to keep out. */
  ghost predicate FilterIsHard(chunks: seq<Chunk>) {
    forall config, q, scoring: Scoring, hits
      | scoring.dense.InMemory? && IsAnswer(chunks, config, q, scoring, Success(hits)) :: AllEligible(hits, q)
  }

  ghost predicate AllEligible(hits: seq<Hit>, q: Query) {
    forall h | h in hits :: HitIsEligible(h, q)
  }

  lemma AnswerIsEligible(chunks: seq<Chunk>, config: SearchConfig, q: Query, scoring: Scoring, hits: seq<Hit>)
    requires ResolutionIsFiltered(chunks) && scoring.dense.InMemory?
    requires IsAnswer(chunks, config, q, scoring, Success(hits))
    ensures AllEligible(hits, q)
  {
    hide IsRanking, Resolve, DenseList, Listing, Divisible, ResolutionIsFiltered, EligibleId, Sort, Ranks, Eligible,
         HitIsEligible, Reportable, HitOf;
    var dense, bm25 := DenseList(chunks, config, q, scoring.dense), Listing(chunks, q, scoring.bm25, config.bm25TopK);
    var all :| IsRanking(all, dense, bm25, config.rrfK) && AllResolve(chunks, Sliced(all, config.rrfLimit))
      && Success(hits)
         == Reported(Chosen(chunks, Sliced(all, config.rrfLimit), scoring.rerank, Min(q.topK, config.finalTopK)));
    var rows := Sliced(all, config.rrfLimit);
    var candidates := Candidates(chunks, rows, scoring.rerank);
    SortKeepsElements(candidates, Ranks);
    forall h | h in hits
      ensures HitIsEligible(h, q)
    {
      var n :| 0 <= n < |hits| && hits[n] == h;
      var c := Chosen(chunks, rows, scoring.rerank, Min(q.topK, config.finalTopK))[n];
      assert c in Sort(candidates, Ranks);
      var k :| 0 <= k < |candidates| && candidates[k] == c;
      assert all[k] == rows[k] && all[k] in all;
      RowsAreEligible(chunks, config, q, scoring, all, rows[k]);
      EligibleResolves(chunks, q, rows[k].key);
      EligibleReadsOff(c.chunk, c.score, q);
    }
  }

  lemma EligibleResolves(chunks: seq<Chunk>, q: Query, id: string)
    requires ResolutionIsFiltered(chunks) && EligibleId(chunks, q, id)
    ensures Resolve(chunks, id).Some?
    ensures Reportable(Resolve(chunks, id).value.of) ==> Eligible(Resolve(chunks, id).value.of, q)
  {
    hide Eligible, Reportable;
    var i: nat :| i < |chunks| && chunks[i].chunkId == id && Eligible(chunks[i].of, q);
    assert chunks[i] in chunks;
  }

  /** A search that asks for one chunk and finds this one most similar. */
  lemma OnlyThisIsFound(chunks: seq<Chunk>, q: Query, i: nat)
    returns (config: SearchConfig, asked: Query, scoring: Scoring)
    requires i < |chunks| && Eligible(chunks[i].of, q) && Resolve(chunks, chunks[i].chunkId).Some?
    requires Reportable(Resolve(chunks, chunks[i].chunkId).value.of)
    ensures scoring.dense.InMemory? && asked == q.(topK := 1)
    ensures IsAnswer(chunks, config, asked, scoring,
                     Success([HitOf(Resolve(chunks, chunks[i].chunkId).value, 1.0)]))
  {
    var similarity := (n: nat) => if n == i then 1.0 else 0.0;
    config, asked := SearchConfig(1, 0, 1, 60, 1), q.(topK := 1);
    scoring := Scoring(InMemory(similarity), similarity, Some([1.0]));
    var id := chunks[i].chunkId;
    ThisIsListed(chunks, asked, similarity, i);
    var dense, bm25 := [Ranked(id, 1.0)], Listing(chunks, asked, similarity, 0);
    assert DenseList(chunks, config, asked, scoring.dense) == dense && bm25 == [];
    hide Listing, Resolve, Eligible, Reportable, HitOf;
    var all := [RowOf(dense, bm25, 60, id)];
    OneRowRanks(id);
    assert Sliced(all, 1) == all;
    var c := Scored(Resolve(chunks, id).value, 1.0, 1.0);
    assert Candidates(chunks, all, scoring.rerank) == [c];
    assert [c][1..] == [] && Sort([c], Ranks) == Insert(c, Sort([c][1..], Ranks), Ranks) == [c];
    assert Sliced([c], 1) == [c];
    assert Chosen(chunks, all, scoring.rerank, 1) == [c];
    assert AsHits([c]) == [HitOf(c.chunk, 1.0)];
  }

  lemma ThisIsListed(chunks: seq<Chunk>, q: Query, similarity: nat -> real, i: nat)
    requires i < |chunks| && Eligible(chunks[i].of, q)
    requires forall n: nat :: similarity(n) == if n == i then 1.0 else 0.0
    ensures Listing(chunks, q, similarity, 1) == [Ranked(chunks[i].chunkId, 1.0)]
    ensures Listing(chunks, q, similarity, 0) == []
  {
    hide Eligible, Sort;
    var less := (m: nat, n: nat) => Precedes(chunks, similarity, m, n);
    BestComesFirst(i, EligibleAmong(chunks, q), less);
  }

  lemma OneRowRanks(id: string)
    ensures IsRanking([RowOf([Ranked(id, 1.0)], [], 60, id)], [Ranked(id, 1.0)], [], 60)
  {
    hide Contribution, Ahead;
    assert RankIn([Ranked(id, 1.0)], id) == Some(1);
    assert [RowOf([Ranked(id, 1.0)], [], 60, id)][0] in [RowOf([Ranked(id, 1.0)], [], 60, id)];
  }

  /** For every index: the metadata filter is hard exactly when resolution by chunk id does not get round it. */
  lemma FilterIsHardExactly(chunks: seq<Chunk>)
    ensures FilterIsHard(chunks) <==> ResolutionIsFiltered(chunks)
  {
    hide IsAnswer, Eligible, Reportable, Resolve, AllEligible;
    if ResolutionIsFiltered(chunks) {
      forall config, q, scoring: Scoring, hits
        | scoring.dense.InMemory? && IsAnswer(chunks, config, q, scoring, Success(hits))
        ensures AllEligible(hits, q)
      {
        AnswerIsEligible(chunks, config, q, scoring, hits);
      }
    }
    if FilterIsHard(chunks) {
      forall c, q | c in chunks && Eligible(c.of, q) && Reportable(Resolve(chunks, c.chunkId).value.of)
        ensures Eligible(Resolve(chunks, c.chunkId).value.of, q)
      {
        var i :| 0 <= i < |chunks| && chunks[i] == c;
        var config, asked, scoring := OnlyThisIsFound(chunks, q, i);
        OneEligible(Resolve(chunks, c.chunkId).value, q);
      }
    }
  }

  lemma OneEligible(c: Chunk, q: Query)
    ensures AllEligible([HitOf(c, 1.0)], q.(topK := 1)) <==> Eligible(c.of, q)
  {
    EligibleReadsOff(c, 1.0, q);
    assert HitOf(c, 1.0) in [HitOf(c, 1.0)];
    hide HitOf, Eligible;
  }

  /** So it is hard where chunk ids are unique, that is, where document ids are. */
  lemma UniqueIdsFilter(documents: seq<Document>)
    requires forall p, q | 0 <= p < q < |documents| :: documents[p].documentId != documents[q].documentId
    ensures FilterIsHard(Chunked(documents))
  {
    hide Chunked, Resolve, Eligible, Reportable, FilterIsHard;
    var chunks := Chunked(documents);
    ChunkIdsAreUniqueExactly(documents);
    forall c | c in chunks
      ensures Resolve(chunks, c.chunkId) == Some(c)
    {
      UniqueIsServed(chunks, c);
    }
    FilterIsHardExactly(chunks);
  }

  lemma UniqueIsServed(chunks: seq<Chunk>, c: Chunk)
    requires (forall i, j | 0 <= i < j < |chunks| :: chunks[i].chunkId != chunks[j].chunkId) && c in chunks
    ensures Resolve(chunks, c.chunkId) == Some(c)
  {
    var r := Resolve(chunks, c.chunkId);
    var i :| 0 <= i < |chunks| && chunks[i] == c;
    assert r.Some? && r.value in chunks && r.value.chunkId == c.chunkId;
    var j :| 0 <= j < |chunks| && chunks[j] == r.value;
    assert !(i < j) && !(j < i);
  }
}
