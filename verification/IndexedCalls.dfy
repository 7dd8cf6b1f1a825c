/** Calls whose searches are answered by a knowledge index (qc/direct_analyzer.py over qc/rag.py): when keeping one hit
    per document is safe, and which events a rule's own text can support. */
module IndexedCalls {
  import opened Common
  import opened Rules
  import opened Reports
  import opened Gate
  import opened Extractor
  import opened Analyzer
  import opened Knowledge
  import opened KnowledgeSearch

  /** Every search of the analysis that came back is an answer of the index; `analyze` asks for five hits of the
      event's type. */
  ghost predicate AskedOf(chunks: seq<Chunk>, config: SearchConfig, call: Call) {
    forall i: nat | i < |call.events| && call.search(i).Success? :: Answered(chunks, config, call, i)
  }

  ghost predicate Answered(chunks: seq<Chunk>, config: SearchConfig, call: Call, i: nat)
    requires i < |call.events| && call.search(i).Success?
  {
    exists scoring :: IsAnswer(chunks, config, Query(call.events[i].etype, call.at, "", 5), scoring,
                               Success(call.search(i).value))
  }

  lemma HitsAreFromIndex(chunks: seq<Chunk>, config: SearchConfig, call: Call, i: nat)
    requires AskedOf(chunks, config, call) && i < |call.events|
    ensures FromIndex(chunks, HitsOf(call, i))
  {
    hide IsAnswer, FromIndex;
    if call.search(i).Success? {
      assert Answered(chunks, config, call, i);
      var q := Query(call.events[i].etype, call.at, "", 5);
      var scoring :| IsAnswer(chunks, config, q, scoring, Success(call.search(i).value));
      AnswerIsFromIndex(chunks, config, q, scoring, call.search(i).value);
    } else {
      NothingIsFromIndex(chunks);
    }
  }

  lemma NothingIsFromIndex(chunks: seq<Chunk>)
    ensures FromIndex(chunks, [])
  {
  }

  lemma {:induction false} AllHitsAreFromIndex(chunks: seq<Chunk>, config: SearchConfig, call: Call, n: nat)
    requires AskedOf(chunks, config, call) && n <= |call.events|
    ensures FromIndex(chunks, AllHits(call, n))
  {
    hide AskedOf, HitsOf, Served, HitOf;
    if n > 0 {
      AllHitsAreFromIndex(chunks, config, call, n - 1);
      HitsAreFromIndex(chunks, config, call, n - 1);
    }
  }

  /** For every index whose visible documents of the same id agree, and every call: an id fixes the metadata. */
  lemma IndexFixesMetadata(documents: seq<Document>, config: SearchConfig, call: Call)
    requires VisibleAgree(documents) && AskedOf(Chunked(documents), config, call)
    ensures MetadataByDocument(AllHits(call, |call.events|))
  {
    hide VisibleAgree, AskedOf, Chunked, AllHits, MetadataOf, Served;
    MetadataFixedExactly(documents);
    AllHitsAreFromIndex(Chunked(documents), config, call, |call.events|);
  }

  /** Over an index whose policies, cases and rules have ids of their own, the gate passes exactly the clean calls,
      however many event types a rule lists. */
  lemma CleanCallsPassOverDistinctIds(given: seq<Document>, entries: seq<RuleEntry>, config: SearchConfig, call: Call,
                                      report: Report)
    requires DistinctIds(given, entries) && AskedOf(Chunked(Loaded(given, entries)), config, call)
    requires WellExtracted(call.events, call.transcript) && UniqueTurns(call.transcript) && Analyzed(call, report)
    ensures Passes(Case(report, call.transcript, call.at, call.minimum, call.rules)) <==> CleanCall(call)
  {
    hide *;
    DistinctIdsAgree(given, entries);
    IndexFixesMetadata(Loaded(given, entries), config, call);
    CleanAnalysisPasses(call, report);
  }

  /** A punished event that cites its rule's own text is of the last type the rule lists: filed under any other type,
      the text never supports anything. */
  lemma OwnTextSupportsTheLastType(given: seq<Document>, entries: seq<RuleEntry>, e: nat, config: SearchConfig,
                                   call: Call, i: nat)
    requires SoleEntry(given, entries, e) && AskedOf(Chunked(Loaded(given, entries)), config, call)
    requires i < |call.events| && GetRule(call.rules, RuleFor(call.events[i].etype)) == Some(entries[e].rule)
    requires VerdictOn(call, i).Punished? && entries[e].rule.ruleId in VerdictOn(call, i).documents
    ensures var types := entries[e].rule.eventTypes;
            types != [] && call.events[i].etype == types[|types| - 1]
  {
    assert e < |entries|;
    hide SoleEntry, AskedOf, Loaded, Chunked, Served, VerdictOn, Backs, HitOf, RuleFor, FromIndex;
    var h := CitedIsSupporting(call, i, entries[e].rule, entries[e].rule.ruleId);
    HitsAreFromIndex(Chunked(Loaded(given, entries)), config, call, i);
    var c, score := HitIsServed(Chunked(Loaded(given, entries)), HitsOf(call, i), h);
    HitNamesItsDocument(c, score);
    RuleBacksExactlyItsLastType(given, entries, e, c, score);
  }

  /** A document cited for a punished event is that of a hit that backs it. */
  lemma CitedIsSupporting(call: Call, i: nat, rule: Rule, document: string) returns (h: Hit)
    requires i < |call.events| && GetRule(call.rules, RuleFor(call.events[i].etype)) == Some(rule)
    requires VerdictOn(call, i).Punished? && document in VerdictOn(call, i).documents
    ensures h in HitsOf(call, i) && h.documentId == document
    ensures Backs(h, call.events[i].etype, rule, call.at, call.minimum)
  {
    hide Breach, RuleInForce, Backs, RuleFor, HitsOf;
    var supported := Supporting(HitsOf(call, i), [], call.events[i].etype, rule, call.at, call.minimum);
    var k :| 0 <= k < |supported| && supported[k].documentId == document;
    h := supported[k];
    assert h in supported;
  }

  lemma HitIsServed(chunks: seq<Chunk>, hits: seq<Hit>, h: Hit) returns (c: Chunk, score: real)
    requires FromIndex(chunks, hits) && h in hits
    ensures Served(chunks, c) && h == HitOf(c, score)
  {
    hide Served, HitOf;
    c, score :| Served(chunks, c) && h == HitOf(c, score);
  }

  lemma HitNamesItsDocument(c: Chunk, score: real)
    ensures HitOf(c, score).documentId == c.of.documentId
  {
  }
}
