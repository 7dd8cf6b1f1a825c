/** The quality report and its parts (qc/models.py, qc/errors.py). */
module Reports {
  import opened Common
  import opened Rules

  /** Instant until which a knowledge document is effective, as parsed from its metadata. */
  datatype Until = Open | Ends(instant: int) | Unparseable

  datatype Metadata = Metadata(
    documentStatus: Option<string>, eventType: Option<EventType>,
    effectiveFrom: Option<int>, effectiveTo: Until,
    relatedRuleIds: seq<string>, ruleIds: seq<string>)

  /** A relevance threshold; every constructor that accepts one rejects values outside 0..1. */
  type Threshold = x: real | 0.0 <= x <= 1.0 witness 0.5

  datatype Hit = Hit(documentId: string, score: real, metadata: Metadata)

  datatype ErrorStage =
    | Asr | EventExtraction | Rag | AuditStage | RuleEvaluation | QualityGate | AgentLoop | Persistence | Api

  datatype AnalysisError = AnalysisError(code: string, stage: ErrorStage, message: string, retryable: bool)

  datatype Audit = Audit(disputeTicketCreated: Option<bool>, errors: seq<AnalysisError>)

  datatype Disposition = AutoPass | AutoViolation | HumanReviewRequired

  datatype FactStatus = NotChecked | Unverified

  datatype Pending = Pending(code: string, eventId: string, ruleId: string)

  datatype Report = Report(
    callId: string, score: int, events: seq<Event>, violations: seq<Violation>,
    knowledgeHits: seq<Hit>, audit: Option<Audit>, businessFact: FactStatus,
    disposition: Disposition, pending: seq<Pending>)

  datatype RunStatus = CompletedRun | PartialRun | FailedRun

  /** What one run of the analysis service hands back. */
  datatype Analysis = Analysis(runId: string, status: RunStatus, report: Option<Report>, errors: seq<AnalysisError>)

  predicate AnyAmbiguous(events: seq<Event>) {
    exists e :: e in events && e.ambiguous
  }

  predicate AuditFailed(report: Report) {
    report.audit.Some? && report.audit.value.errors != []
  }

  // ---------------------------------------------------------------- knowledge support (qc/rag_support.py)

  predicate DocumentIsActive(hit: Hit, at: int) {
    var m := hit.metadata;
    && (m.documentStatus.None? || m.documentStatus.value == "published")
    && m.effectiveFrom.Some? && m.effectiveFrom.value <= at
    && (m.effectiveTo.Open? || (m.effectiveTo.Ends? && at < m.effectiveTo.instant))
  }

  predicate DocumentRelatesToRule(hit: Hit, rule: Rule) {
    var related := if hit.metadata.relatedRuleIds != [] then hit.metadata.relatedRuleIds else hit.metadata.ruleIds;
    hit.documentId == rule.ruleId || hit.documentId == rule.sourceDocumentId || rule.ruleId in related
  }

  /** The hit backs a violation of `rule` by an event of type `etype` at instant `at`. */
  predicate Backs(hit: Hit, etype: EventType, rule: Rule, at: int, minimum: real) {
    && hit.score >= minimum
    && hit.metadata.eventType == Some(etype)
    && DocumentIsActive(hit, at)
    && DocumentRelatesToRule(hit, rule)
  }

  /** Hits kept, in order, by `supporting_hits`; an empty request does not restrict the documents. */
  function Supporting(hits: seq<Hit>, requested: seq<string>, etype: EventType, rule: Rule, at: int,
                      minimum: real): (r: seq<Hit>)
    ensures forall h :: h in r
              <==> h in hits && (requested == [] || h.documentId in requested) && Backs(h, etype, rule, at, minimum)
  {
    if hits == [] then []
    else
      var init, last := hits[..|hits| - 1], hits[|hits| - 1];
      assert hits == init + [last];
      Supporting(init, requested, etype, rule, at, minimum)
      + if (requested == [] || last.documentId in requested) && Backs(last, etype, rule, at, minimum) then [last]
        else []
  }

  /** The hits kept stood at these positions, in this order, and exactly those that qualify were kept. */
  ghost predicate KeptFrom(hits: seq<Hit>, kept: seq<Hit>, positions: seq<nat>, qualifies: Hit -> bool) {
    && |positions| == |kept| && (forall i, j | 0 <= i < j < |positions| :: positions[i] < positions[j])
    && (forall i | 0 <= i < |positions| :: positions[i] < |hits| && hits[positions[i]] == kept[i])
    && (forall k: nat | k < |hits| :: k in positions <==> qualifies(hits[k]))
  }

  lemma KeptOneMore(init: seq<Hit>, last: Hit, kept: seq<Hit>, positions: seq<nat>, qualifies: Hit -> bool)
    requires KeptFrom(init, kept, positions, qualifies)
    ensures if qualifies(last) then KeptFrom(init + [last], kept + [last], positions + [|init|], qualifies)
            else KeptFrom(init + [last], kept, positions, qualifies)
  {
    assert |init| !in positions;
  }

  /** `supporting_hits` keeps the order of the hits, and each as often as it qualifies. */
  lemma {:induction false} SupportingStands(hits: seq<Hit>, requested: seq<string>, etype: EventType, rule: Rule,
                                            at: int, minimum: real) returns (positions: seq<nat>)
    ensures KeptFrom(hits, Supporting(hits, requested, etype, rule, at, minimum), positions,
                     (h: Hit) => (requested == [] || h.documentId in requested) && Backs(h, etype, rule, at, minimum))
  {
    hide Backs;
    var qualifies := (h: Hit) => (requested == [] || h.documentId in requested) && Backs(h, etype, rule, at, minimum);
    var kept := Supporting(hits, requested, etype, rule, at, minimum);
    if hits == [] {
      positions := [];
    } else {
      var init, last := hits[..|hits| - 1], hits[|hits| - 1];
      assert hits == init + [last];
      positions := SupportingStands(init, requested, etype, rule, at, minimum);
      KeptOneMore(init, last, Supporting(init, requested, etype, rule, at, minimum), positions, qualifies);
      hide KeptFrom;
      if qualifies(last) {
        positions := positions + [|init|];
      } else {
        assert kept == Supporting(init, requested, etype, rule, at, minimum);
      }
    }
  }

  /** The document `d` is met before the document `e`. */
  ghost predicate MetBefore(hits: seq<Hit>, d: string, e: string) {
    exists p :: 0 <= p < |hits| && hits[p].documentId == d && forall q | 0 <= q <= p :: hits[q].documentId != e
  }

  method SupportingHits(hits: seq<Hit>, requested: seq<string>, etype: EventType, rule: Rule, at: int,
                        minimum: Threshold)
    returns (supported: seq<Hit>)
    ensures supported == Supporting(hits, requested, etype, rule, at, minimum)
  {
    supported := [];
    for i := 0 to |hits|
      invariant supported == Supporting(hits[..i], requested, etype, rule, at, minimum)
    {
      var hit := hits[i];
      assert hits[..i + 1][..i] == hits[..i];
      if requested != [] && hit.documentId !in requested {
        continue;
      }
      if hit.score < minimum || hit.metadata.eventType != Some(etype) {
        continue;
      }
      if !DocumentIsActive(hit, at) || !DocumentRelatesToRule(hit, rule) {
        continue;
      }
      supported := supported + [hit];
    }
    assert hits[..|hits|] == hits;
  }

  /** Decimal notation, as Python formats an integer into a message. */
  function Decimal(n: int): string
    decreases n < 0, if n < 0 then -n else n
  {
    if n < 0 then "-" + Decimal(-n)
    else if n < 10 then ["0123456789"[n]]
    else Decimal(n / 10) + ["0123456789"[n % 10]]
  }
}
