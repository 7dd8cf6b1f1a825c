/** The deterministic quality gate (qc/quality_gate.py): an independent re-check of a finished report. */
module Gate {
  import opened Common
  import opened Rules
  import opened Reports

  datatype Conflict =
    | AwaitsHuman
    | PassedDespiteViolations
    | PunishedWithoutViolation
    | AutomatedDespiteAmbiguity
    | AutomatedDespiteAuditError

  /** One finding; the index is the position of the event or violation it points at. */
  datatype Issue =
    | DuplicateEventId(i: nat) | InvalidEventIdFormat(i: nat) | MissingEventEvidence(i: nat)
    | DuplicateViolation(i: nat) | MissingEventReference(i: nat) | MissingViolationEvidence(i: nat)
    | UnknownRuleCited(i: nat) | InactiveRule(i: nat) | InvalidPenalty(i: nat, expected: int)
    | MissingPolicyEvidence(i: nat) | UnknownPolicyEvidence(i: nat) | RagBelowThreshold(i: nat)
    | RagEventTypeMismatch(i: nat) | RagDocumentInactive(i: nat) | NoActiveRuleSupport(i: nat)
    | InvalidScore(expected: int) | PendingIssue(code: string) | DispositionConflict(why: Conflict)
    | AuditErrorRequiresReview | BusinessFactOutOfScope

  datatype GateResult = GateResult(passed: bool, issues: seq<Issue>)

  /** What the gate looks at: a report, the call it is about, and the rule book. */
  datatype Case = Case(report: Report, transcript: seq<Turn>, at: int, minimum: Threshold, rules: seq<Rule>)

  predicate HexDigit(c: char) {
    '0' <= c <= '9' || 'A' <= c <= 'F'
  }

  /** EVT- followed by 32 upper-case hexadecimal digits. */
  predicate CanonicalEventId(id: string) {
    |id| == 36 && id[..4] == "EVT-" && forall i | 4 <= i < 36 :: HexDigit(id[i])
  }

  predicate TurnExists(transcript: seq<Turn>, id: string) {
    exists t :: t in transcript && t.turnId == id
  }

  /** The gate keeps the FIRST event of each id, unlike `calculate_score`, which keeps the last. */
  function FirstEvent(events: seq<Event>, id: string): (r: Option<Event>)
    ensures r.Some? ==> r.value in events && r.value.eventId == id
    ensures r.None? ==> forall e | e in events :: e.eventId != id
  {
    if events == [] then None
    else if events[0].eventId == id then Some(events[0])
    else FirstEvent(events[1..], id)
  }

  // ---------------------------------------------------------------- which findings are warranted

  ghost predicate EventFinding(c: Case, issue: Issue, i: nat)
    requires i < |c.report.events|
  {
    var e := c.report.events[i];
    match issue
    case DuplicateEventId(j) => j == i && exists k | 0 <= k < i :: c.report.events[k].eventId == e.eventId
    case InvalidEventIdFormat(j) => j == i && !CanonicalEventId(e.eventId)
    case MissingEventEvidence(j) => j == i && exists t :: t in e.turnIds && !TurnExists(c.transcript, t)
    case _ => false
  }

  ghost predicate Cited(hits: seq<Hit>, document: string) {
    exists h :: h in hits && h.documentId == document
  }

  /** All hits filed under one document id share a defect. */
  ghost predicate EveryHit(hits: seq<Hit>, document: string, defect: Hit -> bool) {
    Cited(hits, document) && forall h | h in hits && h.documentId == document :: defect(h)
  }

  ghost predicate SomeDocument(c: Case, v: Violation, defect: Hit -> bool) {
    exists d :: d in v.knowledgeDocumentIds && EveryHit(c.report.knowledgeHits, d, defect)
  }

  predicate AboutDocuments(issue: Issue) {
    issue.UnknownPolicyEvidence? || issue.RagBelowThreshold? || issue.RagEventTypeMismatch?
    || issue.RagDocumentInactive?
  }

  ghost predicate DocumentFinding(c: Case, issue: Issue, i: nat, v: Violation, e: Option<Event>) {
    match issue
    case UnknownPolicyEvidence(j) =>
      j == i && exists d :: d in v.knowledgeDocumentIds && !Cited(c.report.knowledgeHits, d)
    case RagBelowThreshold(j) =>
      j == i && e.Some? && SomeDocument(c, v, (h: Hit) => h.score < c.minimum)
    case RagEventTypeMismatch(j) =>
      j == i && e.Some? && SomeDocument(c, v, (h: Hit) => h.metadata.eventType != Some(e.value.etype))
    case RagDocumentInactive(j) =>
      j == i && e.Some? && SomeDocument(c, v, (h: Hit) => !DocumentIsActive(h, c.at))
    case _ => false
  }

  ghost predicate Supported(c: Case, v: Violation, e: Event, rule: Rule) {
    && RuleInForce(rule, e.etype, c.at)
    && exists h :: h in c.report.knowledgeHits && h.documentId in v.knowledgeDocumentIds
                   && Backs(h, e.etype, rule, c.at, c.minimum)
  }

  ghost predicate ViolationFinding(c: Case, issue: Issue, i: nat)
    requires i < |c.report.violations|
  {
    var v := c.report.violations[i];
    var e := FirstEvent(c.report.events, EventRef(v));
    var rule := GetRule(c.rules, v.ruleId);
    match issue
    case DuplicateViolation(j) => j == i && exists k | 0 <= k < i :: KeyOf(c.report.violations[k]) == KeyOf(v)
    case MissingEventReference(j) => j == i && e.None?
    case MissingViolationEvidence(j) => j == i && exists t :: t in v.evidenceTurnIds && !TurnExists(c.transcript, t)
    case UnknownRuleCited(j) => j == i && rule.None?
    case InactiveRule(j) => j == i && rule.Some? && e.Some? && !RuleInForce(rule.value, e.value.etype, c.at)
    case InvalidPenalty(j, expected) => j == i && rule.Some? && expected == rule.value.penalty != v.penalty
    case MissingPolicyEvidence(j) => j == i && rule.Some? && v.knowledgeDocumentIds == []
    case NoActiveRuleSupport(j) =>
      j == i && rule.Some? && !(e.Some? && Supported(c, v, e.value, rule.value))
    case _ => rule.Some? && DocumentFinding(c, issue, i, v, e)
  }

  /** The violation takes part in the score comparison: its rule and its event are both known. */
  predicate Comparable(c: Case, v: Violation) {
    GetRule(c.rules, v.ruleId).Some? && FirstEvent(c.report.events, EventRef(v)).Some?
  }

  function ExpectedScore(c: Case): Result<int, KeyError> {
    Score(c.report.violations, c.rules, c.at, c.report.events)
  }

  predicate ConflictHolds(report: Report, why: Conflict) {
    match why
    case AwaitsHuman => report.disposition == HumanReviewRequired
    case PassedDespiteViolations => report.violations != [] && report.disposition == AutoPass
    case PunishedWithoutViolation => report.violations == [] && report.disposition == AutoViolation
    case AutomatedDespiteAmbiguity => AnyAmbiguous(report.events) && report.disposition != HumanReviewRequired
    case AutomatedDespiteAuditError => AuditFailed(report) && report.disposition != HumanReviewRequired
  }

  ghost predicate ReportFinding(c: Case, issue: Issue) {
    match issue
    case InvalidScore(expected) =>
      && (forall v | v in c.report.violations :: Comparable(c, v))
      && ExpectedScore(c) == Success(expected) && c.report.score != expected
    case PendingIssue(code) => exists p :: p in c.report.pending && p.code == code
    case DispositionConflict(why) => ConflictHolds(c.report, why)
    case AuditErrorRequiresReview => AuditFailed(c.report)
    case BusinessFactOutOfScope => c.report.businessFact != NotChecked
    case _ => false
  }

  ghost predicate Warranted(c: Case, issue: Issue) {
    || (exists i | 0 <= i < |c.report.events| :: EventFinding(c, issue, i))
    || (exists i | 0 <= i < |c.report.violations| :: ViolationFinding(c, issue, i))
    || ReportFinding(c, issue)
  }

  /** Recomputing the score raises: some comparable violation carries no event id. */
  ghost predicate ScoreRaises(c: Case) {
    (forall v | v in c.report.violations :: Comparable(c, v)) && ExpectedScore(c).Failure?
  }

  // ---------------------------------------------------------------- the gate itself

  class QualityGate {
    const rules: seq<Rule>
    const minSupportScore: Threshold

    constructor (rules: seq<Rule>, minSupportScore: Threshold)
      ensures this.rules == rules && this.minSupportScore == minSupportScore
    {
      this.rules := rules;
      this.minSupportScore := minSupportScore;
    }

    /** The gate reports exactly the warranted findings, and raises exactly when the score cannot be recomputed. */
    method Check(report: Report, transcript: seq<Turn>, at: int, override: Option<Threshold>)
      returns (r: Result<GateResult, KeyError>)
      ensures var c := Case(report, transcript, at, if override.Some? then override.value else minSupportScore, rules);
              && (r.Failure? <==> ScoreRaises(c))
              && (r.Success? ==>
                    && r.value.passed == (r.value.issues == [])
                    && forall issue :: issue in r.value.issues <==> Warranted(c, issue))
      ensures var c := Case(report, transcript, at, if override.Some? then override.value else minSupportScore, rules);
              r.Failure? ==> ExpectedScore(c) == Failure(r.error)
    {
      hide Score, KeyOf, EventFinding, ViolationFinding, Comparable;
      var minimum := if override.Some? then override.value else minSupportScore;
      var c := Case(report, transcript, at, minimum, rules);
      var eventIssues, eventById := CheckEvents(c);
      var hitsById := IndexHits(report.knowledgeHits);
      var violationIssues, scorable := CheckViolations(c, eventById, hitsById);
      var scoreIssues: seq<Issue> := [];
      if |scorable| == |report.violations| {
        var expected := CalculateScore(scorable, rules, at, report.events);
        if expected.Failure? {
          return Failure(expected.error);
        }
        if report.score != expected.value {
          scoreIssues := [InvalidScore(expected.value)];
        }
      }
      var rest := CheckReport(c);
      var issues := eventIssues + violationIssues + scoreIssues + rest;
      r := Success(GateResult(issues == [], issues));
    }
  }

  method CheckEvents(c: Case) returns (issues: seq<Issue>, eventById: map<string, Event>)
    ensures forall issue :: issue in issues <==> exists i | 0 <= i < |c.report.events| :: EventFinding(c, issue, i)
    ensures forall id :: id in eventById <==> FirstEvent(c.report.events, id).Some?
    ensures forall id | id in eventById :: FirstEvent(c.report.events, id) == Some(eventById[id])
  {
    hide EventFinding, FirstEvent;
    var events := c.report.events;
    issues, eventById := [], map[];
    for i := 0 to |events|
      invariant forall issue :: issue in issues <==> exists k | 0 <= k < i :: EventFinding(c, issue, k)
      invariant forall id :: id in eventById <==> FirstEvent(events[..i], id).Some?
      invariant forall id | id in eventById :: FirstEvent(events[..i], id) == Some(eventById[id])
    {
      var event := events[i];
      assert events[..i + 1] == events[..i] + [event];
      forall id {
        FirstEventAppend(events[..i], event, id);
      }
      var seen := event.eventId in eventById;
      assert seen <==> exists k | 0 <= k < i :: events[k].eventId == event.eventId by {
        if exists k | 0 <= k < i :: events[k].eventId == event.eventId {
          var k :| 0 <= k < i && events[k].eventId == event.eventId;
          assert events[k] in events[..i];
        }
      }
      var found := CheckEvent(c, i, seen);
      issues := issues + found;
      if !seen {
        eventById := eventById[event.eventId := event];
      }
    }
    assert events[..|events|] == events;
  }

  method CheckEvent(c: Case, i: nat, seen: bool) returns (issues: seq<Issue>)
    requires i < |c.report.events|
    requires seen <==> exists k | 0 <= k < i :: c.report.events[k].eventId == c.report.events[i].eventId
    ensures forall issue :: issue in issues <==> EventFinding(c, issue, i)
  {
    var event := c.report.events[i];
    issues := if seen then [DuplicateEventId(i)] else [];
    if !CanonicalEventId(event.eventId) {
      issues := issues + [InvalidEventIdFormat(i)];
    }
    if exists t :: t in event.turnIds && !TurnExists(c.transcript, t) {
      issues := issues + [MissingEventEvidence(i)];
    }
  }

  lemma {:induction false} FirstEventAppend(events: seq<Event>, e: Event, id: string)
    ensures FirstEvent(events + [e], id)
            == if FirstEvent(events, id).Some? then FirstEvent(events, id)
               else if e.eventId == id then Some(e) else None
  {
    if events == [] {
      assert events + [e] == [e];
    } else {
      assert (events + [e])[1..] == events[1..] + [e];
      FirstEventAppend(events[1..], e, id);
    }
  }

  method IndexHits(hits: seq<Hit>) returns (hitsById: map<string, seq<Hit>>)
    ensures forall d :: d in hitsById <==> Cited(hits, d)
    ensures forall d, h | d in hitsById :: h in hitsById[d] <==> h in hits && h.documentId == d
  {
    hitsById := map[];
    for i := 0 to |hits|
      invariant forall d :: d in hitsById <==> Cited(hits[..i], d)
      invariant forall d, h | d in hitsById :: h in hitsById[d] <==> h in hits[..i] && h.documentId == d
    {
      var item := hits[i];
      assert hits[..i + 1] == hits[..i] + [item];
      var filed := if item.documentId in hitsById then hitsById[item.documentId] else [];
      hitsById := hitsById[item.documentId := filed + [item]];
    }
    assert hits[..|hits|] == hits;
  }

  method CheckViolations(c: Case, eventById: map<string, Event>, hitsById: map<string, seq<Hit>>)
    returns (issues: seq<Issue>, scorable: seq<Violation>)
    requires Indexed(c, eventById, hitsById)
    ensures forall issue :: issue in issues <==> exists i | 0 <= i < |c.report.violations| ::
              ViolationFinding(c, issue, i)
    ensures |scorable| == |c.report.violations| <==> forall v | v in c.report.violations :: Comparable(c, v)
    ensures |scorable| == |c.report.violations| ==> scorable == c.report.violations
  {
    hide ViolationFinding, KeyOf, Comparable, Indexed;
    var violations := c.report.violations;
    var seenViolationKeys: set<Key> := {};
    issues, scorable := [], [];
    for i := 0 to |violations|
      invariant forall issue :: issue in issues <==> exists k | 0 <= k < i :: ViolationFinding(c, issue, k)
      invariant seenViolationKeys == set k | 0 <= k < i :: KeyOf(violations[k])
      invariant |scorable| <= i
      invariant |scorable| == i <==> forall v | v in violations[..i] :: Comparable(c, v)
      invariant |scorable| == i ==> scorable == violations[..i]
    {
      var violation := violations[i];
      assert violations[..i + 1] == violations[..i] + [violation];
      var found, comparable := CheckViolation(c, i, KeyOf(violation) in seenViolationKeys, eventById, hitsById);
      issues := issues + found;
      seenViolationKeys := seenViolationKeys + {KeyOf(violation)};
      if comparable {
        scorable := scorable + [violation];
      }
    }
    assert violations[..|violations|] == violations;
  }

  ghost predicate Indexed(c: Case, eventById: map<string, Event>, hitsById: map<string, seq<Hit>>) {
    && (forall id :: id in eventById <==> FirstEvent(c.report.events, id).Some?)
    && (forall id | id in eventById :: FirstEvent(c.report.events, id) == Some(eventById[id]))
    && (forall d :: d in hitsById <==> Cited(c.report.knowledgeHits, d))
    && (forall d, h | d in hitsById :: h in hitsById[d] <==> h in c.report.knowledgeHits && h.documentId == d)
  }

  method CheckViolation(c: Case, i: nat, seen: bool, eventById: map<string, Event>, hitsById: map<string, seq<Hit>>)
    returns (issues: seq<Issue>, comparable: bool)
    requires i < |c.report.violations| && Indexed(c, eventById, hitsById)
    requires seen <==> exists k | 0 <= k < i :: KeyOf(c.report.violations[k]) == KeyOf(c.report.violations[i])
    ensures forall issue :: issue in issues <==> ViolationFinding(c, issue, i)
    ensures comparable <==> Comparable(c, c.report.violations[i])
  {
    hide KeyOf, DocumentFinding, Supported, RuleInForce, GetRule, FirstEvent;
    var violation := c.report.violations[i];
    var event := if EventRef(violation) in eventById then Some(eventById[EventRef(violation)]) else None;
    var referenceIssues := CheckReferences(c, i, seen, event);
    var rule := GetRule(c.rules, violation.ruleId);
    if rule.None? {
      return referenceIssues + [UnknownRuleCited(i)], false;
    }
    var ruleIssues := CheckRule(c, i, event, rule.value);
    var documentIssues, candidates := CheckDocuments(c, i, violation, event, hitsById);
    var supported := CheckSupport(c, violation, event, rule.value, candidates);
    issues := referenceIssues + ruleIssues + documentIssues + (if supported then [] else [NoActiveRuleSupport(i)]);
    comparable := event.Some?;
  }

  method CheckReferences(c: Case, i: nat, seen: bool, event: Option<Event>) returns (issues: seq<Issue>)
    requires i < |c.report.violations|
    requires event == FirstEvent(c.report.events, EventRef(c.report.violations[i]))
    requires seen <==> exists k | 0 <= k < i :: KeyOf(c.report.violations[k]) == KeyOf(c.report.violations[i])
    ensures forall issue :: issue in issues
              <==> (issue.DuplicateViolation? || issue.MissingEventReference? || issue.MissingViolationEvidence?)
                   && ViolationFinding(c, issue, i)
  {
    hide KeyOf, FirstEvent, GetRule;
    issues := if seen then [DuplicateViolation(i)] else [];
    if event.None? {
      issues := issues + [MissingEventReference(i)];
    }
    if exists t :: t in c.report.violations[i].evidenceTurnIds && !TurnExists(c.transcript, t) {
      issues := issues + [MissingViolationEvidence(i)];
    }
  }

  method CheckRule(c: Case, i: nat, event: Option<Event>, rule: Rule) returns (issues: seq<Issue>)
    requires i < |c.report.violations|
    requires event == FirstEvent(c.report.events, EventRef(c.report.violations[i]))
    requires GetRule(c.rules, c.report.violations[i].ruleId) == Some(rule)
    ensures forall issue :: issue in issues
              <==> (issue.InactiveRule? || issue.InvalidPenalty? || issue.MissingPolicyEvidence?)
                   && ViolationFinding(c, issue, i)
  {
    hide KeyOf, FirstEvent, GetRule, RuleInForce;
    var violation := c.report.violations[i];
    issues := [];
    if event.Some? && !RuleInForce(rule, event.value.etype, c.at) {
      issues := issues + [InactiveRule(i)];
    }
    if violation.penalty != rule.penalty {
      issues := issues + [InvalidPenalty(i, rule.penalty)];
    }
    if violation.knowledgeDocumentIds == [] {
      issues := issues + [MissingPolicyEvidence(i)];
    }
  }

  method CheckSupport(c: Case, v: Violation, e: Option<Event>, rule: Rule, candidates: seq<Hit>)
    returns (supported: bool)
    requires forall h :: h in candidates <==> h in c.report.knowledgeHits && h.documentId in v.knowledgeDocumentIds
    ensures supported <==> e.Some? && Supported(c, v, e.value, rule)
  {
    hide Backs;
    supported := false;
    if e.Some? && RuleInForce(rule, e.value.etype, c.at) {
      var hits := SupportingHits(candidates, v.knowledgeDocumentIds, e.value.etype, rule, c.at, c.minimum);
      supported := hits != [];
      assert supported ==> hits[0] in hits;
    }
  }

  method CheckDocuments(c: Case, i: nat, v: Violation, e: Option<Event>, hitsById: map<string, seq<Hit>>)
    returns (issues: seq<Issue>, candidates: seq<Hit>)
    requires forall d :: d in hitsById <==> Cited(c.report.knowledgeHits, d)
    requires forall d, h | d in hitsById :: h in hitsById[d] <==> h in c.report.knowledgeHits && h.documentId == d
    ensures forall issue :: issue in issues <==> DocumentFinding(c, issue, i, v, e)
    ensures forall issue | issue in issues :: AboutDocuments(issue)
    ensures forall h :: h in candidates <==> h in c.report.knowledgeHits && h.documentId in v.knowledgeDocumentIds
  {
    hide DocumentFinding;
    var docs := v.knowledgeDocumentIds;
    issues, candidates := [], [];
    NoDocumentNoFinding(c, i, v.(knowledgeDocumentIds := []), e);
    assert docs[..0] == [];
    for k := 0 to |docs|
      invariant forall issue ::
                  issue in issues <==> DocumentFinding(c, issue, i, v.(knowledgeDocumentIds := docs[..k]), e)
      invariant forall issue | issue in issues :: AboutDocuments(issue)
      invariant forall h :: h in candidates <==> h in c.report.knowledgeHits && h.documentId in docs[..k]
    {
      assert docs[..k + 1] == docs[..k] + [docs[k]];
      forall issue {
        DocumentFindingAppend(c, issue, i, v, e, docs[..k], docs[k]);
      }
      var matching := if docs[k] in hitsById then hitsById[docs[k]] else [];
      var found := CheckDocument(c, i, v.(knowledgeDocumentIds := [docs[k]]), e, matching);
      issues := issues + found;
      candidates := candidates + matching;
    }
    assert docs[..|docs|] == docs;
    assert v.(knowledgeDocumentIds := docs) == v;
  }

  lemma NoDocumentNoFinding(c: Case, i: nat, v: Violation, e: Option<Event>)
    requires v.knowledgeDocumentIds == []
    ensures forall issue :: !DocumentFinding(c, issue, i, v, e)
  {
  }

  lemma DocumentFindingAppend(c: Case, issue: Issue, i: nat, v: Violation, e: Option<Event>, docs: seq<string>,
                              d: string)
    ensures DocumentFinding(c, issue, i, v.(knowledgeDocumentIds := docs + [d]), e)
            <==> DocumentFinding(c, issue, i, v.(knowledgeDocumentIds := docs), e)
                 || DocumentFinding(c, issue, i, v.(knowledgeDocumentIds := [d]), e)
  {
    assert forall x :: x in docs + [d] <==> x in docs || x in [d];
  }

  lemma SingleDocument(c: Case, v: Violation, matching: seq<Hit>, defect: Hit -> bool)
    requires |v.knowledgeDocumentIds| == 1
    requires forall h :: h in matching <==> h in c.report.knowledgeHits && h.documentId == v.knowledgeDocumentIds[0]
    ensures SomeDocument(c, v, defect) <==> matching != [] && forall h | h in matching :: defect(h)
    ensures Cited(c.report.knowledgeHits, v.knowledgeDocumentIds[0]) <==> matching != []
  {
    var d := v.knowledgeDocumentIds[0];
    assert matching != [] ==> matching[0] in matching;
    assert SomeDocument(c, v, defect) <==> EveryHit(c.report.knowledgeHits, d, defect) by {
      assert forall x :: x in v.knowledgeDocumentIds <==> x == d;
    }
  }

  method CheckDocument(c: Case, i: nat, v: Violation, e: Option<Event>, matching: seq<Hit>) returns (issues: seq<Issue>)
    requires |v.knowledgeDocumentIds| == 1
    requires forall h :: h in matching <==> h in c.report.knowledgeHits && h.documentId == v.knowledgeDocumentIds[0]
    ensures forall issue :: issue in issues <==> DocumentFinding(c, issue, i, v, e)
    ensures forall issue | issue in issues :: AboutDocuments(issue)
  {
    hide SomeDocument, EveryHit, Cited;
    assert forall x :: x in v.knowledgeDocumentIds <==> x == v.knowledgeDocumentIds[0];
    SingleDocument(c, v, matching, (h: Hit) => h.score < c.minimum);
    if matching == [] {
      issues := [UnknownPolicyEvidence(i)];
    } else {
      issues := [];
    }
    if e.Some? {
      SingleDocument(c, v, matching, (h: Hit) => h.metadata.eventType != Some(e.value.etype));
      SingleDocument(c, v, matching, (h: Hit) => !DocumentIsActive(h, c.at));
      if matching != [] && forall h | h in matching :: h.score < c.minimum {
        issues := issues + [RagBelowThreshold(i)];
      }
      if matching != [] && forall h | h in matching :: h.metadata.eventType != Some(e.value.etype) {
        issues := issues + [RagEventTypeMismatch(i)];
      }
      if matching != [] && forall h | h in matching :: !DocumentIsActive(h, c.at) {
        issues := issues + [RagDocumentInactive(i)];
      }
    }
  }

  method CheckReport(c: Case) returns (issues: seq<Issue>)
    ensures forall issue :: issue in issues <==> !issue.InvalidScore? && ReportFinding(c, issue)
  {
    var report := c.report;
    issues := [];
    for i := 0 to |report.pending|
      invariant forall issue :: issue in issues
                  <==> issue.PendingIssue? && exists k | 0 <= k < i :: report.pending[k].code == issue.code
    {
      issues := issues + [PendingIssue(report.pending[i].code)];
    }
    assert forall issue :: issue in issues <==> issue.PendingIssue? && ReportFinding(c, issue);
    ghost var pendingIssues := issues;
    var conflicts := ListConflicts(report);
    issues := issues + conflicts;
    if AuditFailed(report) {
      issues := issues + [AuditErrorRequiresReview];
    }
    if report.businessFact != NotChecked {
      issues := issues + [BusinessFactOutOfScope];
    }
  }

  method ListConflicts(report: Report) returns (issues: seq<Issue>)
    ensures forall issue :: issue in issues <==> issue.DispositionConflict? && ConflictHolds(report, issue.why)
  {
    issues := [];
    if report.disposition == HumanReviewRequired {
      issues := issues + [DispositionConflict(AwaitsHuman)];
    }
    if report.violations != [] && report.disposition == AutoPass {
      issues := issues + [DispositionConflict(PassedDespiteViolations)];
    }
    if report.violations == [] && report.disposition == AutoViolation {
      issues := issues + [DispositionConflict(PunishedWithoutViolation)];
    }
    if AnyAmbiguous(report.events) && report.disposition != HumanReviewRequired {
      issues := issues + [DispositionConflict(AutomatedDespiteAmbiguity)];
    }
    if AuditFailed(report) && report.disposition != HumanReviewRequired {
      issues := issues + [DispositionConflict(AutomatedDespiteAuditError)];
    }
  }

  // ---------------------------------------------------------------- what passing means

  /** `check` returns, and returns `passed`. */
  ghost predicate Passes(c: Case) {
    !ScoreRaises(c) && forall issue :: !Warranted(c, issue)
  }

  ghost predicate SoundEvents(c: Case) {
    var events := c.report.events;
    && (forall i, j | 0 <= i < j < |events| :: events[i].eventId != events[j].eventId)
    && (forall e | e in events :: CanonicalEventId(e.eventId))
    && (forall e, t | e in events && t in e.turnIds :: TurnExists(c.transcript, t))
  }

  /** No document the violation cites is, in all of its retrieved hits, weak, off-topic or out of date. */
  ghost predicate SoundDocuments(c: Case, v: Violation, e: Event) {
    forall d | d in v.knowledgeDocumentIds ::
      && (exists h :: h in c.report.knowledgeHits && h.documentId == d && h.score >= c.minimum)
      && (exists h :: h in c.report.knowledgeHits && h.documentId == d && h.metadata.eventType == Some(e.etype))
      && (exists h :: h in c.report.knowledgeHits && h.documentId == d && DocumentIsActive(h, c.at))
  }

  ghost predicate SoundViolation(c: Case, v: Violation) {
    var e := FirstEvent(c.report.events, EventRef(v));
    var rule := GetRule(c.rules, v.ruleId);
    && e.Some? && rule.Some?
    && (forall t | t in v.evidenceTurnIds :: TurnExists(c.transcript, t))
    && v.penalty == rule.value.penalty
    && v.knowledgeDocumentIds != []
    && SoundDocuments(c, v, e.value)
    && Supported(c, v, e.value, rule.value)
  }

  function SumOfPenalties(vs: seq<Violation>): int {
    if vs == [] then 0 else SumOfPenalties(vs[..|vs| - 1]) + vs[|vs| - 1].penalty
  }

  /** A report that can stand without a human: everything in it is evidenced, and its arithmetic is fixed. */
  ghost predicate Trustworthy(c: Case) {
    var report := c.report;
    && SoundEvents(c)
    && (forall v | v in report.violations :: SoundViolation(c, v))
    && DistinctKeys(report.violations)
    && report.score == Max(0, 100 - SumOfPenalties(report.violations))
    && report.disposition == (if report.violations == [] then AutoPass else AutoViolation)
    && !AnyAmbiguous(report.events)
    && !AuditFailed(report)
    && report.pending == []
    && report.businessFact == NotChecked
  }

  lemma EventFindingsAbsent(c: Case)
    ensures (forall issue, i | 0 <= i < |c.report.events| :: !EventFinding(c, issue, i)) <==> SoundEvents(c)
  {
    hide CanonicalEventId, TurnExists;
    var events := c.report.events;
    if forall issue, i | 0 <= i < |events| :: !EventFinding(c, issue, i) {
      forall i, j | 0 <= i < j < |events|
        ensures events[i].eventId != events[j].eventId
      {
        assert !EventFinding(c, DuplicateEventId(j), j);
      }
      forall e | e in events
        ensures CanonicalEventId(e.eventId)
        ensures forall t | t in e.turnIds :: TurnExists(c.transcript, t)
      {
        var i :| 0 <= i < |events| && events[i] == e;
        assert !EventFinding(c, InvalidEventIdFormat(i), i);
        assert !EventFinding(c, MissingEventEvidence(i), i);
      }
    }
    if SoundEvents(c) {
      forall issue, i | 0 <= i < |events|
        ensures !EventFinding(c, issue, i)
      {
        assert events[i] in events;
      }
    }
  }

  lemma DocumentFindingsAbsent(c: Case, i: nat, v: Violation, e: Event)
    ensures (forall issue :: !DocumentFinding(c, issue, i, v, Some(e))) <==> SoundDocuments(c, v, e)
  {
    hide DocumentIsActive;
    if forall issue :: !DocumentFinding(c, issue, i, v, Some(e)) {
      assert !DocumentFinding(c, UnknownPolicyEvidence(i), i, v, Some(e));
      assert !DocumentFinding(c, RagBelowThreshold(i), i, v, Some(e));
      assert !DocumentFinding(c, RagEventTypeMismatch(i), i, v, Some(e));
      assert !DocumentFinding(c, RagDocumentInactive(i), i, v, Some(e));
      forall d | d in v.knowledgeDocumentIds
        ensures exists h :: h in c.report.knowledgeHits && h.documentId == d && h.score >= c.minimum
        ensures exists h :: h in c.report.knowledgeHits && h.documentId == d && h.metadata.eventType == Some(e.etype)
        ensures exists h :: h in c.report.knowledgeHits && h.documentId == d && DocumentIsActive(h, c.at)
      {
        assert Cited(c.report.knowledgeHits, d);
        assert !EveryHit(c.report.knowledgeHits, d, (h: Hit) => h.score < c.minimum);
        assert !EveryHit(c.report.knowledgeHits, d, (h: Hit) => h.metadata.eventType != Some(e.etype));
        assert !EveryHit(c.report.knowledgeHits, d, (h: Hit) => !DocumentIsActive(h, c.at));
      }
    }
  }

  lemma ViolationFindingsAbsent(c: Case, i: nat)
    requires i < |c.report.violations|
    ensures (forall issue :: !ViolationFinding(c, issue, i))
            <==> SoundViolation(c, c.report.violations[i])
                 && forall k | 0 <= k < i :: KeyOf(c.report.violations[k]) != KeyOf(c.report.violations[i])
  {
    hide KeyOf, DocumentFinding, Supported, SoundDocuments, GetRule, FirstEvent, RuleInForce, TurnExists;
    var v := c.report.violations[i];
    var e := FirstEvent(c.report.events, EventRef(v));
    if e.Some? {
      DocumentFindingsAbsent(c, i, v, e.value);
    }
    if forall issue :: !ViolationFinding(c, issue, i) {
      assert !ViolationFinding(c, DuplicateViolation(i), i);
      assert !ViolationFinding(c, MissingEventReference(i), i);
      assert !ViolationFinding(c, MissingViolationEvidence(i), i);
      assert !ViolationFinding(c, UnknownRuleCited(i), i);
      assert !ViolationFinding(c, InvalidPenalty(i, GetRule(c.rules, v.ruleId).value.penalty), i);
      assert !ViolationFinding(c, MissingPolicyEvidence(i), i);
      assert !ViolationFinding(c, NoActiveRuleSupport(i), i);
      forall issue
        ensures !DocumentFinding(c, issue, i, v, e)
      {
        DocumentFindingIsAboutDocuments(c, issue, i, v, e);
        if AboutDocuments(issue) {
          assert !ViolationFinding(c, issue, i);
        }
      }
    } else {
      SupportedInForce(c, i);
    }
  }

  lemma DocumentFindingIsAboutDocuments(c: Case, issue: Issue, i: nat, v: Violation, e: Option<Event>)
    ensures DocumentFinding(c, issue, i, v, e) ==> AboutDocuments(issue)
  {
  }

  lemma SupportedInForce(c: Case, i: nat)
    requires i < |c.report.violations|
    ensures SoundViolation(c, c.report.violations[i]) ==> !ViolationFinding(c, InactiveRule(i), i)
  {
  }

  /** With distinct event ids the gate's first-wins lookup and the score's last-wins lookup agree. */
  lemma LookupsAgree(events: seq<Event>, id: string)
    requires forall i, j | 0 <= i < j < |events| :: events[i].eventId != events[j].eventId
    ensures id in EventById(events) <==> FirstEvent(events, id).Some?
    ensures id in EventById(events) ==> FirstEvent(events, id).value == EventById(events)[id]
  {
  }

  lemma {:induction false} ListedAreStated(c: Case, vs: seq<Violation>)
    requires SoundEvents(c)
    requires forall v | v in vs :: SoundViolation(c, v)
    ensures Scorable(vs, c.rules, c.report.events)
    ensures ListedPenalties(vs, c.rules, c.at, c.report.events) == SumOfPenalties(vs)
  {
    hide SoundDocuments, GetRule, FirstEvent, TurnExists, EventById;
    if vs != [] {
      var init, v := vs[..|vs| - 1], vs[|vs| - 1];
      assert vs == init + [v];
      ListedAreStated(c, init);
      assert v in vs && SoundViolation(c, v);
      LookupsAgree(c.report.events, EventRef(v));
      assert CanonicalEventId(EventRef(v));
    }
  }

  /** For sound, distinct violations the expected score is 100 minus the stated penalties, floored at 0. */
  lemma ExpectedScoreIsStated(c: Case)
    requires SoundEvents(c) && DistinctKeys(c.report.violations)
    requires forall v | v in c.report.violations :: SoundViolation(c, v)
    ensures ExpectedScore(c) == Success(Max(0, 100 - SumOfPenalties(c.report.violations)))
  {
    hide SoundEvents, SoundViolation, Score, PenaltySum, ListedPenalties, Scorable;
    ListedAreStated(c, c.report.violations);
    ScoreIsSetSum(c.report.violations, c.rules, c.at, c.report.events);
    DistinctListSumsItsKeys(c.report.violations, c.rules, c.at, c.report.events);
  }

  lemma ReportFindingsAbsent(c: Case)
    requires (forall v | v in c.report.violations :: Comparable(c, v)) && ExpectedScore(c).Success?
    ensures (forall issue :: !ReportFinding(c, issue))
            <==> && c.report.score == ExpectedScore(c).value
                 && c.report.disposition == (if c.report.violations == [] then AutoPass else AutoViolation)
                 && !AnyAmbiguous(c.report.events) && !AuditFailed(c.report)
                 && c.report.pending == [] && c.report.businessFact == NotChecked
  {
    hide Comparable, Score;
    assert c.report.pending == [] || c.report.pending[0] in c.report.pending;
    if forall issue :: !ReportFinding(c, issue) {
      assert !ReportFinding(c, InvalidScore(ExpectedScore(c).value));
      assert !ReportFinding(c, DispositionConflict(AwaitsHuman));
      assert !ReportFinding(c, DispositionConflict(PassedDespiteViolations));
      assert !ReportFinding(c, DispositionConflict(PunishedWithoutViolation));
      assert !ReportFinding(c, DispositionConflict(AutomatedDespiteAmbiguity));
      assert !ReportFinding(c, AuditErrorRequiresReview);
      assert !ReportFinding(c, BusinessFactOutOfScope);
      assert forall p | p in c.report.pending :: !ReportFinding(c, PendingIssue(p.code));
    }
  }

  /** The gate passes a report exactly when the report is trustworthy. */
  lemma GatePassesExactlyTrustworthy(c: Case)
    ensures Passes(c) <==> Trustworthy(c)
  {
    hide EventFinding, ViolationFinding, ReportFinding, SoundEvents, SoundViolation, KeyOf, ExpectedScore, Comparable,
         SumOfPenalties, Warranted;
    EventFindingsAbsent(c);
    WarrantedSplits(c);
    forall i: nat | i < |c.report.violations| {
      ViolationFindingsAbsent(c, i);
    }
    if Passes(c) {
      forall i | 0 <= i < |c.report.violations|
        ensures SoundViolation(c, c.report.violations[i])
        ensures forall k | 0 <= k < i :: KeyOf(c.report.violations[k]) != KeyOf(c.report.violations[i])
      {
        assert forall issue :: !ViolationFinding(c, issue, i);
      }
    }
    if Passes(c) || Trustworthy(c) {
      ExpectedScoreIsStated(c);
      SoundAreComparable(c);
      ReportFindingsAbsent(c);
    }
    if Trustworthy(c) {
      forall i, issue | 0 <= i < |c.report.violations|
        ensures !ViolationFinding(c, issue, i)
      {
        assert c.report.violations[i] in c.report.violations;
      }
    }
  }

  lemma WarrantedSplits(c: Case)
    ensures (forall issue :: !Warranted(c, issue))
            <==> && (forall issue, i | 0 <= i < |c.report.events| :: !EventFinding(c, issue, i))
                 && (forall issue, i | 0 <= i < |c.report.violations| :: !ViolationFinding(c, issue, i))
                 && (forall issue :: !ReportFinding(c, issue))
  {
    hide EventFinding, ViolationFinding, ReportFinding;
    if forall issue :: !Warranted(c, issue) {
      forall issue, i | 0 <= i < |c.report.events|
        ensures !EventFinding(c, issue, i)
      {
        assert !Warranted(c, issue);
      }
      forall issue, i | 0 <= i < |c.report.violations|
        ensures !ViolationFinding(c, issue, i)
      {
        assert !Warranted(c, issue);
      }
      forall issue
        ensures !ReportFinding(c, issue)
      {
        assert !Warranted(c, issue);
      }
    }
  }

  lemma SoundAreComparable(c: Case)
    requires forall v | v in c.report.violations :: SoundViolation(c, v)
    ensures forall v | v in c.report.violations :: Comparable(c, v)
  {
  }
}
