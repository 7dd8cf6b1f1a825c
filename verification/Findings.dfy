/** What each finding of the quality gate says (qc/quality_gate.py), read off the report, the transcript and the rule
    book field by field, without the predicates that the gate is written with. */
module Findings {
  import opened Common
  import opened Rules
  import opened Reports
  import opened Gate

  /** The violation names the event; the empty text and no text are one name. */
  ghost predicate Names(v: Violation, id: string) {
    v.eventId == Some(id) || (v.eventId == None && id == "")
  }

  /** Position of the event the violation is about: the first one of the name. */
  ghost predicate About(c: Case, v: Violation, k: nat) {
    && k < |c.report.events| && Names(v, c.report.events[k].eventId)
    && forall j | 0 <= j < k :: !Names(v, c.report.events[j].eventId)
  }

  /** Position of the rule the violation is under. */
  ghost predicate Under(c: Case, v: Violation, j: nat) {
    && j < |c.rules| && c.rules[j].ruleId == v.ruleId
    && forall k | 0 <= k < j :: c.rules[k].ruleId != v.ruleId
  }

  /** Two violations of one rule are about the same thing: the same event, or the same turns where none is named. */
  ghost predicate SameSubject(v: Violation, w: Violation) {
    && v.ruleId == w.ruleId
    && if Names(v, "") || Names(w, "") then
         Names(v, "") && Names(w, "") && forall t :: t in v.evidenceTurnIds <==> t in w.evidenceTurnIds
       else v.eventId == w.eventId
  }

  ghost predicate NoTurn(c: Case, id: string) {
    forall t | t in c.transcript :: t.turnId != id
  }

  ghost predicate IsEventId(id: string) {
    && |id| == 36 && id[0] == 'E' && id[1] == 'V' && id[2] == 'T' && id[3] == '-'
    && forall n | 4 <= n < 36 :: id[n] in "0123456789ABCDEF"
  }

  ghost predicate RuleApplies(rule: Rule, etype: EventType, at: int) {
    etype in rule.eventTypes && rule.effectiveFrom <= at && (rule.effectiveTo == None || at < rule.effectiveTo.value)
  }

  ghost predicate HitInTime(h: Hit, at: int) {
    && h.metadata.documentStatus in {None, Some("published")}
    && h.metadata.effectiveFrom.Some? && h.metadata.effectiveFrom.value <= at
    && !h.metadata.effectiveTo.Unparseable? && (h.metadata.effectiveTo.Ends? ==> at < h.metadata.effectiveTo.instant)
  }

  ghost predicate HitForRule(h: Hit, rule: Rule) {
    || h.documentId in {rule.ruleId, rule.sourceDocumentId}
    || rule.ruleId in h.metadata.relatedRuleIds
    || (h.metadata.relatedRuleIds == [] && rule.ruleId in h.metadata.ruleIds)
  }

  /** A retrieved hit of a cited document carries the violation. */
  ghost predicate Carried(c: Case, v: Violation, rule: Rule, e: Event) {
    && RuleApplies(rule, e.etype, c.at)
    && exists h ::
         && h in c.report.knowledgeHits && h.documentId in v.knowledgeDocumentIds
         && h.score >= c.minimum && h.metadata.eventType == Some(e.etype) && HitInTime(h, c.at) && HitForRule(h, rule)
  }

  /** A cited document was retrieved, and all of its hits have the defect. */
  ghost predicate Spoilt(c: Case, v: Violation, defect: Hit -> bool) {
    exists h ::
      && h in c.report.knowledgeHits && h.documentId in v.knowledgeDocumentIds
      && forall g | g in c.report.knowledgeHits && g.documentId == h.documentId :: defect(g)
  }

  ghost predicate JustifiedOfEvent(c: Case, issue: Issue, i: nat)
    requires i < |c.report.events|
  {
    var e := c.report.events[i];
    match issue
    case DuplicateEventId(_) => exists k :: 0 <= k < i && c.report.events[k].eventId == e.eventId
    case InvalidEventIdFormat(_) => !IsEventId(e.eventId)
    case MissingEventEvidence(_) => exists t :: t in e.turnIds && NoTurn(c, t)
    case _ => false
  }

  ghost predicate JustifiedOfViolation(c: Case, issue: Issue, i: nat)
    requires i < |c.report.violations|
  {
    var v := c.report.violations[i];
    match issue
    case DuplicateViolation(_) => exists k :: 0 <= k < i && SameSubject(c.report.violations[k], v)
    case MissingEventReference(_) => forall e | e in c.report.events :: !Names(v, e.eventId)
    case MissingViolationEvidence(_) => exists t :: t in v.evidenceTurnIds && NoTurn(c, t)
    case UnknownRuleCited(_) => forall rule | rule in c.rules :: rule.ruleId != v.ruleId
    case _ => exists j: nat :: Under(c, v, j) && JustifiedUnder(c, issue, v, c.rules[j])
  }

  ghost predicate JustifiedUnder(c: Case, issue: Issue, v: Violation, rule: Rule) {
    match issue
    case InvalidPenalty(_, expected) => v.penalty != expected && rule.penalty == expected
    case MissingPolicyEvidence(_) => v.knowledgeDocumentIds == []
    case UnknownPolicyEvidence(_) =>
      exists d :: d in v.knowledgeDocumentIds && forall h | h in c.report.knowledgeHits :: h.documentId != d
    case NoActiveRuleSupport(_) => forall k: nat | About(c, v, k) :: !Carried(c, v, rule, c.report.events[k])
    case _ => exists k: nat :: About(c, v, k) && JustifiedAbout(c, issue, v, rule, c.report.events[k])
  }

  ghost predicate JustifiedAbout(c: Case, issue: Issue, v: Violation, rule: Rule, e: Event) {
    match issue
    case InactiveRule(_) => !RuleApplies(rule, e.etype, c.at)
    case RagBelowThreshold(_) => Spoilt(c, v, (h: Hit) => h.score < c.minimum)
    case RagEventTypeMismatch(_) => Spoilt(c, v, (h: Hit) => h.metadata.eventType != Some(e.etype))
    case RagDocumentInactive(_) => Spoilt(c, v, (h: Hit) => !HitInTime(h, c.at))
    case _ => false
  }

  ghost predicate JustifiedOfReport(c: Case, issue: Issue) {
    var report := c.report;
    match issue
    case InvalidScore(expected) =>
      && report.score != expected && Score(report.violations, c.rules, c.at, report.events) == Success(expected)
      && (forall v | v in report.violations :: (exists j: nat :: Under(c, v, j)) && exists k: nat :: About(c, v, k))
    case PendingIssue(code) => exists p :: p in report.pending && p.code == code
    case DispositionConflict(why) =>
      && (why.AwaitsHuman? ==> report.disposition == HumanReviewRequired)
      && (why.PassedDespiteViolations? ==> report.disposition == AutoPass && report.violations != [])
      && (why.PunishedWithoutViolation? ==> report.disposition == AutoViolation && report.violations == [])
      && (why.AutomatedDespiteAmbiguity? ==>
            report.disposition != HumanReviewRequired && exists e :: e in report.events && e.ambiguous)
      && (why.AutomatedDespiteAuditError? ==>
            report.disposition != HumanReviewRequired && report.audit.Some? && report.audit.value.errors != [])
    case AuditErrorRequiresReview => report.audit.Some? && report.audit.value.errors != []
    case BusinessFactOutOfScope => report.businessFact == Unverified
    case _ => false
  }

  predicate PointsAtEvent(issue: Issue) {
    issue.DuplicateEventId? || issue.InvalidEventIdFormat? || issue.MissingEventEvidence?
  }

  predicate PointsAtReport(issue: Issue) {
    || issue.InvalidScore? || issue.PendingIssue? || issue.DispositionConflict? || issue.AuditErrorRequiresReview?
    || issue.BusinessFactOutOfScope?
  }

  /** The finding is justified by what it points at. */
  ghost predicate Justified(c: Case, issue: Issue) {
    if PointsAtReport(issue) then JustifiedOfReport(c, issue)
    else if PointsAtEvent(issue) then issue.i < |c.report.events| && JustifiedOfEvent(c, issue, issue.i)
    else issue.i < |c.report.violations| && JustifiedOfViolation(c, issue, issue.i)
  }

  // ---------------------------------------------------------------- lookups

  lemma {:induction false} FirstOfName(events: seq<Event>, id: string) returns (k: nat)
    requires exists e :: e in events && e.eventId == id
    ensures k < |events| && events[k].eventId == id && FirstEvent(events, id) == Some(events[k])
    ensures forall j | 0 <= j < k :: events[j].eventId != id
  {
    if events[0].eventId == id {
      k := 0;
    } else {
      k := FirstOfName(events[1..], id);
      k := k + 1;
    }
  }

  lemma {:induction false} FirstOfRule(rules: seq<Rule>, id: string) returns (j: nat)
    requires exists rule :: rule in rules && rule.ruleId == id
    ensures j < |rules| && rules[j].ruleId == id && GetRule(rules, id) == Some(rules[j])
    ensures forall k | 0 <= k < j :: rules[k].ruleId != id
  {
    if rules[0].ruleId == id {
      j := 0;
    } else {
      j := FirstOfRule(rules[1..], id);
      j := j + 1;
    }
  }

  lemma EventIsAbout(c: Case, v: Violation)
    ensures var e := FirstEvent(c.report.events, EventRef(v));
            && (e.Some? <==> exists k: nat :: About(c, v, k))
            && (forall k: nat | About(c, v, k) :: e == Some(c.report.events[k]))
            && (e.None? <==> forall x | x in c.report.events :: !Names(v, x.eventId))
  {
    hide FirstEvent;
    assert forall id :: Names(v, id) <==> id == EventRef(v);
    assert forall k: nat | About(c, v, k) :: c.report.events[k] in c.report.events;
    if exists e :: e in c.report.events && e.eventId == EventRef(v) {
      var k := FirstOfName(c.report.events, EventRef(v));
      assert About(c, v, k);
      assert forall m: nat | About(c, v, m) :: m == k;
    }
  }

  lemma RuleIsUnder(c: Case, v: Violation)
    ensures var rule := GetRule(c.rules, v.ruleId);
            && (rule.Some? <==> exists j: nat :: Under(c, v, j))
            && (forall j: nat | Under(c, v, j) :: rule == Some(c.rules[j]))
            && (rule.None? <==> forall r | r in c.rules :: r.ruleId != v.ruleId)
  {
    hide GetRule;
    assert forall j: nat | Under(c, v, j) :: c.rules[j] in c.rules;
    if exists rule :: rule in c.rules && rule.ruleId == v.ruleId {
      var j := FirstOfRule(c.rules, v.ruleId);
      assert Under(c, v, j);
      assert forall m: nat | Under(c, v, m) :: m == j;
    }
  }

  // ---------------------------------------------------------------- the gate finds what is justified

  lemma EventIdsAre(id: string)
    ensures CanonicalEventId(id) <==> IsEventId(id)
  {
    if |id| == 36 {
      assert id[..4] == "EVT-" <==> id[0] == 'E' && id[1] == 'V' && id[2] == 'T' && id[3] == '-';
      forall n | 4 <= n < 36
        ensures HexDigit(id[n]) <==> id[n] in "0123456789ABCDEF"
      {
        HexDigitsAre(id[n]);
      }
    }
  }

  lemma HexDigitsAre(d: char)
    ensures HexDigit(d) <==> d in "0123456789ABCDEF"
  {
    var digits := "0123456789ABCDEF";
    if '0' <= d <= '9' {
      assert digits[d as int - '0' as int] == d;
    } else if 'A' <= d <= 'F' {
      assert digits[10 + (d as int - 'A' as int)] == d;
    }
  }

  lemma EventFindingIs(c: Case, issue: Issue, i: nat)
    requires i < |c.report.events|
    ensures EventFinding(c, issue, i) <==> PointsAtEvent(issue) && issue.i == i && JustifiedOfEvent(c, issue, i)
  {
    hide CanonicalEventId, IsEventId;
    EventIdsAre(c.report.events[i].eventId);
  }

  lemma SameSubjectIs(v: Violation, w: Violation)
    ensures KeyOf(v) == KeyOf(w) <==> SameSubject(v, w)
  {
    if KeyOf(v) == KeyOf(w) && Names(v, "") {
      assert forall t :: t in v.evidenceTurnIds <==> t in KeyOf(v).evidence;
    }
    if SameSubject(v, w) && Names(v, "") {
      assert (set t | t in v.evidenceTurnIds) == (set t | t in w.evidenceTurnIds);
    }
  }

  lemma SpoiltIs(c: Case, v: Violation, defect: Hit -> bool, same: Hit -> bool)
    requires forall h :: defect(h) == same(h)
    ensures SomeDocument(c, v, defect) <==> Spoilt(c, v, same)
  {
    if h :| h in c.report.knowledgeHits && h.documentId in v.knowledgeDocumentIds
            && forall g | g in c.report.knowledgeHits && g.documentId == h.documentId :: same(g) {
      assert EveryHit(c.report.knowledgeHits, h.documentId, defect);
    }
    if SomeDocument(c, v, defect) {
      var d :| d in v.knowledgeDocumentIds && EveryHit(c.report.knowledgeHits, d, defect);
      var h :| h in c.report.knowledgeHits && h.documentId == d;
      assert forall g | g in c.report.knowledgeHits && g.documentId == h.documentId :: same(g);
    }
  }

  lemma DocumentsAreSpoilt(c: Case, v: Violation, e: Event)
    ensures SomeDocument(c, v, (h: Hit) => h.score < c.minimum) <==> Spoilt(c, v, (h: Hit) => h.score < c.minimum)
    ensures SomeDocument(c, v, (h: Hit) => h.metadata.eventType != Some(e.etype))
            <==> Spoilt(c, v, (h: Hit) => h.metadata.eventType != Some(e.etype))
    ensures SomeDocument(c, v, (h: Hit) => !DocumentIsActive(h, c.at))
            <==> Spoilt(c, v, (h: Hit) => !HitInTime(h, c.at))
  {
    hide SomeDocument, Spoilt;
    SpoiltIs(c, v, (h: Hit) => h.score < c.minimum, (h: Hit) => h.score < c.minimum);
    SpoiltIs(c, v, (h: Hit) => h.metadata.eventType != Some(e.etype),
             (h: Hit) => h.metadata.eventType != Some(e.etype));
    SpoiltIs(c, v, (h: Hit) => !DocumentIsActive(h, c.at), (h: Hit) => !HitInTime(h, c.at));
  }

  lemma SupportIsCarried(c: Case, v: Violation, e: Event, rule: Rule)
    ensures Supported(c, v, e, rule) <==> Carried(c, v, rule, e)
  {
    forall h: Hit
      ensures Backs(h, e.etype, rule, c.at, c.minimum)
              <==> && h.score >= c.minimum && h.metadata.eventType == Some(e.etype)
                   && HitInTime(h, c.at) && HitForRule(h, rule)
    {
    }
    hide Backs, HitInTime, HitForRule;
  }

  predicate ConcernsRule(issue: Issue) {
    || issue.InactiveRule? || issue.InvalidPenalty? || issue.MissingPolicyEvidence? || AboutDocuments(issue)
    || issue.NoActiveRuleSupport?
  }

  lemma RuleFindingIs(c: Case, issue: Issue, i: nat, rule: Rule)
    requires i < |c.report.violations| && ConcernsRule(issue)
    requires GetRule(c.rules, c.report.violations[i].ruleId) == Some(rule)
    ensures ViolationFinding(c, issue, i) <==> issue.i == i && JustifiedUnder(c, issue, c.report.violations[i], rule)
  {
    hide KeyOf, FirstEvent, GetRule, About, Supported, Carried, SomeDocument, Spoilt, RuleInForce, RuleApplies,
         EventRef;
    var v := c.report.violations[i];
    EventIsAbout(c, v);
    var e := FirstEvent(c.report.events, EventRef(v));
    if e.Some? {
      DocumentsAreSpoilt(c, v, e.value);
      SupportIsCarried(c, v, e.value, rule);
      InForceApplies(rule, e.value.etype, c.at);
    }
  }

  lemma ReferenceFindingIs(c: Case, issue: Issue, i: nat)
    requires i < |c.report.violations|
    requires !ConcernsRule(issue) && !PointsAtEvent(issue) && !PointsAtReport(issue)
    ensures ViolationFinding(c, issue, i) <==> issue.i == i && JustifiedOfViolation(c, issue, i)
  {
    hide KeyOf, SameSubject, FirstEvent, GetRule, Under, EventRef, Names, JustifiedUnder, DocumentFinding, Supported,
         RuleInForce;
    var v := c.report.violations[i];
    RuleIsUnder(c, v);
    EventIsAbout(c, v);
    forall k | 0 <= k < i
      ensures KeyOf(c.report.violations[k]) == KeyOf(v) <==> SameSubject(c.report.violations[k], v)
    {
      SameSubjectIs(c.report.violations[k], v);
    }
  }

  lemma NothingElseIsFound(c: Case, issue: Issue, i: nat)
    requires i < |c.report.violations| && (PointsAtEvent(issue) || PointsAtReport(issue))
    ensures !ViolationFinding(c, issue, i)
  {
  }

  lemma ViolationFindingIs(c: Case, issue: Issue, i: nat)
    requires i < |c.report.violations|
    ensures ViolationFinding(c, issue, i)
            <==> && !PointsAtEvent(issue) && !PointsAtReport(issue) && issue.i == i
                 && JustifiedOfViolation(c, issue, i)
  {
    hide Under, JustifiedUnder, DocumentFinding, Supported, RuleInForce, KeyOf, FirstEvent, EventRef;
    if PointsAtEvent(issue) || PointsAtReport(issue) {
      NothingElseIsFound(c, issue, i);
    } else if !ConcernsRule(issue) {
      ReferenceFindingIs(c, issue, i);
    } else {
      var v := c.report.violations[i];
      RuleIsUnder(c, v);
      hide GetRule, Names, SameSubject;
      if GetRule(c.rules, v.ruleId).Some? {
        RuleFindingIs(c, issue, i, GetRule(c.rules, v.ruleId).value);
      }
    }
  }

  lemma InForceApplies(rule: Rule, etype: EventType, at: int)
    ensures RuleInForce(rule, etype, at) <==> RuleApplies(rule, etype, at)
  {
  }

  lemma ReportFindingIs(c: Case, issue: Issue)
    ensures ReportFinding(c, issue) <==> PointsAtReport(issue) && JustifiedOfReport(c, issue)
  {
    hide Score, GetRule, FirstEvent, About, Under, EventRef;
    forall v | v in c.report.violations
      ensures Comparable(c, v) <==> (exists j: nat :: Under(c, v, j)) && exists k: nat :: About(c, v, k)
    {
      EventIsAbout(c, v);
      RuleIsUnder(c, v);
    }
  }

  /** A finding is warranted exactly when the fields it points at justify it. */
  lemma FindingsAreJustified(c: Case, issue: Issue)
    ensures Warranted(c, issue) <==> Justified(c, issue)
  {
    hide EventFinding, ViolationFinding, ReportFinding, JustifiedOfEvent, JustifiedOfViolation, JustifiedOfReport;
    forall i: nat | i < |c.report.events| {
      EventFindingIs(c, issue, i);
    }
    forall i: nat | i < |c.report.violations| {
      ViolationFindingIs(c, issue, i);
    }
    ReportFindingIs(c, issue);
  }
}
