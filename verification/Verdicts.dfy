/** What the analyzer's verdicts say (qc/direct_analyzer.py, knowledge/rules/quality_rules.json): which conduct is a
    breach, which rule it is punished under, and that every breach is answered, read off the call and the report. */
module Verdicts {
  import opened Common
  import opened Rules
  import opened Reports
  import opened Analyzer

  // ---------------------------------------------------------------- conduct

  /** The agent turn begins when the customer's event is over. */
  ghost predicate ComesAfter(call: Call, e: Event, t: Turn) {
    && (exists u :: u in call.transcript && u.turnId in e.turnIds)
    && forall u | u in call.transcript && u.turnId in e.turnIds :: t.start >= u.end
  }

  /** An agent turn after the event, or also within it, contains an expression of the list. */
  ghost predicate Says(call: Call, e: Event, within: bool, terms: TermList, t: Turn) {
    && t in call.transcript && t.speaker == "坐席" && call.uses(terms, t.text)
    && (ComesAfter(call, e, t) || (within && t.turnId in e.turnIds))
  }

  ghost predicate Said(call: Call, e: Event, within: bool, terms: TermList) {
    exists t :: Says(call, e, within, terms, t)
  }

  ghost predicate SaidIn(call: Call, e: Event, within: bool, terms: TermList, id: string) {
    exists t :: Says(call, e, within, terms, t) && t.turnId == id
  }

  /** The extracted statement of a threat is one, and the turn is the agent's. */
  ghost predicate Stated(call: Call, e: Event, t: Turn) {
    && e.statement != "" && call.uses(ThreatTerms, e.statement)
    && t in call.transcript && t.speaker == "坐席" && t.turnId in e.turnIds
  }

  /** What counts as a breach, type by type. */
  ghost predicate Misconduct(call: Call, e: Event) {
    match e.etype
    case RepaymentDispute => Said(call, e, false, DenialTerms) || call.audit.disputeTicketCreated == Some(false)
    case ThreatOrCoercion => Said(call, e, true, ThreatTerms) || exists t :: Stated(call, e, t)
    case ThirdPartyContact => Said(call, e, true, PrivacyTerms)
    case _ => Said(call, e, true, LanguageTerms(e.etype))
  }

  /** Which turns are cited for it. */
  ghost predicate Exhibit(call: Call, e: Event, id: string) {
    match e.etype
    case RepaymentDispute => id in e.turnIds || SaidIn(call, e, false, DenialTerms, id)
    case ThreatOrCoercion =>
      || SaidIn(call, e, true, ThreatTerms, id)
      || (!Said(call, e, true, ThreatTerms) && exists t :: Stated(call, e, t) && t.turnId == id)
    case ThirdPartyContact => SaidIn(call, e, true, PrivacyTerms, id)
    case _ => id in e.turnIds || SaidIn(call, e, true, LanguageTerms(e.etype), id)
  }

  /** The end of an event is the latest end of its turns. */
  lemma {:induction false} EventEndIsLatest(transcript: seq<Turn>, ids: seq<string>)
    requires EventEnd(transcript, ids).Some?
    ensures exists t :: t in transcript && t.turnId in ids && t.end == EventEnd(transcript, ids).value
    ensures forall t | t in transcript && t.turnId in ids :: t.end <= EventEnd(transcript, ids).value
  {
    var rest := transcript[1..];
    assert transcript == [transcript[0]] + rest;
    if EventEnd(rest, ids).Some? {
      EventEndIsLatest(rest, ids);
    }
    if transcript[0].turnId !in ids || (EventEnd(rest, ids).Some? && EventEnd(rest, ids).value > transcript[0].end) {
      var t :| t in rest && t.turnId in ids && t.end == EventEnd(rest, ids).value;
      assert t in transcript;
    } else {
      assert transcript[0] in transcript;
    }
  }

  lemma RespondingComesAfter(call: Call, e: Event, t: Turn)
    ensures Responds(call.transcript, e, t) <==> t.speaker == "坐席" && ComesAfter(call, e, t)
  {
    var end := EventEnd(call.transcript, e.turnIds);
    if end.Some? {
      EventEndIsLatest(call.transcript, e.turnIds);
    }
    hide EventEnd;
  }

  lemma GuiltIsSaid(call: Call, e: Event)
    ensures var terms := match e.etype
                         case RepaymentDispute => DenialTerms
                         case ThreatOrCoercion => ThreatTerms
                         case ThirdPartyContact => PrivacyTerms
                         case _ => LanguageTerms(e.etype);
            && (forall t :: Guilty(call, e, t) <==> Says(call, e, e.etype != RepaymentDispute, terms, t))
            && ((exists t :: Guilty(call, e, t)) <==> Said(call, e, e.etype != RepaymentDispute, terms))
  {
    hide Responds, ComesAfter;
    forall t {
      RespondingComesAfter(call, e, t);
    }
    var terms := TermsFor(e.etype);
    forall t
      ensures Guilty(call, e, t) <==> Says(call, e, e.etype != RepaymentDispute, terms, t)
    {
    }
    hide Guilty, Says;
    var within := e.etype != RepaymentDispute;
    if t :| Guilty(call, e, t) {
      assert Says(call, e, within, terms, t);
    }
    if t :| Says(call, e, within, terms, t) {
      assert Guilty(call, e, t);
    }
  }

  lemma StatingIsStated(call: Call, e: Event)
    requires e.etype == ThreatOrCoercion
    ensures forall t :: ThreatByStatement(call, e, t) <==> Stated(call, e, t) && !Said(call, e, true, ThreatTerms)
  {
    GuiltIsSaid(call, e);
    hide Guilty, Says;
  }

  /** The verdict on the agent is a breach exactly for misconduct, and cites exactly the exhibits. */
  lemma BreachIsMisconduct(call: Call, e: Event)
    ensures Breach(call, e) <==> Misconduct(call, e)
    ensures forall id :: Evidence(call, e, id) <==> Exhibit(call, e, id)
  {
    GuiltIsSaid(call, e);
    if e.etype == ThreatOrCoercion {
      StatingIsStated(call, e);
    }
    hide Guilty, Says, Stated;
  }

  // ---------------------------------------------------------------- the shipped rules

  /** Which rule lists which event type in the rule file. */
  const SHIPPED := [
    ("R002", ThreatOrCoercion), ("R003", DebtDenial), ("R004", AmountDispute), ("R005", ThirdPartyContact),
    ("R006", RepaymentDispute), ("R007", StopContactRequest), ("R008", FinancialHardship),
    ("R009", ComplaintIntent), ("R010", EmotionalEscalation)]

  ghost predicate IsShipped(rules: seq<Rule>) {
    forall p | p in SHIPPED :: GetRule(rules, p.0).Some? && GetRule(rules, p.0).value.eventTypes == [p.1]
  }

  predicate InTime(rule: Rule, at: int) {
    rule.effectiveFrom <= at && (rule.effectiveTo.None? || at < rule.effectiveTo.value)
  }

  /** Every type has exactly one shipped rule, and it is the one the analyzer looks up. */
  lemma ShippedRule(etype: EventType, id: string)
    ensures (id, etype) in SHIPPED <==> id == RuleFor(etype)
  {
    var wanted := match etype
                  case RepaymentDispute => "R006"
                  case ThreatOrCoercion => "R002"
                  case ThirdPartyContact => "R005"
                  case DebtDenial => "R003"
                  case AmountDispute => "R004"
                  case FinancialHardship => "R008"
                  case ComplaintIntent => "R009"
                  case StopContactRequest => "R007"
                  case EmotionalEscalation => "R010";
    assert (wanted, etype) in SHIPPED;
    assert forall p | p in SHIPPED && p.1 == etype :: p.0 == wanted;
  }

  ghost predicate Found(call: Call, i: nat, rule: Rule, document: string)
    requires i < |call.events|
  {
    exists h :: h in HitsOf(call, i) && h.documentId == document
      && Backs(h, call.events[i].etype, rule, call.at, call.minimum)
  }

  /** The violation that answers a breach. */
  ghost predicate Punishes(call: Call, i: nat, rule: Rule, v: Violation)
    requires i < |call.events|
  {
    && v.eventId == Some(call.events[i].eventId)
    && v.ruleId == rule.ruleId && v.ruleName == rule.name && v.penalty == rule.penalty
    && (forall d :: d in v.knowledgeDocumentIds <==> Found(call, i, rule, d))
    && forall id :: id in v.evidenceTurnIds <==> Exhibit(call, call.events[i], id)
  }

  lemma SupportIsFound(call: Call, i: nat, rule: Rule)
    requires i < |call.events|
    ensures var supported := Supporting(HitsOf(call, i), [], call.events[i].etype, rule, call.at, call.minimum);
            && (supported == [] <==> forall d :: !Found(call, i, rule, d))
            && forall d :: d in DocumentIds(supported) <==> Found(call, i, rule, d)
  {
    hide Backs;
    var supported := Supporting(HitsOf(call, i), [], call.events[i].etype, rule, call.at, call.minimum);
    forall d
      ensures d in DocumentIds(supported) <==> Found(call, i, rule, d)
    {
      if Found(call, i, rule, d) {
        var h :| h in HitsOf(call, i) && h.documentId == d
          && Backs(h, call.events[i].etype, rule, call.at, call.minimum);
        assert h in supported;
        var k :| 0 <= k < |supported| && supported[k] == h;
        assert DocumentIds(supported)[k] == d;
      }
      if d in DocumentIds(supported) {
        var k :| 0 <= k < |supported| && DocumentIds(supported)[k] == d;
        assert supported[k] in supported;
      }
    }
    if supported != [] {
      assert DocumentIds(supported)[0] in DocumentIds(supported);
    }
  }

  lemma PunishmentSays(call: Call, i: nat, v: Violation) returns (rule: Rule)
    requires i < |call.events| && IsPunishment(call, i, v)
    ensures GetRule(call.rules, RuleFor(call.events[i].etype)) == Some(rule)
    ensures call.events[i].etype in rule.eventTypes && InTime(rule, call.at) && Punishes(call, i, rule, v)
    ensures !call.events[i].ambiguous && Misconduct(call, call.events[i]) && v.knowledgeDocumentIds != []
  {
    hide Misconduct, Exhibit, Breach, Evidence, Found, Supporting, RuleFor, HitsOf, GetRule;
    BreachIsMisconduct(call, call.events[i]);
    rule := GetRule(call.rules, RuleFor(call.events[i].etype)).value;
    SupportIsFound(call, i, rule);
  }

  lemma BreachVerdict(call: Call, i: nat, rule: Rule)
    requires i < |call.events| && !call.events[i].ambiguous && Misconduct(call, call.events[i])
    requires GetRule(call.rules, RuleFor(call.events[i].etype)) == Some(rule) && call.events[i].etype in rule.eventTypes
    ensures var verdict := VerdictOn(call, i);
            if InTime(rule, call.at) && exists d :: Found(call, i, rule, d) then verdict.Punished?
            else verdict == Unsupported(if InTime(rule, call.at) then "RAG_WEAK_SUPPORT" else "NO_ACTIVE_RULE_SUPPORT")
  {
    hide Misconduct, Exhibit, Breach, Evidence, Found, Supporting, RuleFor, HitsOf, GetRule;
    BreachIsMisconduct(call, call.events[i]);
    SupportIsFound(call, i, rule);
  }

  /** With the shipped rules every unambiguous breach is answered under the rule that lists its type: by a violation if
      the rule is in its time and some hit of the event backs it, and else by a pending issue that says which of the
      two is missing. */
  lemma BreachIsAnswered(call: Call, report: Report, i: nat, id: string)
    requires IsShipped(call.rules) && Analyzed(call, report) && i < |call.events|
    requires (id, call.events[i].etype) in SHIPPED
    requires !call.events[i].ambiguous && Misconduct(call, call.events[i])
    ensures GetRule(call.rules, id).Some?
    ensures var rule := GetRule(call.rules, id).value;
            if InTime(rule, call.at) && exists d :: Found(call, i, rule, d) then
              exists v :: v in report.violations && Punishes(call, i, rule, v)
            else
              Pending(if InTime(rule, call.at) then "RAG_WEAK_SUPPORT" else "NO_ACTIVE_RULE_SUPPORT",
                      call.events[i].eventId, id) in report.pending
  {
    hide Misconduct, Punishes, Found, Score, Retains, AllHits, VerdictOn, IsPunishment, PendingOf, RuleFor, InTime,
         ArePunishments, GetRule;
    ShippedRule(call.events[i].etype, id);
    assert GetRule(call.rules, (id, call.events[i].etype).0).Some?;
    hide SHIPPED;
    var rule := GetRule(call.rules, id).value;
    BreachVerdict(call, i, rule);
    if VerdictOn(call, i).Punished? {
      ListedOnce(call, report.violations, i);
      var v :| v in report.violations && IsPunishment(call, i, v);
      var cited := PunishmentSays(call, i, v);
    } else {
      PendingIsListed(call, |call.events|, i);
    }
  }

  /** With the shipped rules an analysis is stopped only by a search that fails, and by an unambiguous event none of
      whose turns is in the transcript. */
  lemma RaisesExactly(call: Call, i: nat)
    requires IsShipped(call.rules) && i < |call.events|
    ensures var e := call.events[i];
            Raises(call, i)
            <==> || call.search(i).Failure?
                 || (!e.ambiguous && forall t | t in call.transcript :: t.turnId !in e.turnIds)
  {
    hide Breach, RuleInForce, Supporting, HitsOf, GetRule, EventEnd;
    var e := call.events[i];
    ShippedRule(e.etype, RuleFor(e.etype));
    assert GetRule(call.rules, (RuleFor(e.etype), e.etype).0).Some?;
  }

  lemma ListedOnce(call: Call, vs: seq<Violation>, i: nat)
    requires i < |call.events| && ArePunishments(call, |call.events|, vs) && VerdictOn(call, i).Punished?
    ensures exists v :: v in vs && IsPunishment(call, i, v)
  {
    hide VerdictOn, IsPunishment;
    var k := PunishedAreListed(call, |call.events|, i);
    assert vs[k] in vs;
  }

  lemma {:induction false} PendingIsListed(call: Call, n: nat, i: nat)
    requires i < n <= |call.events| && VerdictOn(call, i).Unsupported?
    ensures var e := call.events[i];
            Pending(VerdictOn(call, i).code, e.eventId, RuleFor(e.etype)) in PendingOf(call, n)
  {
    hide VerdictOn, RuleFor;
    if i < n - 1 {
      PendingIsListed(call, n - 1, i);
    }
  }

  /** Whatever the rules: a violation answers an unambiguous breach under a rule that lists the event's type, is in its
      time, and is backed by what was found for the event. */
  lemma ViolationsAnswer(call: Call, report: Report, v: Violation) returns (i: nat, rule: Rule)
    requires Analyzed(call, report) && v in report.violations
    ensures i < |call.events| && rule in call.rules && call.events[i].etype in rule.eventTypes && InTime(rule, call.at)
    ensures !call.events[i].ambiguous && Misconduct(call, call.events[i]) && Punishes(call, i, rule, v)
    ensures v.knowledgeDocumentIds != []
  {
    hide Misconduct, Punishes, Score, Retains, AllHits, PendingOf, IsPunishment, RuleFor, InTime;
    var k :| 0 <= k < |report.violations| && report.violations[k] == v;
    i := PunishedOf(call, |call.events|)[k];
    rule := PunishmentSays(call, i, v);
  }

  /** A pending issue stands for an unambiguous breach: nothing else is left open. */
  lemma PendingsAnswer(call: Call, report: Report, p: Pending) returns (i: nat, rule: Rule)
    requires Analyzed(call, report) && p in report.pending
    ensures i < |call.events| && rule in call.rules && p.eventId == call.events[i].eventId && p.ruleId == rule.ruleId
    ensures !call.events[i].ambiguous && Misconduct(call, call.events[i])
    ensures if p.code == "NO_ACTIVE_RULE_SUPPORT" then
              !(call.events[i].etype in rule.eventTypes && InTime(rule, call.at))
            else && p.code == "RAG_WEAK_SUPPORT" && call.events[i].etype in rule.eventTypes && InTime(rule, call.at)
                 && forall d :: !Found(call, i, rule, d)
  {
    hide Misconduct, Found, Supporting, VerdictOn, HitsOf;
    i := PendingComesFrom(call, |call.events|, p);
    rule := UnsupportedSays(call, i);
  }

  lemma {:induction false} PendingComesFrom(call: Call, n: nat, p: Pending) returns (i: nat)
    requires n <= |call.events| && p in PendingOf(call, n)
    ensures i < n && VerdictOn(call, i).Unsupported?
    ensures p == Pending(VerdictOn(call, i).code, call.events[i].eventId, RuleFor(call.events[i].etype))
  {
    hide VerdictOn, RuleFor;
    if p in PendingOf(call, n - 1) {
      i := PendingComesFrom(call, n - 1, p);
    } else {
      i := n - 1;
    }
  }

  lemma UnsupportedSays(call: Call, i: nat) returns (rule: Rule)
    requires i < |call.events| && VerdictOn(call, i).Unsupported?
    ensures rule in call.rules && rule.ruleId == RuleFor(call.events[i].etype)
    ensures !call.events[i].ambiguous && Misconduct(call, call.events[i])
    ensures var code, listed := VerdictOn(call, i).code, call.events[i].etype in rule.eventTypes;
            if code == "NO_ACTIVE_RULE_SUPPORT" then !(listed && InTime(rule, call.at))
            else code == "RAG_WEAK_SUPPORT" && listed && InTime(rule, call.at) && forall d :: !Found(call, i, rule, d)
  {
    hide Misconduct, Breach, Found, Supporting, RuleFor, HitsOf, GetRule;
    BreachIsMisconduct(call, call.events[i]);
    rule := GetRule(call.rules, RuleFor(call.events[i].etype)).value;
    SupportIsFound(call, i, rule);
  }
}
