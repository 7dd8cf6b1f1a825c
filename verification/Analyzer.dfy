/** The direct analyzer (qc/direct_analyzer.py) and its agreement with the independent quality gate. */
module Analyzer {
  import opened Common
  import opened Rules
  import opened Reports
  import opened Gate
  import opened Extractor

  /** The speaker label of the collection agent. */
  const AGENT := "坐席"

  /** Which list of forbidden expressions a turn is held against. */
  datatype TermList = DenialTerms | ThreatTerms | PrivacyTerms | LanguageTerms(etype: EventType)

  /** `uses(list, text)`: the text contains an expression of the list. */
  type Lexicon = (TermList, string) -> bool

  /** One analysis: the call, its extracted events and audit snapshot, the answer `search(n)` to the n-th
      knowledge search, and the analyzer's rule book, support threshold and expression lists. */
  datatype Call = Call(
    transcript: seq<Turn>, at: int, audit: Audit, events: seq<Event>, search: nat -> Result<seq<Hit>, AnalysisError>,
    rules: seq<Rule>, minimum: Threshold, uses: Lexicon)

  datatype Raised = OnKey(key: KeyError) | OnValue | OnPipeline(error: AnalysisError)

  // ---------------------------------------------------------------- breaches

  function RuleFor(etype: EventType): string {
    match etype
    case RepaymentDispute => "R006"
    case ThreatOrCoercion => "R002"
    case ThirdPartyContact => "R005"
    case DebtDenial => "R003"
    case AmountDispute => "R004"
    case FinancialHardship => "R008"
    case ComplaintIntent => "R009"
    case StopContactRequest => "R007"
    case EmotionalEscalation => "R010"
  }

  function TermsFor(etype: EventType): TermList {
    match etype
    case RepaymentDispute => DenialTerms
    case ThreatOrCoercion => ThreatTerms
    case ThirdPartyContact => PrivacyTerms
    case _ => LanguageTerms(etype)
  }

  /** Latest end among the turns of an event; None stands for the ValueError of an empty maximum. */
  function EventEnd(transcript: seq<Turn>, ids: seq<string>): (r: Option<real>)
    ensures r.None? <==> forall t | t in transcript :: t.turnId !in ids
  {
    if transcript == [] then None
    else
      var rest := EventEnd(transcript[1..], ids);
      var t := transcript[0];
      if t.turnId !in ids then rest
      else if rest.Some? && rest.value > t.end then rest
      else Some(t.end)
  }

  predicate Responds(transcript: seq<Turn>, e: Event, t: Turn) {
    t.speaker == AGENT && EventEnd(transcript, e.turnIds).Some? && t.start >= EventEnd(transcript, e.turnIds).value
  }

  /** An agent turn inside the event also counts, except for repayment disputes. */
  predicate Considered(transcript: seq<Turn>, e: Event, t: Turn) {
    Responds(transcript, e, t) || (e.etype != RepaymentDispute && t.speaker == AGENT && t.turnId in e.turnIds)
  }

  ghost predicate Guilty(call: Call, e: Event, t: Turn) {
    && t in call.transcript
    && Considered(call.transcript, e, t)
    && call.uses(TermsFor(e.etype), t.text)
  }

  /** The threat appears only in the extracted statement: every agent turn of the event is then cited. */
  ghost predicate ThreatByStatement(call: Call, e: Event, t: Turn) {
    && e.etype == ThreatOrCoercion && e.statement != "" && call.uses(ThreatTerms, e.statement)
    && (forall g :: !Guilty(call, e, g))
    && t in call.transcript && t.speaker == AGENT && t.turnId in e.turnIds
  }

  ghost predicate Breach(call: Call, e: Event) {
    || (exists t :: Guilty(call, e, t))
    || (exists t :: ThreatByStatement(call, e, t))
    || (e.etype == RepaymentDispute && call.audit.disputeTicketCreated == Some(false))
  }

  ghost predicate CitesEvent(etype: EventType) {
    etype != ThreatOrCoercion && etype != ThirdPartyContact
  }

  /** Evidence: the guilty turns, and for most event types the event's own turns as well. */
  ghost predicate Evidence(call: Call, e: Event, id: string) {
    || (CitesEvent(e.etype) && id in e.turnIds)
    || exists t: Turn :: t.turnId == id && (Guilty(call, e, t) || ThreatByStatement(call, e, t))
  }

  // ---------------------------------------------------------------- the checks

  function AgentTurnsAfter(transcript: seq<Turn>, end: real): (r: seq<Turn>)
    ensures forall t :: t in r <==> t in transcript && t.speaker == AGENT && t.start >= end
  {
    if transcript == [] then []
    else (if transcript[0].speaker == AGENT && transcript[0].start >= end then [transcript[0]] else [])
         + AgentTurnsAfter(transcript[1..], end)
  }

  function Matching(turns: seq<Turn>, uses: Lexicon, terms: TermList): (r: seq<Turn>)
    ensures forall t :: t in r <==> t in turns && uses(terms, t.text)
  {
    if turns == [] then []
    else (if uses(terms, turns[0].text) then [turns[0]] else []) + Matching(turns[1..], uses, terms)
  }

  function TurnById(transcript: seq<Turn>, id: string): (r: Option<Turn>)
    ensures r.Some? ==> r.value in transcript && r.value.turnId == id
    ensures r.None? ==> forall t | t in transcript :: t.turnId != id
  {
    if transcript == [] then None
    else if TurnById(transcript[1..], id).Some? then TurnById(transcript[1..], id)
    else if transcript[0].turnId == id then Some(transcript[0]) else None
  }

  lemma {:induction false} TurnByIdIsTheTurn(transcript: seq<Turn>, t: Turn)
    requires UniqueTurns(transcript) && t in transcript
    ensures TurnById(transcript, t.turnId) == Some(t)
  {
    var found := TurnById(transcript, t.turnId).value;
    var i :| 0 <= i < |transcript| && transcript[i] == t;
    var j :| 0 <= j < |transcript| && transcript[j] == found;
  }

  /** Puts the event's own agent turns in front of the responses. */
  method WithEventTurns(transcript: seq<Turn>, responses: seq<Turn>, ids: seq<string>) returns (r: seq<Turn>)
    requires UniqueTurns(transcript)
    ensures forall t :: t in r <==> t in responses || (t in transcript && t.speaker == AGENT && t.turnId in ids)
  {
    r := responses;
    for i := 0 to |ids|
      invariant forall t ::
                  t in r <==> t in responses || (t in transcript && t.speaker == AGENT && t.turnId in ids[..i])
    {
      assert ids[..i + 1] == ids[..i] + [ids[i]];
      var turn := TurnById(transcript, ids[i]);
      forall t | t in transcript && t.turnId == ids[i]
        ensures turn == Some(t)
      {
        TurnByIdIsTheTurn(transcript, t);
      }
      if turn.Some? && turn.value.speaker == AGENT && turn.value !in r {
        r := [turn.value] + r;
      }
    }
    assert ids[..|ids|] == ids;
  }

  method ExtendEvidence(ids: seq<string>, turns: seq<Turn>) returns (r: seq<string>)
    ensures forall id :: id in r <==> id in ids || exists t :: t in turns && t.turnId == id
    ensures ids <= r
  {
    r := ids;
    for i := 0 to |turns|
      invariant forall id :: id in r <==> id in ids || exists t :: t in turns[..i] && t.turnId == id
      invariant ids <= r
    {
      assert turns[..i + 1] == turns[..i] + [turns[i]];
      if turns[i].turnId !in r {
        r := r + [turns[i].turnId];
      }
    }
    assert turns[..|turns|] == turns;
  }

  /** The verdict on one event: None when the agent behaved. */
  ghost predicate IsCheckOf(call: Call, e: Event, r: Result<Option<Violation>, Raised>) {
    match r
    case Failure(OnValue) => EventEnd(call.transcript, e.turnIds).None?
    case Failure(OnKey(key)) =>
      && EventEnd(call.transcript, e.turnIds).Some? && key == UnknownRule(RuleFor(e.etype))
      && Breach(call, e) && GetRule(call.rules, RuleFor(e.etype)).None?
    case Failure(OnPipeline(_)) => false
    case Success(None) => EventEnd(call.transcript, e.turnIds).Some? && !Breach(call, e)
    case Success(Some(v)) =>
      && EventEnd(call.transcript, e.turnIds).Some?
      && Breach(call, e) && GetRule(call.rules, RuleFor(e.etype)).Some?
      && v.eventId == Some(e.eventId)
      && v.ruleId == RuleFor(e.etype)
      && v.ruleName == GetRule(call.rules, RuleFor(e.etype)).value.name
      && v.penalty == GetRule(call.rules, RuleFor(e.etype)).value.penalty
      && v.knowledgeDocumentIds == []
      && forall id :: id in v.evidenceTurnIds <==> Evidence(call, e, id)
  }

  method CheckEventConduct(call: Call, e: Event) returns (r: Result<Option<Violation>, Raised>)
    requires UniqueTurns(call.transcript)
    ensures IsCheckOf(call, e, r)
  {
    var end := EventEnd(call.transcript, e.turnIds);
    if end.None? {
      return Failure(OnValue);
    }
    var responses := AgentTurnsAfter(call.transcript, end.value);
    if e.etype != RepaymentDispute {
      responses := WithEventTurns(call.transcript, responses, e.turnIds);
    }
    var guilty := Matching(responses, call.uses, TermsFor(e.etype));
    var hits := CiteStatedThreat(call, e, guilty);
    r := Judge(call, e, hits);
  }

  method CiteStatedThreat(call: Call, e: Event, guilty: seq<Turn>) returns (hits: seq<Turn>)
    requires UniqueTurns(call.transcript)
    requires forall t :: t in guilty <==> Guilty(call, e, t)
    ensures forall t :: t in hits <==> Guilty(call, e, t) || ThreatByStatement(call, e, t)
  {
    hide Guilty;
    assert guilty != [] ==> guilty[0] in guilty;
    if e.etype == ThreatOrCoercion && guilty == [] && e.statement != "" && call.uses(ThreatTerms, e.statement) {
      hits := WithEventTurns(call.transcript, [], e.turnIds);
    } else {
      hits := guilty;
    }
  }

  method Judge(call: Call, e: Event, hits: seq<Turn>) returns (r: Result<Option<Violation>, Raised>)
    requires EventEnd(call.transcript, e.turnIds).Some?
    requires forall t :: t in hits <==> Guilty(call, e, t) || ThreatByStatement(call, e, t)
    ensures IsCheckOf(call, e, r)
  {
    hide Guilty, ThreatByStatement, EventEnd, GetRule;
    var unregistered := e.etype == RepaymentDispute && call.audit.disputeTicketCreated == Some(false);
    assert hits != [] ==> hits[0] in hits;
    if hits == [] && !unregistered {
      return Success(None);
    }
    var rule := GetRule(call.rules, RuleFor(e.etype));
    if rule.None? {
      return Failure(OnKey(UnknownRule(RuleFor(e.etype))));
    }
    var evidence :=
      ExtendEvidence(if e.etype == ThreatOrCoercion || e.etype == ThirdPartyContact then [] else e.turnIds, hits);
    r := Success(Some(Violation(Some(e.eventId), RuleFor(e.etype), rule.value.name, rule.value.penalty, evidence, [])));
  }

  // ---------------------------------------------------------------- one hit per document

  /** The first of the best-scored hits filed under a document. */
  function Best(hits: seq<Hit>, document: string): (r: Option<Hit>)
    ensures r.Some? ==> r.value in hits && r.value.documentId == document
    ensures forall h | h in hits && h.documentId == document :: r.Some? && r.value.score >= h.score
  {
    if hits == [] then None
    else
      var init, item := hits[..|hits| - 1], hits[|hits| - 1];
      assert hits == init + [item];
      var current := Best(init, document);
      if item.documentId == document && (current.None? || item.score > current.value.score) then Some(item) else current
  }

  /** None before it scores as high, and none at all scores higher. */
  lemma {:induction false} BestIsFirst(hits: seq<Hit>, document: string) returns (i: nat)
    requires Best(hits, document).Some?
    ensures i < |hits| && hits[i] == Best(hits, document).value && hits[i].documentId == document
    ensures forall j | 0 <= j < i && hits[j].documentId == document :: hits[j].score < hits[i].score
    ensures forall j | i <= j < |hits| && hits[j].documentId == document :: hits[j].score <= hits[i].score
  {
    var init, item := hits[..|hits| - 1], hits[|hits| - 1];
    assert forall j | 0 <= j < |init| && init[j].documentId == document :: init[j] in init;
    if Best(hits, document) == Best(init, document) {
      i := BestIsFirst(init, document);
    } else {
      i := |init|;
    }
  }

  ghost predicate OnePerDocument(hits: seq<Hit>) {
    forall i, j | 0 <= i < j < |hits| :: hits[i].documentId != hits[j].documentId
  }

  /** `kept` holds the best hit of every document, and nothing else. */
  ghost predicate Retains(hits: seq<Hit>, kept: seq<Hit>) {
    && OnePerDocument(kept)
    && (forall h | h in kept :: Best(hits, h.documentId) == Some(h))
    && (forall d | Best(hits, d).Some? :: Best(hits, d).value in kept)
  }

  /** The documents stand in the order in which they come up. */
  ghost predicate InOrderMet(hits: seq<Hit>, kept: seq<Hit>) {
    forall i, j | 0 <= i < j < |kept| :: MetBefore(hits, kept[i].documentId, kept[j].documentId)
  }

  method RetainBest(hits: seq<Hit>) returns (kept: seq<Hit>)
    ensures Retains(hits, kept) && InOrderMet(hits, kept)
  {
    hide Best, BestIndexed;
    var unique: map<string, Hit> := map[];
    var inserted: seq<string> := [];
    NothingIndexed();
    assert hits[..0] == [];
    for n := 0 to |hits|
      invariant BestIndexed(hits[..n], unique, inserted)
    {
      var item := hits[n];
      HitIndexed(hits, n, unique, inserted);
      if item.documentId !in unique {
        unique := unique[item.documentId := item];
        inserted := inserted + [item.documentId];
      } else if item.score > unique[item.documentId].score {
        unique := unique[item.documentId := item];
      }
    }
    assert hits[..|hits|] == hits;
    IndexedKeys(hits, unique, inserted);
    kept := seq(|inserted|, i requires 0 <= i < |inserted| => unique[inserted[i]]);
    KeysRetain(hits, unique, inserted, kept);
  }

  /** The dictionary of best hits and its keys in insertion order. */
  ghost predicate BestIndexed(hits: seq<Hit>, unique: map<string, Hit>, inserted: seq<string>) {
    && (forall d :: Best(hits, d) == if d in unique then Some(unique[d]) else None)
    && (forall d :: d in unique <==> d in inserted)
    && (forall i, j | 0 <= i < j < |inserted| :: inserted[i] != inserted[j])
    && (forall i, j | 0 <= i < j < |inserted| :: MetBefore(hits, inserted[i], inserted[j]))
  }

  lemma NothingIndexed()
    ensures BestIndexed([], map[], [])
  {
  }

  lemma HitIndexed(hits: seq<Hit>, n: nat, unique: map<string, Hit>, inserted: seq<string>)
    requires n < |hits| && BestIndexed(hits[..n], unique, inserted)
    ensures var item, d := hits[n], hits[n].documentId;
            if d !in unique then BestIndexed(hits[..n + 1], unique[d := item], inserted + [d])
            else BestIndexed(hits[..n + 1], if item.score > unique[d].score then unique[d := item] else unique,
                             inserted)
  {
    hide Best, MetBefore;
    forall d {
      BestStep(hits, n, d);
    }
    forall i, j | 0 <= i < j < |inserted|
      ensures MetBefore(hits[..n + 1], inserted[i], inserted[j])
    {
      StillBefore(hits, n, inserted[i], inserted[j]);
    }
    if hits[n].documentId !in unique {
      forall i | 0 <= i < |inserted|
        ensures MetBefore(hits[..n + 1], inserted[i], hits[n].documentId)
      {
        assert inserted[i] in inserted;
        NewIsAfter(hits, n, inserted[i]);
      }
    }
  }

  lemma StillBefore(hits: seq<Hit>, n: nat, d: string, e: string)
    requires n < |hits| && MetBefore(hits[..n], d, e)
    ensures MetBefore(hits[..n + 1], d, e)
  {
    var p :| 0 <= p < n && hits[..n][p].documentId == d && forall q | 0 <= q <= p :: hits[..n][q].documentId != e;
    assert hits[..n + 1][p] == hits[..n][p];
    assert forall q | 0 <= q <= p :: hits[..n + 1][q] == hits[..n][q];
  }

  lemma NewIsAfter(hits: seq<Hit>, n: nat, d: string)
    requires n < |hits| && Best(hits[..n], d).Some? && Best(hits[..n], hits[n].documentId).None?
    ensures MetBefore(hits[..n + 1], d, hits[n].documentId)
  {
    var p :| 0 <= p < n && hits[..n][p] == Best(hits[..n], d).value;
    assert hits[..n + 1][p] == hits[..n][p];
    assert forall q | 0 <= q <= p :: hits[..n + 1][q] == hits[..n][q] && hits[..n][q] in hits[..n];
  }

  lemma IndexedKeys(hits: seq<Hit>, unique: map<string, Hit>, inserted: seq<string>)
    requires BestIndexed(hits, unique, inserted)
    ensures forall i | 0 <= i < |inserted| :: inserted[i] in unique
  {
    hide Best;
    assert forall i | 0 <= i < |inserted| :: inserted[i] in inserted;
  }

  lemma BestStep(hits: seq<Hit>, n: nat, d: string)
    requires n < |hits|
    ensures Best(hits[..n + 1], d)
            == if && hits[n].documentId == d
                  && (Best(hits[..n], d).None? || hits[n].score > Best(hits[..n], d).value.score)
               then Some(hits[n]) else Best(hits[..n], d)
  {
    assert hits[..n + 1][..n] == hits[..n];
  }

  lemma KeysRetain(hits: seq<Hit>, unique: map<string, Hit>, inserted: seq<string>, kept: seq<Hit>)
    requires BestIndexed(hits, unique, inserted)
    requires |kept| == |inserted| && forall i | 0 <= i < |kept| ::
               inserted[i] in unique && kept[i] == unique[inserted[i]]
    ensures Retains(hits, kept) && InOrderMet(hits, kept)
  {
    hide Best, MetBefore;
    assert forall i | 0 <= i < |kept| :: Best(hits, inserted[i]) == Some(kept[i]);
    forall d | Best(hits, d).Some?
      ensures Best(hits, d).value in kept
    {
      var i :| 0 <= i < |inserted| && inserted[i] == d;
      assert kept[i] in kept;
    }
  }

  // ---------------------------------------------------------------- analyze

  /** What the analysis concludes about one event. */
  datatype Verdict =
    | Skipped
    | Quiet
    | Unregistered
    | Unsupported(code: string)
    | Punished(penalty: int, documents: seq<string>)

  function HitsOf(call: Call, i: nat): seq<Hit> {
    if call.search(i).Success? then call.search(i).value else []
  }

  function AllHits(call: Call, n: nat): seq<Hit> {
    if n == 0 then [] else AllHits(call, n - 1) + HitsOf(call, n - 1)
  }

  function DocumentIds(hits: seq<Hit>): (ids: seq<string>)
    ensures |ids| == |hits| && forall i | 0 <= i < |hits| :: ids[i] == hits[i].documentId
  {
    seq(|hits|, i requires 0 <= i < |hits| => hits[i].documentId)
  }

  ghost function VerdictOn(call: Call, i: nat): Verdict
    requires i < |call.events|
  {
    var e := call.events[i];
    var rule := GetRule(call.rules, RuleFor(e.etype));
    if e.ambiguous then Skipped
    else if !Breach(call, e) then Quiet
    else if rule.None? then Unregistered
    else if !RuleInForce(rule.value, e.etype, call.at) then Unsupported("NO_ACTIVE_RULE_SUPPORT")
    else
      var supported := Supporting(HitsOf(call, i), [], e.etype, rule.value, call.at, call.minimum);
      if supported == [] then Unsupported("RAG_WEAK_SUPPORT")
      else Punished(rule.value.penalty, DocumentIds(supported))
  }

  ghost predicate IsPunishment(call: Call, i: nat, v: Violation)
    requires i < |call.events|
  {
    var e := call.events[i];
    var verdict := VerdictOn(call, i);
    && verdict.Punished?
    && v.eventId == Some(e.eventId) && v.ruleId == RuleFor(e.etype)
    && GetRule(call.rules, v.ruleId).Some? && v.ruleName == GetRule(call.rules, v.ruleId).value.name
    && v.penalty == verdict.penalty && v.knowledgeDocumentIds == verdict.documents
    && forall id :: id in v.evidenceTurnIds <==> Evidence(call, e, id)
  }

  ghost predicate Raises(call: Call, i: nat)
    requires i < |call.events|
  {
    || call.search(i).Failure?
    || (!call.events[i].ambiguous && EventEnd(call.transcript, call.events[i].turnIds).None?)
    || VerdictOn(call, i).Unregistered?
  }

  /** What it raises: the failure of the search, an event without turns, or a rule that is not registered. */
  ghost predicate RaisesWith(call: Call, i: nat, error: Raised)
    requires i < |call.events|
  {
    var e := call.events[i];
    if call.search(i).Failure? then error == OnPipeline(call.search(i).error)
    else if EventEnd(call.transcript, e.turnIds).None? then error == OnValue
    else error == OnKey(UnknownRule(RuleFor(e.etype)))
  }

  ghost function PendingOf(call: Call, n: nat): seq<Pending>
    requires n <= |call.events|
  {
    if n == 0 then []
    else
      var verdict, e := VerdictOn(call, n - 1), call.events[n - 1];
      PendingOf(call, n - 1)
      + if verdict.Unsupported? then [Pending(verdict.code, e.eventId, RuleFor(e.etype))] else []
  }

  ghost function PunishedOf(call: Call, n: nat): (ps: seq<nat>)
    requires n <= |call.events|
    ensures forall k | 0 <= k < |ps| :: ps[k] < n
  {
    if n == 0 then []
    else
      PunishedOf(call, n - 1)
      + if VerdictOn(call, n - 1).Punished? then [n - 1] else []
  }

  lemma {:induction false} PunishedInOrder(call: Call, n: nat, j: nat, k: nat)
    requires n <= |call.events| && j < k < |PunishedOf(call, n)|
    ensures PunishedOf(call, n)[j] < PunishedOf(call, n)[k]
  {
    hide VerdictOn;
    var init := PunishedOf(call, n - 1);
    if k < |init| {
      PunishedInOrder(call, n - 1, j, k);
    }
  }

  ghost predicate ArePunishments(call: Call, n: nat, vs: seq<Violation>)
    requires n <= |call.events|
  {
    var ps := PunishedOf(call, n);
    |vs| == |ps| && forall k | 0 <= k < |vs| :: IsPunishment(call, ps[k], vs[k])
  }

  /** The report of an analysis that did not raise: one violation per punished event, in event order,
      one pending issue per unsupported breach, and the best hit of every document. */
  ghost predicate Analyzed(call: Call, report: Report) {
    var n := |call.events|;
    && report.events == call.events
    && report.audit == Some(call.audit)
    && report.businessFact == NotChecked
    && report.pending == PendingOf(call, n)
    && ArePunishments(call, n, report.violations)
    && Retains(AllHits(call, n), report.knowledgeHits)
    && Score(report.violations, call.rules, call.at, call.events) == Success(report.score)
    && report.disposition
       == (if AnyAmbiguous(call.events) || call.audit.errors != [] || report.pending != [] then HumanReviewRequired
           else if report.violations != [] then AutoViolation else AutoPass)
  }

  datatype Finding = Nothing | Doubt(pending: Pending) | Punish(violation: Violation)

  method JudgeEvent(call: Call, i: nat) returns (r: Result<Finding, Raised>)
    requires UniqueTurns(call.transcript) && i < |call.events| && call.search(i).Success?
    ensures r.Failure? <==> Raises(call, i)
    ensures r.Failure? ==> RaisesWith(call, i, r.error)
    ensures r.Success? ==>
              var verdict, e := VerdictOn(call, i), call.events[i];
              match r.value
              case Nothing => verdict.Skipped? || verdict.Quiet?
              case Doubt(p) => verdict.Unsupported? && p == Pending(verdict.code, e.eventId, RuleFor(e.etype))
              case Punish(v) => IsPunishment(call, i, v)
  {
    hide Breach, Evidence, EventEnd, RuleInForce, GetRule;
    var event := call.events[i];
    if event.ambiguous {
      return Success(Nothing);
    }
    var check := CheckEventConduct(call, event);
    if check.Failure? {
      return Failure(check.error);
    }
    if check.value.None? {
      return Success(Nothing);
    }
    var violation := check.value.value;
    var rule := GetRule(call.rules, violation.ruleId).value;
    if !RuleInForce(rule, event.etype, call.at) {
      return Success(Doubt(Pending("NO_ACTIVE_RULE_SUPPORT", event.eventId, violation.ruleId)));
    }
    var supported :=
      SupportingHits(HitsOf(call, i), violation.knowledgeDocumentIds, event.etype, rule, call.at, call.minimum);
    if supported == [] {
      return Success(Doubt(Pending("RAG_WEAK_SUPPORT", event.eventId, violation.ruleId)));
    }
    r := Success(Punish(violation.(knowledgeDocumentIds := DocumentIds(supported))));
  }

  method Analyze(callId: string, call: Call) returns (r: Result<Report, Raised>)
    requires UniqueTurns(call.transcript)
    ensures WellExtracted(call.events, call.transcript) ==>
              (r.Failure? <==> exists i :: 0 <= i < |call.events| && Raises(call, i))
    ensures WellExtracted(call.events, call.transcript) && r.Failure? ==>
              exists i :: 0 <= i < |call.events| && Raises(call, i) && RaisesWith(call, i, r.error)
                          && forall k | 0 <= k < i :: !Raises(call, k)
    ensures WellExtracted(call.events, call.transcript) && r.Success? ==>
              && r.value.callId == callId && Analyzed(call, r.value)
              && InOrderMet(AllHits(call, |call.events|), r.value.knowledgeHits)
  {
    hide VerdictOn, IsPunishment, Score, Dedup, UniqueTurns, WellExtracted, EventEnd, Retains,
      CanonicalEventId, InOrderMet;
    var events := call.events;
    var hits: seq<Hit>, violations: seq<Violation>, pending: seq<Pending> := [], [], [];
    for i := 0 to |events|
      invariant hits == AllHits(call, i)
      invariant pending == PendingOf(call, i)
      invariant ArePunishments(call, i, violations)
      invariant forall k | 0 <= k < i :: !Raises(call, k)
    {
      var answer := call.search(i);
      if answer.Failure? {
        assert Raises(call, i);
        return Failure(OnPipeline(answer.error));
      }
      hits := hits + HitsOf(call, i);
      var finding := JudgeEvent(call, i);
      if finding.Failure? {
        return Failure(finding.error);
      }
      FindingKinds(call, i);
      match finding.value
      case Nothing =>
      case Doubt(p) => pending := pending + [p];
      case Punish(v) => violations := violations + [v];
    }
    var knowledgeHits := RetainBest(hits);
    var merged := DeduplicateViolations(violations, EventOrder(events));
    var score := CalculateScore(merged, call.rules, call.at, events);
    if WellExtracted(call.events, call.transcript) {
      PunishmentsMergeToThemselves(call, violations);
      PunishmentsScore(call, violations);
    }
    if score.Failure? {
      return Failure(OnKey(score.error));
    }
    var disposition :=
      if AnyAmbiguous(events) || call.audit.errors != [] || pending != [] then HumanReviewRequired
      else if merged != [] then AutoViolation else AutoPass;
    r := Success(Report(callId, score.value, events, merged, knowledgeHits, Some(call.audit), NotChecked, disposition,
                        pending));
  }

  lemma FindingKinds(call: Call, i: nat)
    requires i < |call.events|
    ensures forall v | IsPunishment(call, i, v) :: VerdictOn(call, i).Punished?
  {
  }

  lemma PunishmentKeys(call: Call, vs: seq<Violation>, k: nat)
    requires WellExtracted(call.events, call.transcript)
    requires ArePunishments(call, |call.events|, vs) && k < |vs|
    ensures var p := PunishedOf(call, |call.events|)[k];
            && KeyOf(vs[k]) == EventKey(call.events[p].eventId, vs[k].ruleId)
            && EventRef(vs[k]) == call.events[p].eventId != ""
            && EventRef(vs[k]) in EventOrder(call.events) && EventOrder(call.events)[EventRef(vs[k])] == p
            && GetRule(call.rules, vs[k].ruleId).Some?
  {
    hide *;
    PunishedEvent(call, vs, k);
    var p := PunishedOf(call, |call.events|)[k];
    PunishmentIsRegistered(call, p, vs[k]);
    OrderOfExtracted(call.events, call.transcript, p);
    KeyOfPunishment(vs[k], call.events[p]);
  }

  lemma PunishmentIsRegistered(call: Call, p: nat, v: Violation)
    requires p < |call.events| && IsPunishment(call, p, v)
    ensures v.eventId == Some(call.events[p].eventId) && GetRule(call.rules, v.ruleId).Some?
  {
    hide Breach, Evidence, RuleInForce, GetRule, Supporting;
  }

  lemma OrderOfExtracted(events: seq<Event>, transcript: seq<Turn>, p: nat)
    requires WellExtracted(events, transcript) && p < |events|
    ensures events[p].eventId != ""
    ensures events[p].eventId in EventOrder(events) && EventOrder(events)[events[p].eventId] == p
  {
    hide TurnExists;
    var e := events[p];
    assert e in events && CanonicalEventId(e.eventId);
    assert e.eventId in EventById(events);
  }

  lemma KeyOfPunishment(v: Violation, e: Event)
    requires v.eventId == Some(e.eventId) && e.eventId != ""
    ensures KeyOf(v) == EventKey(e.eventId, v.ruleId) && EventRef(v) == e.eventId
  {
  }

  /** Distinct events give distinct keys, already in event order: merging changes nothing. */
  lemma PunishmentsMergeToThemselves(call: Call, vs: seq<Violation>)
    requires WellExtracted(call.events, call.transcript)
    requires ArePunishments(call, |call.events|, vs)
    ensures DistinctKeys(vs)
    ensures Dedup(vs, EventOrder(call.events)) == vs
  {
    hide IsPunishment, VerdictOn, WellExtracted, EventOrder, KeyOf;
    var ps := PunishedOf(call, |call.events|);
    forall j: nat, k: nat | j < k < |vs|
      ensures KeyOf(vs[j]) != KeyOf(vs[k])
      ensures Before(vs, EventOrder(call.events), j, k)
    {
      PunishedInOrder(call, |call.events|, j, k);
      PunishmentKeys(call, vs, j);
      PunishmentKeys(call, vs, k);
    }
    MergingDistinctInOrderIsIdentity(vs, EventOrder(call.events));
  }

  lemma PunishmentsScore(call: Call, vs: seq<Violation>)
    requires WellExtracted(call.events, call.transcript)
    requires ArePunishments(call, |call.events|, vs)
    ensures Score(vs, call.rules, call.at, call.events).Success?
  {
    hide IsPunishment, VerdictOn, WellExtracted, KeyOf, Score, GetRule, EventById;
    forall v | v in vs
      ensures GetRule(call.rules, v.ruleId).Some? && EventRef(v) != "" && EventRef(v) in EventById(call.events)
    {
      var k :| 0 <= k < |vs| && vs[k] == v;
      PunishmentKeys(call, vs, k);
    }
    ScoreIsSetSum(vs, call.rules, call.at, call.events);
  }

  // ---------------------------------------------------------------- agreement with the gate

  /** Nothing in the report asks for a human. */
  ghost predicate Clean(report: Report) {
    !AnyAmbiguous(report.events) && !AuditFailed(report) && report.pending == []
  }

  /** The same said of the call: no event is ambiguous, the audit went well, every breach finds its support. */
  ghost predicate CleanCall(call: Call) {
    && !AnyAmbiguous(call.events) && call.audit.errors == []
    && forall i: nat | i < |call.events| :: !VerdictOn(call, i).Unsupported?
  }

  predicate OnTopic(h: Hit, etype: EventType, at: int) {
    h.metadata.eventType == Some(etype) && DocumentIsActive(h, at)
  }

  /** The best hit of every document, over the whole call, is of the right topic and date, and one of them is
      about the rule. */
  ghost predicate BestSupports(hits: seq<Hit>, documents: seq<string>, etype: EventType, rule: Rule, at: int) {
    && (forall d | d in documents :: Best(hits, d).Some? && OnTopic(Best(hits, d).value, etype, at))
    && exists d :: d in documents && Best(hits, d).Some? && DocumentRelatesToRule(Best(hits, d).value, rule)
  }

  ghost predicate KeepsSupportOf(call: Call, i: nat)
    requires i < |call.events|
  {
    var etype, verdict := call.events[i].etype, VerdictOn(call, i);
    verdict.Punished? ==>
      && GetRule(call.rules, RuleFor(etype)).Some?
      && BestSupports(AllHits(call, |call.events|), verdict.documents, etype, GetRule(call.rules, RuleFor(etype)).value,
                      call.at)
  }

  /** Keeping one hit per document over the whole call loses the support of no punished event. */
  ghost predicate RetentionKeepsSupport(call: Call) {
    forall i: nat | i < |call.events| :: KeepsSupportOf(call, i)
  }

  /** Hits filed under one document id carry the same metadata. */
  ghost predicate MetadataByDocument(hits: seq<Hit>) {
    forall g, h | g in hits && h in hits && g.documentId == h.documentId :: g.metadata == h.metadata
  }

  lemma {:induction false} HitsAreCollected(call: Call, n: nat, i: nat)
    requires i < n
    ensures forall h | h in HitsOf(call, i) :: h in AllHits(call, n)
  {
    if i < n - 1 {
      HitsAreCollected(call, n - 1, i);
    }
  }

  lemma RetainedScore(hits: seq<Hit>, kept: seq<Hit>, h: Hit) returns (k: Hit)
    requires Retains(hits, kept) && h in hits
    ensures k in kept && k in hits && k.documentId == h.documentId && k.score >= h.score
  {
    k := Best(hits, h.documentId).value;
  }

  lemma AnyRetainedIsBest(hits: seq<Hit>, kept: seq<Hit>, k: Hit, h: Hit)
    requires Retains(hits, kept) && k in kept && h in hits && k.documentId == h.documentId
    ensures k.score >= h.score
  {
  }

  /** Everything the gate asks of one punished event, apart from the retained hits. */
  lemma PunishmentIsSound(call: Call, report: Report, k: nat)
    returns (p: nat, e: Event, rule: Rule)
    requires WellExtracted(call.events, call.transcript) && UniqueTurns(call.transcript)
    requires Analyzed(call, report) && k < |report.violations|
    ensures k < |PunishedOf(call, |call.events|)| && p == PunishedOf(call, |call.events|)[k]
    ensures p < |call.events| && e == call.events[p] && GetRule(call.rules, RuleFor(e.etype)) == Some(rule)
    ensures var v := report.violations[k];
            && VerdictOn(call, p).Punished? && v.knowledgeDocumentIds == VerdictOn(call, p).documents
            && FirstEvent(report.events, EventRef(v)) == Some(e)
            && GetRule(call.rules, v.ruleId) == Some(rule)
            && RuleInForce(rule, e.etype, call.at)
            && v.penalty == rule.penalty
            && v.knowledgeDocumentIds
               == DocumentIds(Supporting(HitsOf(call, p), [], e.etype, rule, call.at, call.minimum))
            && v.knowledgeDocumentIds != []
            && forall t | t in v.evidenceTurnIds :: TurnExists(call.transcript, t)
  {
    hide *;
    AnalyzedViolations(call, report);
    PunishmentKeys(call, report.violations, k);
    PunishedEvent(call, report.violations, k);
    p := PunishedOf(call, |call.events|)[k];
    e := call.events[p];
    PunishmentUnfolds(call, p, report.violations[k]);
    rule := GetRule(call.rules, report.violations[k].ruleId).value;
    ExtractedIdsAreUnique(call, p);
    forall t | t in report.violations[k].evidenceTurnIds
      ensures TurnExists(call.transcript, t)
    {
      EvidenceExists(call, e, t);
    }
  }

  lemma AnalyzedViolations(call: Call, report: Report)
    requires Analyzed(call, report)
    ensures ArePunishments(call, |call.events|, report.violations) && report.events == call.events
  {
    hide ArePunishments, Retains, Score;
  }

  lemma PunishedEvent(call: Call, vs: seq<Violation>, k: nat)
    requires ArePunishments(call, |call.events|, vs) && k < |vs|
    ensures k < |PunishedOf(call, |call.events|)|
    ensures IsPunishment(call, PunishedOf(call, |call.events|)[k], vs[k])
  {
    hide IsPunishment;
  }

  lemma PunishmentUnfolds(call: Call, p: nat, v: Violation)
    requires p < |call.events| && IsPunishment(call, p, v)
    ensures var e, rule := call.events[p], GetRule(call.rules, v.ruleId);
            && e in call.events && v.ruleId == RuleFor(e.etype)
            && VerdictOn(call, p).Punished? && v.knowledgeDocumentIds == VerdictOn(call, p).documents
            && rule.Some? && RuleInForce(rule.value, e.etype, call.at) && v.penalty == rule.value.penalty
            && v.knowledgeDocumentIds
               == DocumentIds(Supporting(HitsOf(call, p), [], e.etype, rule.value, call.at, call.minimum))
            && v.knowledgeDocumentIds != []
            && forall t | t in v.evidenceTurnIds :: Evidence(call, e, t)
  {
    hide Breach, Evidence, RuleInForce, GetRule, Supporting;
  }

  lemma ExtractedIdsAreUnique(call: Call, p: nat)
    requires WellExtracted(call.events, call.transcript) && p < |call.events|
    ensures FirstEvent(call.events, call.events[p].eventId) == Some(call.events[p])
  {
    hide FirstEvent;
    FirstEventIsUnique(call.events, p);
  }

  lemma {:induction false} FirstEventIsUnique(events: seq<Event>, p: nat)
    requires forall i, j | 0 <= i < j < |events| :: events[i].eventId != events[j].eventId
    requires p < |events|
    ensures FirstEvent(events, events[p].eventId) == Some(events[p])
  {
    if p > 0 {
      FirstEventIsUnique(events[1..], p - 1);
    }
  }

  lemma EvidenceExists(call: Call, e: Event, id: string)
    requires WellExtracted(call.events, call.transcript) && e in call.events
    requires Evidence(call, e, id)
    ensures TurnExists(call.transcript, id)
  {
  }

  /** Every supported document has a retained hit, at least as strong as the supporting one. */
  lemma SupportedAreRetained(hits: seq<Hit>, kept: seq<Hit>, mine: seq<Hit>, documents: seq<string>, etype: EventType,
                             rule: Rule, at: int, minimum: real)
    requires Retains(hits, kept) && forall h | h in mine :: h in hits
    requires documents == DocumentIds(Supporting(mine, [], etype, rule, at, minimum))
    ensures forall d | d in documents ::
              Best(hits, d).Some? && Best(hits, d).value in kept && Best(hits, d).value.score >= minimum
    ensures forall h | h in kept :: Best(hits, h.documentId) == Some(h)
  {
    hide DocumentIsActive, DocumentRelatesToRule;
    var supported := Supporting(mine, [], etype, rule, at, minimum);
    forall d | d in documents
      ensures Best(hits, d).Some? && Best(hits, d).value in kept && Best(hits, d).value.score >= minimum
    {
      var i :| 0 <= i < |supported| && supported[i].documentId == d;
      assert supported[i] in supported;
      var k := RetainedScore(hits, kept, supported[i]);
      AnyRetainedIsBest(hits, kept, k, supported[i]);
    }
  }

  /** For one violation the gate's demands come down to the best hits keeping topic, date and rule. */
  lemma SupportSurvivesExactly(c: Case, hits: seq<Hit>, mine: seq<Hit>, v: Violation, e: Event, rule: Rule)
    requires Retains(hits, c.report.knowledgeHits)
    requires forall h | h in mine :: h in hits
    requires v.knowledgeDocumentIds == DocumentIds(Supporting(mine, [], e.etype, rule, c.at, c.minimum))
    requires RuleInForce(rule, e.etype, c.at)
    ensures SoundDocuments(c, v, e) && Supported(c, v, e, rule)
            <==> BestSupports(hits, v.knowledgeDocumentIds, e.etype, rule, c.at)
  {
    hide DocumentIsActive, DocumentRelatesToRule, RuleInForce, Retains, Best;
    SupportedAreRetained(hits, c.report.knowledgeHits, mine, v.knowledgeDocumentIds, e.etype, rule, c.at, c.minimum);
  }

  /** An analyzed report passes the gate exactly when the call is clean and keeping one hit per document keeps the
      support of every punished event. */
  lemma AnalyzerGateAgreement(call: Call, report: Report)
    requires WellExtracted(call.events, call.transcript) && UniqueTurns(call.transcript)
    requires Analyzed(call, report)
    ensures var c := Case(report, call.transcript, call.at, call.minimum, call.rules);
            Passes(c) <==> CleanCall(call) && RetentionKeepsSupport(call)
  {
    hide *;
    var c := Case(report, call.transcript, call.at, call.minimum, call.rules);
    GatePassesExactlyTrustworthy(c);
    AnalyzedTrustReduces(call, report);
    CleanIsOfTheCall(call, report);
    SupportIsWhatMatters(call, report);
  }

  lemma CleanIsOfTheCall(call: Call, report: Report)
    requires Analyzed(call, report)
    ensures Clean(report) <==> CleanCall(call)
  {
    hide ArePunishments, Retains, Score, PendingOf, AnyAmbiguous, VerdictOn;
    PendingExactlyUnsupported(call, |call.events|);
  }

  lemma {:induction false} PendingExactlyUnsupported(call: Call, n: nat)
    requires n <= |call.events|
    ensures PendingOf(call, n) == [] <==> forall i: nat | i < n :: !VerdictOn(call, i).Unsupported?
  {
    hide VerdictOn;
    if n > 0 {
      PendingExactlyUnsupported(call, n - 1);
    }
  }

  lemma {:induction false} PunishedAreListed(call: Call, n: nat, i: nat) returns (k: nat)
    requires i < n <= |call.events| && VerdictOn(call, i).Punished?
    ensures k < |PunishedOf(call, n)| && PunishedOf(call, n)[k] == i
  {
    hide VerdictOn;
    if i == n - 1 {
      k := |PunishedOf(call, n)| - 1;
    } else {
      k := PunishedAreListed(call, n - 1, i);
    }
  }

  /** The k-th violation is sound exactly when the best hits support its event. */
  lemma ViolationSupport(call: Call, report: Report, k: nat)
    requires WellExtracted(call.events, call.transcript) && UniqueTurns(call.transcript)
    requires Analyzed(call, report) && k < |report.violations|
    ensures k < |PunishedOf(call, |call.events|)|
    ensures var c := Case(report, call.transcript, call.at, call.minimum, call.rules);
            SoundViolation(c, report.violations[k]) <==> KeepsSupportOf(call, PunishedOf(call, |call.events|)[k])
  {
    hide Supported, SoundDocuments, KeyOf, Score, GetRule, FirstEvent, DocumentIsActive, DocumentRelatesToRule,
         VerdictOn, Supporting, ArePunishments, RuleInForce, Retains, TurnExists, WellExtracted, UniqueTurns,
         BestSupports, Analyzed;
    var c := Case(report, call.transcript, call.at, call.minimum, call.rules);
    var p, e, rule := PunishmentIsSound(call, report, k);
    HitsAreCollected(call, |call.events|, p);
    AnalyzedRetains(call, report);
    SupportSurvivesExactly(c, AllHits(call, |call.events|), HitsOf(call, p), report.violations[k], e, rule);
  }

  lemma SupportIsWhatMatters(call: Call, report: Report)
    requires WellExtracted(call.events, call.transcript) && UniqueTurns(call.transcript)
    requires Analyzed(call, report)
    ensures var c := Case(report, call.transcript, call.at, call.minimum, call.rules);
            RetentionKeepsSupport(call) <==> forall v | v in report.violations :: SoundViolation(c, v)
  {
    hide SoundViolation, VerdictOn, WellExtracted, UniqueTurns, BestSupports, GetRule, Analyzed, IsPunishment;
    var c := Case(report, call.transcript, call.at, call.minimum, call.rules);
    AnalyzedViolations(call, report);
    if forall v | v in report.violations :: SoundViolation(c, v) {
      forall i: nat | i < |call.events|
        ensures KeepsSupportOf(call, i)
      {
        if VerdictOn(call, i).Punished? {
          var k := PunishedAreListed(call, |call.events|, i);
          ViolationSupport(call, report, k);
          assert report.violations[k] in report.violations;
        }
      }
    }
    if RetentionKeepsSupport(call) {
      forall v | v in report.violations
        ensures SoundViolation(c, v)
      {
        var k :| 0 <= k < |report.violations| && report.violations[k] == v;
        ViolationSupport(call, report, k);
      }
    }
  }

  lemma ExtractedEventsAreSound(call: Call, c: Case)
    requires WellExtracted(call.events, call.transcript)
    requires c.report.events == call.events && c.transcript == call.transcript
    ensures SoundEvents(c)
  {
    hide CanonicalEventId, TurnExists;
  }

  lemma AnalyzedShape(call: Call, report: Report)
    requires Analyzed(call, report)
    ensures report.events == call.events && report.businessFact == NotChecked
    ensures ArePunishments(call, |call.events|, report.violations)
    ensures Score(report.violations, call.rules, call.at, call.events) == Success(report.score)
    ensures report.disposition
            == (if !Clean(report) then HumanReviewRequired
                else if report.violations == [] then AutoPass else AutoViolation)
  {
    hide ArePunishments, Retains, Score, PendingOf, AnyAmbiguous;
  }

  /** All of trust but the per-violation support follows from the way the report was built. */
  lemma AnalyzedTrustReduces(call: Call, report: Report)
    requires WellExtracted(call.events, call.transcript) && UniqueTurns(call.transcript)
    requires Analyzed(call, report)
    ensures var c := Case(report, call.transcript, call.at, call.minimum, call.rules);
            Trustworthy(c) <==> Clean(report) && forall v | v in report.violations :: SoundViolation(c, v)
  {
    hide *;
    var c := Case(report, call.transcript, call.at, call.minimum, call.rules);
    AnalyzedShape(call, report);
    SoundScoreIsExpected(call, report);
    PunishmentsMergeToThemselves(call, report.violations);
    ExtractedEventsAreSound(call, c);
    if forall v | v in report.violations :: SoundViolation(c, v) {
      ExpectedScoreIsStated(c);
    }
    TrustOfCleanReport(c);
  }

  lemma TrustOfCleanReport(c: Case)
    requires SoundEvents(c) && DistinctKeys(c.report.violations) && c.report.businessFact == NotChecked
    requires ExpectedScore(c) == Success(c.report.score)
    requires (forall v | v in c.report.violations :: SoundViolation(c, v)) ==>
               ExpectedScore(c) == Success(Max(0, 100 - SumOfPenalties(c.report.violations)))
    requires c.report.disposition
             == (if !Clean(c.report) then HumanReviewRequired
                 else if c.report.violations == [] then AutoPass else AutoViolation)
    ensures Trustworthy(c) <==> Clean(c.report) && forall v | v in c.report.violations :: SoundViolation(c, v)
  {
    hide SoundEvents, DistinctKeys, SoundViolation, ExpectedScore, SumOfPenalties, AnyAmbiguous, AuditFailed;
  }

  lemma SoundScoreIsExpected(call: Call, report: Report)
    requires report.events == call.events
    ensures ExpectedScore(Case(report, call.transcript, call.at, call.minimum, call.rules))
            == Score(report.violations, call.rules, call.at, call.events)
  {
  }

  /** When hits of one document agree on their metadata, a clean call always passes. */
  lemma CleanAnalysisPasses(call: Call, report: Report)
    requires WellExtracted(call.events, call.transcript) && UniqueTurns(call.transcript)
    requires Analyzed(call, report)
    requires MetadataByDocument(AllHits(call, |call.events|))
    ensures var c := Case(report, call.transcript, call.at, call.minimum, call.rules);
            Passes(c) <==> CleanCall(call)
    ensures Clean(report) <==> CleanCall(call)
  {
    hide *;
    AnalyzerGateAgreement(call, report);
    CleanIsOfTheCall(call, report);
    MetadataKeepsSupport(call);
  }

  lemma MetadataKeepsSupport(call: Call)
    requires MetadataByDocument(AllHits(call, |call.events|))
    ensures RetentionKeepsSupport(call)
  {
    hide VerdictOn, BestSupports, MetadataByDocument, GetRule;
    forall i: nat | i < |call.events|
      ensures KeepsSupportOf(call, i)
    {
      if VerdictOn(call, i).Punished? {
        PunishedIsSupported(call, i);
        HitsAreCollected(call, |call.events|, i);
        var rule := GetRule(call.rules, RuleFor(call.events[i].etype)).value;
        SupportCarriesOver(AllHits(call, |call.events|), HitsOf(call, i), call.events[i].etype, rule, call.at,
                           call.minimum);
      }
    }
  }

  lemma PunishedIsSupported(call: Call, i: nat)
    requires i < |call.events| && VerdictOn(call, i).Punished?
    ensures var etype := call.events[i].etype;
            var rule := GetRule(call.rules, RuleFor(etype));
            && rule.Some? && Supporting(HitsOf(call, i), [], etype, rule.value, call.at, call.minimum) != []
            && VerdictOn(call, i).documents
               == DocumentIds(Supporting(HitsOf(call, i), [], etype, rule.value, call.at, call.minimum))
  {
    hide Breach, RuleInForce, GetRule, Supporting;
  }

  lemma SupportCarriesOver(hits: seq<Hit>, mine: seq<Hit>, etype: EventType, rule: Rule, at: int, minimum: real)
    requires MetadataByDocument(hits) && forall h | h in mine :: h in hits
    requires Supporting(mine, [], etype, rule, at, minimum) != []
    ensures BestSupports(hits, DocumentIds(Supporting(mine, [], etype, rule, at, minimum)), etype, rule, at)
  {
    hide DocumentIsActive, DocumentRelatesToRule, Best, MetadataByDocument;
    var supported := Supporting(mine, [], etype, rule, at, minimum);
    forall i | 0 <= i < |supported|
      ensures Best(hits, supported[i].documentId).Some?
      ensures var best := Best(hits, supported[i].documentId).value;
              OnTopic(best, etype, at) && DocumentRelatesToRule(best, rule)
    {
      assert supported[i] in supported;
      BestOfDocument(hits, supported[i], etype, rule, at, minimum);
    }
    assert supported[0].documentId in DocumentIds(supported) by {
      assert DocumentIds(supported)[0] == supported[0].documentId;
    }
  }

  lemma BestOfDocument(hits: seq<Hit>, s: Hit, etype: EventType, rule: Rule, at: int, minimum: real)
    requires MetadataByDocument(hits) && s in hits && Backs(s, etype, rule, at, minimum)
    ensures Best(hits, s.documentId).Some?
    ensures var best := Best(hits, s.documentId).value;
            OnTopic(best, etype, at) && DocumentRelatesToRule(best, rule)
  {
    hide Best, MetadataByDocument;
    SameMetadata(hits, Best(hits, s.documentId).value, s);
  }

  lemma AnalyzedRetains(call: Call, report: Report)
    requires Analyzed(call, report)
    ensures Retains(AllHits(call, |call.events|), report.knowledgeHits)
  {
  }

  lemma SameMetadata(hits: seq<Hit>, g: Hit, h: Hit)
    requires MetadataByDocument(hits) && g in hits && h in hits && g.documentId == h.documentId
    ensures g.metadata == h.metadata
  {
  }
}
