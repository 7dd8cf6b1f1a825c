/** The bounded agent loop (qc/agent_loop.py): an untrusted planner and evaluator steer a fixed set of edits. */
module AgentLoop {
  import opened Common
  import opened Rules
  import opened Reports
  import opened Gate
  import Analyzer

  type Raised = Analyzer.Raised

  /** `Other` stands for an action name the executor does not know. */
  datatype Action = ExpandContext | SearchKnowledge | QueryActionAudit | ReviseReport | Finalize | Other

  datatype Verdict = Pass | NeedsMoreContext | RuleAmbiguity | RevisionRequired | HumanReviewRequested

  /** The n-th answers of everything the loop talks to; each may depend on anything, or raise. */
  datatype World = World(
    decide: nat -> Result<Action, Raised>, evaluate: (nat, GateResult) -> Result<Verdict, Raised>,
    search: nat -> Result<seq<Hit>, Raised>, audit: nat -> Result<Audit, Raised>, elapsed: nat -> real)

  datatype Phase =
    | Planned(action: Action)
    | Acted(action: Action)
    | Observing
    | Evaluated(verdict: Verdict)
    | Finalized
    | Replanned

  datatype TraceEvent = TraceEvent(iteration: nat, phase: Phase)

  datatype LoopResult = LoopResult(completed: bool, report: Report, iterations: nat, toolCalls: nat,
                                     trace: seq<TraceEvent>, errors: seq<AnalysisError>)

  const BUDGET_EXHAUSTED :=
    AnalysisError("LOOP_BUDGET_EXHAUSTED", ErrorStage.AgentLoop, "Agent Loop 未能在预算内取得可信结论", false)
  const UNSUPPORTED_ACTION :=
    AnalysisError("LOOP_UNSUPPORTED_ACTION", ErrorStage.AgentLoop, "Agent Loop 选择了不受支持的动作", false)

  predicate IsToolAction(action: Action) {
    !action.ReviseReport? && !action.Finalize?
  }

  function ToolActs(trace: seq<TraceEvent>): nat {
    if trace == [] then 0
    else
      var e := trace[|trace| - 1];
      ToolActs(trace[..|trace| - 1]) + if e.phase.Acted? && IsToolAction(e.phase.action) then 1 else 0
  }

  lemma ToolActsAppend(trace: seq<TraceEvent>, e: TraceEvent)
    ensures ToolActs(trace + [e]) == ToolActs(trace) + if e.phase.Acted? && IsToolAction(e.phase.action) then 1 else 0
  {
    assert (trace + [e])[..|trace|] == trace;
  }

  // ---------------------------------------------------------------- what the edits may change

  predicate Evidenced(transcript: seq<Turn>, v: Violation) {
    v.evidenceTurnIds != [] && forall t | t in v.evidenceTurnIds :: TurnExists(transcript, t)
  }

  /** The violations whose evidence is non-empty and lies in the transcript, in their order. */
  function WithEvidence(transcript: seq<Turn>, vs: seq<Violation>): seq<Violation> {
    if vs == [] then []
    else WithEvidence(transcript, vs[..|vs| - 1]) + if Evidenced(transcript, vs[|vs| - 1]) then [vs[|vs| - 1]] else []
  }

  /** `a` is obtained from `b` by deleting elements. */
  predicate Subsequence<T(==)>(a: seq<T>, b: seq<T>) {
    if a == [] then true
    else if b == [] then false
    else if a[|a| - 1] == b[|b| - 1] then Subsequence(a[..|a| - 1], b[..|b| - 1])
    else Subsequence(a, b[..|b| - 1])
  }

  lemma {:induction false} WithEvidenceSelects(transcript: seq<Turn>, vs: seq<Violation>)
    ensures Subsequence(WithEvidence(transcript, vs), vs)
    ensures forall k | 0 <= k < |WithEvidence(transcript, vs)| :: Evidenced(transcript, WithEvidence(transcript, vs)[k])
  {
    hide Evidenced;
    if vs != [] {
      var kept := WithEvidence(transcript, vs[..|vs| - 1]);
      WithEvidenceSelects(transcript, vs[..|vs| - 1]);
      if Evidenced(transcript, vs[|vs| - 1]) {
        assert (kept + [vs[|vs| - 1]])[..|kept|] == kept;
      } else {
        assert WithEvidence(transcript, vs) == kept;
        assert kept != [] ==> kept[|kept| - 1] != vs[|vs| - 1];
      }
    }
  }

  lemma {:induction false} EvidenceIsKept(transcript: seq<Turn>, vs: seq<Violation>)
    requires forall k | 0 <= k < |vs| :: Evidenced(transcript, vs[k])
    ensures WithEvidence(transcript, vs) == vs
  {
    hide Evidenced;
    if vs != [] {
      EvidenceIsKept(transcript, vs[..|vs| - 1]);
    }
  }

  /** No violation with evidence is lost. */
  lemma {:induction false} EvidencedSurvives(transcript: seq<Turn>, vs: seq<Violation>, k: nat)
    requires k < |vs| && Evidenced(transcript, vs[k])
    ensures vs[k] in WithEvidence(transcript, vs)
  {
    hide Evidenced;
    if k < |vs| - 1 {
      EvidencedSurvives(transcript, vs[..|vs| - 1], k);
    }
  }

  /** The only edits: hits, audit, score, disposition and business fact are free, events, call and pending issues
      are untouched, and violations are the original ones or those of them with evidence. */
  predicate SafeEdit(before: Report, after: Report, transcript: seq<Turn>) {
    && after.callId == before.callId && after.events == before.events && after.pending == before.pending
    && (after.violations == before.violations || after.violations == WithEvidence(transcript, before.violations))
  }

  lemma SafeEditsCompose(a: Report, b: Report, c: Report, transcript: seq<Turn>)
    requires SafeEdit(a, b, transcript) && SafeEdit(b, c, transcript)
    ensures SafeEdit(a, c, transcript)
  {
    WithEvidenceSelects(transcript, a.violations);
    EvidenceIsKept(transcript, WithEvidence(transcript, a.violations));
  }

  lemma SafeEditSelects(before: Report, after: Report, transcript: seq<Turn>)
    requires SafeEdit(before, after, transcript)
    ensures Subsequence(after.violations, before.violations)
  {
    WithEvidenceSelects(transcript, before.violations);
    SubsequenceOfItself(before.violations);
  }

  lemma {:induction false} SubsequenceOfItself<T>(s: seq<T>)
    ensures Subsequence(s, s)
  {
    if s != [] {
      SubsequenceOfItself(s[..|s| - 1]);
    }
  }

  /** A revision whose score cannot be computed raises after the violations were already replaced. */
  predicate OnlyFiltered(before: Report, after: Report, transcript: seq<Turn>) {
    after == before.(violations := WithEvidence(transcript, before.violations))
  }

  /** The report after a revision whose score could be computed. */
  function Revised(report: Report, transcript: seq<Turn>, rules: seq<Rule>, at: int): Result<Report, KeyError> {
    var violations := WithEvidence(transcript, report.violations);
    match Score(violations, rules, at, report.events)
    case Failure(e) => Failure(e)
    case Success(score) =>
      var disposition :=
        if violations != [] then AutoViolation
        else if AuditFailed(report) || AnyAmbiguous(report.events) then HumanReviewRequired
        else AutoPass;
      Success(report.(violations := violations, score := score, businessFact := NotChecked, disposition := disposition))
  }

  /** Merging keeps, per document, the hit met last. */
  function LastHit(hits: seq<Hit>, document: string): (r: Option<Hit>)
    ensures r.Some? ==> exists i :: 0 <= i < |hits| && hits[i] == r.value && r.value.documentId == document
                                    && forall j | i < j < |hits| :: hits[j].documentId != document
    ensures r.None? ==> forall h | h in hits :: h.documentId != document
  {
    if hits == [] then None
    else if hits[|hits| - 1].documentId == document then Some(hits[|hits| - 1])
    else LastHit(hits[..|hits| - 1], document)
  }

  ghost predicate MergedHits(hits: seq<Hit>, merged: seq<Hit>) {
    && Analyzer.OnePerDocument(merged)
    && (forall h | h in merged :: LastHit(hits, h.documentId) == Some(h))
    && (forall d | LastHit(hits, d).Some? :: LastHit(hits, d).value in merged)
    && (forall i, j | 0 <= i < j < |merged| :: MetBefore(hits, merged[i].documentId, merged[j].documentId))
  }

  method MergeHits(hits: seq<Hit>) returns (merged: seq<Hit>)
    ensures MergedHits(hits, merged)
  {
    hide MetBefore;
    var existing: map<string, Hit> := map[];
    var inserted: seq<string> := [];
    for n := 0 to |hits|
      invariant forall d :: d in existing <==> d in inserted
      invariant forall d :: LastHit(hits[..n], d) == if d in existing then Some(existing[d]) else None
      invariant forall i, j | 0 <= i < j < |inserted| :: inserted[i] != inserted[j]
      invariant forall i, j | 0 <= i < j < |inserted| :: MetBefore(hits, inserted[i], inserted[j])
    {
      assert hits[..n + 1][..n] == hits[..n];
      var d := hits[n].documentId;
      if d !in existing {
        NewDocumentIsLater(hits, n, existing, inserted);
        inserted := inserted + [d];
      }
      existing := existing[d := hits[n]];
    }
    assert hits[..|hits|] == hits;
    hide LastHit;
    assert forall i | 0 <= i < |inserted| :: inserted[i] in inserted;
    merged := seq(|inserted|, i requires 0 <= i < |inserted| => existing[inserted[i]]);
    InsertedAreMerged(hits, existing, inserted, merged);
  }

  lemma NewDocumentIsLater(hits: seq<Hit>, n: nat, existing: map<string, Hit>, inserted: seq<string>)
    requires n < |hits| && hits[n].documentId !in existing
    requires forall d :: d in existing <==> d in inserted
    requires forall d :: LastHit(hits[..n], d) == if d in existing then Some(existing[d]) else None
    ensures forall i | 0 <= i < |inserted| :: MetBefore(hits, inserted[i], hits[n].documentId)
  {
    hide LastHit;
    var before := hits[..n];
    forall i | 0 <= i < |inserted|
      ensures MetBefore(hits, inserted[i], hits[n].documentId)
    {
      assert LastHit(before, inserted[i]).Some? && LastHit(before, hits[n].documentId).None?;
      var p :| 0 <= p < |before| && before[p].documentId == inserted[i];
      assert hits[p].documentId == inserted[i];
      assert forall q | 0 <= q <= p :: hits[q] == before[q] && before[q] in before;
    }
  }

  lemma InsertedAreMerged(hits: seq<Hit>, existing: map<string, Hit>, inserted: seq<string>, merged: seq<Hit>)
    requires forall d :: d in existing <==> d in inserted
    requires forall d :: LastHit(hits, d) == if d in existing then Some(existing[d]) else None
    requires forall i, j | 0 <= i < j < |inserted| :: inserted[i] != inserted[j]
    requires forall i, j | 0 <= i < j < |inserted| :: MetBefore(hits, inserted[i], inserted[j])
    requires |merged| == |inserted| && forall i | 0 <= i < |merged| ::
               inserted[i] in existing && merged[i] == existing[inserted[i]]
    ensures MergedHits(hits, merged)
  {
    hide LastHit, MetBefore;
    forall i | 0 <= i < |merged|
      ensures merged[i].documentId == inserted[i]
    {
      assert LastHit(hits, inserted[i]) == Some(merged[i]);
    }
    forall d | LastHit(hits, d).Some?
      ensures LastHit(hits, d).value in merged
    {
      var i :| 0 <= i < |inserted| && inserted[i] == d;
      assert merged[i] in merged;
    }
  }

  // ---------------------------------------------------------------- what an action does

  /** `kept` lists, in order and as often, the elements of `vs` whose evidence is there, and nothing else. */
  ghost predicate Keeps(vs: seq<Violation>, kept: seq<Violation>, transcript: seq<Turn>) {
    && Subsequence(kept, vs)
    && forall v :: multiset(kept)[v]
         == if v.evidenceTurnIds != []
               && forall t | t in v.evidenceTurnIds :: exists turn :: turn in transcript && turn.turnId == t
            then multiset(vs)[v] else 0
  }

  lemma {:induction false} WithEvidenceKeeps(vs: seq<Violation>, transcript: seq<Turn>)
    ensures Keeps(vs, WithEvidence(transcript, vs), transcript)
  {
    WithEvidenceSelects(transcript, vs);
    WithEvidenceCounts(vs, transcript);
    hide WithEvidence, Subsequence;
  }

  lemma {:induction false} WithEvidenceCounts(vs: seq<Violation>, transcript: seq<Turn>)
    ensures forall v :: multiset(WithEvidence(transcript, vs))[v]
                        == if Evidenced(transcript, v) then multiset(vs)[v] else 0
  {
    hide Evidenced;
    if vs != [] {
      var init, last := vs[..|vs| - 1], vs[|vs| - 1];
      WithEvidenceCounts(init, transcript);
      assert vs == init + [last];
    }
  }

  /** A revision: the score is computed anew over the violations kept, and the disposition follows from them. */
  ghost predicate Revises(before: Report, after: Report, transcript: seq<Turn>, rules: seq<Rule>, at: int) {
    && Keeps(before.violations, after.violations, transcript)
    && Score(after.violations, rules, at, before.events) == Success(after.score)
    && after.businessFact == NotChecked
    && (after.disposition == AutoViolation <==> after.violations != [])
    && (after.disposition == HumanReviewRequired <==>
          && after.violations == []
          && ((before.audit.Some? && before.audit.value.errors != []) || exists e :: e in before.events && e.ambiguous))
    && after == before.(violations := after.violations, score := after.score, businessFact := after.businessFact,
                        disposition := after.disposition)
  }

  lemma RevisedRevises(before: Report, transcript: seq<Turn>, rules: seq<Rule>, at: int)
    ensures var revised := Revised(before, transcript, rules, at);
            && (revised.Success? ==> Revises(before, revised.value, transcript, rules, at))
            && (revised.Failure? ==> exists kept :: Keeps(before.violations, kept, transcript)
                                                    && Score(kept, rules, at, before.events) == Failure(revised.error))
  {
    hide WithEvidence, Score, Keeps;
    WithEvidenceKeeps(before.violations, transcript);
  }

  /** What an action that does not raise makes of the report; `n` numbers the world's answers. */
  ghost predicate Does(action: Action, before: Report, after: Report, transcript: seq<Turn>, rules: seq<Rule>,
                       at: int, world: World, n: nat)
  {
    match action
    case ExpandContext => after == before
    case Finalize => after == before
    case Other => false
    case QueryActionAudit => world.audit(n).Success? && after == before.(audit := Some(world.audit(n).value))
    case ReviseReport => Revises(before, after, transcript, rules, at)
    case SearchKnowledge =>
      if before.events == [] then after == before
      else && world.search(n).Success?
           && after == before.(knowledgeHits := after.knowledgeHits)
           && MergedHits(before.knowledgeHits + world.search(n).value, after.knowledgeHits)
  }

  /** The action raises `error`. */
  ghost predicate Raises(action: Action, before: Report, error: Raised, transcript: seq<Turn>, rules: seq<Rule>,
                         at: int, world: World, n: nat)
  {
    match action
    case ExpandContext => false
    case Finalize => false
    case Other => error.OnPipeline? && error.error.code == "LOOP_UNSUPPORTED_ACTION"
                  && error.error.stage == ErrorStage.AgentLoop
    case QueryActionAudit => world.audit(n) == Failure(error)
    case SearchKnowledge => before.events != [] && world.search(n) == Failure(error)
    case ReviseReport =>
      error.OnKey? && exists kept :: Keeps(before.violations, kept, transcript)
                                     && Score(kept, rules, at, before.events) == Failure(error.key)
  }

  // ---------------------------------------------------------------- the executor

  class LoopContext {
    var report: Report
    const transcript: seq<Turn>
    const at: int

    constructor (report: Report, transcript: seq<Turn>, at: int)
      ensures this.report == report && this.transcript == transcript && this.at == at
    {
      this.report := report;
      this.transcript := transcript;
      this.at := at;
    }
  }

  class QualityLoopExecutor {
    const rules: seq<Rule>

    constructor (rules: seq<Rule>)
      ensures this.rules == rules
    {
      this.rules := rules;
    }

    method Execute(action: Action, context: LoopContext, world: World, n: nat) returns (r: Result<(), Raised>)
      modifies context
      ensures SafeEdit(old(context.report), context.report, context.transcript)
      ensures r.Success? ==>
                Does(action, old(context.report), context.report, context.transcript, rules, context.at, world, n)
      ensures r.Failure? ==>
                Raises(action, old(context.report), r.error, context.transcript, rules, context.at, world, n)
      ensures r.Failure? ==>
                if action.ReviseReport? then OnlyFiltered(old(context.report), context.report, context.transcript)
                else context.report == old(context.report)
    {
      hide WithEvidence, Score, MergedHits, Keeps;
      match action
      case ExpandContext => r := Success(());
      case Finalize => r := Success(());
      case Other => r := Failure(Analyzer.OnPipeline(UNSUPPORTED_ACTION));
      case SearchKnowledge =>
        if context.report.events == [] {
          return Success(());
        }
        var hits := world.search(n);
        if hits.Failure? {
          return Failure(hits.error);
        }
        var merged := MergeHits(context.report.knowledgeHits + hits.value);
        context.report := context.report.(knowledgeHits := merged);
        r := Success(());
      case QueryActionAudit =>
        var snapshot := world.audit(n);
        if snapshot.Failure? {
          return Failure(snapshot.error);
        }
        context.report := context.report.(audit := Some(snapshot.value));
        r := Success(());
      case ReviseReport =>
        RevisedRevises(context.report, context.transcript, rules, context.at);
        r := ReviseReport(context);
    }

    method ReviseReport(context: LoopContext) returns (r: Result<(), Raised>)
      modifies context
      ensures var revised := Revised(old(context.report), context.transcript, rules, context.at);
              && r.Success? == revised.Success?
              && (r.Success? ==> context.report == revised.value)
              && (r.Failure? ==> r.error == Analyzer.OnKey(revised.error))
              && (r.Failure? ==> OnlyFiltered(old(context.report), context.report, context.transcript))
    {
      hide Score;
      var violations := context.report.violations;
      var kept: seq<Violation> := [];
      for i := 0 to |violations|
        invariant kept == WithEvidence(context.transcript, violations[..i])
        invariant context.report == old(context.report)
      {
        assert violations[..i + 1][..i] == violations[..i];
        if Evidenced(context.transcript, violations[i]) {
          kept := kept + [violations[i]];
        }
      }
      assert violations[..|violations|] == violations;
      hide WithEvidence;
      context.report := context.report.(violations := kept);
      var score := CalculateScore(kept, rules, context.at, context.report.events);
      if score.Failure? {
        return Failure(Analyzer.OnKey(score.error));
      }
      context.report := context.report.(score := score.value);
      if context.report.businessFact != NotChecked {
        context.report := context.report.(businessFact := NotChecked);
      }
      var disposition :=
        if kept != [] then AutoViolation
        else if AuditFailed(context.report) then HumanReviewRequired
        else if AnyAmbiguous(context.report.events) then HumanReviewRequired
        else AutoPass;
      context.report := context.report.(disposition := disposition);
      r := Success(());
    }
  }

  // ---------------------------------------------------------------- the loop

  /** One completed pass: the action taken, the report it left, what the gate said of it, and the verdict. */
  datatype Round = Round(action: Action, report: Report, gate: GateResult, verdict: Verdict)

  /** Those of the first `k` passes that call a tool. */
  ghost function ToolPasses(rounds: seq<Round>, k: nat): set<int>
    requires k <= |rounds|
  {
    set i | 0 <= i < k && rounds[i].action in {ExpandContext, SearchKnowledge, QueryActionAudit}
  }

  ghost function Spent(rounds: seq<Round>, k: nat): nat
    requires k <= |rounds|
  {
    |ToolPasses(rounds, k)|
  }

  lemma SpentAppend(rounds: seq<Round>, round: Round)
    ensures forall k | 0 <= k <= |rounds| :: Spent(rounds + [round], k) == Spent(rounds, k)
    ensures Spent(rounds + [round], |rounds| + 1) == Spent(rounds, |rounds|)
              + if round.action in {ExpandContext, SearchKnowledge, QueryActionAudit} then 1 else 0
  {
    var longer := rounds + [round];
    forall k | 0 <= k <= |rounds|
      ensures Spent(longer, k) == Spent(rounds, k)
    {
      assert ToolPasses(longer, k) == ToolPasses(rounds, k);
    }
    var n := |rounds|;
    assert ToolPasses(longer, n + 1)
           == ToolPasses(longer, n)
              + if round.action in {ExpandContext, SearchKnowledge, QueryActionAudit} then {n} else {};
  }

  /** The loop ends with this pass. */
  predicate Settles(round: Round) {
    (round.gate.passed && round.verdict == Pass) || round.verdict == HumanReviewRequested
  }

  /** The gate raises on `c`, or the evaluator does on the gate's answer. */
  ghost predicate Stumbles(k: nat, c: Case, error: Raised, world: World) {
    || (ScoreRaises(c) && error.OnKey? && ExpectedScore(c) == Failure(error.key))
    || exists g :: Judges(c, g) && world.evaluate(k, g) == Failure(error)
  }

  /** What the gate answers on `c`. */
  ghost predicate Judges(c: Case, r: GateResult) {
    !ScoreRaises(c) && r.passed == (r.issues == []) && forall issue :: issue in r.issues <==> Warranted(c, issue)
  }

  ghost function LeftBy(rounds: seq<Round>, k: nat, first: Report): Report
    requires k <= |rounds|
  {
    if k == 0 then first else rounds[k - 1].report
  }

  /** The trace tells the k-th pass up to its verdict. */
  ghost predicate Told(trace: seq<TraceEvent>, k: nat, round: Round) {
    && 5 * k + 4 <= |trace|
    && trace[5 * k] == TraceEvent(k + 1, Planned(round.action))
    && trace[5 * k + 1] == TraceEvent(k + 1, Acted(round.action))
    && trace[5 * k + 2] == TraceEvent(k + 1, Observing)
    && trace[5 * k + 3] == TraceEvent(k + 1, Evaluated(round.verdict))
  }

  /** The trace tells the passes one after the other, and how each of them ends. */
  ghost predicate Tells(trace: seq<TraceEvent>, rounds: seq<Round>) {
    && (forall k | 0 <= k < |rounds| :: Told(trace, k, rounds[k]))
    && (forall k | 0 <= k < |rounds| && !Settles(rounds[k]) ::
          5 * k + 4 < |trace| && trace[5 * k + 4] == TraceEvent(k + 1, Replanned))
    && if rounds == [] then trace == []
       else
         var n, last := |rounds|, rounds[|rounds| - 1];
         if last.gate.passed && last.verdict == Pass then
           |trace| == 5 * n && trace[5 * n - 1] == TraceEvent(n, Finalized)
         else |trace| == if last.verdict == HumanReviewRequested then 5 * n - 1 else 5 * n
  }

  class BoundedAgentLoop {
    const executor: QualityLoopExecutor
    const gate: QualityGate
    const maxIterations: int
    const maxToolCalls: int
    const timeout: real

    constructor (executor: QualityLoopExecutor, gate: QualityGate, maxIterations: int, maxToolCalls: int, timeout: real)
      ensures this.executor == executor && this.gate == gate
      ensures this.maxIterations == maxIterations && this.maxToolCalls == maxToolCalls && this.timeout == timeout
    {
      this.executor, this.gate := executor, gate;
      this.maxIterations, this.maxToolCalls, this.timeout := maxIterations, maxToolCalls, timeout;
    }

    /** The k-th pass, read off the world: within time, it takes the action planned, and the evaluator rules on what
        the gate says of the report the action leaves. */
    ghost predicate Plays(k: nat, before: Report, round: Round, transcript: seq<Turn>, at: int, world: World) {
      && k < maxIterations && world.elapsed(k) < timeout
      && world.decide(k) == Success(round.action)
      && Does(round.action, before, round.report, transcript, executor.rules, at, world, k)
      && Judges(Case(round.report, transcript, at, gate.minSupportScore, gate.rules), round.gate)
      && world.evaluate(k, round.gate) == Success(round.verdict)
    }

    /** The passes of one run, from the first; only the last one may end the loop. */
    ghost predicate Played(rounds: seq<Round>, first: Report, transcript: seq<Turn>, at: int, world: World) {
      && (forall k | 0 <= k < |rounds| ::
            Spent(rounds, k) < maxToolCalls && Plays(k, LeftBy(rounds, k, first), rounds[k], transcript, at, world))
      && (forall k | 0 <= k < |rounds| - 1 :: !Settles(rounds[k]))
    }

    /** No further pass may begin. */
    ghost predicate Spends(rounds: seq<Round>, world: World) {
      |rounds| >= maxIterations || world.elapsed(|rounds|) >= timeout || Spent(rounds, |rounds|) >= maxToolCalls
    }

    /** The pass after the completed ones raises: the planner, the action, the gate or the evaluator. */
    ghost predicate Breaks(k: nat, before: Report, error: Raised, transcript: seq<Turn>, at: int, world: World) {
      match world.decide(k)
      case Failure(raised) => error == raised
      case Success(action) =>
        || Raises(action, before, error, transcript, executor.rules, at, world, k)
        || exists after: Report ::
             && Does(action, before, after, transcript, executor.rules, at, world, k)
             && Stumbles(k, Case(after, transcript, at, gate.minSupportScore, gate.rules), error, world)
    }

    /** The run completes exactly at the first pass at which the gate passes and the verdict is PASS; it gives up
        exactly at a call for a human or with a budget spent; and it raises exactly what the pass under way raises. */
    ghost predicate Ran(r: Result<LoopResult, Raised>, rounds: seq<Round>, first: Report, transcript: seq<Turn>,
                        at: int, world: World)
    {
      var n := |rounds|;
      && Played(rounds, first, transcript, at, world)
      && match r
         case Success(result) =>
           && result.report == LeftBy(rounds, n, first) && Tells(result.trace, rounds)
           && result.iterations == n && result.toolCalls == Spent(rounds, n)
           && (result.completed <==> rounds != [] && rounds[n - 1].gate.passed && rounds[n - 1].verdict == Pass)
           && (!result.completed ==>
                 (rounds != [] && rounds[n - 1].verdict == HumanReviewRequested) || Spends(rounds, world))
         case Failure(error) =>
           && (forall k | 0 <= k < n :: !Settles(rounds[k])) && !Spends(rounds, world)
           && Breaks(n, LeftBy(rounds, n, first), error, transcript, at, world)
    }

    /** Whatever planner, evaluator, search and audit do, the report is only edited safely, the budgets hold, and
        COMPLETED means that the gate passed on the report returned. */
    method Run(context: LoopContext, world: World) returns (r: Result<LoopResult, Raised>, ghost rounds: seq<Round>)
      modifies context
      ensures SafeEdit(old(context.report), context.report, context.transcript)
      ensures r.Success? ==>
                && r.value.report == context.report
                && r.value.iterations <= Max(0, maxIterations)
                && r.value.toolCalls <= Max(0, maxToolCalls) && r.value.toolCalls == ToolActs(r.value.trace)
                && r.value.toolCalls <= r.value.iterations
      ensures r.Success? && r.value.completed ==>
                && r.value.errors == []
                && Passes(Case(context.report, context.transcript, context.at, gate.minSupportScore, gate.rules))
      ensures r.Success? && !r.value.completed ==>
                |r.value.errors| == 1 && r.value.errors[0].code == "LOOP_BUDGET_EXHAUSTED"
                && r.value.errors[0].stage == ErrorStage.AgentLoop
      ensures Ran(r, rounds, old(context.report), context.transcript, context.at, world)
    {
      hide SafeEdit, Warranted, ScoreRaises, ToolActs, Does, Raises, Spent, Tells, ExpectedScore, Played, Passes, Told;
      var trace: seq<TraceEvent> := [];
      var toolCalls, iterations: nat := 0, 0;
      rounds := [];
      ghost var first := context.report;
      UneditedIsSafe(context.report, context.transcript);
      NothingYet();
      NothingPlayed(first, context.transcript, context.at, world);
      while iterations < maxIterations
        invariant iterations <= Max(0, maxIterations) && iterations == |rounds|
        invariant toolCalls <= Max(0, maxToolCalls) && toolCalls == ToolActs(trace) && toolCalls <= iterations
        invariant toolCalls == Spent(rounds, |rounds|)
        invariant SafeEdit(first, context.report, context.transcript)
        invariant context.report == LeftBy(rounds, |rounds|, first)
        invariant Played(rounds, first, context.transcript, context.at, world)
        invariant forall k | 0 <= k < |rounds| :: !Settles(rounds[k])
        invariant Tells(trace, rounds) && |trace| == 5 * |rounds|
      {
        if world.elapsed(iterations) >= timeout || toolCalls >= maxToolCalls {
          break;
        }
        var decision := world.decide(iterations);
        if decision.Failure? {
          return Failure(decision.error), rounds;
        }
        var action := decision.value;
        ghost var before := context.report;
        var executed := executor.Execute(action, context, world, iterations);
        SafeEditsCompose(first, before, context.report, context.transcript);
        if executed.Failure? {
          return Failure(executed.error), rounds;
        }
        iterations := iterations + 1;
        if IsToolAction(action) {
          toolCalls := toolCalls + 1;
        }
        ghost var told := trace;
        trace := Traced(trace, iterations, action);
        var checked := gate.Check(context.report, context.transcript, context.at, None);
        if checked.Failure? {
          return Failure(Analyzer.OnKey(checked.error)), rounds;
        }
        var evaluation := world.evaluate(iterations - 1, checked.value);
        if evaluation.Failure? {
          return Failure(evaluation.error), rounds;
        }
        ghost var round := Round(action, context.report, checked.value, evaluation.value);
        OtherDoesNothing(before, context.report, context.transcript, executor.rules, context.at, world, |rounds|);
        RoundIsPlayed(rounds, round, first, context.transcript, context.at, world);
        TracedTells(told, rounds, round);
        rounds := rounds + [round];
        ToolActsAppend(trace, TraceEvent(iterations, Evaluated(evaluation.value)));
        trace := trace + [TraceEvent(iterations, Evaluated(evaluation.value))];
        if checked.value.passed && evaluation.value == Pass {
          PassedMeansPasses(Case(context.report, context.transcript, context.at, gate.minSupportScore, gate.rules),
                            checked.value);
          ToolActsAppend(trace, TraceEvent(iterations, Finalized));
          trace := trace + [TraceEvent(iterations, Finalized)];
          return Success(LoopResult(true, context.report, iterations, toolCalls, trace, [])), rounds;
        }
        if evaluation.value == HumanReviewRequested {
          break;
        }
        ToolActsAppend(trace, TraceEvent(iterations, Replanned));
        trace := trace + [TraceEvent(iterations, Replanned)];
      }
      r := Success(LoopResult(false, context.report, iterations, toolCalls, trace, [BUDGET_EXHAUSTED]));
    }

    lemma NothingPlayed(first: Report, transcript: seq<Turn>, at: int, world: World)
      ensures Played([], first, transcript, at, world)
    {
    }

    lemma RoundIsPlayed(rounds: seq<Round>, round: Round, first: Report, transcript: seq<Turn>, at: int, world: World)
      requires Played(rounds, first, transcript, at, world) && forall k | 0 <= k < |rounds| :: !Settles(rounds[k])
      requires Spent(rounds, |rounds|) < maxToolCalls
      requires Plays(|rounds|, LeftBy(rounds, |rounds|, first), round, transcript, at, world)
      ensures Played(rounds + [round], first, transcript, at, world)
      ensures Spent(rounds + [round], |rounds| + 1) == Spent(rounds, |rounds|)
                + if round.action in {ExpandContext, SearchKnowledge, QueryActionAudit} then 1 else 0
    {
      SpentAppend(rounds, round);
      hide Spent, Plays;
      var longer := rounds + [round];
      forall k | 0 <= k < |longer|
        ensures Spent(longer, k) < maxToolCalls && Plays(k, LeftBy(longer, k, first), longer[k], transcript, at, world)
      {
        assert LeftBy(longer, k, first) == LeftBy(rounds, k, first);
      }
    }
  }

  lemma OtherDoesNothing(before: Report, after: Report, transcript: seq<Turn>, rules: seq<Rule>, at: int,
                         world: World, n: nat)
    ensures !Does(Other, before, after, transcript, rules, at, world, n)
  {
  }

  /** The trace of a further pass, with the closing event its verdict gets. */
  lemma TracedTells(trace: seq<TraceEvent>, rounds: seq<Round>, round: Round)
    requires Tells(trace, rounds) && |trace| == 5 * |rounds| && forall k | 0 <= k < |rounds| :: !Settles(rounds[k])
    ensures var n := |rounds| + 1;
            var longer := trace + [TraceEvent(n, Planned(round.action)), TraceEvent(n, Acted(round.action)),
                                   TraceEvent(n, Observing)] + [TraceEvent(n, Evaluated(round.verdict))];
            && (round.gate.passed && round.verdict == Pass ==>
                  Tells(longer + [TraceEvent(n, Finalized)], rounds + [round]))
            && (!Settles(round) ==> Tells(longer + [TraceEvent(n, Replanned)], rounds + [round]))
            && (Settles(round) && !(round.gate.passed && round.verdict == Pass) ==> Tells(longer, rounds + [round]))
  {
  }

  lemma PassedMeansPasses(c: Case, r: GateResult)
    requires !ScoreRaises(c) && r.passed == (r.issues == [])
    requires forall issue :: issue in r.issues <==> Warranted(c, issue)
    ensures r.passed <==> Passes(c)
  {
    hide Warranted, ScoreRaises;
    if r.issues != [] {
      assert r.issues[0] in r.issues;
    }
  }

  method Traced(trace: seq<TraceEvent>, iteration: nat, action: Action) returns (r: seq<TraceEvent>)
    ensures r == trace + [TraceEvent(iteration, Planned(action)), TraceEvent(iteration, Acted(action)),
                          TraceEvent(iteration, Observing)]
    ensures ToolActs(r) == ToolActs(trace) + if IsToolAction(action) then 1 else 0
  {
    hide ToolActs;
    ToolActsAppend(trace, TraceEvent(iteration, Planned(action)));
    r := trace + [TraceEvent(iteration, Planned(action))];
    ToolActsAppend(r, TraceEvent(iteration, Acted(action)));
    r := r + [TraceEvent(iteration, Acted(action))];
    ToolActsAppend(r, TraceEvent(iteration, Observing));
    r := r + [TraceEvent(iteration, Observing)];
  }

  lemma UneditedIsSafe(report: Report, transcript: seq<Turn>)
    ensures SafeEdit(report, report, transcript)
  {
  }

  lemma NothingYet()
    ensures ToolActs([]) == 0 && Spent([], 0) == 0 && Tells([], [])
  {
  }
}
