/** The analysis service (qc/service.py): who gets COMPLETED, PARTIAL or FAILED. */
module Service {
  import opened Common
  import opened Rules
  import opened Reports
  import opened Gate
  import opened AgentLoop
  import Analyzer
  import Extractor

  datatype LoopReason = AmbiguousEvent | PartialAuditFailure | WeakSupport | GateFailed

  /** What the service answers: the analysis, and how it came about. */
  datatype Answer = Answer(analysis: Analysis, loopReason: Option<LoopReason>, trace: seq<TraceEvent>)

  type Outcome = Result<(RunStatus, Report, seq<AnalysisError>), AnalysisError>

  /** What the analysis comes to before it is stored, with the run of the loop behind it. */
  datatype Decision = Decision(outcome: Outcome, reason: Option<LoopReason>, trace: seq<TraceEvent>,
                               looped: Option<(Result<LoopResult, Raised>, seq<Round>)>)

  /** Answers of the run store: done, a PipelineFailure, a TypeError, or any other exception. */
  datatype StoreAnswer = Stored | Refused(error: AnalysisError) | BadSignature | Broken

  /** `append(n)` answers the n-th trace event; a TypeError of `finish` is followed by one call without reasons. */
  datatype RunStore = RunStore(create: StoreAnswer, append: nat -> StoreAnswer, finish: StoreAnswer,
                               finishPlain: StoreAnswer)

  const UNRESOLVED := "存在尚未自动解决的裁决问题"
  const INTERNAL_ERROR := AnalysisError("INTERNAL_ERROR", ErrorStage.Api, "质检分析发生内部错误", false)

  // ---------------------------------------------------------------- errors

  function IssueCode(issue: Issue): string {
    match issue
    case DuplicateEventId(_) => "DUPLICATE_EVENT_ID"
    case InvalidEventIdFormat(_) => "INVALID_EVENT_ID_FORMAT"
    case MissingEventEvidence(_) => "MISSING_TRANSCRIPT_EVIDENCE"
    case DuplicateViolation(_) => "DUPLICATE_VIOLATION"
    case MissingEventReference(_) => "MISSING_EVENT_REFERENCE"
    case MissingViolationEvidence(_) => "MISSING_TRANSCRIPT_EVIDENCE"
    case UnknownRuleCited(_) => "UNKNOWN_RULE"
    case InactiveRule(_) => "INACTIVE_RULE"
    case InvalidPenalty(_, _) => "INVALID_PENALTY"
    case MissingPolicyEvidence(_) => "MISSING_POLICY_EVIDENCE"
    case UnknownPolicyEvidence(_) => "UNKNOWN_POLICY_EVIDENCE"
    case RagBelowThreshold(_) => "RAG_BELOW_THRESHOLD"
    case RagEventTypeMismatch(_) => "RAG_EVENT_TYPE_MISMATCH"
    case RagDocumentInactive(_) => "RAG_DOCUMENT_INACTIVE"
    case NoActiveRuleSupport(_) => "NO_ACTIVE_RULE_SUPPORT"
    case InvalidScore(_) => "INVALID_SCORE"
    case PendingIssue(code) => code
    case DispositionConflict(_) => "DISPOSITION_CONFLICT"
    case AuditErrorRequiresReview => "AUDIT_ERROR_REQUIRES_REVIEW"
    case BusinessFactOutOfScope => "BUSINESS_FACT_OUT_OF_SCOPE"
  }

  function IssueMessage(issue: Issue): string {
    match issue
    case DuplicateEventId(_) => "事件编号重复"
    case InvalidEventIdFormat(_) => "事件编号不是后端规范格式"
    case MissingEventEvidence(_) => "事件引用了不存在的转写证据"
    case DuplicateViolation(_) => "同一事件和规则出现了重复违规"
    case MissingEventReference(_) => "违规项没有引用本次报告中的事件"
    case MissingViolationEvidence(_) => "违规项引用了不存在的转写证据"
    case UnknownRuleCited(_) => "违规项引用了不存在的规则"
    case InactiveRule(_) => "规则在通话发生时间或事件类型下不生效"
    case InvalidPenalty(_, expected) => "应使用规则库扣分 " + Decimal(expected)
    case MissingPolicyEvidence(_) => "违规项没有本次检索到的规则支持"
    case UnknownPolicyEvidence(_) => "违规项引用的知识文档未在本次检索中出现"
    case RagBelowThreshold(_) => "知识命中分数低于支持阈值"
    case RagEventTypeMismatch(_) => "知识命中的事件类型与违规事件不一致"
    case RagDocumentInactive(_) => "知识文档在通话发生时间无效"
    case NoActiveRuleSupport(_) => "没有本次实际检索且有效的规则支持"
    case InvalidScore(expected) => "总分应为 " + Decimal(expected)
    case PendingIssue(_) => UNRESOLVED
    case DispositionConflict(why) =>
      (match why
       case AwaitsHuman => "报告仍要求人工复核，不能作为自动终态放行"
       case PassedDespiteViolations => "存在违规时不能自动通过"
       case PunishedWithoutViolation => "没有违规时不能自动判罚"
       case AutomatedDespiteAmbiguity => "歧义事件必须人工复核"
       case AutomatedDespiteAuditError => "审计失败时不能自动处置")
    case AuditErrorRequiresReview => "审计信息不完整，必须人工复核"
    case BusinessFactOutOfScope => "通话质检不得判断客户是否结清"
  }

  function GateErrors(issues: seq<Issue>): (r: seq<AnalysisError>)
    ensures |r| == |issues|
  {
    seq(|issues|, i requires 0 <= i < |issues| =>
        AnalysisError(IssueCode(issues[i]), ErrorStage.QualityGate, IssueMessage(issues[i]), false))
  }

  function PendingErrors(pending: seq<Pending>): (r: seq<AnalysisError>)
    ensures |r| == |pending|
  {
    seq(|pending|, i requires 0 <= i < |pending| =>
        AnalysisError(pending[i].code, ErrorStage.RuleEvaluation, UNRESOLVED, false))
  }

  datatype ErrorKey = ErrorKey(code: string, stage: ErrorStage, message: string)

  function KeyOfError(e: AnalysisError): ErrorKey {
    ErrorKey(e.code, e.stage, e.message)
  }

  predicate Mentioned(errors: seq<AnalysisError>, key: ErrorKey) {
    exists e :: e in errors && KeyOfError(e) == key
  }

  /** The code and message that a finding of the gate is reported under. */
  ghost predicate Voices(issue: Issue, key: ErrorKey) {
    && key.stage == ErrorStage.QualityGate
    && VoicesCitation(issue, key) && VoicesDocument(issue, key) && VoicesReport(issue, key)
  }

  ghost predicate VoicesCitation(issue: Issue, key: ErrorKey) {
    && (issue.DuplicateEventId? ==> key.code == "DUPLICATE_EVENT_ID" && key.message == "事件编号重复")
    && (issue.InvalidEventIdFormat? ==>
          key.code == "INVALID_EVENT_ID_FORMAT" && key.message == "事件编号不是后端规范格式")
    && (issue.MissingEventEvidence? ==>
          key.code == "MISSING_TRANSCRIPT_EVIDENCE" && key.message == "事件引用了不存在的转写证据")
    && (issue.DuplicateViolation? ==>
          key.code == "DUPLICATE_VIOLATION" && key.message == "同一事件和规则出现了重复违规")
    && (issue.MissingEventReference? ==>
          key.code == "MISSING_EVENT_REFERENCE" && key.message == "违规项没有引用本次报告中的事件")
    && (issue.MissingViolationEvidence? ==>
          key.code == "MISSING_TRANSCRIPT_EVIDENCE" && key.message == "违规项引用了不存在的转写证据")
    && (issue.UnknownRuleCited? ==> key.code == "UNKNOWN_RULE" && key.message == "违规项引用了不存在的规则")
    && (issue.InactiveRule? ==>
          key.code == "INACTIVE_RULE" && key.message == "规则在通话发生时间或事件类型下不生效")
    && (issue.InvalidPenalty? ==>
          key.code == "INVALID_PENALTY" && key.message == "应使用规则库扣分 " + Decimal(issue.expected))
  }

  ghost predicate VoicesDocument(issue: Issue, key: ErrorKey) {
    && (issue.MissingPolicyEvidence? ==>
          key.code == "MISSING_POLICY_EVIDENCE" && key.message == "违规项没有本次检索到的规则支持")
    && (issue.UnknownPolicyEvidence? ==>
          key.code == "UNKNOWN_POLICY_EVIDENCE" && key.message == "违规项引用的知识文档未在本次检索中出现")
    && (issue.RagBelowThreshold? ==>
          key.code == "RAG_BELOW_THRESHOLD" && key.message == "知识命中分数低于支持阈值")
    && (issue.RagEventTypeMismatch? ==>
          key.code == "RAG_EVENT_TYPE_MISMATCH" && key.message == "知识命中的事件类型与违规事件不一致")
    && (issue.RagDocumentInactive? ==>
          key.code == "RAG_DOCUMENT_INACTIVE" && key.message == "知识文档在通话发生时间无效")
    && (issue.NoActiveRuleSupport? ==>
          key.code == "NO_ACTIVE_RULE_SUPPORT" && key.message == "没有本次实际检索且有效的规则支持")
  }

  ghost predicate VoicesReport(issue: Issue, key: ErrorKey) {
    && (issue.InvalidScore? ==> key.code == "INVALID_SCORE" && key.message == "总分应为 " + Decimal(issue.expected))
    && (issue.PendingIssue? ==> key.code == issue.code && key.message == "存在尚未自动解决的裁决问题")
    && (issue.AuditErrorRequiresReview? ==>
          key.code == "AUDIT_ERROR_REQUIRES_REVIEW" && key.message == "审计信息不完整，必须人工复核")
    && (issue.BusinessFactOutOfScope? ==>
          key.code == "BUSINESS_FACT_OUT_OF_SCOPE" && key.message == "通话质检不得判断客户是否结清")
    && (issue.DispositionConflict? ==> key.code == "DISPOSITION_CONFLICT" && VoicesConflict(issue.why, key.message))
  }

  ghost predicate VoicesConflict(why: Conflict, message: string) {
    && (why.AwaitsHuman? ==> message == "报告仍要求人工复核，不能作为自动终态放行")
    && (why.PassedDespiteViolations? ==> message == "存在违规时不能自动通过")
    && (why.PunishedWithoutViolation? ==> message == "没有违规时不能自动判罚")
    && (why.AutomatedDespiteAmbiguity? ==> message == "歧义事件必须人工复核")
    && (why.AutomatedDespiteAuditError? ==> message == "审计失败时不能自动处置")
  }

  predicate AboutCitations(issue: Issue) {
    || issue.DuplicateEventId? || issue.InvalidEventIdFormat? || issue.MissingEventEvidence?
    || issue.DuplicateViolation? || issue.MissingEventReference? || issue.MissingViolationEvidence?
    || issue.UnknownRuleCited? || issue.InactiveRule? || issue.InvalidPenalty?
  }

  predicate AboutReport(issue: Issue) {
    || issue.InvalidScore? || issue.PendingIssue? || issue.DispositionConflict? || issue.AuditErrorRequiresReview?
    || issue.BusinessFactOutOfScope?
  }

  lemma CitationIsVoiced(issue: Issue, key: ErrorKey)
    ensures VoicesCitation(issue, key)
            <==> (AboutCitations(issue) ==> key.code == IssueCode(issue) && key.message == IssueMessage(issue))
  {
    hide Decimal;
  }

  lemma DocumentIsVoiced(issue: Issue, key: ErrorKey)
    ensures VoicesDocument(issue, key)
            <==> (!AboutCitations(issue) && !AboutReport(issue) ==>
                    key.code == IssueCode(issue) && key.message == IssueMessage(issue))
  {
    hide Decimal;
  }

  lemma ConflictIsVoiced(why: Conflict, message: string)
    ensures VoicesConflict(why, message) <==> message == IssueMessage(DispositionConflict(why))
  {
  }

  lemma ReportIsVoiced(issue: Issue, key: ErrorKey)
    ensures VoicesReport(issue, key)
            <==> (AboutReport(issue) ==> key.code == IssueCode(issue) && key.message == IssueMessage(issue))
  {
    hide Decimal, VoicesConflict;
    if issue.DispositionConflict? {
      hide IssueMessage;
      ConflictIsVoiced(issue.why, key.message);
    }
  }

  lemma IssueIsVoiced(issue: Issue, key: ErrorKey)
    ensures Voices(issue, key) <==> key == ErrorKey(IssueCode(issue), ErrorStage.QualityGate, IssueMessage(issue))
  {
    CitationIsVoiced(issue, key);
    DocumentIsVoiced(issue, key);
    ReportIsVoiced(issue, key);
    hide IssueCode, IssueMessage, VoicesCitation, VoicesDocument, VoicesReport;
  }

  /** Where the errors of an answer come from: the loop, the findings on the report, its audit, its pending issues. */
  ghost predicate Arises(key: ErrorKey, loopErrors: seq<AnalysisError>, c: Case) {
    || Mentioned(loopErrors, key)
    || (exists issue :: Warranted(c, issue) && Voices(issue, key))
    || (c.report.audit.Some? && Mentioned(c.report.audit.value.errors, key))
    || exists p :: p in c.report.pending && key == ErrorKey(p.code, RuleEvaluation, "存在尚未自动解决的裁决问题")
  }

  lemma GateErrorsVoice(issues: seq<Issue>, key: ErrorKey)
    ensures Mentioned(GateErrors(issues), key) <==> exists issue :: issue in issues && Voices(issue, key)
  {
    hide Voices, IssueCode, IssueMessage;
    forall issue {
      IssueIsVoiced(issue, key);
    }
    var errors := GateErrors(issues);
    forall i | 0 <= i < |issues|
      ensures errors[i] in errors && KeyOfError(errors[i]) == key <==> Voices(issues[i], key)
    {
    }
    if Mentioned(errors, key) {
      var i :| 0 <= i < |errors| && KeyOfError(errors[i]) == key;
      assert issues[i] in issues;
    }
  }

  lemma PendingErrorsVoice(pending: seq<Pending>, key: ErrorKey)
    ensures Mentioned(PendingErrors(pending), key)
            <==> exists p :: p in pending && key == ErrorKey(p.code, RuleEvaluation, UNRESOLVED)
  {
    var errors := PendingErrors(pending);
    forall i | 0 <= i < |pending|
      ensures errors[i] in errors && KeyOfError(errors[i]) == ErrorKey(pending[i].code, RuleEvaluation, UNRESOLVED)
    {
    }
    if Mentioned(errors, key) {
      var i :| 0 <= i < |errors| && KeyOfError(errors[i]) == key;
      assert pending[i] in pending;
    }
  }

  lemma MentionedUnion(a: seq<AnalysisError>, b: seq<AnalysisError>)
    ensures forall key :: Mentioned(a + b, key) <==> Mentioned(a, key) || Mentioned(b, key)
  {
    assert forall e :: e in a + b <==> e in a || e in b;
  }

  /** `r` is `errors` without those whose code, stage and message an earlier one already has; `at` says where the
      errors kept stood. */
  ghost predicate Distills(errors: seq<AnalysisError>, r: seq<AnalysisError>, at: seq<nat>) {
    && |at| == |r|
    && (forall i, j | 0 <= i < j < |at| :: at[i] < at[j])
    && (forall i | 0 <= i < |at| :: at[i] < |errors| && errors[at[i]] == r[i])
    && (forall k | 0 <= k < |errors| :: k in at <==> IsNews(errors, k))
  }

  ghost predicate IsNews(errors: seq<AnalysisError>, k: nat)
    requires k < |errors|
  {
    forall j | 0 <= j < k :: !SameError(errors[j], errors[k])
  }

  predicate SameError(e: AnalysisError, f: AnalysisError) {
    e.code == f.code && e.stage == f.stage && e.message == f.message
  }

  /** Keeps the first error of each (code, stage, message), in order; loses no key and repeats none. */
  method DeduplicateErrors(errors: seq<AnalysisError>) returns (r: seq<AnalysisError>, ghost at: seq<nat>)
    ensures Distills(errors, r, at)
    ensures forall key :: Mentioned(r, key) <==> Mentioned(errors, key)
    ensures r == [] <==> errors == []
  {
    hide Distills, Mentioned;
    var seen: set<ErrorKey> := {};
    r, at := [], [];
    NothingDistilled();
    for n := 0 to |errors|
      invariant Distills(errors[..n], r, at)
      invariant forall key :: key in seen <==> Mentioned(r, key)
      invariant forall key :: key in seen <==> Mentioned(errors[..n], key)
      invariant r == [] <==> n == 0
    {
      var key := KeyOfError(errors[n]);
      assert errors[..n + 1] == errors[..n] + [errors[n]];
      MentionedAppend(errors[..n], errors[n]);
      DistillsOneMore(errors[..n], r, at, errors[n]);
      if key !in seen {
        MentionedAppend(r, errors[n]);
        seen := seen + {key};
        r, at := r + [errors[n]], at + [n];
      }
    }
    assert errors[..|errors|] == errors;
  }

  lemma NothingDistilled()
    ensures Distills([], [], []) && forall key :: !Mentioned([], key)
  {
  }

  lemma DistillsOneMore(errors: seq<AnalysisError>, r: seq<AnalysisError>, at: seq<nat>, e: AnalysisError)
    requires Distills(errors, r, at)
    ensures if Mentioned(errors, KeyOfError(e)) then Distills(errors + [e], r, at)
            else Distills(errors + [e], r + [e], at + [|errors|])
  {
    var n := |errors|;
    var longer := errors + [e];
    if Mentioned(errors, KeyOfError(e)) {
      var j :| 0 <= j < n && KeyOfError(errors[j]) == KeyOfError(e);
      assert SameError(longer[j], e);
    } else {
      assert forall j | 0 <= j < n :: longer[j] == errors[j] && errors[j] in errors;
    }
    assert IsNews(longer, n) <==> !Mentioned(errors, KeyOfError(e));
    forall k | 0 <= k < n
      ensures IsNews(longer, k) <==> IsNews(errors, k)
    {
      assert forall j | 0 <= j <= k :: longer[j] == errors[j];
    }
    hide IsNews, Mentioned, SameError;
  }

  lemma MentionedAppend(errors: seq<AnalysisError>, e: AnalysisError)
    ensures forall key :: Mentioned(errors + [e], key) <==> Mentioned(errors, key) || key == KeyOfError(e)
  {
    forall key
      ensures Mentioned(errors + [e], key) <==> Mentioned(errors, key) || key == KeyOfError(e)
    {
      assert e in errors + [e];
    }
  }

  // ---------------------------------------------------------------- routing

  /** `requires_loop`. */
  function RequiresLoop(report: Report, gatePassed: bool): (r: Option<LoopReason>)
    ensures r.None? <==> gatePassed && !AnyAmbiguous(report.events) && !AuditFailed(report) && report.pending == []
    ensures r == Some(AmbiguousEvent) <==> AnyAmbiguous(report.events)
    ensures r == Some(PartialAuditFailure) <==> !AnyAmbiguous(report.events) && AuditFailed(report)
    ensures r == Some(WeakSupport) <==> !AnyAmbiguous(report.events) && !AuditFailed(report) && report.pending != []
  {
    if AnyAmbiguous(report.events) then Some(AmbiguousEvent)
    else if AuditFailed(report) then Some(PartialAuditFailure)
    else if report.pending != [] then Some(WeakSupport)
    else if !gatePassed then Some(GateFailed)
    else None
  }

  /** A trustworthy report gives the service nothing to complain about. */
  lemma PassingNeedsNoHuman(c: Case)
    requires Passes(c)
    ensures !AnyAmbiguous(c.report.events) && !AuditFailed(c.report) && c.report.pending == []
    ensures c.report.disposition != HumanReviewRequired
  {
    hide Passes, SoundEvents, SoundViolation, DistinctKeys, SumOfPenalties, AnyAmbiguous, AuditFailed;
    GatePassesExactlyTrustworthy(c);
  }

  class QualityAnalysisService {
    const loop: BoundedAgentLoop
    const gate: QualityGate
    const minSupportScore: Threshold

    constructor (loop: BoundedAgentLoop, gate: QualityGate, minSupportScore: Threshold)
      ensures this.loop == loop && this.gate == gate && this.minSupportScore == minSupportScore
    {
      this.loop, this.gate, this.minSupportScore := loop, gate, minSupportScore;
    }

    function FinalCase(report: Report, transcript: seq<Turn>, at: int): Case {
      Case(report, transcript, at, minSupportScore, gate.rules)
    }

    /** What the inner `try` must come to. The loop runs exactly on a report that the gate judges and refuses. The
        analysis, the gate and the loop fail it with their own errors, and nothing else does. Otherwise the report
        the loop left is COMPLETED when the gate passes it and no error is left over, and PARTIAL, for a human, when
        not. */
    ghost predicate Decides(transcript: seq<Turn>, at: int, analysis: Result<Report, Raised>, world: World,
                            d: Decision)
    {
      match analysis
      case Failure(raised) =>
        d.looped.None? && d.reason.None? && d.trace == [] && d.outcome.Failure? && Reported(raised, d.outcome.error)
      case Success(report) =>
        var c := FinalCase(report, transcript, at);
        && (d.looped.Some? <==> !ScoreRaises(c) && !Passes(c))
        && (d.looped.Some? <==> d.reason.Some?)
        && (ScoreRaises(c) ==> d.trace == [] && d.outcome.Failure? && Internal(d.outcome.error))
        && (Passes(c) ==> d.trace == [TraceEvent(0, Finalized)] && d.outcome == Success((CompletedRun, report, [])))
        && (d.looped.Some? ==> FollowsLoop(report, transcript, at, world, d))
    }

    ghost predicate FollowsLoop(report: Report, transcript: seq<Turn>, at: int, world: World, d: Decision)
      requires d.looped.Some?
    {
      && loop.Ran(d.looped.value.0, d.looped.value.1, report, transcript, at, world)
      && match d.looped.value.0
         case Failure(raised) => d.trace == [] && d.outcome.Failure? && Reported(raised, d.outcome.error)
         case Success(result) =>
           && d.trace == result.trace && SafeEdit(report, result.report, transcript)
           && if ScoreRaises(FinalCase(result.report, transcript, at)) then
                d.outcome.Failure? && Internal(d.outcome.error)
              else d.outcome.Success? && Concludes(d.outcome.value, result, FinalCase(result.report, transcript, at))
    }

    /** The outcome of the inner `try`: a decided report, or the error that FAILED reports. */
    method Decide(transcript: seq<Turn>, at: int, analysis: Result<Report, Raised>, world: World)
      returns (r: Outcome, reason: Option<LoopReason>, trace: seq<TraceEvent>,
               ghost looped: Option<(Result<LoopResult, Raised>, seq<Round>)>)
      ensures Decides(transcript, at, analysis, world, Decision(r, reason, trace, looped))
    {
      hide SafeEdit, Passes, Warranted, ScoreRaises, AnyAmbiguous, AuditFailed, Distills, Mentioned, Arises, SameError,
           BoundedAgentLoop.Ran, GateErrors, PendingErrors, ListsErrors;
      reason, trace, looped := None, [], None;
      if analysis.Failure? {
        r := Failure(ErrorOf(analysis.error));
        return;
      }
      var report := analysis.value;
      var initial := gate.Check(report, transcript, at, Some(minSupportScore));
      if initial.Failure? {
        RaisingIsNotPassing(FinalCase(report, transcript, at));
        r := Failure(INTERNAL_ERROR);
        return;
      }
      PassedMeansPasses(FinalCase(report, transcript, at), initial.value);
      reason := RequiresLoop(report, initial.value.passed);
      if initial.value.passed {
        PassingNeedsNoHuman(FinalCase(report, transcript, at));
      }
      var errors: seq<AnalysisError> := [];
      if reason.Some? {
        var context := new LoopContext(report, transcript, at);
        var result, rounds := loop.Run(context, world);
        looped := Some((result, rounds));
        if result.Failure? {
          r := Failure(ErrorOf(result.error));
          return;
        }
        report, trace, errors := result.value.report, result.value.trace, result.value.errors;
      } else {
        trace := [TraceEvent(0, Finalized)];
      }
      var final := gate.Check(report, transcript, at, Some(minSupportScore));
      if final.Failure? {
        RaisingIsNotPassing(FinalCase(report, transcript, at));
        r := Failure(INTERNAL_ERROR);
        return;
      }
      PassedMeansPasses(FinalCase(report, transcript, at), final.value);
      ghost var loopErrors := errors;
      errors := errors + GateErrors(final.value.issues)
              + (if report.audit.Some? then report.audit.value.errors else []) + PendingErrors(report.pending);
      CollectedArise(loopErrors, FinalCase(report, transcript, at), final.value.issues);
      ghost var kept;
      errors, kept := DeduplicateErrors(errors);
      ErrorsAreListed(loopErrors, FinalCase(report, transcript, at), final.value.issues, errors, kept);
      ErrorsAreLeft(loopErrors, FinalCase(report, transcript, at), errors);
      if final.value.passed && errors == [] {
        r := Success((CompletedRun, report, errors));
      } else {
        r := Success((PartialRun, report.(disposition := HumanReviewRequired), errors));
      }
    }

    /** `_analyze`, for any analysis, planner, evaluator, search, audit and run store. COMPLETED is given only to a
        report the gate passes; PARTIAL goes to a human; FAILED carries no report. An exception of the run store
        other than a PipelineFailure escapes as Failure where the source lets it escape. */
    method Analyze(runId: string, transcript: seq<Turn>, at: int, analysis: Result<Report, Raised>, world: World,
                   store: RunStore)
      returns (r: Result<Answer, ()>, ghost d: Option<Decision>)
      ensures r.Failure? <==>
                || store.create.BadSignature? || store.create.Broken?
                || (store.create.Stored?
                    && (store.finish.Broken? || (store.finish.BadSignature? && !store.finishPlain.Stored?)))
      ensures store.create.Refused? ==>
                r == Success(Answer(Analysis(runId, FailedRun, None, [store.create.error]), None, []))
      ensures d.Some? <==> store.create.Stored?
      ensures d.Some? ==> Decides(transcript, at, analysis, world, d.value)
      ensures d.Some? && r.Success? ==>
                && r.value.loopReason == d.value.reason && r.value.trace == d.value.trace
                && r.value.analysis.runId == runId && Delivers(r.value.analysis, d.value, store)
      ensures r.Success? && r.value.analysis.status.CompletedRun? ==>
                && analysis.Success? && r.value.analysis.report.Some? && r.value.analysis.errors == []
                && Passes(FinalCase(r.value.analysis.report.value, transcript, at))
                && SafeEdit(analysis.value, r.value.analysis.report.value, transcript)
    {
      hide SafeEdit, Passes, Decides;
      if store.create.Refused? {
        return Success(Answer(Analysis(runId, FailedRun, None, [store.create.error]), None, [])), None;
      }
      if !store.create.Stored? {
        return Failure(()), None;
      }
      var decided, reason, trace, looped := Decide(transcript, at, analysis, world);
      d := Some(Decision(decided, reason, trace, looped));
      CompletedPasses(transcript, at, analysis, world, d.value);
      var status, report, errors := FailedRun, None, [];
      if decided.Failure? {
        errors := [decided.error];
      } else {
        status, report, errors := decided.value.0, Some(decided.value.1), decided.value.2;
        var failure := AppendAll(trace, store);
        if failure.Some? {
          status, report, errors := FailedRun, None, [failure.value];
        }
      }
      if store.finish.Broken? || (store.finish.BadSignature? && !store.finishPlain.Stored?) {
        return Failure(()), d;
      }
      if store.finish.Refused? {
        status, report, errors := FailedRun, None, [store.finish.error];
      }
      r := Success(Answer(Analysis(runId, status, report, errors), reason, trace));
    }

    lemma CompletedPasses(transcript: seq<Turn>, at: int, analysis: Result<Report, Raised>, world: World, d: Decision)
      requires Decides(transcript, at, analysis, world, d)
      ensures d.outcome.Success? ==> analysis.Success? && !d.outcome.value.0.FailedRun?
      ensures d.outcome.Success? && d.outcome.value.0.CompletedRun? ==>
                && d.outcome.value.2 == [] && Passes(FinalCase(d.outcome.value.1, transcript, at))
                && SafeEdit(analysis.value, d.outcome.value.1, transcript)
    {
      hide SafeEdit, Passes, ScoreRaises, Arises;
      if analysis.Success? {
        UneditedIsSafe(analysis.value, transcript);
        if ScoreRaises(FinalCase(analysis.value, transcript, at)) {
          RaisingIsNotPassing(FinalCase(analysis.value, transcript, at));
        }
      }
    }
  }

  /** A PipelineFailure is reported with its own error, any other exception as an internal one. */
  ghost predicate Reported(raised: Raised, error: AnalysisError) {
    if raised.OnPipeline? then error == raised.error else Internal(error)
  }

  ghost predicate Internal(error: AnalysisError) {
    error.code == "INTERNAL_ERROR" && error.stage == ErrorStage.Api && !error.retryable
  }

  /** What becomes of a report that the loop left and the gate could judge. */
  ghost predicate Concludes(outcome: (RunStatus, Report, seq<AnalysisError>), result: LoopResult, c: Case) {
    && !outcome.0.FailedRun?
    && (outcome.0.CompletedRun? <==>
          && Passes(c) && result.errors == []
          && (c.report.audit.Some? ==> c.report.audit.value.errors == []) && c.report.pending == [])
    && (outcome.0.CompletedRun? ==> outcome.1 == c.report && outcome.2 == [])
    && (outcome.0.PartialRun? ==> outcome.1 == c.report.(disposition := HumanReviewRequired) && outcome.2 != [])
    && (forall key :: Mentioned(outcome.2, key) <==> Arises(key, result.errors, c))
    && ListsErrors(outcome.2, result.errors, c)
  }

  /** Errors for the findings, none of them worth a retry, and for nothing else. */
  ghost predicate VoiceFindings(gate: seq<AnalysisError>, c: Case) {
    (forall key :: Mentioned(gate, key) <==> VoicesFinding(key, c)) && forall e | e in gate :: !e.retryable
  }

  ghost predicate VoicesFinding(key: ErrorKey, c: Case) {
    exists issue :: Warranted(c, issue) && Voices(issue, key)
  }

  /** One error for each pending issue, in order. */
  ghost predicate VoicePending(errors: seq<AnalysisError>, pending: seq<Pending>) {
    && |errors| == |pending|
    && forall k | 0 <= k < |pending| ::
         errors[k] == AnalysisError(pending[k].code, RuleEvaluation, "存在尚未自动解决的裁决问题", false)
  }

  /** First the loop's errors, then the gate's, the audit's and those of the pending issues, without repetition. */
  ghost predicate ListsErrors(errors: seq<AnalysisError>, loopErrors: seq<AnalysisError>, c: Case) {
    var audit := if c.report.audit.Some? then c.report.audit.value.errors else [];
    exists gate, pending, at ::
      && VoiceFindings(gate, c) && VoicePending(pending, c.report.pending)
      && Distills(loopErrors + gate + audit + pending, errors, at)
  }

  lemma GateErrorsVoiceFindings(issues: seq<Issue>, c: Case)
    requires forall issue :: issue in issues <==> Warranted(c, issue)
    ensures VoiceFindings(GateErrors(issues), c)
  {
    hide Warranted, Voices, IssueCode, IssueMessage, Mentioned;
    forall key
      ensures Mentioned(GateErrors(issues), key) <==> VoicesFinding(key, c)
    {
      GateErrorsVoice(issues, key);
    }
  }

  lemma PendingErrorsVoicePending(pending: seq<Pending>)
    ensures VoicePending(PendingErrors(pending), pending)
  {
  }

  lemma ErrorsAreListed(loopErrors: seq<AnalysisError>, c: Case, issues: seq<Issue>, errors: seq<AnalysisError>,
                        at: seq<nat>)
    requires forall issue :: issue in issues <==> Warranted(c, issue)
    requires var audit := if c.report.audit.Some? then c.report.audit.value.errors else [];
             Distills(loopErrors + GateErrors(issues) + audit + PendingErrors(c.report.pending), errors, at)
    ensures ListsErrors(errors, loopErrors, c)
  {
    hide Warranted, Distills, VoiceFindings, VoicePending, GateErrors, PendingErrors;
    GateErrorsVoiceFindings(issues, c);
    PendingErrorsVoicePending(c.report.pending);
  }

  /** The first append that is not stored fails the run. */
  ghost predicate FailsToAppend(trace: seq<TraceEvent>, store: RunStore, error: AnalysisError) {
    exists i: nat ::
      && i < |trace| && !store.append(i).Stored? && (forall k: nat | k < i :: store.append(k).Stored?)
      && if store.append(i).Refused? then error == store.append(i).error else Internal(error)
  }

  /** The answer to a decision: FAILED exactly when it failed, or an event or the end of the run was not stored. */
  ghost predicate Delivers(a: Analysis, d: Decision, store: RunStore) {
    && (a.status.FailedRun? <==>
          || d.outcome.Failure? || store.finish.Refused? || exists i: nat :: i < |d.trace| && !store.append(i).Stored?)
    && (a.status.FailedRun? ==>
          && a.report.None? && |a.errors| == 1
          && if store.finish.Refused? then a.errors[0] == store.finish.error
             else if d.outcome.Failure? then a.errors[0] == d.outcome.error
             else FailsToAppend(d.trace, store, a.errors[0]))
    && (!a.status.FailedRun? ==> (a.status, a.report, a.errors)
                                 == (d.outcome.value.0, Some(d.outcome.value.1), d.outcome.value.2))
  }

  /** The errors collected are those of the loop, the gate, the audit and the pending issues. */
  lemma CollectedArise(loopErrors: seq<AnalysisError>, c: Case, issues: seq<Issue>)
    requires forall issue :: issue in issues <==> Warranted(c, issue)
    ensures var audit := if c.report.audit.Some? then c.report.audit.value.errors else [];
            forall key :: Mentioned(loopErrors + GateErrors(issues) + audit + PendingErrors(c.report.pending), key)
                          <==> Arises(key, loopErrors, c)
  {
    hide Mentioned, Warranted, Voices, GateErrors, PendingErrors;
    var audit := if c.report.audit.Some? then c.report.audit.value.errors else [];
    MentionedUnion(loopErrors, GateErrors(issues));
    MentionedUnion(loopErrors + GateErrors(issues), audit);
    MentionedUnion(loopErrors + GateErrors(issues) + audit, PendingErrors(c.report.pending));
    NothingDistilled();
    forall key
      ensures Mentioned(loopErrors + GateErrors(issues) + audit + PendingErrors(c.report.pending), key)
              <==> Arises(key, loopErrors, c)
    {
      GateErrorsVoice(issues, key);
      PendingErrorsVoice(c.report.pending, key);
    }
  }

  /** No error is left exactly when the loop left none and the gate passes the report. */
  lemma ErrorsAreLeft(loopErrors: seq<AnalysisError>, c: Case, errors: seq<AnalysisError>)
    requires !ScoreRaises(c) && forall key :: Mentioned(errors, key) <==> Arises(key, loopErrors, c)
    ensures errors == [] <==> Passes(c) && loopErrors == []
    ensures Passes(c) ==> !AuditFailed(c.report) && c.report.pending == []
  {
    hide Warranted, Voices, ScoreRaises, IssueCode, IssueMessage;
    if Passes(c) {
      PassingNeedsNoHuman(c);
      if errors != [] {
        assert Mentioned(errors, KeyOfError(errors[0]));
      }
    } else {
      var issue :| Warranted(c, issue);
      var key := ErrorKey(IssueCode(issue), ErrorStage.QualityGate, IssueMessage(issue));
      IssueIsVoiced(issue, key);
      assert Mentioned(errors, key);
    }
    if loopErrors != [] {
      assert Mentioned(loopErrors, KeyOfError(loopErrors[0]));
      assert Mentioned(errors, KeyOfError(loopErrors[0]));
    }
  }

  function ErrorOf(raised: Raised): AnalysisError {
    match raised
    case OnPipeline(error) => error
    case _ => INTERNAL_ERROR
  }

  lemma RaisingIsNotPassing(c: Case)
    requires ScoreRaises(c)
    ensures !Passes(c)
  {
    hide ScoreRaises, Warranted;
  }

  /** Appends the trace; the first refusal decides. */
  method AppendAll(trace: seq<TraceEvent>, store: RunStore) returns (failure: Option<AnalysisError>)
    ensures failure.None? <==> forall i: nat | i < |trace| :: store.append(i).Stored?
    ensures failure.Some? ==> FailsToAppend(trace, store, failure.value)
  {
    for i := 0 to |trace|
      invariant forall k: nat | k < i :: store.append(k).Stored?
    {
      match store.append(i)
      case Stored =>
      case Refused(error) => return Some(error);
      case _ => return Some(INTERNAL_ERROR);
    }
    failure := None;
  }

  /** COMPLETED never rests on doubt: no ambiguous event, failed audit or pending issue, in the analysis it came
      from or in the report returned, and no violation that the analysis did not contain. */
  lemma CompletedIsBeyondDoubt(analysis: Report, report: Report, c: Case)
    requires c.report == report && SafeEdit(analysis, report, c.transcript) && Passes(c)
    ensures !AnyAmbiguous(analysis.events) && analysis.pending == []
    ensures !AuditFailed(report) && Subsequence(report.violations, analysis.violations)
    ensures report.score == Max(0, 100 - SumOfPenalties(report.violations))
  {
    hide Passes, SoundEvents, SoundViolation, DistinctKeys, SumOfPenalties, AnyAmbiguous, AuditFailed, WithEvidence,
         Subsequence;
    PassingNeedsNoHuman(c);
    GatePassesExactlyTrustworthy(c);
    SafeEditSelects(analysis, report, c.transcript);
  }

  /** End to end, with the analyzer and the gate on the same rules and threshold: an analyzed report skips the loop
      exactly when the call is clean and keeping one hit per document keeps its support; where a document id fixes the
      metadata, exactly when the call is clean. */
  lemma CleanAnalysisNeedsNoLoop(call: Analyzer.Call, report: Report, passed: bool)
    requires Extractor.WellExtracted(call.events, call.transcript) && Extractor.UniqueTurns(call.transcript)
    requires Analyzer.Analyzed(call, report)
    requires passed <==> Passes(Case(report, call.transcript, call.at, call.minimum, call.rules))
    ensures RequiresLoop(report, passed).None? <==> Analyzer.CleanCall(call) && Analyzer.RetentionKeepsSupport(call)
    ensures Analyzer.MetadataByDocument(Analyzer.AllHits(call, |call.events|)) ==>
              (RequiresLoop(report, passed).None? <==> Analyzer.CleanCall(call))
  {
    hide Passes, AnyAmbiguous, AuditFailed, Extractor.WellExtracted, Extractor.UniqueTurns, Analyzer.Analyzed,
         Analyzer.MetadataByDocument, Analyzer.CleanCall, Analyzer.RetentionKeepsSupport;
    Analyzer.AnalyzerGateAgreement(call, report);
    Analyzer.CleanIsOfTheCall(call, report);
    if Analyzer.MetadataByDocument(Analyzer.AllHits(call, |call.events|)) {
      Analyzer.CleanAnalysisPasses(call, report);
    }
  }
}
