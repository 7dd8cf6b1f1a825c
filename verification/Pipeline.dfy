/** The checkpointed four-stage pipeline of one file (qc/batch/pipeline.py, qc/batch/checkpoints.py). */
module Pipeline {
  import opened Common
  import opened Stages
  import opened Retry
  import Files
  import Reports
  import Rules

  type Turn = Rules.Turn

  type Analysis = Reports.Analysis

  /** What stages consume and produce, and the bytes kept for them. */
  datatype Content =
    | Source(uri: string)
    | Wav(bytes: string)
    | Transcript(turns: seq<Turn>)
    | Mood(json: string)
    | Judged(analysis: Analysis)
    | Wrapped(qcRunId: string, reportId: string, version: string, wrapped: Analysis)
    | Foreign(bytes: string)

  /** SHA-256 seen as an injective digest. */
  datatype Digest = Sha256(content: Content)

  type StageCell = Cell<Digest>

  /** What a file has in the database (newest stage rows) and in the artifact store. */
  datatype Db = Db(cells: map<Stage, StageCell>, blobs: map<Stage, Content>)

  datatype Outcome = Returned(value: Content) | Threw(raised: Raised)

  // ---------------------------------------------------------------- what an action amounts to

  predicate StartsInOrder(turns: seq<Turn>) {
    forall i, j | 0 <= i < j < |turns| :: turns[i].start <= turns[j].start
  }

  predicate ValidTranscript(turns: seq<Turn>) {
    && turns != []
    && (forall i, j | 0 <= i < j < |turns| :: turns[i].turnId != turns[j].turnId)
    && StartsInOrder(turns)
  }

  predicate AllRetryable(errors: seq<Reports.AnalysisError>) {
    forall e | e in errors :: e.retryable
  }

  /** `_validate_quality_result`. */
  function ValidateQuality(a: Analysis): Result<Analysis, StageError> {
    if a.status.FailedRun? then
      if a.errors == [] then Failure(StageError("QC_FAILED", "质检分析失败", false))
      else Failure(StageError(a.errors[0].code, a.errors[0].message, AllRetryable(a.errors)))
    else if a.report.None? then Failure(StageError("QC_REPORT_MISSING", "质检结果缺少报告", false))
    else if a.status.PartialRun? then
      Success(a.(report := Some(a.report.value.(disposition := Reports.HumanReviewRequired))))
    else Success(a)
  }

  /** The stage action: the runner or the quality service, wrapped in the validation of its output. */
  function Acted(stage: Stage, outcome: Outcome): Result<Content, StageError> {
    match outcome
    case Threw(raised) => Failure(Classify(raised))
    case Returned(value) =>
      match stage
      case Transcode => Success(value)
      case Emotion => Success(value)
      case Asr =>
        if value.Transcript? && ValidTranscript(value.turns) then Success(value)
        else Failure(StageError("MODEL_INVALID_OUTPUT", "ASR 输出结构非法", false))
      case Quality =>
        if !value.Judged? then Failure(StageError("MODEL_INVALID_OUTPUT", "质检模型输出结构非法", false))
        else
          match ValidateQuality(value.analysis)
          case Failure(e) => Failure(e)
          case Success(a) => Success(Judged(a))
  }

  /** `complete` refuses a transcode output that is not a readable file and an emotion that is not an object. */
  function Accepted(stage: Stage, value: Content): Result<Content, StageError> {
    if (stage.Transcode? && !value.Wav?) || (stage.Emotion? && !value.Mood?) then Failure(Classify(BadInput))
    else Success(value)
  }

  /** What a partial analysis is handed on as: its report goes to a human. */
  predicate HandsOn(returned: Content, value: Content) {
    if returned.Judged? && returned.analysis.status.PartialRun? then
      && value.Judged? && returned.analysis.report.Some?
      && value.analysis == returned.analysis.(report := value.analysis.report)
      && value.analysis.report == Some(returned.analysis.report.value.(disposition := Reports.HumanReviewRequired))
    else value == returned
  }

  /** Why a returned value is refused. */
  predicate Refuses(stage: Stage, value: Content, e: StageError) {
    match stage
    case Transcode => e.code == "INVALID_INPUT" && !e.retryable
    case Asr => e.code == "MODEL_INVALID_OUTPUT" && !e.retryable
    case Emotion => e.code == "INVALID_INPUT" && !e.retryable
    case Quality =>
      if !value.Judged? then e.code == "MODEL_INVALID_OUTPUT" && !e.retryable
      else if !value.analysis.status.FailedRun? then e.code == "QC_REPORT_MISSING" && !e.retryable
      else if value.analysis.errors == [] then e.code == "QC_FAILED" && !e.retryable
      else
        var first := value.analysis.errors[0];
        && e.code == first.code && e.message == first.message
        && (e.retryable <==> forall x | x in value.analysis.errors :: x.retryable)
  }

  function Effect(stage: Stage, outcome: Outcome): (r: Result<Content, StageError>)
    ensures r.Success? <==> outcome.Returned? && Fits(stage, outcome.value)
    ensures r.Success? ==> Fits(stage, r.value) && HandsOn(outcome.value, r.value)
    ensures r.Failure? && outcome.Threw? ==> r.error == Classify(outcome.raised)
    ensures r.Failure? && outcome.Returned? ==> Refuses(stage, outcome.value, r.error)
    ensures stage.Asr? && outcome.Returned? && outcome.value.Transcript? ==>
              var turns := outcome.value.turns;
              (r.Success? <==> turns != [] && forall i, j | 0 <= i < j < |turns| ::
                                 turns[i].turnId != turns[j].turnId && turns[i].start <= turns[j].start)
  {
    match Acted(stage, outcome)
    case Failure(e) => Failure(e)
    case Success(value) => Accepted(stage, value)
  }

  /** The shape of a value the stage hands on. */
  predicate Fits(stage: Stage, value: Content) {
    match stage
    case Transcode => value.Wav?
    case Asr => value.Transcript? && ValidTranscript(value.turns)
    case Emotion => value.Mood?
    case Quality => value.Judged? && !value.analysis.status.FailedRun? && value.analysis.report.Some?
  }

  // ---------------------------------------------------------------- checkpoints

  /** The bytes `complete` writes for a value. */
  function Stored(value: Content, version: string): Content {
    if value.Judged? then Wrapped(value.analysis.runId, value.analysis.runId, version, value.analysis) else value
  }

  /** How `load` reads a verified artifact back. */
  function Parsed(stage: Stage, content: Content, version: string): Option<Content> {
    match stage
    case Transcode => Some(content)
    case Asr => if content.Transcript? then Some(content) else None
    case Emotion => if content.Mood? then Some(content) else None
    case Quality =>
      if content.Wrapped? && content.version == version && content.qcRunId == content.wrapped.runId
         && content.reportId == content.wrapped.runId
      then Some(Judged(content.wrapped)) else None
  }

  function Loaded(db: Db, stage: Stage, version: string): Option<Content> {
    if stage !in db.cells || !db.cells[stage].status.Done? then None
    else
      match db.cells[stage].artifact
      case None => None
      case Some(artifact) =>
        if artifact.version == "" || artifact.version != version then None
        else if stage !in db.blobs || artifact.digest != Sha256(db.blobs[stage]) then None
        else Parsed(stage, db.blobs[stage], version)
  }

  /** A value that was checkpointed is the value read back. */
  lemma CheckpointRoundTrip(db: Db, stage: Stage, value: Content, version: string)
    requires Fits(stage, value) && stage in db.cells
    ensures var bytes := Stored(value, version);
            var after := Db(db.cells[stage := Completed(db.cells[stage], Artifact(Sha256(bytes), version))],
                            db.blobs[stage := bytes]);
            Loaded(after, stage, version) == if version == "" then None else Some(value)
  {
  }

  function PreviousAttempts(db: Db, stage: Stage): nat {
    if stage in db.cells then db.cells[stage].attempts else 0
  }

  /** A recorded failure that must not be tried again. */
  predicate Exhausted(db: Db, stage: Stage, maxAttempts: int) {
    && stage in db.cells && db.cells[stage].status.Failed?
    && (db.cells[stage].error.None? || !db.cells[stage].error.value.retryable
        || db.cells[stage].attempts >= maxAttempts)
  }

  /** How a recorded failure is raised again: blank texts are replaced. */
  function Reported(error: StageError): StageError {
    StageError(if error.code == "" then "INTERNAL_ERROR" else error.code,
               if error.message == "" then "批量阶段失败" else error.message, error.retryable)
  }

  function RecordedError(db: Db, stage: Stage): StageError {
    if stage in db.cells && db.cells[stage].error.Some? then db.cells[stage].error.value else StageError("", "", false)
  }

  function InvalidatedCells(cells: map<Stage, StageCell>, stages: seq<Stage>): (r: map<Stage, StageCell>)
    ensures r.Keys == cells.Keys
    ensures forall s | s in cells :: r[s] == if s in stages then Invalidated(cells[s]) else cells[s]
  {
    map s | s in cells :: if s in stages then Invalidated(cells[s]) else cells[s]
  }

  function BeginDb(db: Db, stage: Stage): Db {
    db.(cells := db.cells[stage := Begun(if stage in db.cells then Some(db.cells[stage]) else None)])
  }

  function InvalidateDb(db: Db, stage: Stage): Db {
    db.(cells := InvalidatedCells(db.cells, Downstream(stage)))
  }

  function PutDb(db: Db, stage: Stage, content: Content): Db {
    db.(blobs := db.blobs[stage := content])
  }

  function CompleteDb(db: Db, stage: Stage, content: Content, version: string): Db
    requires stage in db.cells
  {
    db.(cells := db.cells[stage := Completed(db.cells[stage], Artifact(Sha256(content), version))])
  }

  /** The two writes of a completion, one after the other. */
  function StoredDb(db: Db, stage: Stage, value: Content, version: string): Db
    requires stage in db.cells
  {
    CompleteDb(PutDb(db, stage, Stored(value, version)), stage, Stored(value, version), version)
  }

  function FailDb(db: Db, stage: Stage, error: StageError): Db
    requires stage in db.cells
  {
    db.(cells := db.cells[stage := FailedWith(db.cells[stage], error)])
  }

  // ---------------------------------------------------------------- results

  datatype Reason = Reason(stage: Stage, code: string, message: string)

  /** `request` is the transcript handed to the quality service, once there is one. */
  datatype FileResult = FileResult(
    status: Files.Status, request: Option<seq<Turn>>, analysis: Option<Analysis>, reason: Option<Reason>)

  function FailedResult(stage: Stage, request: Option<seq<Turn>>, error: StageError): FileResult {
    FileResult(Files.FailedFinal, request, None, Some(Reason(stage, error.code, error.message)))
  }

  function FinalResult(turns: seq<Turn>, a: Analysis): FileResult {
    var human := a.status.PartialRun? || (a.report.Some? && a.report.value.disposition.HumanReviewRequired?);
    FileResult(if human then Files.HumanReview else Files.Done, Some(turns), Some(a), None)
  }
}
