/** Crash and resume of one file's pipeline, step by step: one executor at a time, a crash possible between any
    two writes, artifacts free to change while nobody runs (qc/batch/pipeline.py, qc/batch/checkpoints.py). */
module Recovery {
  import opened Common
  import opened Stages
  import opened Retry
  import opened Pipeline

  /** The world around the pipeline. `may(stage, version, input, outcome)`: that producer version of the stage can
      answer so on that input. `timed`: a deadline or a stage timeout is configured, and may strike anywhere.
      `upgrades`: producer versions may change between runs. */
  datatype Env = Env(
    source: Content, may: (Stage, string, Content, Outcome) -> bool,
    maxAttempts: int, policy: RetryPolicy, timed: bool, upgrades: bool)

  /** Where the executor stands; `turns` is the transcript once ASR has delivered it. */
  datatype Pc =
    | Idle
    | Entering(stage: Stage, turns: seq<Turn>)
    | Invalidating(stage: Stage, turns: seq<Turn>)
    | Beginning(stage: Stage, turns: seq<Turn>)
    | Acting(stage: Stage, turns: seq<Turn>)
    | Storing(stage: Stage, turns: seq<Turn>, value: Content)
    | Completing(stage: Stage, turns: seq<Turn>, value: Content)
    | Failing(stage: Stage, turns: seq<Turn>, error: StageError)
    | Finished(result: FileResult)

  /** What the latest execution of a stage was started on, and by which producer version. */
  datatype Origin = Origin(input: Content, version: string)

  /** `origins` is a history variable: no step reads it. */
  datatype State = State(db: Db, pc: Pc, versions: Stage -> string, origins: map<Stage, Origin>)

  const DEADLINE := StageError("RUN_DEADLINE_EXCEEDED", "单文件处理超过总时间预算", false)
  const TIMEOUT := StageError("STAGE_TIMEOUT", "阶段执行超过时间预算", true)

  // ---------------------------------------------------------------- steps

  function InputOf(env: Env, db: Db, stage: Stage, turns: seq<Turn>): Option<Content> {
    match stage
    case Transcode => Some(env.source)
    case Quality => Some(Content.Transcript(turns))
    case _ => if Transcode in db.blobs then Some(db.blobs[Transcode]) else None
  }

  function RequestAt(stage: Stage, turns: seq<Turn>): Option<seq<Turn>> {
    if stage.Quality? then Some(turns) else None
  }

  predicate Usable(stage: Stage, value: Content) {
    (stage.Asr? ==> value.Transcript?) && (stage.Quality? ==> value.Judged?)
  }

  function After(stage: Stage, turns: seq<Turn>, value: Content): Pc
    requires Usable(stage, value)
  {
    match stage
    case Transcode => Entering(Asr, [])
    case Asr => Entering(Emotion, value.turns)
    case Emotion => Entering(Quality, turns)
    case Quality => Finished(FinalResult(turns, value.analysis))
  }

  ghost predicate EnterStep(env: Env, s: State, s': State) {
    s.pc.Entering? &&
    var stage, turns := s.pc.stage, s.pc.turns;
    var cached := Loaded(s.db, stage, s.versions(stage));
    || (env.timed && s' == s.(pc := Finished(FailedResult(stage, RequestAt(stage, turns), DEADLINE))))
    || if cached.Some? then s' == s.(pc := After(stage, turns, cached.value))
       else if Exhausted(s.db, stage, env.maxAttempts) then
         s' == s.(pc := Finished(FailedResult(stage, RequestAt(stage, turns), Reported(RecordedError(s.db, stage)))))
       else s' == s.(pc := Invalidating(stage, turns))
  }

  ghost predicate InvalidateStep(s: State, s': State) {
    s.pc.Invalidating? && s' == s.(db := InvalidateDb(s.db, s.pc.stage), pc := Beginning(s.pc.stage, s.pc.turns))
  }

  ghost predicate BeginStep(env: Env, s: State, s': State) {
    s.pc.Beginning? &&
    var stage, input := s.pc.stage, InputOf(env, s.db, s.pc.stage, s.pc.turns);
    && input.Some?
    && s' == s.(db := BeginDb(s.db, stage), pc := Acting(stage, s.pc.turns),
                origins := s.origins[stage := Origin(input.value, s.versions(stage))])
  }

  ghost predicate ActStep(env: Env, s: State, s': State, outcome: Outcome) {
    s.pc.Acting? &&
    var stage, turns, input := s.pc.stage, s.pc.turns, InputOf(env, s.db, s.pc.stage, s.pc.turns);
    || (env.timed
        && (s' == s.(pc := Failing(stage, turns, DEADLINE)) || s' == s.(pc := Failing(stage, turns, TIMEOUT))))
    || (input.Some? && env.may(stage, s.versions(stage), input.value, outcome) &&
        match Effect(stage, outcome)
        case Success(value) => s' == s.(pc := Storing(stage, turns, value))
        case Failure(e) => s' == s.(pc := Failing(stage, turns, e)))
  }

  ghost predicate StoreStep(s: State, s': State) {
    s.pc.Storing? &&
    var stage, value := s.pc.stage, s.pc.value;
    s' == s.(db := PutDb(s.db, stage, Stored(value, s.versions(stage))), pc := Completing(stage, s.pc.turns, value))
  }

  ghost predicate CompleteStep(s: State, s': State) {
    s.pc.Completing? &&
    var stage, turns, value := s.pc.stage, s.pc.turns, s.pc.value;
    && stage in s.db.cells && Usable(stage, value)
    && s' == s.(db := CompleteDb(s.db, stage, Stored(value, s.versions(stage)), s.versions(stage)),
                pc := After(stage, turns, value))
  }

  ghost predicate FailStep(env: Env, s: State, s': State) {
    s.pc.Failing? &&
    var stage, turns, error := s.pc.stage, s.pc.turns, s.pc.error;
    && stage in s.db.cells
    && s' == s.(db := FailDb(s.db, stage, error),
                pc := if ShouldRetry(env.policy, error, s.db.cells[stage].attempts) then Beginning(stage, turns)
                      else Finished(FailedResult(stage, RequestAt(stage, turns), error)))
  }

  /** What happens between the executor's own steps. */
  ghost predicate OutsideStep(env: Env, s: State, s': State) {
    || (s.pc.Idle? && s' == s.(pc := Entering(Transcode, [])))
    || s' == s.(pc := Idle)
    || (s.pc.Idle? && s' == s.(db := s.db.(blobs := s'.db.blobs)))
    || (env.upgrades && s.pc.Idle? && s' == s.(versions := s'.versions))
  }

  ghost predicate Next(env: Env, s: State, s': State) {
    || OutsideStep(env, s, s')
    || EnterStep(env, s, s')
    || InvalidateStep(s, s')
    || BeginStep(env, s, s')
    || (exists outcome :: ActStep(env, s, s', outcome))
    || StoreStep(s, s')
    || CompleteStep(s, s')
    || FailStep(env, s, s')
  }

  /** A file nobody has worked on yet. */
  ghost predicate Fresh(s: State) {
    s.pc.Idle? && s.db.cells == map[] && s.origins == map[]
  }

  ghost predicate IsRun(env: Env, run: seq<State>) {
    run != [] && Fresh(run[0]) && forall i | 0 <= i < |run| - 1 :: Next(env, run[i], run[i + 1])
  }

  ghost predicate Reachable(env: Env, s: State) {
    exists run :: IsRun(env, run) && run[|run| - 1] == s
  }

  // ---------------------------------------------------------------- what a run from scratch can give

  ghost predicate CanYield(env: Env, stage: Stage, origin: Origin, value: Content) {
    exists outcome :: env.may(stage, origin.version, origin.input, outcome) && Effect(stage, outcome) == Success(value)
  }

  ghost predicate CanRaise(env: Env, stage: Stage, origin: Origin, error: StageError) {
    || (env.timed && (error == DEADLINE || error == TIMEOUT))
    || exists outcome ::
         env.may(stage, origin.version, origin.input, outcome) && Effect(stage, outcome) == Failure(error)
  }

  /** The producers whose re-run invalidates the stage all have a version text, so their checkpoints can be loaded. */
  predicate UpstreamNamed(vs: Stage -> string, stage: Stage) {
    forall u | stage in Downstream(u) :: vs(u) != ""
  }

  /** The stage can fail this way today. */
  ghost predicate FailsNow(env: Env, vs: Stage -> string, stage: Stage, turns: seq<Turn>, input: Content,
                           r: FileResult) {
    exists error ::
      CanRaise(env, stage, Origin(input, vs(stage)), error) && r == FailedResult(stage, RequestAt(stage, turns), error)
  }

  /** A recorded failure is raised again: after an upgrade possibly one of an older producer, because only DONE rows
      are matched against the requested version. */
  ghost predicate FailsAgain(env: Env, vs: Stage -> string, stage: Stage, turns: seq<Turn>, input: Content,
                             r: FileResult) {
    && UpstreamNamed(vs, stage)
    && exists error, version ::
         (version == vs(stage) || env.upgrades) && CanRaise(env, stage, Origin(input, version), error)
         && r == FailedResult(stage, RequestAt(stage, turns), Reported(error))
  }

  /** A failure of the stage explains the result. */
  ghost predicate FailsAt(env: Env, vs: Stage -> string, stage: Stage, turns: seq<Turn>, input: Content,
                          r: FileResult) {
    FailsNow(env, vs, stage, turns, input, r) || FailsAgain(env, vs, stage, turns, input, r)
  }

  ghost predicate FromMood(env: Env, vs: Stage -> string, turns: seq<Turn>, r: FileResult) {
    || FailsAt(env, vs, Quality, turns, Content.Transcript(turns), r)
    || exists a ::
         CanYield(env, Quality, Origin(Content.Transcript(turns), vs(Quality)), Judged(a)) && r == FinalResult(turns, a)
  }

  ghost predicate FromTurns(env: Env, vs: Stage -> string, wav: Content, turns: seq<Turn>, r: FileResult) {
    || FailsAt(env, vs, Emotion, turns, wav, r)
    || (FromMood(env, vs, turns, r) && exists mood :: CanYield(env, Emotion, Origin(wav, vs(Emotion)), mood))
  }

  ghost predicate FromWav(env: Env, vs: Stage -> string, wav: Content, r: FileResult) {
    || FailsAt(env, vs, Asr, [], wav, r)
    || exists turns ::
         CanYield(env, Asr, Origin(wav, vs(Asr)), Content.Transcript(turns)) && FromTurns(env, vs, wav, turns, r)
  }

  /** The result of recomputing everything: transcode, recognise, sense the mood, judge; stop at the first failure. */
  ghost predicate FromScratch(env: Env, vs: Stage -> string, r: FileResult) {
    || FailsAt(env, vs, Transcode, [], env.source, r)
    || exists wav :: CanYield(env, Transcode, Origin(env.source, vs(Transcode)), wav) && FromWav(env, vs, wav, r)
  }

  // ---------------------------------------------------------------- the invariant

  /** The newest row of the stage is DONE for exactly this content. */
  predicate HoldsContent(db: Db, stage: Stage, content: Content) {
    && stage in db.cells && db.cells[stage].status.Done?
    && db.cells[stage].artifact.Some? && db.cells[stage].artifact.value.digest == Sha256(content)
  }

  /** The input is what the stage's upstream holds now. */
  predicate FreshInput(env: Env, db: Db, stage: Stage, input: Content) {
    match stage
    case Transcode => input == env.source
    case Quality => HoldsContent(db, Asr, input)
    case _ => HoldsContent(db, Transcode, input)
  }

  ghost predicate HoldsYield(env: Env, cell: StageCell, stage: Stage, origin: Origin) {
    && cell.artifact.Some? && cell.artifact.value.version == origin.version
    && exists v :: CanYield(env, stage, origin, v) && cell.artifact.value.digest == Sha256(Stored(v, origin.version))
  }

  /** Checkpoint freshness: whatever a row that is not PENDING says was computed from the upstream artifact now
      recorded, and by the producer version it names. */
  ghost predicate FreshRow(env: Env, db: Db, origins: map<Stage, Origin>, stage: Stage) {
    stage in db.cells && !db.cells[stage].status.Pending? ==>
      && stage in origins && FreshInput(env, db, stage, origins[stage].input)
      && (db.cells[stage].status.Done? ==> HoldsYield(env, db.cells[stage], stage, origins[stage]))
      && (db.cells[stage].status.Failed? ==>
            db.cells[stage].error.Some? && CanRaise(env, stage, origins[stage], db.cells[stage].error.value))
  }

  ghost predicate FreshRows(env: Env, s: State) {
    && (forall stage :: FreshRow(env, s.db, s.origins, stage))
    && (!env.upgrades ==> forall stage | stage in s.origins :: s.origins[stage].version == s.versions(stage))
  }

  /** The stage's checkpoint is the requested version's and its artifact is intact. */
  predicate Current(s: State, stage: Stage) {
    && stage in s.db.blobs && HoldsContent(s.db, stage, s.db.blobs[stage])
    && s.db.cells[stage].artifact.value.version == s.versions(stage)
  }

  /** Everything before the stage is in place. */
  predicate Ready(s: State, stage: Stage, turns: seq<Turn>) {
    && (!stage.Transcode? ==> Current(s, Transcode))
    && (stage.Emotion? || stage.Quality? ==> Current(s, Asr) && s.db.blobs[Asr] == Content.Transcript(turns))
    && (stage.Quality? ==> Current(s, Emotion))
  }

  /** Nothing downstream claims to be up to date. */
  predicate Quiet(db: Db, stage: Stage) {
    forall d | d in Downstream(stage) && d in db.cells :: db.cells[d].status.Pending?
  }

  predicate InFlight(env: Env, s: State, stage: Stage, turns: seq<Turn>) {
    && Ready(s, stage, turns) && Quiet(s.db, stage)
    && stage in s.db.cells && s.db.cells[stage].status.Running?
    && stage in s.origins && s.origins[stage].version == s.versions(stage)
    && InputOf(env, s.db, stage, turns) == Some(s.origins[stage].input)
  }

  ghost predicate PcOk(env: Env, s: State) {
    match s.pc
    case Idle => true
    case Entering(stage, turns) => Ready(s, stage, turns)
    case Invalidating(stage, turns) => Ready(s, stage, turns)
    case Beginning(stage, turns) => Ready(s, stage, turns) && Quiet(s.db, stage)
    case Acting(stage, turns) => InFlight(env, s, stage, turns)
    case Storing(stage, turns, value) => InFlight(env, s, stage, turns) && CanYield(env, stage, s.origins[stage], value)
    case Completing(stage, turns, value) =>
      InFlight(env, s, stage, turns) && CanYield(env, stage, s.origins[stage], value)
      && stage in s.db.blobs && s.db.blobs[stage] == Stored(value, s.versions(stage))
    case Failing(stage, turns, error) => InFlight(env, s, stage, turns) && CanRaise(env, stage, s.origins[stage], error)
    case Finished(r) => FromScratch(env, s.versions, r)
  }

  /** The order in which a pass goes through the stages. */
  function Place(stage: Stage): nat {
    match stage
    case Transcode => 0
    case Asr => 1
    case Emotion => 2
    case Quality => 3
  }

  predicate InPass(pc: Pc) {
    !pc.Idle? && !pc.Finished?
  }

  /** The pass has left the stage behind, or has invalidated its downstream. */
  predicate Behind(pc: Pc, stage: Stage)
    requires InPass(pc)
  {
    Place(stage) < Place(pc.stage) || (stage == pc.stage && !pc.Entering? && !pc.Invalidating?)
  }

  /** The pass has not begun to run the stage. */
  predicate Ahead(pc: Pc, stage: Stage)
    requires InPass(pc)
  {
    Place(stage) > Place(pc.stage) || (stage == pc.stage && (pc.Entering? || pc.Invalidating?))
  }

  /** A producer without a version text is run again in every pass, so nothing downstream of it keeps a verdict. */
  predicate Unclaimed(s: State) {
    InPass(s.pc) ==>
      forall u, d | Behind(s.pc, u) && d in Downstream(u) && s.versions(u) == "" && Ahead(s.pc, d) && d in s.db.cells ::
        s.db.cells[d].status.Pending?
  }

  ghost predicate Inv(env: Env, s: State) {
    FreshRows(env, s) && PcOk(env, s) && Unclaimed(s)
  }

  // ---------------------------------------------------------------- from checkpoints to results

  lemma YieldFits(env: Env, stage: Stage, origin: Origin, value: Content)
    requires CanYield(env, stage, origin, value)
    ensures Fits(stage, value) && Usable(stage, value)
  {
  }

  /** A current checkpoint holds something its stage can yield, with today's version, on the upstream held now. */
  lemma CurrentYields(env: Env, s: State, stage: Stage) returns (value: Content)
    requires FreshRows(env, s) && Current(s, stage)
    ensures stage in s.origins && CanYield(env, stage, Origin(s.origins[stage].input, s.versions(stage)), value)
    ensures s.db.blobs[stage] == Stored(value, s.versions(stage))
    ensures FreshInput(env, s.db, stage, s.origins[stage].input)
  {
    hide CanYield, CanRaise, FreshInput;
    assert FreshRow(env, s.db, s.origins, stage);
    value :| CanYield(env, stage, s.origins[stage], value)
             && s.db.cells[stage].artifact.value.digest == Sha256(Stored(value, s.origins[stage].version));
  }

  /** The chain of results so far, on entering a stage. */
  lemma ReadyChain(env: Env, s: State, stage: Stage, turns: seq<Turn>)
    requires FreshRows(env, s) && Ready(s, stage, turns)
    ensures !stage.Transcode? ==>
              Transcode in s.db.blobs
              && CanYield(env, Transcode, Origin(env.source, s.versions(Transcode)), s.db.blobs[Transcode])
    ensures stage.Emotion? || stage.Quality? ==>
              CanYield(env, Asr, Origin(s.db.blobs[Transcode], s.versions(Asr)), Content.Transcript(turns))
    ensures stage.Quality? ==> exists mood ::
              CanYield(env, Emotion, Origin(s.db.blobs[Transcode], s.versions(Emotion)), mood)
  {
    hide CanYield, FreshRows;
    if !stage.Transcode? {
      var wav := CurrentYields(env, s, Transcode);
      YieldFits(env, Transcode, Origin(s.origins[Transcode].input, s.versions(Transcode)), wav);
    }
    if stage.Emotion? || stage.Quality? {
      var transcript := CurrentYields(env, s, Asr);
      YieldFits(env, Asr, Origin(s.origins[Asr].input, s.versions(Asr)), transcript);
    }
    if stage.Quality? {
      var mood := CurrentYields(env, s, Emotion);
    }
  }

  /** A failure at a stage that was entered properly explains the whole file's result. */
  lemma FailureExplains(env: Env, s: State, stage: Stage, turns: seq<Turn>, input: Content, r: FileResult)
    requires FreshRows(env, s) && Ready(s, stage, turns)
    requires InputOf(env, s.db, stage, turns) == Some(input)
    requires FailsAt(env, s.versions, stage, turns, input, r)
    ensures FromScratch(env, s.versions, r)
  {
    hide CanYield, FailsAt, FreshRows, Ready, FromScratch, FromWav, FromTurns, FromMood, RequestAt;
    ReadyChain(env, s, stage, turns);
    match stage
    case Transcode => TranscodeExplains(env, s.versions, r);
    case Asr =>
      AsrFailureExplains(env, s.versions, turns, input, r);
    case Emotion => EmotionFailureExplains(env, s.versions, input, turns, r);
    case Quality =>
      assert FromMood(env, s.versions, turns, r) by { QualityFailureExplains(env, s.versions, turns, r); }
      MoodExplains(env, s.versions, s.db.blobs[Transcode], turns, r);
  }

  lemma TranscodeExplains(env: Env, vs: Stage -> string, r: FileResult)
    requires exists turns :: FailsAt(env, vs, Transcode, turns, env.source, r)
    ensures FromScratch(env, vs, r)
  {
    hide CanRaise, FromWav, FailsAt;
    var turns :| FailsAt(env, vs, Transcode, turns, env.source, r);
    FailsWithoutRequest(env, vs, Transcode, turns, env.source, r);
  }

  lemma FailsWithoutRequest(env: Env, vs: Stage -> string, stage: Stage, turns: seq<Turn>, input: Content,
                            r: FileResult)
    requires !stage.Quality? && FailsAt(env, vs, stage, turns, input, r)
    ensures FailsAt(env, vs, stage, [], input, r)
  {
    hide CanRaise, Reported, UpstreamNamed;
    assert RequestAt(stage, turns) == RequestAt(stage, []);
  }

  lemma WavExplains(env: Env, vs: Stage -> string, wav: Content, r: FileResult)
    requires CanYield(env, Transcode, Origin(env.source, vs(Transcode)), wav) && FromWav(env, vs, wav, r)
    ensures FromScratch(env, vs, r)
  {
    hide CanYield, FromWav;
  }

  lemma AsrFailureExplains(env: Env, vs: Stage -> string, turns: seq<Turn>, wav: Content, r: FileResult)
    requires CanYield(env, Transcode, Origin(env.source, vs(Transcode)), wav) && FailsAt(env, vs, Asr, turns, wav, r)
    ensures FromScratch(env, vs, r)
  {
    hide CanYield, FailsAt, FromTurns, FromScratch;
    FailsWithoutRequest(env, vs, Asr, turns, wav, r);
    WavExplains(env, vs, wav, r);
  }

  lemma TurnsExplain(env: Env, vs: Stage -> string, wav: Content, turns: seq<Turn>, r: FileResult)
    requires CanYield(env, Transcode, Origin(env.source, vs(Transcode)), wav)
    requires CanYield(env, Asr, Origin(wav, vs(Asr)), Content.Transcript(turns)) && FromTurns(env, vs, wav, turns, r)
    ensures FromScratch(env, vs, r)
  {
    hide CanYield, FromTurns, FromScratch;
    WavExplains(env, vs, wav, r);
  }

  lemma EmotionFailureExplains(env: Env, vs: Stage -> string, wav: Content, turns: seq<Turn>, r: FileResult)
    requires CanYield(env, Transcode, Origin(env.source, vs(Transcode)), wav)
    requires CanYield(env, Asr, Origin(wav, vs(Asr)), Content.Transcript(turns))
             && FailsAt(env, vs, Emotion, turns, wav, r)
    ensures FromScratch(env, vs, r)
  {
    hide CanYield, FailsAt, FromScratch, FromMood;
    TurnsExplain(env, vs, wav, turns, r);
  }

  lemma QualityFailureExplains(env: Env, vs: Stage -> string, turns: seq<Turn>, r: FileResult)
    requires FailsAt(env, vs, Quality, turns, Content.Transcript(turns), r)
    ensures FromMood(env, vs, turns, r)
  {
  }

  lemma MoodExplains(env: Env, vs: Stage -> string, wav: Content, turns: seq<Turn>, r: FileResult)
    requires CanYield(env, Transcode, Origin(env.source, vs(Transcode)), wav)
    requires CanYield(env, Asr, Origin(wav, vs(Asr)), Content.Transcript(turns))
    requires exists mood :: CanYield(env, Emotion, Origin(wav, vs(Emotion)), mood)
    requires FromMood(env, vs, turns, r)
    ensures FromScratch(env, vs, r)
  {
    hide CanYield, FailsAt, FromScratch, FromMood;
    TurnsExplain(env, vs, wav, turns, r);
  }

  /** Leaving a stage with a value the current checkpoint holds: either the next stage is ready or the file is done. */
  lemma ValueCarriesOn(env: Env, s: State, stage: Stage, turns: seq<Turn>, value: Content)
    requires FreshRows(env, s) && Ready(s, stage, turns) && Current(s, stage)
    requires Fits(stage, value) && s.db.blobs[stage] == Stored(value, s.versions(stage))
    ensures PcOk(env, s.(pc := After(stage, turns, value)))
  {
    hide FreshRows, CanYield, FromScratch;
    if stage.Quality? {
      var judged := CurrentYields(env, s, Quality);
      YieldFits(env, Quality, Origin(s.origins[Quality].input, s.versions(Quality)), judged);
      assert judged == value;
      FinishExplains(env, s, turns, value.analysis);
    }
  }

  lemma FinishExplains(env: Env, s: State, turns: seq<Turn>, a: Analysis)
    requires FreshRows(env, s) && Ready(s, Quality, turns)
    requires Quality in s.origins
             && CanYield(env, Quality, Origin(s.origins[Quality].input, s.versions(Quality)), Judged(a))
    requires FreshInput(env, s.db, Quality, s.origins[Quality].input)
    ensures FromScratch(env, s.versions, FinalResult(turns, a))
  {
    hide FreshRows, CanYield, FromScratch;
    ReadyChain(env, s, Quality, turns);
    assert s.origins[Quality].input == Content.Transcript(turns);
    assert FromMood(env, s.versions, turns, FinalResult(turns, a)) by { hide FailsAt, FinalResult; }
    MoodExplains(env, s.versions, s.db.blobs[Transcode], turns, FinalResult(turns, a));
  }

  // ---------------------------------------------------------------- producers without a version

  lemma OutsideUnclaimed(env: Env, s: State, s': State)
    requires Unclaimed(s) && OutsideStep(env, s, s')
    ensures Unclaimed(s')
  {
  }

  lemma EnterUnclaimed(env: Env, s: State, s': State)
    requires Unclaimed(s) && EnterStep(env, s, s')
    ensures Unclaimed(s')
  {
    hide Exhausted, Reported, RecordedError, FailedResult, FinalResult, RequestAt, Parsed, Downstream;
  }

  lemma InvalidateUnclaimed(s: State, s': State)
    requires Unclaimed(s) && InvalidateStep(s, s')
    ensures Unclaimed(s')
  {
  }

  lemma BeginUnclaimed(env: Env, s: State, s': State)
    requires Unclaimed(s) && BeginStep(env, s, s')
    ensures Unclaimed(s')
  {
    hide InputOf, Downstream;
  }

  lemma ActUnclaimed(env: Env, s: State, s': State, outcome: Outcome)
    requires Unclaimed(s) && ActStep(env, s, s', outcome)
    ensures Unclaimed(s')
  {
    hide InputOf, Effect, Downstream;
  }

  lemma StoreUnclaimed(s: State, s': State)
    requires Unclaimed(s) && StoreStep(s, s')
    ensures Unclaimed(s')
  {
    hide Stored, Downstream;
  }

  lemma CompleteUnclaimed(s: State, s': State)
    requires Unclaimed(s) && CompleteStep(s, s')
    ensures Unclaimed(s')
  {
    hide Stored, FinalResult, Downstream;
  }

  lemma FailUnclaimed(env: Env, s: State, s': State)
    requires Unclaimed(s) && FailStep(env, s, s')
    ensures Unclaimed(s')
  {
    hide ShouldRetry, FailedResult, RequestAt, Downstream;
  }

  /** A recorded failure is met only downstream of producers whose checkpoints can be loaded. */
  lemma ExhaustedIsNamed(env: Env, s: State, stage: Stage)
    requires Unclaimed(s) && s.pc.Entering? && s.pc.stage == stage && Exhausted(s.db, stage, env.maxAttempts)
    ensures UpstreamNamed(s.versions, stage)
  {
    forall u | stage in Downstream(u)
      ensures s.versions(u) != ""
    {
      assert Behind(s.pc, u) && Ahead(s.pc, stage);
    }
  }

  // ---------------------------------------------------------------- every step keeps the invariant

  lemma OutsideKeeps(env: Env, s: State, s': State)
    requires Inv(env, s) && OutsideStep(env, s, s')
    ensures Inv(env, s')
  {
    hide CanYield, CanRaise, FromScratch, Ready, InFlight, FreshRow, Unclaimed;
    OutsideUnclaimed(env, s, s');
    assert Ready(s', Transcode, []) by { NothingBefore(s'); }
    forall stage
      ensures FreshRow(env, s'.db, s'.origins, stage)
    {
      assert FreshRow(env, s.db, s.origins, stage);
      RowIgnoresBlobs(env, s.db, s'.db, s.origins, stage);
    }
  }

  lemma NothingBefore(s: State)
    ensures Ready(s, Transcode, [])
  {
  }

  lemma RowIgnoresBlobs(env: Env, db: Db, db': Db, origins: map<Stage, Origin>, stage: Stage)
    requires FreshRow(env, db, origins, stage) && db'.cells == db.cells
    ensures FreshRow(env, db', origins, stage)
  {
    hide CanRaise, HoldsYield;
  }

  lemma EnterKeeps(env: Env, s: State, s': State)
    requires Inv(env, s) && EnterStep(env, s, s')
    ensures Inv(env, s')
  {
    hide CanYield, FromScratch, Ready, FreshRow, After, Loaded, Exhausted, Reported, RecordedError, RequestAt,
         FailedResult, Unclaimed;
    EnterUnclaimed(env, s, s');
    var stage, turns := s.pc.stage, s.pc.turns;
    var cached := Loaded(s.db, stage, s.versions(stage));
    if env.timed && s' == s.(pc := Finished(FailedResult(stage, RequestAt(stage, turns), DEADLINE))) {
      DeadlineExplains(env, s, stage, turns);
    } else if cached.Some? {
      LoadedIsCurrent(env, s, stage, cached.value);
      ValueCarriesOn(env, s, stage, turns, cached.value);
    } else if Exhausted(s.db, stage, env.maxAttempts) {
      ExhaustedIsNamed(env, s, stage);
      ExhaustedExplains(env, s, stage, turns);
    } else {
      ReadyIgnoresPc(s, s', stage, turns);
    }
  }

  lemma ReadyIgnoresPc(s: State, s': State, stage: Stage, turns: seq<Turn>)
    requires Ready(s, stage, turns) && s'.db == s.db && s'.versions == s.versions
    ensures Ready(s', stage, turns)
  {
  }

  lemma LoadedIsCurrent(env: Env, s: State, stage: Stage, value: Content)
    requires FreshRows(env, s) && Loaded(s.db, stage, s.versions(stage)) == Some(value)
    ensures Current(s, stage) && Fits(stage, value) && s.db.blobs[stage] == Stored(value, s.versions(stage))
    ensures Usable(stage, value)
  {
    hide FreshRows, CanYield;
    var yielded := CurrentYields(env, s, stage);
    YieldFits(env, stage, Origin(s.origins[stage].input, s.versions(stage)), yielded);
  }

  lemma ReadyHasInput(env: Env, s: State, stage: Stage, turns: seq<Turn>)
    requires Ready(s, stage, turns)
    ensures InputOf(env, s.db, stage, turns).Some?
    ensures FreshInput(env, s.db, stage, InputOf(env, s.db, stage, turns).value)
  {
  }

  lemma DeadlineExplains(env: Env, s: State, stage: Stage, turns: seq<Turn>)
    requires FreshRows(env, s) && Ready(s, stage, turns) && env.timed
    ensures FromScratch(env, s.versions, FailedResult(stage, RequestAt(stage, turns), DEADLINE))
  {
    hide FreshRows, Ready, FromScratch;
    ReadyHasInput(env, s, stage, turns);
    var input := InputOf(env, s.db, stage, turns).value;
    assert CanRaise(env, stage, Origin(input, s.versions(stage)), DEADLINE);
    FailureExplains(env, s, stage, turns, input, FailedResult(stage, RequestAt(stage, turns), DEADLINE));
  }

  /** The input a row's execution was started on is the input the stage would get now. */
  lemma SameInput(env: Env, db: Db, stage: Stage, a: Content, b: Content)
    requires FreshInput(env, db, stage, a) && FreshInput(env, db, stage, b)
    ensures a == b
  {
  }

  lemma ExhaustedExplains(env: Env, s: State, stage: Stage, turns: seq<Turn>)
    requires FreshRows(env, s) && Ready(s, stage, turns) && Exhausted(s.db, stage, env.maxAttempts)
    requires UpstreamNamed(s.versions, stage)
    ensures FromScratch(env, s.versions,
                        FailedResult(stage, RequestAt(stage, turns), Reported(RecordedError(s.db, stage))))
  {
    hide FromScratch, Ready, HoldsYield, CanRaise, FreshInput, Reported, FailedResult, RequestAt, InputOf;
    assert FreshRow(env, s.db, s.origins, stage);
    ReadyHasInput(env, s, stage, turns);
    var input, origin := InputOf(env, s.db, stage, turns).value, s.origins[stage];
    SameInput(env, s.db, stage, input, origin.input);
    var error := RecordedError(s.db, stage);
    assert origin == Origin(input, origin.version);
    var r := FailedResult(stage, RequestAt(stage, turns), Reported(error));
    assert FailsAt(env, s.versions, stage, turns, input, r);
    FailureExplains(env, s, stage, turns, input, r);
  }

  lemma InvalidateKeeps(env: Env, s: State, s': State)
    requires Inv(env, s) && InvalidateStep(s, s')
    ensures Inv(env, s')
  {
    hide CanYield, CanRaise, HoldsYield, Unclaimed;
    InvalidateUnclaimed(s, s');
    var stage := s.pc.stage;
    forall other
      ensures FreshRow(env, s'.db, s'.origins, other)
    {
      assert FreshRow(env, s.db, s.origins, other);
    }
  }

  lemma BeginKeeps(env: Env, s: State, s': State)
    requires Inv(env, s) && BeginStep(env, s, s')
    ensures Inv(env, s')
  {
    hide FreshRow, Quiet, Ready, Unclaimed;
    BeginUnclaimed(env, s, s');
    var stage, turns := s.pc.stage, s.pc.turns;
    ReadyHasInput(env, s, stage, turns);
    forall other
      ensures FreshRow(env, s'.db, s'.origins, other)
    {
      assert FreshRow(env, s.db, s.origins, other);
      BegunRowIsFresh(env, s, stage, s'.origins[stage].input, other);
    }
    BegunIsInFlight(env, s, s', stage, turns);
  }

  lemma BegunRowIsFresh(env: Env, s: State, stage: Stage, input: Content, other: Stage)
    requires FreshRow(env, s.db, s.origins, other) && Quiet(s.db, stage) && FreshInput(env, s.db, stage, input)
    ensures FreshRow(env, BeginDb(s.db, stage), s.origins[stage := Origin(input, s.versions(stage))], other)
  {
    hide CanYield, CanRaise, HoldsYield;
  }

  lemma BegunIsInFlight(env: Env, s: State, s': State, stage: Stage, turns: seq<Turn>)
    requires Ready(s, stage, turns) && Quiet(s.db, stage) && s.pc == Beginning(stage, turns) && BeginStep(env, s, s')
    ensures InFlight(env, s', stage, turns)
  {
  }

  lemma ActKeeps(env: Env, s: State, s': State, outcome: Outcome)
    requires Inv(env, s) && ActStep(env, s, s', outcome)
    ensures Inv(env, s')
  {
    hide FreshRow, InFlight, FromScratch, Effect, Unclaimed;
    ActUnclaimed(env, s, s', outcome);
    InFlightIgnoresPc(env, s, s', s.pc.stage, s.pc.turns);
  }

  lemma InFlightIgnoresPc(env: Env, s: State, s': State, stage: Stage, turns: seq<Turn>)
    requires InFlight(env, s, stage, turns)
    requires s'.db == s.db && s'.versions == s.versions && s'.origins == s.origins
    ensures InFlight(env, s', stage, turns)
    ensures s.origins[stage].version == s.versions(stage)
            && InputOf(env, s.db, stage, turns) == Some(s.origins[stage].input)
  {
    hide Ready, Quiet;
    ReadyIgnoresPc(s, s', stage, turns);
  }

  lemma StoreKeeps(env: Env, s: State, s': State)
    requires Inv(env, s) && StoreStep(s, s')
    ensures Inv(env, s')
  {
    hide FreshRows, PcOk, StoreStep, Unclaimed;
    StoreUnclaimed(s, s');
    StoreKeepsRows(env, s, s');
    StoreKeepsPc(env, s, s');
  }

  lemma StoreKeepsRows(env: Env, s: State, s': State)
    requires FreshRows(env, s) && StoreStep(s, s')
    ensures FreshRows(env, s')
  {
    hide CanYield, CanRaise, FreshRow, Stored;
    forall stage
      ensures FreshRow(env, s'.db, s'.origins, stage)
    {
      assert FreshRow(env, s.db, s.origins, stage);
      RowIgnoresBlobs(env, s.db, s'.db, s.origins, stage);
    }
  }

  lemma StoreKeepsPc(env: Env, s: State, s': State)
    requires PcOk(env, s) && StoreStep(s, s')
    ensures PcOk(env, s')
  {
    hide CanYield, CanRaise, Stored;
    assert Ready(s', s.pc.stage, s.pc.turns);
    assert InFlight(env, s', s.pc.stage, s.pc.turns);
  }

  /** Settling the running stage leaves every other row as fresh as it was. */
  lemma SettleKeepsOthers(env: Env, db: Db, db': Db, origins: map<Stage, Origin>, stage: Stage, other: Stage)
    requires FreshRow(env, db, origins, other) && other != stage
    requires stage in db.cells && db.cells[stage].status.Running?
    requires db'.cells.Keys == db.cells.Keys && forall o | o in db.cells && o != stage :: db'.cells[o] == db.cells[o]
    ensures FreshRow(env, db', origins, other)
  {
    hide CanYield, CanRaise, HoldsYield;
  }

  lemma CompleteKeeps(env: Env, s: State, s': State)
    requires Inv(env, s) && CompleteStep(s, s')
    ensures Inv(env, s')
  {
    hide CanYield, CanRaise, FreshRow, Stored, FromScratch, After, Fits, Unclaimed;
    CompleteUnclaimed(s, s');
    var stage, turns, value := s.pc.stage, s.pc.turns, s.pc.value;
    forall other | other != stage
      ensures FreshRow(env, s'.db, s'.origins, other)
    {
      assert FreshRow(env, s.db, s.origins, other);
      SettleKeepsOthers(env, s.db, s'.db, s.origins, stage, other);
    }
    CompletedRowIsFresh(env, s, stage, turns, value);
    YieldFits(env, stage, s.origins[stage], value);
    ValueCarriesOn(env, s', stage, turns, value);
  }

  lemma CompletedRowIsFresh(env: Env, s: State, stage: Stage, turns: seq<Turn>, value: Content)
    requires InFlight(env, s, stage, turns) && CanYield(env, stage, s.origins[stage], value)
    ensures var after := CompleteDb(s.db, stage, Stored(value, s.versions(stage)), s.versions(stage));
            FreshRow(env, after, s.origins, stage)
  {
    hide CanYield, CanRaise, Stored;
    ReadyHasInput(env, s, stage, turns);
  }

  lemma FailKeeps(env: Env, s: State, s': State)
    requires Inv(env, s) && FailStep(env, s, s')
    ensures Inv(env, s')
  {
    hide CanYield, CanRaise, FreshRow, FromScratch, ShouldRetry, FailedResult, RequestAt, Unclaimed;
    FailUnclaimed(env, s, s');
    var stage, turns, error := s.pc.stage, s.pc.turns, s.pc.error;
    forall other | other != stage
      ensures FreshRow(env, s'.db, s'.origins, other)
    {
      assert FreshRow(env, s.db, s.origins, other);
      SettleKeepsOthers(env, s.db, s'.db, s.origins, stage, other);
    }
    FailedRowIsFresh(env, s, stage, turns, error);
    ErrorExplains(env, s', stage, turns, error);
  }

  lemma FailedRowIsFresh(env: Env, s: State, stage: Stage, turns: seq<Turn>, error: StageError)
    requires InFlight(env, s, stage, turns) && CanRaise(env, stage, s.origins[stage], error)
    ensures FreshRow(env, FailDb(s.db, stage, error), s.origins, stage)
  {
    hide CanYield, CanRaise;
    ReadyHasInput(env, s, stage, turns);
  }

  lemma ErrorExplains(env: Env, s: State, stage: Stage, turns: seq<Turn>, error: StageError)
    requires FreshRows(env, s) && Ready(s, stage, turns)
    requires stage in s.origins && s.origins[stage].version == s.versions(stage)
    requires InputOf(env, s.db, stage, turns) == Some(s.origins[stage].input)
    requires CanRaise(env, stage, s.origins[stage], error)
    ensures FromScratch(env, s.versions, FailedResult(stage, RequestAt(stage, turns), error))
  {
    hide FreshRows, Ready, CanRaise, FromScratch, FailedResult, RequestAt;
    var input := s.origins[stage].input;
    assert s.origins[stage] == Origin(input, s.versions(stage));
    FailureExplains(env, s, stage, turns, input, FailedResult(stage, RequestAt(stage, turns), error));
  }

  lemma StepKeeps(env: Env, s: State, s': State)
    requires Inv(env, s) && Next(env, s, s')
    ensures Inv(env, s')
  {
    hide *;
    StepCases(env, s, s');
    if OutsideStep(env, s, s') {
      OutsideKeeps(env, s, s');
    } else if EnterStep(env, s, s') {
      EnterKeeps(env, s, s');
    } else if InvalidateStep(s, s') {
      InvalidateKeeps(env, s, s');
    } else if BeginStep(env, s, s') {
      BeginKeeps(env, s, s');
    } else if StoreStep(s, s') {
      StoreKeeps(env, s, s');
    } else if CompleteStep(s, s') {
      CompleteKeeps(env, s, s');
    } else if FailStep(env, s, s') {
      FailKeeps(env, s, s');
    } else {
      var outcome :| ActStep(env, s, s', outcome);
      ActKeeps(env, s, s', outcome);
    }
  }

  lemma StepCases(env: Env, s: State, s': State)
    requires Next(env, s, s')
    ensures OutsideStep(env, s, s') || EnterStep(env, s, s') || InvalidateStep(s, s') || BeginStep(env, s, s')
            || (exists outcome :: ActStep(env, s, s', outcome))
            || StoreStep(s, s') || CompleteStep(s, s') || FailStep(env, s, s')
  {
    hide OutsideStep, EnterStep, InvalidateStep, BeginStep, ActStep, StoreStep, CompleteStep, FailStep;
  }

  lemma FreshStart(env: Env, s: State)
    requires Fresh(s)
    ensures Inv(env, s)
  {
  }

  lemma {:induction false} RunKeeps(env: Env, run: seq<State>)
    requires IsRun(env, run)
    ensures Inv(env, run[|run| - 1])
    decreases |run|
  {
    hide Next, Inv, Fresh;
    if |run| == 1 {
      FreshStart(env, run[0]);
    } else {
      var init := run[..|run| - 1];
      forall i | 0 <= i < |init| - 1
        ensures Next(env, init[i], init[i + 1])
      {
        assert init[i] == run[i] && init[i + 1] == run[i + 1];
      }
      RunKeeps(env, init);
      StepKeeps(env, run[|run| - 2], run[|run| - 1]);
    }
  }

  /** Checkpoint freshness and the refinement of recomputing everything, at every step of every run. */
  lemma ReuseRefinesRecomputation(env: Env, s: State)
    requires Reachable(env, s)
    ensures forall stage :: FreshRow(env, s.db, s.origins, stage)
    ensures s.pc.Finished? ==> FromScratch(env, s.versions, s.pc.result)
  {
    hide FromScratch, FreshRow;
    var run :| IsRun(env, run) && run[|run| - 1] == s;
    RunKeeps(env, run);
  }

  /** In any reachable state: a checkpoint that would be loaded is what its stage yields, in the requested version, on
      the upstream checkpoint that would be loaded. */
  lemma LoadableIsFresh(env: Env, s: State, stage: Stage, upstream: Stage, input: Content, value: Content)
    requires Reachable(env, s)
    requires upstream == if stage.Quality? then Asr else Transcode
    requires !stage.Transcode?
    requires Loaded(s.db, upstream, s.versions(upstream)) == Some(input)
    requires Loaded(s.db, stage, s.versions(stage)) == Some(value)
    ensures CanYield(env, stage, Origin(input, s.versions(stage)), value)
  {
    hide CanYield, FreshRows, Loaded, Reachable;
    var run :| IsRun(env, run) && run[|run| - 1] == s by { SomeRun(env, s); }
    RunKeeps(env, run);
    LoadedIsCurrent(env, s, upstream, input);
    LoadedIsCurrent(env, s, stage, value);
    var yielded := CurrentYields(env, s, stage);
    YieldFits(env, stage, Origin(s.origins[stage].input, s.versions(stage)), yielded);
    SameInput(env, s.db, stage, s.origins[stage].input, input);
  }

  lemma SomeRun(env: Env, s: State)
    requires Reachable(env, s)
    ensures exists run :: IsRun(env, run) && run[|run| - 1] == s
  {
    hide IsRun;
  }

  // ---------------------------------------------------------------- what a result says

  /** The analysis is one the quality service can give for this transcript, and the transcript one that recognition can
      give for an audio of the source. */
  ghost predicate GaveAnalysis(env: Env, vs: Stage -> string, turns: seq<Turn>, a: Analysis) {
    && CanYield(env, Quality, Origin(Content.Transcript(turns), vs(Quality)), Judged(a))
    && exists wav :: && CanYield(env, Transcode, Origin(env.source, vs(Transcode)), wav)
                     && CanYield(env, Asr, Origin(wav, vs(Asr)), Content.Transcript(turns))
  }

  /** The reason spells out an error that its stage can raise, with blank texts replaced at most. */
  ghost predicate GaveReason(env: Env, vs: Stage -> string, why: Reason, request: Option<seq<Turn>>) {
    exists input, version, error ::
      && CanRaise(env, why.stage, Origin(input, version), error) && (version == vs(why.stage) || env.upgrades)
      && (why.stage.Transcode? ==> input == env.source)
      && (why.stage.Quality? ==> request.Some? && input == Content.Transcript(request.value))
      && (why.code == error.code || (error.code == "" && why.code == "INTERNAL_ERROR"))
      && (why.message == error.message || (error.message == "" && why.message == "批量阶段失败"))
  }

  /** Every field of a result, said without the functions that build it. */
  ghost predicate Speaks(env: Env, vs: Stage -> string, r: FileResult) {
    && (r.analysis.Some? <==> r.reason.None?)
    && (r.status.FailedFinal? <==> r.reason.Some?)
    && (r.status.Done? <==>
          && r.analysis.Some? && !r.analysis.value.status.PartialRun? && r.analysis.value.report.Some?
          && !r.analysis.value.report.value.disposition.HumanReviewRequired?)
    && (r.status.HumanReview? <==>
          && r.analysis.Some? && r.analysis.value.report.Some?
          && (r.analysis.value.status.PartialRun? || r.analysis.value.report.value.disposition.HumanReviewRequired?))
    && (r.request.Some? <==> r.analysis.Some? || r.reason.value.stage.Quality?)
    && (r.analysis.Some? ==> GaveAnalysis(env, vs, r.request.value, r.analysis.value))
    && (r.reason.Some? ==> GaveReason(env, vs, r.reason.value, r.request))
  }

  lemma FailureSpeaks(env: Env, vs: Stage -> string, stage: Stage, turns: seq<Turn>, input: Content, r: FileResult)
    requires FailsAt(env, vs, stage, turns, input, r)
    requires stage.Transcode? ==> input == env.source
    requires stage.Quality? ==> input == Content.Transcript(turns)
    ensures Speaks(env, vs, r)
  {
    hide CanRaise;
    if FailsNow(env, vs, stage, turns, input, r) {
      var error :| CanRaise(env, stage, Origin(input, vs(stage)), error)
        && r == FailedResult(stage, RequestAt(stage, turns), error);
      assert GaveReason(env, vs, r.reason.value, r.request);
    } else {
      var error, version :|
        (version == vs(stage) || env.upgrades) && CanRaise(env, stage, Origin(input, version), error)
        && r == FailedResult(stage, RequestAt(stage, turns), Reported(error));
      assert GaveReason(env, vs, r.reason.value, r.request);
    }
  }

  lemma FinalSpeaks(env: Env, vs: Stage -> string, wav: Content, turns: seq<Turn>, a: Analysis)
    requires CanYield(env, Transcode, Origin(env.source, vs(Transcode)), wav)
    requires CanYield(env, Asr, Origin(wav, vs(Asr)), Content.Transcript(turns))
    requires CanYield(env, Quality, Origin(Content.Transcript(turns), vs(Quality)), Judged(a))
    ensures Speaks(env, vs, FinalResult(turns, a))
  {
    YieldFits(env, Quality, Origin(Content.Transcript(turns), vs(Quality)), Judged(a));
    hide CanYield;
  }

  /** Whatever recomputing can give says what it is: DONE, HUMAN_REVIEW or FAILED_FINAL for the reasons the source
      gives, with the request, the analysis and the reason that belong to it. */
  lemma ScratchSpeaks(env: Env, vs: Stage -> string, r: FileResult)
    requires FromScratch(env, vs, r)
    ensures Speaks(env, vs, r)
  {
    hide CanYield, FailsAt, Speaks, FinalResult;
    if FailsAt(env, vs, Transcode, [], env.source, r) {
      FailureSpeaks(env, vs, Transcode, [], env.source, r);
      return;
    }
    var wav :| CanYield(env, Transcode, Origin(env.source, vs(Transcode)), wav) && FromWav(env, vs, wav, r);
    if FailsAt(env, vs, Asr, [], wav, r) {
      FailureSpeaks(env, vs, Asr, [], wav, r);
      return;
    }
    var turns :| && CanYield(env, Asr, Origin(wav, vs(Asr)), Content.Transcript(turns))
                 && FromTurns(env, vs, wav, turns, r);
    if FailsAt(env, vs, Emotion, turns, wav, r) {
      FailureSpeaks(env, vs, Emotion, turns, wav, r);
    } else if FailsAt(env, vs, Quality, turns, Content.Transcript(turns), r) {
      FailureSpeaks(env, vs, Quality, turns, Content.Transcript(turns), r);
    } else {
      var a :| CanYield(env, Quality, Origin(Content.Transcript(turns), vs(Quality)), Judged(a))
               && r == FinalResult(turns, a);
      FinalSpeaks(env, vs, wav, turns, a);
    }
  }

  lemma FinishedSpeaks(env: Env, s: State)
    requires Reachable(env, s) && s.pc.Finished?
    ensures Speaks(env, s.versions, s.pc.result)
  {
    hide Reachable, FromScratch, Speaks;
    ReuseRefinesRecomputation(env, s);
    ScratchSpeaks(env, s.versions, s.pc.result);
  }
}
