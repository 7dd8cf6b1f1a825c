/** The imperative pipeline (qc/batch/pipeline.py) over a file's checkpoint session (qc/batch/checkpoints.py):
    each of its writes is one step of the recovery protocol. */
module Executor {
  import opened Common
  import opened Stages
  import opened Retry
  import opened Pipeline
  import opened Recovery

  /** The monotonic clock: `reading(n)` is what the n-th look at it shows. */
  class Clock {
    const reading: nat -> real
    var looks: nat

    constructor (reading: nat -> real)
      ensures this.reading == reading && looks == 0
    {
      this.reading := reading;
      looks := 0;
    }

    method Look() returns (t: real)
      modifies this
      ensures looks == old(looks) + 1 && t == reading(old(looks))
    {
      t := reading(looks);
      looks := looks + 1;
    }
  }

  /** The bytes can be read as what the stage leaves, in that version. */
  predicate Reads(stage: Stage, bytes: Content, version: string) {
    && (stage == Asr ==> bytes.Transcript?)
    && (stage == Emotion ==> bytes.Mood?)
    && (stage == Quality ==>
          && bytes.Wrapped? && bytes.version == version
          && bytes.qcRunId == bytes.wrapped.runId && bytes.reportId == bytes.wrapped.runId)
  }

  class CheckpointSession {
    var cells: map<Stage, StageCell>
    var blobs: map<Stage, Content>

    constructor (db: Db)
      ensures Contents() == db
    {
      cells, blobs := db.cells, db.blobs;
    }

    ghost function Contents(): Db
      reads this
    {
      Db(cells, blobs)
    }

    method Load(stage: Stage, version: string) returns (r: Option<Content>)
      ensures r == Loaded(Contents(), stage, version)
      ensures r.Some? <==>
                && stage in cells && cells[stage].status == Done && version != ""
                && stage in blobs && cells[stage].artifact == Some(Artifact(Sha256(blobs[stage]), version))
                && Reads(stage, blobs[stage], version)
      ensures r.Some? ==> r.value == if stage == Quality then Judged(blobs[stage].wrapped) else blobs[stage]
    {
      if stage !in cells || cells[stage].status != Done {
        return None;
      }
      if cells[stage].artifact.None? || cells[stage].artifact.value.version == "" {
        return None;
      }
      var artifact := cells[stage].artifact.value;
      if artifact.version != version {
        return None;
      }
      if stage !in blobs || artifact.digest != Sha256(blobs[stage]) {
        return None;
      }
      r := Parsed(stage, blobs[stage], version);
    }

    method Begin(stage: Stage) returns (attempts: nat)
      modifies this
      ensures Contents() == BeginDb(old(Contents()), stage)
      ensures attempts == PreviousAttempts(old(Contents()), stage) + 1 == cells[stage].attempts
      ensures blobs == old(blobs) && cells == old(cells)[stage := Cell(Running, attempts, None, None)]
      ensures attempts == 1 + if stage in old(cells) then old(cells)[stage].attempts else 0
    {
      attempts := (if stage in cells then cells[stage].attempts else 0) + 1;
      cells := cells[stage := Cell(Running, attempts, None, None)];
    }

    /** Writes the artifact, then the row; an output of the wrong kind is refused before either. */
    method Complete(stage: Stage, value: Content, version: string) returns (r: Result<Content, StageError>)
      requires stage in cells
      modifies this
      ensures r == Accepted(stage, value)
      ensures Contents() == if r.Success? then StoredDb(old(Contents()), stage, value, version)
                            else old(Contents())
      ensures r.Failure? <==> (stage == Transcode && !value.Wav?) || (stage == Emotion && !value.Mood?)
      ensures r.Failure? ==> r.error.code == "INVALID_INPUT" && !r.error.retryable
      ensures r.Success? ==>
                && r.value == value && stage in blobs
                && cells == old(cells)[stage := Cell(Done, old(cells)[stage].attempts,
                                                     Some(Artifact(Sha256(blobs[stage]), version)), None)]
                && blobs == old(blobs)[stage := blobs[stage]]
                && if value.Judged? then
                     blobs[stage] == Wrapped(value.analysis.runId, value.analysis.runId, version, value.analysis)
                   else blobs[stage] == value
    {
      if (stage == Transcode && !value.Wav?) || (stage == Emotion && !value.Mood?) {
        return Failure(Classify(BadInput));
      }
      var content := Stored(value, version);
      blobs := blobs[stage := content];
      var artifact := Artifact(Sha256(content), version);
      cells := cells[stage := cells[stage].(status := Done, artifact := Some(artifact), error := None)];
      r := Success(value);
    }

    method Fail(stage: Stage, error: StageError)
      requires stage in cells
      modifies this`cells
      ensures Contents() == FailDb(old(Contents()), stage, error)
      ensures var was := old(cells)[stage];
              cells == old(cells)[stage := Cell(Failed, was.attempts, was.artifact, Some(error))]
    {
      cells := cells[stage := cells[stage].(status := Failed, error := Some(error))];
    }

    method InvalidateDownstream(stage: Stage)
      modifies this`cells
      ensures Contents() == InvalidateDb(old(Contents()), stage)
      ensures cells.Keys == old(cells).Keys
      ensures forall s | s in cells ::
                cells[s] == if (stage == Transcode && s != Transcode) || (stage == Asr && s == Quality)
                            then Cell(Pending, old(cells)[s].attempts, None, None) else old(cells)[s]
    {
      var stages := Downstream(stage);
      for i := 0 to |stages|
        invariant cells == InvalidatedCells(old(cells), stages[..i])
      {
        assert stages[..i + 1] == stages[..i] + [stages[i]];
        var s := stages[i];
        assert s !in stages[..i];
        if s in cells {
          cells := cells[s := cells[s].(status := Pending, artifact := None, error := None)];
        }
      }
      assert stages[..|stages|] == stages;
    }
  }

  // ---------------------------------------------------------------- one attempt

  datatype Limits = Limits(timeout: Option<real>, deadline: Option<real>)

  predicate Late(limits: Limits, t: real) {
    limits.deadline.Some? && t >= limits.deadline.value
  }

  /** One pass of the attempt loop: when it began and ended, and what the action answered if it was run. */
  datatype Trial = Trial(started: real, finished: real, outcome: Outcome)

  /** The pass began and ended at two looks at the clock, one after the other. */
  ghost predicate Clocked(reading: nat -> real, from: nat, trial: Trial) {
    exists i: nat :: from <= i && trial.started == reading(i) && trial.finished == reading(i + 1)
  }

  function TrialResult(stage: Stage, limits: Limits, trial: Trial): Result<Content, StageError> {
    if Late(limits, trial.started) then Failure(DEADLINE)
    else
      match Acted(stage, trial.outcome)
      case Failure(e) => Failure(e)
      case Success(value) =>
        if Late(limits, trial.finished) then Failure(DEADLINE)
        else if limits.timeout.Some? && trial.finished - trial.started > limits.timeout.value then Failure(TIMEOUT)
        else Accepted(stage, value)
  }

  /** What one pass comes to, by the clock and by the answer. */
  ghost predicate Ends(stage: Stage, limits: Limits, trial: Trial, r: Result<Content, StageError>) {
    var lateFirst := limits.deadline.Some? && limits.deadline.value <= trial.started;
    var lateLast := limits.deadline.Some? && limits.deadline.value <= trial.finished;
    var tooLong := limits.timeout.Some? && limits.timeout.value < trial.finished - trial.started;
    var refused := Effect(stage, trial.outcome).Failure? && (trial.outcome.Threw? || stage.Asr? || stage.Quality?);
    if lateFirst then IsDeadline(r)
    else if refused then r == Effect(stage, trial.outcome)
    else if lateLast then IsDeadline(r)
    else if tooLong then r.Failure? && r.error.code == "STAGE_TIMEOUT" && r.error.retryable
    else r == Effect(stage, trial.outcome)
  }

  ghost predicate IsDeadline(r: Result<Content, StageError>) {
    r.Failure? && r.error.code == "RUN_DEADLINE_EXCEEDED" && !r.error.retryable
  }

  lemma TrialEnds(stage: Stage, limits: Limits, trial: Trial)
    ensures Ends(stage, limits, trial, TrialResult(stage, limits, trial))
  {
    hide ValidTranscript, ValidateQuality;
  }

  /** The attempts of one call: each but the last ended with an error worth another attempt, the last one did not. */
  ghost predicate Tried(previous: nat, stage: Stage, limits: Limits, policy: RetryPolicy, action: nat -> Outcome,
                        trials: seq<Trial>, r: Result<Content, StageError>)
  {
    && trials != []
    && (forall k | 0 <= k < |trials| ::
          (limits.deadline.Some? && limits.deadline.value <= trials[k].started) || trials[k].outcome == action(k))
    && (forall k | 0 <= k < |trials| - 1 :: GoesOn(stage, limits, trials[k], policy, previous + k + 1))
    && Ends(stage, limits, trials[|trials| - 1], r)
    && (r.Failure? ==> !r.error.retryable || previous + |trials| >= Max(1, policy.maxAttempts))
  }

  ghost predicate GoesOn(stage: Stage, limits: Limits, trial: Trial, policy: RetryPolicy, attempts: nat) {
    attempts < Max(1, policy.maxAttempts) && exists e :: Ends(stage, limits, trial, Failure(e)) && e.retryable
  }

  lemma AttemptedIsTried(db: Db, stage: Stage, limits: Limits, policy: RetryPolicy, action: nat -> Outcome,
                         trials: seq<Trial>, r: Result<Content, StageError>)
    requires Attempted(db, stage, limits, policy, action, trials, r)
    ensures Tried(PreviousAttempts(db, stage), stage, limits, policy, action, trials, r)
  {
    hide TrialResult, Ends;
    forall k | 0 <= k < |trials|
      ensures Ends(stage, limits, trials[k], TrialResult(stage, limits, trials[k]))
    {
      TrialEnds(stage, limits, trials[k]);
    }
    forall k | 0 <= k < |trials| - 1
      ensures GoesOn(stage, limits, trials[k], policy, PreviousAttempts(db, stage) + k + 1)
    {
      assert TrialResult(stage, limits, trials[k]) == Failure(TrialResult(stage, limits, trials[k]).error);
    }
  }

  /** The database after `n` attempts that started from `db` and ended with `r`. */
  function SettledDb(db: Db, stage: Stage, version: string, n: nat, r: Result<Content, StageError>): Db {
    var cells := InvalidateDb(db, stage).cells;
    var cell := Cell(Running, PreviousAttempts(db, stage) + n, None, None);
    match r
    case Success(value) =>
      var bytes := Stored(value, version);
      Db(cells[stage := Completed(cell, Artifact(Sha256(bytes), version))], db.blobs[stage := bytes])
    case Failure(error) => Db(cells[stage := FailedWith(cell, error)], db.blobs)
  }

  /** The attempts of one call: all but the last failed and were worth retrying, the last one decides. */
  ghost predicate Attempted(db: Db, stage: Stage, limits: Limits, policy: RetryPolicy, action: nat -> Outcome,
                            trials: seq<Trial>, r: Result<Content, StageError>)
  {
    var previous := PreviousAttempts(db, stage);
    && trials != []
    && (forall k | 0 <= k < |trials| :: Late(limits, trials[k].started) || trials[k].outcome == action(k))
    && (forall k | 0 <= k < |trials| - 1 ::
          var result := TrialResult(stage, limits, trials[k]);
          result.Failure? && ShouldRetry(policy, result.error, previous + k + 1))
    && r == TrialResult(stage, limits, trials[|trials| - 1])
    && (r.Failure? ==> !ShouldRetry(policy, r.error, previous + |trials|))
  }

  /** What one call of `execute_stage` amounts to. `late` tells whether the deadline had passed on entry. */
  ghost predicate Executed(before: Db, after: Db, stage: Stage, version: string, late: bool, limits: Limits,
                           maxAttempts: int, policy: RetryPolicy, action: nat -> Outcome, trials: seq<Trial>,
                           r: Result<Content, StageError>)
  {
    var cached := Loaded(before, stage, version);
    if late then r == Failure(DEADLINE) && after == before && trials == []
    else if cached.Some? then r == Success(cached.value) && after == before && trials == []
    else if Exhausted(before, stage, maxAttempts) then
      r == Failure(Reported(RecordedError(before, stage))) && after == before && trials == []
    else
      Attempted(before, stage, limits, policy, action, trials, r)
      && after == SettledDb(before, stage, version, |trials|, r)
  }

  /** However the call went: success leaves a DONE row of the requested version; the action ran only when there was
      neither a usable checkpoint nor a final failure; and nothing but this stage and its downstream rows changed. */
  lemma ExecutionOutcome(before: Db, after: Db, stage: Stage, version: string, late: bool, limits: Limits,
                         maxAttempts: int, policy: RetryPolicy, action: nat -> Outcome, trials: seq<Trial>,
                         r: Result<Content, StageError>)
    requires Executed(before, after, stage, version, late, limits, maxAttempts, policy, action, trials, r)
    ensures r.Success? ==> stage in after.cells && after.cells[stage].status == Done
                           && after.cells[stage].artifact.Some? && after.cells[stage].artifact.value.version == version
    ensures trials == [] <==> late || Loaded(before, stage, version).Some? || Exhausted(before, stage, maxAttempts)
    ensures trials == [] ==> after == before
    ensures forall s | s != stage && s !in Downstream(stage) && s in before.cells ::
              s in after.cells && after.cells[s] == before.cells[s]
    ensures forall s | s in Downstream(stage) && s in after.cells && trials != [] :: after.cells[s].status == Pending
    ensures trials != [] ==> PreviousAttempts(after, stage) == PreviousAttempts(before, stage) + |trials|
  {
    hide TrialResult, ShouldRetry, Stored, Late;
    assert stage !in Downstream(stage);
  }

  /** The retry budget, call by call: a call that begins an attempt stays within it exactly when it did not find it
      spent; and a call goes beyond a spent budget exactly when it is in time, finds no usable checkpoint, and the row
      is not FAILED (left RUNNING by a crash, invalidated, or DONE but not loadable). */
  lemma BudgetHoldsExactly(before: Db, after: Db, stage: Stage, version: string, late: bool, limits: Limits,
                           maxAttempts: int, policy: RetryPolicy, action: nat -> Outcome, trials: seq<Trial>,
                           r: Result<Content, StageError>)
    requires Executed(before, after, stage, version, late, limits, maxAttempts, policy, action, trials, r)
    requires maxAttempts == Max(1, policy.maxAttempts)
    ensures var had, has := PreviousAttempts(before, stage), PreviousAttempts(after, stage);
            && (trials == [] ==> has == had)
            && (trials != [] ==> (has <= maxAttempts <==> had < maxAttempts))
            && (had >= maxAttempts ==>
                  (has > had
                   <==> !late && Loaded(before, stage, version).None? && !before.cells[stage].status.Failed?))
  {
    hide TrialResult, SettledDb, Loaded, Late;
    ExecutionOutcome(before, after, stage, version, late, limits, maxAttempts, policy, action, trials, r);
    if |trials| >= 2 {
      assert ShouldRetry(policy, TrialResult(stage, limits, trials[|trials| - 2]).error,
                         PreviousAttempts(before, stage) + (|trials| - 2) + 1);
    }
  }

  // ---------------------------------------------------------------- the loop as protocol steps

  /** The call is one the environment allows at this point of the protocol. */
  ghost predicate Suits(env: Env, s: State, stage: Stage, turns: seq<Turn>, version: string, limits: Limits,
                        maxAttempts: int, policy: RetryPolicy, action: nat -> Outcome)
  {
    && env.maxAttempts == maxAttempts && env.policy == policy && s.versions(stage) == version
    && env.timed == (limits.timeout.Some? || limits.deadline.Some?)
    && InputOf(env, s.db, stage, turns).Some?
    && forall k :: env.may(stage, version, InputOf(env, s.db, stage, turns).value, action(k))
  }

  ghost function EndPc(stage: Stage, turns: seq<Turn>, r: Result<Content, StageError>): Pc {
    match r
    case Failure(e) => Finished(FailedResult(stage, RequestAt(stage, turns), e))
    case Success(value) => if Usable(stage, value) then After(stage, turns, value) else Idle
  }

  ghost predicate EndsAt(env: Env, s: State, s': State, db: Db, stage: Stage, turns: seq<Turn>,
                         r: Result<Content, StageError>) {
    && Inv(env, s') && s'.db == db && s'.versions == s.versions && s'.pc == EndPc(stage, turns, r)
    && (r.Success? ==> Usable(stage, r.value))
  }

  /** The entry checks are the Enter step. */
  lemma EnterIs(env: Env, s: State, stage: Stage, turns: seq<Turn>, r: Result<Content, StageError>) returns (s': State)
    requires Inv(env, s) && s.pc == Entering(stage, turns)
    requires var cached := Loaded(s.db, stage, s.versions(stage));
             || (env.timed && r == Failure(DEADLINE))
             || (cached.Some? && r == Success(cached.value))
             || (cached.None? && Exhausted(s.db, stage, env.maxAttempts)
                 && r == Failure(Reported(RecordedError(s.db, stage))))
    ensures EndsAt(env, s, s', s.db, stage, turns, r)
  {
    hide Inv, Exhausted, Reported, RecordedError, FailedResult;
    s' := s.(pc := EndPc(stage, turns, r));
    assert EnterStep(env, s, s');
    assert Next(env, s, s') by { hide EnterStep; }
    StepKeeps(env, s, s');
  }

  /** No checkpoint and no verdict: the downstream rows are invalidated. */
  lemma InvalidateIs(env: Env, s: State, stage: Stage, turns: seq<Turn>) returns (s': State)
    requires Inv(env, s) && s.pc == Entering(stage, turns)
    requires Loaded(s.db, stage, s.versions(stage)).None? && !Exhausted(s.db, stage, env.maxAttempts)
    ensures Inv(env, s') && s'.db == InvalidateDb(s.db, stage) && s'.versions == s.versions
            && s'.pc == Beginning(stage, turns)
    ensures InputOf(env, s'.db, stage, turns) == InputOf(env, s.db, stage, turns)
  {
    hide Inv, Exhausted, Loaded;
    var entered := s.(pc := Invalidating(stage, turns));
    assert EnterStep(env, s, entered);
    assert Next(env, s, entered) by { hide EnterStep; }
    StepKeeps(env, s, entered);
    s' := entered.(db := InvalidateDb(s.db, stage), pc := Beginning(stage, turns));
    assert InvalidateStep(entered, s');
    assert Next(env, entered, s') by { hide InvalidateStep; }
    StepKeeps(env, entered, s');
  }

  lemma BeginIs(env: Env, s: State, stage: Stage, turns: seq<Turn>) returns (s': State)
    requires Inv(env, s) && s.pc == Beginning(stage, turns) && InputOf(env, s.db, stage, turns).Some?
    ensures Inv(env, s') && s'.db == BeginDb(s.db, stage) && s'.versions == s.versions && s'.pc == Acting(stage, turns)
    ensures InputOf(env, s'.db, stage, turns) == InputOf(env, s.db, stage, turns)
  {
    hide Inv;
    var input := InputOf(env, s.db, stage, turns).value;
    s' := s.(db := BeginDb(s.db, stage), pc := Acting(stage, turns),
             origins := s.origins[stage := Origin(input, s.versions(stage))]);
    assert BeginStep(env, s, s');
    assert Next(env, s, s') by { hide BeginStep; }
    StepKeeps(env, s, s');
  }

  /** A successful attempt: the action answers, the artifact is stored, the row is completed. */
  lemma CompletionIs(env: Env, s: State, stage: Stage, turns: seq<Turn>, outcome: Outcome, value: Content)
    returns (s': State)
    requires Inv(env, s) && s.pc == Acting(stage, turns) && stage in s.db.cells
             && InputOf(env, s.db, stage, turns).Some?
    requires env.may(stage, s.versions(stage), InputOf(env, s.db, stage, turns).value, outcome)
    requires Effect(stage, outcome) == Success(value)
    ensures EndsAt(env, s, s', StoredDb(s.db, stage, value, s.versions(stage)), stage, turns, Success(value))
  {
    hide Inv, FinalResult, Stored;
    var version := s.versions(stage);
    var answered := s.(pc := Storing(stage, turns, value));
    assert ActStep(env, s, answered, outcome);
    assert Next(env, s, answered) by { hide ActStep; }
    StepKeeps(env, s, answered);
    var bytes := Stored(value, version);
    var stored := answered.(db := PutDb(s.db, stage, bytes), pc := Completing(stage, turns, value));
    assert StoreStep(answered, stored);
    assert Next(env, answered, stored) by { hide StoreStep; }
    StepKeeps(env, answered, stored);
    s' := stored.(db := CompleteDb(stored.db, stage, bytes, version), pc := After(stage, turns, value));
    assert CompleteStep(stored, s');
    assert Next(env, stored, s') by { hide CompleteStep; }
    StepKeeps(env, stored, s');
  }

  /** A failed attempt: the error is recorded, and either a new attempt begins or the file is finished. */
  lemma FailureIs(env: Env, s: State, stage: Stage, turns: seq<Turn>, outcome: Outcome, error: StageError)
    returns (s': State)
    requires Inv(env, s) && s.pc == Acting(stage, turns) && stage in s.db.cells
             && InputOf(env, s.db, stage, turns).Some?
    requires || (env.timed && (error == DEADLINE || error == TIMEOUT))
             || (env.may(stage, s.versions(stage), InputOf(env, s.db, stage, turns).value, outcome)
                 && Effect(stage, outcome) == Failure(error))
    ensures Inv(env, s') && s'.db == FailDb(s.db, stage, error) && s'.versions == s.versions
    ensures s'.pc == if ShouldRetry(env.policy, error, s.db.cells[stage].attempts) then Beginning(stage, turns)
                     else EndPc(stage, turns, Failure(error))
    ensures InputOf(env, s'.db, stage, turns) == InputOf(env, s.db, stage, turns)
  {
    hide Inv, ShouldRetry, FailedResult;
    var failing := s.(pc := Failing(stage, turns, error));
    assert ActStep(env, s, failing, outcome);
    assert Next(env, s, failing) by { hide ActStep; }
    StepKeeps(env, s, failing);
    s' := failing.(db := FailDb(s.db, stage, error),
                   pc := if ShouldRetry(env.policy, error, s.db.cells[stage].attempts) then Beginning(stage, turns)
                         else EndPc(stage, turns, Failure(error)));
    assert FailStep(env, failing, s');
    assert Next(env, failing, s') by { hide FailStep; }
    StepKeeps(env, failing, s');
  }

  lemma TrialIsEffect(stage: Stage, limits: Limits, trial: Trial)
    ensures var r := TrialResult(stage, limits, trial);
            || r == Effect(stage, trial.outcome)
            || ((limits.timeout.Some? || limits.deadline.Some?) && (r == Failure(DEADLINE) || r == Failure(TIMEOUT)))
  {
    hide Acted, Accepted;
  }

  // ---------------------------------------------------------------- execute_stage

  /** One attempt of the loop, from `begin` to the settled row. */
  method Attempt(session: CheckpointSession, stage: Stage, version: string, action: nat -> Outcome, n: nat,
                 limits: Limits, clock: Clock, ghost env: Env, ghost s: State, ghost turns: seq<Turn>)
    returns (r: Result<Content, StageError>, attempts: nat, ghost trial: Trial, ghost s': State)
    requires Inv(env, s) && s.db == session.Contents() && s.pc == Beginning(stage, turns)
    requires Suits(env, s, stage, turns, version, limits, env.maxAttempts, env.policy, action)
    modifies session, clock
    ensures r == TrialResult(stage, limits, trial) && (Late(limits, trial.started) || trial.outcome == action(n))
    ensures old(clock.looks) <= clock.looks && Clocked(clock.reading, old(clock.looks), trial)
    ensures attempts == PreviousAttempts(old(session.Contents()), stage) + 1
    ensures var begun := BeginDb(old(session.Contents()), stage);
            session.Contents() == match r
                                  case Failure(e) => FailDb(begun, stage, e)
                                  case Success(value) => StoredDb(begun, stage, value, version)
    ensures s'.versions == s.versions && Inv(env, s') && s'.db == session.Contents()
    ensures r.Failure? && ShouldRetry(env.policy, r.error, attempts) ==>
              s'.pc == Beginning(stage, turns) && InputOf(env, s'.db, stage, turns) == InputOf(env, s.db, stage, turns)
    ensures !(r.Failure? && ShouldRetry(env.policy, r.error, attempts)) ==>
              EndsAt(env, s, s', session.Contents(), stage, turns, r)
  {
    hide Inv, Acted, Accepted, Stored, ShouldRetry, FailedResult, After, Usable, Effect;
    var acting := BeginIs(env, s, stage, turns);
    attempts := session.Begin(stage);
    var started := clock.Look();
    if Late(limits, started) {
      var failed := clock.Look();
      trial := Trial(started, failed, action(n));
      r := Failure(DEADLINE);
      session.Fail(stage, DEADLINE);
      s' := FailureIs(env, acting, stage, turns, action(n), DEADLINE);
      return;
    }
    var outcome := action(n);
    var acted := Acted(stage, outcome);
    trial := Trial(started, clock.reading(clock.looks), outcome);
    if acted.Failure? {
      r := Failure(acted.error);
    } else {
      var finished := clock.Look();
      if Late(limits, finished) {
        r := Failure(DEADLINE);
      } else if limits.timeout.Some? && finished - started > limits.timeout.value {
        r := Failure(TIMEOUT);
      } else {
        r := session.Complete(stage, acted.value, version);
      }
    }
    TrialIsEffect(stage, limits, trial);
    if r.Success? {
      assert r.value == acted.value by { AcceptedIsSame(stage, acted.value); }
      s' := CompletionIs(env, acting, stage, turns, outcome, r.value);
    } else {
      var _ := clock.Look();
      session.Fail(stage, r.error);
      s' := FailureIs(env, acting, stage, turns, outcome, r.error);
    }
  }

  lemma AcceptedIsSame(stage: Stage, value: Content)
    ensures Accepted(stage, value).Success? ==> Accepted(stage, value).value == value
  {
  }

  /** The attempts so far all failed and were worth retrying. */
  ghost predicate Retrying(previous: nat, stage: Stage, limits: Limits, policy: RetryPolicy, action: nat -> Outcome,
                           trials: seq<Trial>)
  {
    forall k | 0 <= k < |trials| ::
      && (Late(limits, trials[k].started) || trials[k].outcome == action(k))
      && TrialResult(stage, limits, trials[k]).Failure?
      && ShouldRetry(policy, TrialResult(stage, limits, trials[k]).error, previous + k + 1)
  }

  /** The database between two attempts, after `n` of them failed. */
  predicate BetweenAttempts(before: Db, now: Db, stage: Stage, n: nat) {
    var cells := InvalidateDb(before, stage).cells;
    && now.blobs == before.blobs
    && PreviousAttempts(now, stage) == PreviousAttempts(before, stage) + n
    && now.cells == if stage in now.cells then cells[stage := now.cells[stage]] else cells
  }

  lemma NoAttemptYet(before: Db, stage: Stage)
    ensures BetweenAttempts(before, InvalidateDb(before, stage), stage, 0)
  {
    assert stage !in Downstream(stage);
  }

  lemma AttemptFails(before: Db, now: Db, stage: Stage, n: nat, error: StageError)
    requires BetweenAttempts(before, now, stage, n)
    ensures var after := FailDb(BeginDb(now, stage), stage, error);
            BetweenAttempts(before, after, stage, n + 1) && after == SettledDb(before, stage, "", n + 1, Failure(error))
  {
    hide InvalidateDb;
  }

  lemma AttemptSucceeds(before: Db, now: Db, stage: Stage, n: nat, version: string, value: Content)
    requires BetweenAttempts(before, now, stage, n)
    ensures StoredDb(BeginDb(now, stage), stage, value, version)
         == SettledDb(before, stage, version, n + 1, Success(value))
  {
    hide InvalidateDb, Stored;
  }

  lemma FailureNamesNoVersion(before: Db, stage: Stage, version: string, n: nat, error: StageError)
    ensures SettledDb(before, stage, version, n, Failure(error)) == SettledDb(before, stage, "", n, Failure(error))
  {
  }

  lemma AttemptContinues(before: Db, now: Db, after: Db, stage: Stage, version: string, n: nat,
                         r: Result<Content, StageError>)
    requires BetweenAttempts(before, now, stage, n)
    requires var begun := BeginDb(now, stage);
             after == match r
                      case Failure(e) => FailDb(begun, stage, e)
                      case Success(value) => StoredDb(begun, stage, value, version)
    ensures after == SettledDb(before, stage, version, n + 1, r)
    ensures r.Failure? ==> BetweenAttempts(before, after, stage, n + 1)
  {
    hide BetweenAttempts, SettledDb, FailDb, PutDb, CompleteDb, Stored;
    match r
    case Failure(e) =>
      AttemptFails(before, now, stage, n, e);
      FailureNamesNoVersion(before, stage, version, n + 1, e);
    case Success(value) =>
      AttemptSucceeds(before, now, stage, n, version, value);
  }

  lemma OneMoreTrial(before: Db, stage: Stage, limits: Limits, policy: RetryPolicy, action: nat -> Outcome,
                     trials: seq<Trial>, trial: Trial)
    requires Retrying(PreviousAttempts(before, stage), stage, limits, policy, action, trials)
    requires Late(limits, trial.started) || trial.outcome == action(|trials|)
    ensures var r, attempts := TrialResult(stage, limits, trial), PreviousAttempts(before, stage) + |trials| + 1;
            if r.Failure? && ShouldRetry(policy, r.error, attempts)
            then Retrying(PreviousAttempts(before, stage), stage, limits, policy, action, trials + [trial])
            else Attempted(before, stage, limits, policy, action, trials + [trial], r)
  {
    hide TrialResult, ShouldRetry, Late, PreviousAttempts;
    var all := trials + [trial];
    assert all[|trials|] == trial && forall k | 0 <= k < |trials| :: all[k] == trials[k];
  }

  lemma StillClocked(reading: nat -> real, from: nat, later: nat, trial: Trial)
    requires from <= later && Clocked(reading, later, trial)
    ensures Clocked(reading, from, trial)
  {
  }

  /** The attempt loop. */
  method AttemptUntilSettled(session: CheckpointSession, stage: Stage, version: string, action: nat -> Outcome,
                             policy: RetryPolicy, limits: Limits, clock: Clock, ghost env: Env, ghost s: State,
                             ghost turns: seq<Turn>, ghost before: Db)
    returns (r: Result<Content, StageError>, ghost trials: seq<Trial>, ghost s': State)
    requires Inv(env, s) && s.db == session.Contents() == InvalidateDb(before, stage) && s.pc == Beginning(stage, turns)
    requires Suits(env, s, stage, turns, version, limits, env.maxAttempts, policy, action)
    modifies session, clock
    ensures Attempted(before, stage, limits, policy, action, trials, r)
    ensures session.Contents() == SettledDb(before, stage, version, |trials|, r)
    ensures |trials| <= Max(1, Max(1, policy.maxAttempts) - PreviousAttempts(before, stage))
    ensures clock.looks >= old(clock.looks) && forall k | 0 <= k < |trials| ::
              Clocked(clock.reading, old(clock.looks), trials[k])
    ensures EndsAt(env, s, s', session.Contents(), stage, turns, r)
  {
    hide Inv, TrialResult, SettledDb, Attempted, Suits, EndsAt, Late, BeginDb, FailDb, CompleteDb, PutDb, Stored,
         InvalidateDb, InputOf, Clocked;
    SuitedEntry(env, s, stage, turns, version, limits, env.maxAttempts, policy, action);
    var n := 0;
    trials, s' := [], s;
    assert Retrying(PreviousAttempts(before, stage), stage, limits, policy, action, trials);
    NoAttemptYet(before, stage);
    hide Retrying, PreviousAttempts;
    while true
      invariant n == |trials| && (n == 0 || PreviousAttempts(before, stage) + n < Max(1, policy.maxAttempts))
      invariant Retrying(PreviousAttempts(before, stage), stage, limits, policy, action, trials)
      invariant BetweenAttempts(before, session.Contents(), stage, n)
      invariant Inv(env, s') && s'.db == session.Contents() && s'.pc == Beginning(stage, turns)
                && s'.versions == s.versions
      invariant InputOf(env, s'.db, stage, turns) == InputOf(env, s.db, stage, turns)
      invariant clock.looks >= old(clock.looks)
      invariant forall k | 0 <= k < |trials| :: Clocked(clock.reading, old(clock.looks), trials[k])
      decreases Max(0, Max(1, policy.maxAttempts) - PreviousAttempts(before, stage) - n)
    {
      ghost var now, looked := session.Contents(), clock.looks;
      ghost var trial;
      ghost var began := s';
      var attempts;
      r, attempts, trial, s' := Attempt(session, stage, version, action, n, limits, clock, env, s', turns);
      StillClocked(clock.reading, old(clock.looks), looked, trial);
      AttemptContinues(before, now, session.Contents(), stage, version, n, r);
      OneMoreTrial(before, stage, limits, policy, action, trials, trial);
      trials := trials + [trial];
      n := n + 1;
      if r.Success? || !ShouldRetry(policy, r.error, attempts) {
        SettledEnd(env, s, session.Contents(), stage, turns, r, s', began);
        return;
      }
    }
  }

  lemma SettledEnd(env: Env, s: State, db: Db, stage: Stage, turns: seq<Turn>, r: Result<Content, StageError>,
                   s': State, began: State)
    requires EndsAt(env, began, s', db, stage, turns, r) && began.versions == s.versions
    ensures EndsAt(env, s, s', db, stage, turns, r)
  {
    hide Inv, EndPc, Usable;
  }

  method ExecuteStage(session: CheckpointSession, stage: Stage, version: string, action: nat -> Outcome,
                      maxAttempts: int, policy: RetryPolicy, limits: Limits, clock: Clock, ghost env: Env,
                      ghost s: State, ghost turns: seq<Turn>)
    returns (r: Result<Content, StageError>, ghost trials: seq<Trial>, ghost s': State)
    requires Inv(env, s) && s.db == session.Contents() && s.pc == Entering(stage, turns)
    requires Suits(env, s, stage, turns, version, limits, maxAttempts, policy, action)
    modifies session, clock
    ensures Executed(old(session.Contents()), session.Contents(), stage, version,
                     Late(limits, clock.reading(old(clock.looks))),
                     limits, maxAttempts, policy, action, trials, r)
    ensures |trials| <= Max(1, Max(1, policy.maxAttempts) - PreviousAttempts(old(session.Contents()), stage))
    ensures limits.deadline.Some? && limits.deadline.value <= clock.reading(old(clock.looks)) ==>
              IsDeadline(r) && trials == []
    ensures trials != [] ==>
              Tried(if stage in old(session.cells) then old(session.cells)[stage].attempts else 0, stage, limits,
                    policy, action, trials, r)
    ensures clock.looks >= old(clock.looks) && forall k | 0 <= k < |trials| ::
              Clocked(clock.reading, old(clock.looks), trials[k])
    ensures EndsAt(env, s, s', session.Contents(), stage, turns, r)
  {
    hide Inv, TrialResult, ShouldRetry, SettledDb, Retrying, Attempted, Suits, EndsAt, Loaded, Tried, Clocked;
    trials := [];
    if limits.deadline.Some? {
      var now := clock.Look();
      if now >= limits.deadline.value {
        r := Failure(DEADLINE);
        SuitedEntry(env, s, stage, turns, version, limits, maxAttempts, policy, action);
        s' := EnterIs(env, s, stage, turns, r);
        return;
      }
    }
    SuitedEntry(env, s, stage, turns, version, limits, maxAttempts, policy, action);
    var cached := session.Load(stage, version);
    if cached.Some? {
      r := Success(cached.value);
      s' := EnterIs(env, s, stage, turns, r);
      return;
    }
    if stage in session.cells && session.cells[stage].status == Failed {
      var error :=
        if session.cells[stage].error.Some? then session.cells[stage].error.value else StageError("", "", false);
      if !error.retryable || session.cells[stage].attempts >= maxAttempts {
        r := Failure(Reported(error));
        s' := EnterIs(env, s, stage, turns, r);
        return;
      }
    }
    ghost var began := InvalidateIs(env, s, stage, turns);
    ghost var looked := clock.looks;
    session.InvalidateDownstream(stage);
    r, trials, s' :=
      AttemptUntilSettled(session, stage, version, action, policy, limits, clock, env, began, turns, s.db);
    AttemptedIsTried(s.db, stage, limits, policy, action, trials, r);
    forall k | 0 <= k < |trials|
      ensures Clocked(clock.reading, old(clock.looks), trials[k])
    {
      StillClocked(clock.reading, old(clock.looks), looked, trials[k]);
    }
    SettledEnd(env, s, session.Contents(), stage, turns, r, s', began);
  }

  lemma SuitedEntry(env: Env, s: State, stage: Stage, turns: seq<Turn>, version: string, limits: Limits,
                    maxAttempts: int, policy: RetryPolicy, action: nat -> Outcome)
    requires Suits(env, s, stage, turns, version, limits, maxAttempts, policy, action)
    ensures env.maxAttempts == maxAttempts && env.policy == policy && s.versions(stage) == version
    ensures limits.deadline.Some? ==> env.timed
    ensures forall t: State | t.versions == s.versions
                              && InputOf(env, t.db, stage, turns) == InputOf(env, s.db, stage, turns) ::
              Suits(env, t, stage, turns, version, limits, maxAttempts, policy, action)
  {
  }

  // ---------------------------------------------------------------- process_file

  const QC_VERSION := "batch-qc-v1"

  /** The world a call of `process_file` is made in: `world(stage, input, k)` is the k-th answer in a stage's loop. */
  ghost predicate Allows(env: Env, versions: Stage -> string, world: (Stage, Content, nat) -> Outcome, maxAttempts: int,
                         policy: RetryPolicy, timed: bool)
  {
    && env.maxAttempts == maxAttempts && env.policy == policy && env.timed == timed
    && forall stage, input, k: nat :: env.may(stage, versions(stage), input, world(stage, input, k))
  }

  /** A stage about to be entered has its input. */
  lemma EntrySuits(env: Env, s: State, versions: Stage -> string, world: (Stage, Content, nat) -> Outcome,
                   maxAttempts: int, policy: RetryPolicy, limits: Limits, stage: Stage, turns: seq<Turn>)
    returns (input: Content)
    requires Inv(env, s) && s.pc == Entering(stage, turns) && s.versions == versions
    requires Allows(env, versions, world, maxAttempts, policy, limits.timeout.Some? || limits.deadline.Some?)
    ensures InputOf(env, s.db, stage, turns) == Some(input)
    ensures Suits(env, s, stage, turns, versions(stage), limits, maxAttempts, policy,
                  (k: nat) => world(stage, input, k))
    ensures stage.Asr? || stage.Emotion? ==> Transcode in s.db.blobs && input == s.db.blobs[Transcode]
  {
    hide FreshRows, Ready;
    ReadyHasInput(env, s, stage, turns);
    input := InputOf(env, s.db, stage, turns).value;
  }

  lemma Started(env: Env, s: State) returns (s': State)
    requires Inv(env, s) && s.pc.Idle?
    ensures Inv(env, s') && s'.db == s.db && s'.versions == s.versions && s'.pc == Entering(Transcode, [])
  {
    hide Inv;
    s' := s.(pc := Entering(Transcode, []));
    assert OutsideStep(env, s, s');
    assert Next(env, s, s') by { hide OutsideStep; }
    StepKeeps(env, s, s');
  }

  lemma FinishedExplains(env: Env, s: State, r: FileResult)
    requires Inv(env, s) && s.pc == Finished(r)
    ensures FromScratch(env, s.versions, r) && Speaks(env, s.versions, r)
  {
    hide FreshRows, FromScratch, Speaks;
    ScratchSpeaks(env, s.versions, r);
  }

  /** One stage's turn: the database around it, the look at the clock on entry, the attempts, and what came of it. */
  datatype Turned = Turned(stage: Stage, input: Content, before: Db, after: Db, look: nat, trials: seq<Trial>,
                           r: Result<Content, StageError>)

  /** What a call of `process_file` runs on: `reading` is the clock, looked at from `from` on. */
  datatype Setting = Setting(versions: Stage -> string, world: (Stage, Content, nat) -> Outcome, maxAttempts: int,
                             policy: RetryPolicy, limits: Limits, reading: nat -> real, from: nat)

  ghost predicate IsTurn(t: Turned, on: Setting) {
    var deadline := on.limits.deadline;
    && on.from <= t.look
    && Executed(t.before, t.after, t.stage, on.versions(t.stage),
                deadline.Some? && deadline.value <= on.reading(t.look), on.limits, on.maxAttempts, on.policy,
                (k: nat) => on.world(t.stage, t.input, k), t.trials, t.r)
    && forall k | 0 <= k < |t.trials| :: Clocked(on.reading, on.from, t.trials[k])
  }

  /** The stages take their turns in order, each on what the ones before it left, until one fails. */
  ghost predicate TakeTurns(turns: seq<Turned>, source: Content, before: Db, after: Db) {
    && 1 <= |turns| <= 4 && turns[0].before == before && turns[|turns| - 1].after == after
    && (forall k | 0 <= k < |turns| - 1 :: turns[k].r.Success? && turns[k + 1].before == turns[k].after)
    && turns[0].stage == Transcode && turns[0].input == source
    && (|turns| > 1 ==> turns[1].stage == Asr && OnAudio(turns[1]))
    && (|turns| > 2 ==> turns[2].stage == Emotion && OnAudio(turns[2]) && turns[1].r.value.Transcript?)
    && (|turns| > 3 ==> turns[3].stage == Quality && turns[3].input == turns[1].r.value)
    && (|turns| == 4 && turns[3].r.Success? ==> turns[3].r.value.Judged?)
  }

  ghost predicate OnAudio(t: Turned) {
    Transcode in t.before.blobs && t.input == t.before.blobs[Transcode]
  }

  lemma NextTurn(turns: seq<Turned>, t: Turned, source: Content, before: Db)
    requires TakeTurns(turns, source, before, t.before) && |turns| < 4 && turns[|turns| - 1].r.Success?
    requires |turns| == 1 ==> t.stage == Asr && OnAudio(t)
    requires |turns| == 2 ==> t.stage == Emotion && OnAudio(t) && turns[1].r.value.Transcript?
    requires |turns| == 3 ==> t.stage == Quality && t.input == turns[1].r.value && (t.r.Success? ==> t.r.value.Judged?)
    ensures TakeTurns(turns + [t], source, before, t.after)
  {
    hide OnAudio;
  }

  ghost predicate AllTurns(turns: seq<Turned>, on: Setting) {
    forall k | 0 <= k < |turns| :: IsTurn(turns[k], on)
  }

  lemma OneMoreTurn(turns: seq<Turned>, t: Turned, on: Setting)
    requires AllTurns(turns, on) && IsTurn(t, on)
    ensures AllTurns(turns + [t], on)
  {
    hide IsTurn;
  }

  /** The result is that of the last turn: its error, or the analysis. */
  ghost predicate EndsWith(turns: seq<Turned>, r: FileResult) {
    turns != [] &&
    var last := turns[|turns| - 1];
    && r.request == (if last.stage.Quality? && last.input.Transcript? then Some(last.input.turns) else None)
    && match last.r
       case Failure(e) =>
         r.status == Files.FailedFinal && r.analysis == None && r.reason == Some(Reason(last.stage, e.code, e.message))
       case Success(value) =>
         && |turns| == 4 && value.Judged? && r.analysis == Some(value.analysis) && r.reason == None
         && r.status == if value.analysis.status == Reports.PartialRun
                           || (value.analysis.report.Some?
                               && value.analysis.report.value.disposition == Reports.HumanReviewRequired)
                        then Files.HumanReview else Files.Done
  }

  lemma FailedEnds(turns: seq<Turned>, t: Turned, request: Option<seq<Turn>>)
    requires t.r.Failure? && request == if t.stage.Quality? && t.input.Transcript? then Some(t.input.turns) else None
    ensures EndsWith(turns + [t], FailedResult(t.stage, request, t.r.error))
  {
  }

  lemma FinalEnds(turns: seq<Turned>, t: Turned, request: seq<Turn>)
    requires |turns| == 3 && t.stage.Quality? && t.input == Content.Transcript(request)
    requires t.r.Success? && t.r.value.Judged?
    ensures EndsWith(turns + [t], FinalResult(request, t.r.value.analysis))
  {
  }

  /** The deadline counts from the first look at the clock. */
  ghost function LimitsFrom(stageTimeout: Option<real>, runDeadline: Option<real>, now: real): Limits {
    Limits(stageTimeout, if runDeadline.None? then None else Some(now + runDeadline.value))
  }

  lemma NoTurns(on: Setting)
    ensures AllTurns([], on)
  {
  }

  lemma FirstTurn(t: Turned)
    requires t.stage == Transcode
    ensures TakeTurns([t], t.input, t.before, t.after)
  {
  }

  /** `execute_stage` on the input of the stage, added to the record. */
  method TakeTurn(session: CheckpointSession, stage: Stage, input: Content, version: string,
                  world: (Stage, Content, nat) -> Outcome, maxAttempts: int, policy: RetryPolicy, limits: Limits,
                  clock: Clock, ghost env: Env, ghost s: State, ghost turns: seq<Turn>, ghost on: Setting,
                  ghost taken: seq<Turned>)
    returns (r: Result<Content, StageError>, ghost s': State, ghost t: Turned)
    requires Inv(env, s) && s.db == session.Contents() && s.pc == Entering(stage, turns)
    requires Suits(env, s, stage, turns, version, limits, maxAttempts, policy, (k: nat) => world(stage, input, k))
    requires version == on.versions(stage) && on.from <= clock.looks && AllTurns(taken, on)
    requires on == Setting(on.versions, world, maxAttempts, policy, limits, clock.reading, on.from)
    modifies session, clock
    ensures clock.looks >= old(clock.looks)
    ensures Inv(env, s') && s'.db == session.Contents() && s'.versions == s.versions
    ensures r.Failure? ==> s'.pc == Finished(FailedResult(stage, RequestAt(stage, turns), r.error))
    ensures r.Success? ==> Usable(stage, r.value) && s'.pc == After(stage, turns, r.value)
    ensures t.stage == stage && t.input == input && t.r == r
    ensures t.before == old(session.Contents()) && t.after == session.Contents()
    ensures AllTurns(taken + [t], on)
  {
    hide Inv, Suits, Executed, Clocked, Tried, AllTurns, FailedResult, After, Usable;
    ghost var look := clock.looks;
    ghost var trials, before := [], session.Contents();
    r, trials, s' := ExecuteStage(session, stage, version, (k: nat) => world(stage, input, k), maxAttempts, policy,
                                  limits, clock, env, s, turns);
    forall k | 0 <= k < |trials|
      ensures Clocked(clock.reading, on.from, trials[k])
    {
      StillClocked(clock.reading, on.from, look, trials[k]);
    }
    t := Turned(stage, input, before, session.Contents(), look, trials, r);
    OneMoreTurn(taken, t, on);
  }

  /** The last two stages, once there is a transcript. */
  method JudgeTranscript(session: CheckpointSession, turns: seq<Turn>, versions: Stage -> string,
                         world: (Stage, Content, nat) -> Outcome, maxAttempts: int, policy: RetryPolicy,
                         limits: Limits, clock: Clock, ghost env: Env, ghost s: State, ghost source: Content,
                         ghost db: Db, ghost on: Setting, ghost turned: seq<Turned>)
    returns (r: FileResult, ghost s': State, ghost taken: seq<Turned>)
    requires Inv(env, s) && s.db == session.Contents() && s.pc == Entering(Emotion, turns)
    requires s.versions == versions && versions(Quality) == QC_VERSION
    requires Allows(env, versions, world, maxAttempts, policy, limits.timeout.Some? || limits.deadline.Some?)
    requires TakeTurns(turned, source, db, session.Contents()) && AllTurns(turned, on)
    requires |turned| == 2 && turned[1].r == Success(Content.Transcript(turns))
    requires on == Setting(versions, world, maxAttempts, policy, limits, clock.reading, on.from)
    requires on.from <= clock.looks
    modifies session, clock
    ensures Inv(env, s') && s'.db == session.Contents() && s'.versions == versions && s'.pc == Finished(r)
    ensures FromScratch(env, versions, r) && Speaks(env, versions, r)
    ensures TakeTurns(taken, source, db, session.Contents()) && EndsWith(taken, r) && AllTurns(taken, on)
  {
    hide Inv, Allows, Suits, Executed, FromScratch, Speaks, InputOf, Clocked, Tried, IsTurn, AllTurns, TakeTurns,
         EndsWith, EndsAt, FailedResult, FinalResult;
    taken := turned;
    ghost var turn;
    ghost var input := EntrySuits(env, s, versions, world, maxAttempts, policy, limits, Emotion, turns);
    var wav := session.blobs[Transcode];
    var sensed;
    sensed, s', turn := TakeTurn(session, Emotion, wav, versions(Emotion), world, maxAttempts, policy,
                                  limits, clock, env, s, turns, on, taken);
    NextTurn(taken, turn, source, db);
    if sensed.Failure? {
      FailedEnds(taken, turn, None);
      taken := taken + [turn];
      r := FailedResult(Emotion, None, sensed.error);
      FinishedExplains(env, s', r);
      return;
    }

    taken := taken + [turn];
    input := EntrySuits(env, s', versions, world, maxAttempts, policy, limits, Quality, turns);
    var request := Content.Transcript(turns);
    assert input == request by { RequestIsInput(env, s'.db, turns, input); }
    var judged;
    judged, s', turn := TakeTurn(session, Quality, request, QC_VERSION, world, maxAttempts, policy,
                                  limits, clock, env, s', turns, on, taken);
    NextTurn(taken, turn, source, db);
    if judged.Failure? {
      r := FailedResult(Quality, Some(turns), judged.error);
      FailedEnds(taken, turn, Some(turns));
    } else {
      r := FinalResult(turns, judged.value.analysis);
      FinalEnds(taken, turn, turns);
    }
    taken := taken + [turn];
    FinishedExplains(env, s', r);
  }

  /** From any state a crash can leave behind, one call ends with a result recomputation could give. */
  method ProcessFile(session: CheckpointSession, source: Content, versions: Stage -> string,
                     world: (Stage, Content, nat) -> Outcome, attempts: int, policy: RetryPolicy,
                     stageTimeout: Option<real>, runDeadline: Option<real>, clock: Clock, ghost env: Env,
                     ghost s: State)
    returns (r: FileResult, ghost s': State, ghost taken: seq<Turned>)
    requires Inv(env, s) && s.pc.Idle? && s.db == session.Contents() && s.versions == versions
             && versions(Quality) == QC_VERSION
    requires env.source == source
    requires Allows(env, versions, world, Max(1, attempts), policy, stageTimeout.Some? || runDeadline.Some?)
    modifies session, clock
    ensures Inv(env, s') && s'.db == session.Contents() && s'.versions == versions && s'.pc == Finished(r)
    ensures FromScratch(env, versions, r) && Speaks(env, versions, r)
    ensures TakeTurns(taken, source, old(session.Contents()), session.Contents()) && EndsWith(taken, r)
    ensures AllTurns(taken, Setting(versions, world, Max(1, attempts), policy,
                                    LimitsFrom(stageTimeout, runDeadline, clock.reading(old(clock.looks))),
                                    clock.reading, old(clock.looks)))
  {
    hide Inv, Allows, Suits, Executed, FromScratch, Speaks, InputOf, Clocked, Tried, IsTurn, AllTurns, TakeTurns,
         EndsWith, EndsAt, FailedResult, FinalResult;
    ghost var db, looked := session.Contents(), clock.looks;
    taken := [];
    var maxAttempts := Max(1, attempts);
    var limits := Limits(stageTimeout, None);
    if runDeadline.Some? {
      var now := clock.Look();
      limits := Limits(stageTimeout, Some(now + runDeadline.value));
    }
    assert limits == LimitsFrom(stageTimeout, runDeadline, clock.reading(looked));
    hide LimitsFrom;
    ghost var turn;
    s' := Started(env, s);
    ghost var on := Setting(versions, world, maxAttempts, policy, limits, clock.reading, looked);
    NoTurns(on);

    ghost var input := EntrySuits(env, s', versions, world, maxAttempts, policy, limits, Transcode, []);
    assert input == source by { SourceIsInput(env, s'.db, input); }
    var transcoded;
    transcoded, s', turn := TakeTurn(session, Transcode, source, versions(Transcode), world, maxAttempts, policy,
                                      limits, clock, env, s', [], on, taken);
    FirstTurn(turn);
    taken := [] + [turn];
    assert taken == [turn];
    if transcoded.Failure? {
      FailedEnds([], turn, None);
      r := FailedResult(Transcode, None, transcoded.error);
      FinishedExplains(env, s', r);
      return;
    }

    input := EntrySuits(env, s', versions, world, maxAttempts, policy, limits, Asr, []);
    var wav := session.blobs[Transcode];
    var recognised;
    recognised, s', turn := TakeTurn(session, Asr, wav, versions(Asr), world, maxAttempts, policy,
                                      limits, clock, env, s', [], on, taken);
    NextTurn(taken, turn, source, db);
    if recognised.Failure? {
      FailedEnds(taken, turn, None);
      taken := taken + [turn];
      r := FailedResult(Asr, None, recognised.error);
      FinishedExplains(env, s', r);
      return;
    }
    var turns := recognised.value.turns;
    taken := taken + [turn];

    r, s', taken := JudgeTranscript(session, turns, versions, world, maxAttempts, policy, limits, clock, env, s',
                                    source, db, on, taken);
  }

  lemma SourceIsInput(env: Env, db: Db, input: Content)
    requires InputOf(env, db, Transcode, []) == Some(input)
    ensures input == env.source
  {
  }

  lemma RequestIsInput(env: Env, db: Db, turns: seq<Turn>, input: Content)
    requires InputOf(env, db, Quality, turns) == Some(input)
    ensures input == Content.Transcript(turns)
  {
  }
}
