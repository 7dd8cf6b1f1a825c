/** When a resumed run can differ from an uninterrupted one: exactly when the failure has a blank text and its row is
    reached again (qc/batch/pipeline.py). */
module BlankReasons {
  import opened Common
  import opened Stages
  import opened Retry
  import opened Pipeline
  import opened Recovery
  import opened Resumption

  /** Deterministic stages that always answer. */
  ghost predicate Plays(env: Env, f: Behaviour) {
    && Follows(env, f)
    && forall stage, version, input :: env.may(stage, version, input, f(stage, version, input))
  }

  // ---------------------------------------------------------------- the uninterrupted run, stage by stage

  function TurnsAt(stage: Stage, turns: seq<Turn>): seq<Turn> {
    if stage.Emotion? || stage.Quality? then turns else []
  }

  function InputAt(source: Content, stage: Stage, wav: Content, turns: seq<Turn>): Content {
    match stage
    case Transcode => source
    case Quality => Content.Transcript(turns)
    case _ => wav
  }

  /** The uninterrupted run gets to the stage, with this audio and transcript where it has them by then. */
  ghost predicate Arrives(f: Behaviour, vs: Stage -> string, source: Content, stage: Stage, wav: Content,
                          turns: seq<Turn>) {
    && (!stage.Transcode? ==> Effect(Transcode, f(Transcode, vs(Transcode), source)) == Success(wav))
    && (stage.Emotion? || stage.Quality? ==> Effect(Asr, f(Asr, vs(Asr), wav)) == Success(Content.Transcript(turns)))
    && (stage.Quality? ==> Effect(Emotion, f(Emotion, vs(Emotion), wav)).Success?)
  }

  /** A run that fails does so at a stage it arrives at. */
  lemma ExpectedFailure(f: Behaviour, vs: Stage -> string, source: Content)
    returns (stage: Stage, wav: Content, turns: seq<Turn>, error: StageError)
    requires Expected(f, vs, source).reason.Some?
    ensures Arrives(f, vs, source, stage, wav, turns)
    ensures Effect(stage, f(stage, vs(stage), InputAt(source, stage, wav, turns))) == Failure(error)
    ensures Expected(f, vs, source) == FailedResult(stage, RequestAt(stage, turns), error)
  {
    hide Effect, FinalResult;
    wav, turns := source, [];
    var transcoded := Effect(Transcode, f(Transcode, vs(Transcode), source));
    if transcoded.Failure? {
      return Transcode, wav, turns, transcoded.error;
    }
    wav := transcoded.value;
    var recognised := Effect(Asr, f(Asr, vs(Asr), wav));
    if recognised.Failure? {
      return Asr, wav, turns, recognised.error;
    }
    turns := recognised.value.turns;
    var sensed := Effect(Emotion, f(Emotion, vs(Emotion), wav));
    if sensed.Failure? {
      return Emotion, wav, turns, sensed.error;
    }
    var judged := Effect(Quality, f(Quality, vs(Quality), Content.Transcript(turns)));
    FinalHasNoReason(turns, judged);
    return Quality, wav, turns, judged.error;
  }

  lemma FinalHasNoReason(turns: seq<Turn>, judged: Result<Content, StageError>)
    ensures judged.Success? && judged.value.Judged? ==> FinalResult(turns, judged.value.analysis).reason.None?
  {
  }

  // ---------------------------------------------------------------- what a row can say under deterministic stages

  lemma ReachableIsOk(env: Env, s: State)
    requires Reachable(env, s)
    ensures Inv(env, s)
  {
    hide Inv;
    var run :| IsRun(env, run) && run[|run| - 1] == s;
    RunKeeps(env, run);
  }

  /** On entering a stage its input is the one the uninterrupted run has there. */
  lemma EnteredInput(env: Env, f: Behaviour, s: State, stage: Stage, wav: Content, turns: seq<Turn>)
    requires Inv(env, s) && Follows(env, f) && s.pc == Entering(stage, TurnsAt(stage, turns))
    requires Arrives(f, s.versions, env.source, stage, wav, turns)
    ensures InputOf(env, s.db, stage, TurnsAt(stage, turns)) == Some(InputAt(env.source, stage, wav, turns))
  {
    hide CanYield, Effect, FreshRows, Ready, Unclaimed, Follows;
    ReadyHasInput(env, s, stage, TurnsAt(stage, turns));
    ReadyChain(env, s, stage, TurnsAt(stage, turns));
    if stage.Asr? || stage.Emotion? {
      YieldsOnlyThat(env, f, Transcode, Origin(env.source, s.versions(Transcode)), s.db.blobs[Transcode]);
    }
  }

  /** A loadable checkpoint holds what the stage answers, a failed row how it fails. */
  lemma RowsAreExpected(env: Env, f: Behaviour, s: State, stage: Stage, turns: seq<Turn>, input: Content)
    requires Inv(env, s) && Follows(env, f) && s.pc == Entering(stage, turns)
    requires InputOf(env, s.db, stage, turns) == Some(input)
    ensures var effect, cached :=
              Effect(stage, f(stage, s.versions(stage), input)), Loaded(s.db, stage, s.versions(stage));
            && (cached.Some? ==> effect == Success(cached.value) && Usable(stage, cached.value))
            && (stage in s.db.cells && s.db.cells[stage].status.Failed? ==>
                  s.db.cells[stage].error.Some? && effect == Failure(s.db.cells[stage].error.value))
  {
    hide CanYield, CanRaise, Effect, Loaded, Ready, Follows, FreshInput, HoldsYield, Unclaimed, Usable;
    ReadyHasInput(env, s, stage, turns);
    assert FreshRow(env, s.db, s.origins, stage);
    assert !env.upgrades by { NoUpgrades(env, f); }
    if Loaded(s.db, stage, s.versions(stage)).Some? {
      LoadedIsAnswer(env, f, s, stage, input, Loaded(s.db, stage, s.versions(stage)).value);
    }
    if stage in s.db.cells && s.db.cells[stage].status.Failed? {
      SameInput(env, s.db, stage, s.origins[stage].input, input);
      RaisesOnlyThat(env, f, stage, s.origins[stage], s.db.cells[stage].error.value);
    }
  }

  lemma NoUpgrades(env: Env, f: Behaviour)
    requires Follows(env, f)
    ensures !env.upgrades && !env.timed
  {
  }

  lemma RaisesOnlyThat(env: Env, f: Behaviour, stage: Stage, origin: Origin, error: StageError)
    requires Follows(env, f) && CanRaise(env, stage, origin, error)
    ensures Effect(stage, f(stage, origin.version, origin.input)) == Failure(error)
  {
    hide Effect;
  }

  lemma LoadedIsAnswer(env: Env, f: Behaviour, s: State, stage: Stage, input: Content, value: Content)
    requires FreshRows(env, s) && Follows(env, f) && Loaded(s.db, stage, s.versions(stage)) == Some(value)
    requires FreshInput(env, s.db, stage, input)
    ensures Effect(stage, f(stage, s.versions(stage), input)) == Success(value) && Usable(stage, value)
  {
    hide FreshRows, CanYield, Follows, Loaded, FreshInput, Effect;
    LoadedIsCurrent(env, s, stage, value);
    var yielded := CurrentYields(env, s, stage);
    var origin := Origin(s.origins[stage].input, s.versions(stage));
    YieldFits(env, stage, origin, yielded);
    SameInput(env, s.db, stage, origin.input, input);
    YieldsOnlyThat(env, f, stage, origin, yielded);
  }

  // ---------------------------------------------------------------- moving through a stage

  /** The stage's row and artifact are as they were. */
  predicate Untouched(a: Db, b: Db, stage: Stage) {
    && (stage in a.cells <==> stage in b.cells) && (stage in a.cells ==> a.cells[stage] == b.cells[stage])
    && (stage in a.blobs <==> stage in b.blobs) && (stage in a.blobs ==> a.blobs[stage] == b.blobs[stage])
  }

  lemma UntouchedLoads(a: Db, b: Db, stage: Stage, version: string)
    requires Untouched(a, b, stage)
    ensures Loaded(a, stage, version) == Loaded(b, stage, version)
  {
    hide Parsed;
  }

  ghost predicate OthersUntouched(a: Db, b: Db, stage: Stage) {
    forall d | d != stage && d !in Downstream(stage) :: Untouched(a, b, d)
  }

  /** Enter a stage that has neither checkpoint nor final failure, invalidate its downstream, begin. */
  lemma BeginStage(env: Env, s: State, stage: Stage, turns: seq<Turn>, input: Content) returns (t: State)
    requires Reachable(env, s) && s.pc == Entering(stage, turns) && InputOf(env, s.db, stage, turns) == Some(input)
    requires Loaded(s.db, stage, s.versions(stage)).None? && !Exhausted(s.db, stage, env.maxAttempts)
    ensures Reachable(env, t) && t.pc == Acting(stage, turns) && t.versions == s.versions
    ensures InputOf(env, t.db, stage, turns) == Some(input) && OthersUntouched(s.db, t.db, stage)
    ensures stage in t.db.cells && t.db.cells[stage].attempts == PreviousAttempts(s.db, stage) + 1
  {
    hide Reachable, Loaded, Exhausted;
    var invalidating := s.(pc := Invalidating(stage, turns));
    assert EnterStep(env, s, invalidating);
    OneMoreStep(env, s, invalidating);
    var beginning := invalidating.(db := InvalidateDb(s.db, stage), pc := Beginning(stage, turns));
    assert InvalidateStep(invalidating, beginning);
    OneMoreStep(env, invalidating, beginning);
    t := beginning.(db := BeginDb(beginning.db, stage), pc := Acting(stage, turns),
                    origins := s.origins[stage := Origin(input, s.versions(stage))]);
    assert BeginStep(env, beginning, t);
    OneMoreStep(env, beginning, t);
    assert stage !in Downstream(stage);
  }

  /** A stage that answers is passed, from its checkpoint or by running it. */
  lemma PassStage(env: Env, f: Behaviour, s: State, stage: Stage, turns: seq<Turn>, input: Content, value: Content)
    returns (t: State)
    requires Reachable(env, s) && Plays(env, f) && s.pc == Entering(stage, turns)
    requires InputOf(env, s.db, stage, turns) == Some(input)
    requires Effect(stage, f(stage, s.versions(stage), input)) == Success(value)
    ensures Reachable(env, t) && t.versions == s.versions && Usable(stage, value) && t.pc == After(stage, turns, value)
    ensures OthersUntouched(s.db, t.db, stage)
    ensures Loaded(s.db, stage, s.versions(stage)).Some? ==> t.db == s.db
    ensures s.versions(stage) != "" ==> Loaded(t.db, stage, s.versions(stage)).Some?
  {
    hide Reachable, Inv, Effect, Follows, Loaded;
    ReachableIsOk(env, s);
    RowsAreExpected(env, f, s, stage, turns, input);
    var cached := Loaded(s.db, stage, s.versions(stage));
    if cached.Some? {
      t := s.(pc := After(stage, turns, value));
      assert EnterStep(env, s, t);
      OneMoreStep(env, s, t);
    } else {
      var acting := BeginStage(env, s, stage, turns, input);
      t := AnswerStage(env, acting, stage, turns, f(stage, s.versions(stage), input), input, value);
      CombineUntouched(s.db, acting.db, t.db, stage);
    }
  }

  lemma CombineUntouched(a: Db, b: Db, c: Db, stage: Stage)
    requires OthersUntouched(a, b, stage) && OthersUntouched(b, c, stage)
    ensures OthersUntouched(a, c, stage)
  {
  }

  lemma AnswerStage(env: Env, s: State, stage: Stage, turns: seq<Turn>, outcome: Outcome, input: Content,
                    value: Content)
    returns (t: State)
    requires Reachable(env, s) && s.pc == Acting(stage, turns) && stage in s.db.cells
    requires InputOf(env, s.db, stage, turns) == Some(input) && env.may(stage, s.versions(stage), input, outcome)
    requires Effect(stage, outcome) == Success(value)
    ensures Reachable(env, t) && t.versions == s.versions && Usable(stage, value) && t.pc == After(stage, turns, value)
    ensures OthersUntouched(s.db, t.db, stage)
    ensures s.versions(stage) != "" ==> Loaded(t.db, stage, s.versions(stage)).Some?
  {
    hide Reachable, Effect, FinalResult, Stored, Loaded, InputOf;
    var storing := s.(pc := Storing(stage, turns, value));
    assert ActStep(env, s, storing, outcome);
    OneMoreStep(env, s, storing);
    var bytes := Stored(value, s.versions(stage));
    var completing := storing.(db := PutDb(s.db, stage, bytes), pc := Completing(stage, turns, value));
    assert StoreStep(storing, completing);
    OneMoreStep(env, storing, completing);
    t :=
      completing.(db := CompleteDb(completing.db, stage, bytes, s.versions(stage)), pc := After(stage, turns, value));
    assert CompleteStep(completing, t);
    OneMoreStep(env, completing, t);
    CheckpointRoundTrip(s.db, stage, value, s.versions(stage));
  }

  /** A stage that fails once, and a crash after the failure is recorded. */
  lemma FailOnce(env: Env, f: Behaviour, s: State, stage: Stage, turns: seq<Turn>, input: Content, error: StageError)
    returns (t: State)
    requires Reachable(env, s) && Plays(env, f) && s.pc == Entering(stage, turns)
    requires InputOf(env, s.db, stage, turns) == Some(input) && !Exhausted(s.db, stage, env.maxAttempts)
    requires Effect(stage, f(stage, s.versions(stage), input)) == Failure(error)
    ensures Reachable(env, t) && t.versions == s.versions && t.pc.Idle? && OthersUntouched(s.db, t.db, stage)
    ensures RecordedAs(t.db, stage, error) && t.db.cells[stage].attempts == PreviousAttempts(s.db, stage) + 1
  {
    hide Reachable, Inv, Effect, Follows, Loaded, Exhausted;
    ReachableIsOk(env, s);
    RowsAreExpected(env, f, s, stage, turns, input);
    var acting := BeginStage(env, s, stage, turns, input);
    var outcome := f(stage, s.versions(stage), input);
    var failing := acting.(pc := Failing(stage, turns, error));
    assert ActStep(env, acting, failing, outcome);
    OneMoreStep(env, acting, failing);
    var attempts := failing.db.cells[stage].attempts;
    var failed := failing.(db := FailDb(failing.db, stage, error),
                           pc := if ShouldRetry(env.policy, error, attempts) then Beginning(stage, turns)
                                 else Finished(FailedResult(stage, RequestAt(stage, turns), error)));
    assert FailStep(env, failing, failed);
    OneMoreStep(env, failing, failed);
    t := failed.(pc := Idle);
    assert OutsideStep(env, failed, t);
    OneMoreStep(env, failed, t);
  }

  predicate RecordedAs(db: Db, stage: Stage, error: StageError) {
    stage in db.cells && db.cells[stage].status.Failed? && db.cells[stage].error == Some(error)
  }

  /** The checkpoints whose loss would invalidate the stage's row can be loaded. */
  ghost predicate UpstreamLoaded(s: State, stage: Stage) {
    forall u | stage in Downstream(u) :: Loaded(s.db, u, s.versions(u)).Some?
  }

  lemma StageKeepsUpstream(s: State, t: State, stage: Stage)
    requires UpstreamLoaded(s, stage) && OthersUntouched(s.db, t.db, stage) && t.versions == s.versions
    ensures UpstreamLoaded(t, stage)
  {
    hide Loaded;
    forall u | stage in Downstream(u)
      ensures Loaded(t.db, u, t.versions(u)).Some?
    {
      assert u != stage && u !in Downstream(stage);
      UntouchedLoads(s.db, t.db, u, s.versions(u));
    }
  }

  // ---------------------------------------------------------------- from idle to a stage

  function Previous(stage: Stage): Stage
    requires !stage.Transcode?
  {
    match stage
    case Asr => Transcode
    case Emotion => Asr
    case Quality => Emotion
  }

  /** The stages before this one that have a version text can be loaded. */
  ghost predicate EarlierLoaded(s: State, stage: Stage) {
    forall u | Place(u) < Place(stage) && s.versions(u) != "" :: Loaded(s.db, u, s.versions(u)).Some?
  }

  /** From here on, rows over loadable checkpoints are as they were. */
  ghost predicate LaterUntouched(s: State, t: State, stage: Stage) {
    forall d | Place(d) >= Place(stage) && UpstreamLoaded(s, d) :: Untouched(s.db, t.db, d)
  }

  lemma PassingKeeps(s: State, at: State, t: State, previous: Stage, stage: Stage)
    requires !stage.Transcode? && previous == Previous(stage)
    requires at.versions == s.versions == t.versions
    requires EarlierLoaded(at, previous) && LaterUntouched(s, at, previous) && OthersUntouched(at.db, t.db, previous)
    requires Loaded(at.db, previous, at.versions(previous)).Some? ==> t.db == at.db
    requires at.versions(previous) != "" ==> Loaded(t.db, previous, at.versions(previous)).Some?
    ensures EarlierLoaded(t, stage) && LaterUntouched(s, t, stage)
  {
    hide Loaded, Untouched;
    forall u | Place(u) < Place(stage) && t.versions(u) != ""
      ensures Loaded(t.db, u, t.versions(u)).Some?
    {
      if u != previous {
        assert u !in Downstream(previous);
        UntouchedLoads(at.db, t.db, u, t.versions(u));
      }
    }
    forall d | Place(d) >= Place(stage) && UpstreamLoaded(s, d)
      ensures Untouched(s.db, t.db, d)
    {
      if d in Downstream(previous) {
        assert UpstreamLoaded(s, previous);
        UntouchedLoads(s.db, at.db, previous, s.versions(previous));
      } else {
        UntouchedTwice(s.db, at.db, t.db, d);
      }
    }
  }

  lemma UntouchedTwice(a: Db, b: Db, c: Db, d: Stage)
    requires Untouched(a, b, d) && Untouched(b, c, d)
    ensures Untouched(a, c, d)
  {
  }

  /** A pass from the start up to a stage the uninterrupted run arrives at. */
  lemma {:induction false} Approach(env: Env, f: Behaviour, s: State, stage: Stage, wav: Content, turns: seq<Turn>)
    returns (t: State)
    requires Reachable(env, s) && s.pc.Idle? && Plays(env, f)
    requires Arrives(f, s.versions, env.source, stage, wav, turns)
    ensures Reachable(env, t) && t.versions == s.versions && t.pc == Entering(stage, TurnsAt(stage, turns))
    ensures InputOf(env, t.db, stage, TurnsAt(stage, turns)) == Some(InputAt(env.source, stage, wav, turns))
    ensures EarlierLoaded(t, stage) && LaterUntouched(s, t, stage)
    decreases Place(stage)
  {
    hide Reachable, Effect, EarlierLoaded, LaterUntouched, Inv, InputOf, OthersUntouched, Loaded;
    if stage.Transcode? {
      t := s.(pc := Entering(Transcode, []));
      assert OutsideStep(env, s, t);
      OneMoreStep(env, s, t);
      NothingEarlier(s, t);
    } else {
      var previous := Previous(stage);
      var at := Approach(env, f, s, previous, wav, turns);
      var input := InputAt(env.source, previous, wav, turns);
      var value := Effect(previous, f(previous, s.versions(previous), input)).value;
      t := PassStage(env, f, at, previous, TurnsAt(previous, turns), input, value);
      PassingKeeps(s, at, t, previous, stage);
    }
    ReachableIsOk(env, t);
    EnteredInput(env, f, t, stage, wav, turns);
  }

  lemma NothingEarlier(s: State, t: State)
    requires t.db == s.db
    ensures EarlierLoaded(t, Transcode) && LaterUntouched(s, t, Transcode)
  {
    hide Loaded;
  }

  lemma NamedAreLoaded(t: State, stage: Stage)
    requires EarlierLoaded(t, stage) && UpstreamNamed(t.versions, stage)
    ensures UpstreamLoaded(t, stage)
  {
    hide Loaded;
  }

  // ---------------------------------------------------------------- the recorded failure is raised again

  /** More failing passes, until the row is final. */
  lemma {:induction false} FailUntilFinal(env: Env, f: Behaviour, s: State, stage: Stage, wav: Content,
                                          turns: seq<Turn>, error: StageError) returns (t: State)
    requires Reachable(env, s) && s.pc.Idle? && Plays(env, f)
    requires Arrives(f, s.versions, env.source, stage, wav, turns)
    requires Effect(stage, f(stage, s.versions(stage), InputAt(env.source, stage, wav, turns))) == Failure(error)
    requires RecordedAs(s.db, stage, error) && UpstreamLoaded(s, stage)
    ensures Reachable(env, t) && t.pc.Idle? && t.versions == s.versions
    ensures RecordedAs(t.db, stage, error) && UpstreamLoaded(t, stage) && Exhausted(t.db, stage, env.maxAttempts)
    decreases Max(0, env.maxAttempts - s.db.cells[stage].attempts)
  {
    hide Reachable, Effect, EarlierLoaded, UpstreamLoaded, OthersUntouched, Plays, Arrives, Loaded, InputOf;
    if Exhausted(s.db, stage, env.maxAttempts) {
      t := s;
    } else {
      var at := Approach(env, f, s, stage, wav, turns);
      assert Untouched(s.db, at.db, stage);
      UpstreamStays(s, at, stage);
      var failed := FailOnce(env, f, at, stage, TurnsAt(stage, turns), InputAt(env.source, stage, wav, turns), error);
      StageKeepsUpstream(at, failed, stage);
      t := FailUntilFinal(env, f, failed, stage, wav, turns, error);
    }
  }

  lemma UpstreamStays(s: State, t: State, stage: Stage)
    requires UpstreamLoaded(s, stage) && EarlierLoaded(t, stage) && t.versions == s.versions
    ensures UpstreamLoaded(t, stage)
  {
    hide Parsed;
  }

  /** Wherever the uninterrupted run fails, some run raises the same failure from its row. */
  lemma RaisedAgain(env: Env, f: Behaviour, vs: Stage -> string, stage: Stage, wav: Content, turns: seq<Turn>,
                    error: StageError)
    returns (s: State)
    requires Plays(env, f) && UpstreamNamed(vs, stage) && Arrives(f, vs, env.source, stage, wav, turns)
    requires Effect(stage, f(stage, vs(stage), InputAt(env.source, stage, wav, turns))) == Failure(error)
    ensures Reachable(env, s) && s.versions == vs
    ensures s.pc == Finished(FailedResult(stage, RequestAt(stage, turns), Reported(error)))
  {
    hide Reachable, Effect, EarlierLoaded, UpstreamLoaded, OthersUntouched, Plays, Arrives, Loaded, UpstreamNamed,
         InputOf;
    var idle := CrashesOutrunTheBudget(env, vs, 0);
    var at := Approach(env, f, idle, stage, wav, turns);
    NamedAreLoaded(at, stage);
    var input := InputAt(env.source, stage, wav, turns);
    assert RequestAt(stage, TurnsAt(stage, turns)) == RequestAt(stage, turns);
    if Exhausted(at.db, stage, env.maxAttempts) {
      ReachableIsOk(env, at);
      PlaysFollows(env, f);
      RowsAreExpected(env, f, at, stage, TurnsAt(stage, turns), input);
      s := RaiseRecorded(env, at, stage, TurnsAt(stage, turns), error);
    } else {
      var failed := FailOnce(env, f, at, stage, TurnsAt(stage, turns), input, error);
      StageKeepsUpstream(at, failed, stage);
      var final := FailUntilFinal(env, f, failed, stage, wav, turns, error);
      var entered := Approach(env, f, final, stage, wav, turns);
      assert Untouched(final.db, entered.db, stage);
      s := RaiseRecorded(env, entered, stage, TurnsAt(stage, turns), error);
    }
  }

  lemma RaiseRecorded(env: Env, s: State, stage: Stage, turns: seq<Turn>, error: StageError) returns (t: State)
    requires Reachable(env, s) && s.pc == Entering(stage, turns)
    requires RecordedAs(s.db, stage, error) && Exhausted(s.db, stage, env.maxAttempts)
    ensures Reachable(env, t) && t.versions == s.versions
    ensures t.pc == Finished(FailedResult(stage, RequestAt(stage, turns), Reported(error)))
  {
    hide Reachable, FailedResult, Reported, RequestAt;
    t := RaiseFinal(env, s);
  }

  // ---------------------------------------------------------------- the exact condition

  /** Every finished file equals the uninterrupted run exactly when that run does not fail with a blank text, or fails
      downstream of a producer without a version, whose re-run always clears the failed row. */
  lemma ResumeEqualsExactly(env: Env, f: Behaviour, vs: Stage -> string)
    requires Plays(env, f)
    ensures var expected := Expected(f, vs, env.source);
            (forall s | Reachable(env, s) && s.versions == vs && s.pc.Finished? :: s.pc.result == expected)
            <==> Legible(expected) || !UpstreamNamed(vs, expected.reason.value.stage)
  {
    hide Reachable, Expected, UpstreamNamed, Plays;
    var expected := Expected(f, vs, env.source);
    PlaysFollows(env, f);
    if Legible(expected) || !UpstreamNamed(vs, expected.reason.value.stage) {
      forall s | Reachable(env, s) && s.versions == vs && s.pc.Finished?
        ensures s.pc.result == expected
      {
        ResumeEquivalence(env, f, s);
      }
    } else {
      var stage, wav, turns, error := ExpectedFailure(f, vs, env.source);
      var s := RaisedAgain(env, f, vs, stage, wav, turns, error);
      assert s.pc.result != expected;
    }
  }

  lemma PlaysFollows(env: Env, f: Behaviour)
    requires Plays(env, f)
    ensures Follows(env, f)
  {
    hide Follows;
  }
}
