/** What crash-and-resume cannot change: the result of a file (qc/batch/pipeline.py). */
module Resumption {
  import opened Common
  import opened Stages
  import opened Pipeline
  import opened Recovery
  import Files

  /** Stage functions: what each producer version answers on each input. */
  type Behaviour = (Stage, string, Content) -> Outcome

  /** One uninterrupted pass that never looks at a checkpoint. */
  function Expected(f: Behaviour, vs: Stage -> string, source: Content): FileResult {
    match Effect(Transcode, f(Transcode, vs(Transcode), source))
    case Failure(e) => FailedResult(Transcode, None, e)
    case Success(wav) =>
      match Effect(Asr, f(Asr, vs(Asr), wav))
      case Failure(e) => FailedResult(Asr, None, e)
      case Success(transcript) =>
        match Effect(Emotion, f(Emotion, vs(Emotion), wav))
        case Failure(e) => FailedResult(Emotion, None, e)
        case Success(_) =>
          match Effect(Quality, f(Quality, vs(Quality), Content.Transcript(transcript.turns)))
          case Failure(e) => FailedResult(Quality, Some(transcript.turns), e)
          case Success(judged) => FinalResult(transcript.turns, judged.analysis)
  }

  /** Deterministic stages, fixed producer versions, no deadline. */
  ghost predicate Follows(env: Env, f: Behaviour) {
    && !env.timed && !env.upgrades
    && forall stage, version, input, outcome | env.may(stage, version, input, outcome) ::
         outcome == f(stage, version, input)
  }

  /** A reason as it reads after being recorded and raised again. */
  function Shown(r: FileResult): FileResult {
    match r.reason
    case None => r
    case Some(why) =>
      var error := Reported(StageError(why.code, why.message, false));
      r.(reason := Some(Reason(why.stage, error.code, error.message)))
  }

  /** The result is the expected one, or the expected failure as its row shows it. The latter needs checkpoints that
      can be loaded before the failed stage, or the pass would invalidate the row on its way. */
  predicate ResumesAs(vs: Stage -> string, r: FileResult, expected: FileResult) {
    || r == expected
    || (expected.reason.Some? && UpstreamNamed(vs, expected.reason.value.stage) && r == Shown(expected))
  }

  lemma ResumesAsItself(vs: Stage -> string, r: FileResult)
    ensures ResumesAs(vs, r, r)
  {
  }

  predicate Legible(r: FileResult) {
    r.reason.Some? ==> r.reason.value.code != "" && r.reason.value.message != ""
  }

  lemma YieldsOnlyThat(env: Env, f: Behaviour, stage: Stage, origin: Origin, value: Content)
    requires Follows(env, f) && CanYield(env, stage, origin, value)
    ensures Effect(stage, f(stage, origin.version, origin.input)) == Success(value)
  {
    hide Effect;
  }

  lemma FailsOnlyThus(env: Env, f: Behaviour, vs: Stage -> string, stage: Stage, turns: seq<Turn>, input: Content,
                      r: FileResult)
    requires Follows(env, f) && FailsAt(env, vs, stage, turns, input, r)
    ensures var effect := Effect(stage, f(stage, vs(stage), input));
            effect.Failure? && ResumesAs(vs, r, FailedResult(stage, RequestAt(stage, turns), effect.error))
  {
    hide Effect, UpstreamNamed;
  }

  lemma ScratchIsExpected(env: Env, f: Behaviour, vs: Stage -> string, r: FileResult)
    requires Follows(env, f) && FromScratch(env, vs, r)
    ensures ResumesAs(vs, r, Expected(f, vs, env.source))
  {
    hide Effect, Follows, FailsAt, CanYield, FromWav, FailedResult, FinalResult, ResumesAs;
    if FailsAt(env, vs, Transcode, [], env.source, r) {
      FailsOnlyThus(env, f, vs, Transcode, [], env.source, r);
    } else {
      var wav :| CanYield(env, Transcode, Origin(env.source, vs(Transcode)), wav) && FromWav(env, vs, wav, r);
      YieldsOnlyThat(env, f, Transcode, Origin(env.source, vs(Transcode)), wav);
      WavIsExpected(env, f, vs, wav, r);
    }
  }

  lemma WavIsExpected(env: Env, f: Behaviour, vs: Stage -> string, wav: Content, r: FileResult)
    requires Follows(env, f) && FromWav(env, vs, wav, r)
    requires Effect(Transcode, f(Transcode, vs(Transcode), env.source)) == Success(wav)
    ensures ResumesAs(vs, r, Expected(f, vs, env.source))
  {
    hide Effect, Follows, FailsAt, CanYield, FromTurns, FailedResult, FinalResult, ResumesAs;
    if FailsAt(env, vs, Asr, [], wav, r) {
      FailsOnlyThus(env, f, vs, Asr, [], wav, r);
    } else {
      var turns :| CanYield(env, Asr, Origin(wav, vs(Asr)), Content.Transcript(turns))
                   && FromTurns(env, vs, wav, turns, r);
      YieldsOnlyThat(env, f, Asr, Origin(wav, vs(Asr)), Content.Transcript(turns));
      TurnsAreExpected(env, f, vs, wav, turns, r);
    }
  }

  lemma TurnsAreExpected(env: Env, f: Behaviour, vs: Stage -> string, wav: Content, turns: seq<Turn>, r: FileResult)
    requires Follows(env, f) && FromTurns(env, vs, wav, turns, r)
    requires Effect(Transcode, f(Transcode, vs(Transcode), env.source)) == Success(wav)
    requires Effect(Asr, f(Asr, vs(Asr), wav)) == Success(Content.Transcript(turns))
    ensures ResumesAs(vs, r, Expected(f, vs, env.source))
  {
    hide Effect, Follows, FailsAt, CanYield, FailedResult, FinalResult, ResumesAs;
    if FailsAt(env, vs, Emotion, turns, wav, r) {
      FailsOnlyThus(env, f, vs, Emotion, turns, wav, r);
    } else {
      var mood :| CanYield(env, Emotion, Origin(wav, vs(Emotion)), mood);
      YieldsOnlyThat(env, f, Emotion, Origin(wav, vs(Emotion)), mood);
      if FailsAt(env, vs, Quality, turns, Content.Transcript(turns), r) {
        FailsOnlyThus(env, f, vs, Quality, turns, Content.Transcript(turns), r);
      } else {
        var a :| CanYield(env, Quality, Origin(Content.Transcript(turns), vs(Quality)), Judged(a))
                 && r == FinalResult(turns, a);
        YieldsOnlyThat(env, f, Quality, Origin(Content.Transcript(turns), vs(Quality)), Judged(a));
        ResumesAsItself(vs, r);
      }
    }
  }

  /** Crash-resume equivalence: whatever pattern of crashes, restarts and lost or altered artifacts preceded it,
      a finished file has the status, request, result and reason of one uninterrupted recomputation. The only
      trace a crash can leave is that a blank error text, raised again from its row, is replaced. */
  lemma ResumeEquivalence(env: Env, f: Behaviour, s: State)
    requires Follows(env, f) && Reachable(env, s) && s.pc.Finished?
    ensures var expected := Expected(f, s.versions, env.source);
            && ResumesAs(s.versions, s.pc.result, expected)
            && (Legible(expected) ==> s.pc.result == expected)
            && s.pc.result.status == expected.status && s.pc.result.analysis == expected.analysis
            && s.pc.result.request == expected.request
  {
    hide Reachable, FromScratch, Follows, Expected, UpstreamNamed;
    ReuseRefinesRecomputation(env, s);
    ScratchIsExpected(env, f, s.versions, s.pc.result);
  }

  // ---------------------------------------------------------------- flaky stages, deadlines, upgrades

  /** Stages may fail at any time, but a stage that answers gives one answer per version and input. */
  ghost predicate OneAnswer(env: Env) {
    forall stage, origin, v, w | CanYield(env, stage, origin, v) && CanYield(env, stage, origin, w) :: v == w
  }

  /** A result that is not a failure spells out the whole chain behind it. */
  lemma SuccessChain(env: Env, vs: Stage -> string, r: FileResult)
    returns (wav: Content, turns: seq<Turn>, a: Analysis)
    requires FromScratch(env, vs, r) && r.status != Files.FailedFinal
    ensures CanYield(env, Transcode, Origin(env.source, vs(Transcode)), wav)
    ensures CanYield(env, Asr, Origin(wav, vs(Asr)), Content.Transcript(turns))
    ensures CanYield(env, Quality, Origin(Content.Transcript(turns), vs(Quality)), Judged(a))
    ensures r == FinalResult(turns, a)
  {
    hide CanYield, CanRaise, FinalResult, FromScratch, FromWav, FromTurns, FromMood;
    assert forall stage, turns, input :: !FailsAt(env, vs, stage, turns, input, r) by { FailureIsVisible(env, vs, r); }
    hide FailsAt;
    wav := ChainToWav(env, vs, r);
    turns := ChainToTurns(env, vs, wav, r);
    a := ChainToAnalysis(env, vs, wav, turns, r);
  }

  lemma FailureIsVisible(env: Env, vs: Stage -> string, r: FileResult)
    requires r.status != Files.FailedFinal
    ensures forall stage, turns, input :: !FailsAt(env, vs, stage, turns, input, r)
  {
    hide CanRaise;
  }

  lemma ChainToWav(env: Env, vs: Stage -> string, r: FileResult) returns (wav: Content)
    requires FromScratch(env, vs, r) && !FailsAt(env, vs, Transcode, [], env.source, r)
    ensures CanYield(env, Transcode, Origin(env.source, vs(Transcode)), wav) && FromWav(env, vs, wav, r)
  {
    hide CanYield, FailsAt, FromWav;
    wav :| CanYield(env, Transcode, Origin(env.source, vs(Transcode)), wav) && FromWav(env, vs, wav, r);
  }

  lemma ChainToTurns(env: Env, vs: Stage -> string, wav: Content, r: FileResult) returns (turns: seq<Turn>)
    requires FromWav(env, vs, wav, r) && !FailsAt(env, vs, Asr, [], wav, r)
    ensures CanYield(env, Asr, Origin(wav, vs(Asr)), Content.Transcript(turns)) && FromTurns(env, vs, wav, turns, r)
  {
    hide CanYield, FailsAt, FromTurns;
    turns :| CanYield(env, Asr, Origin(wav, vs(Asr)), Content.Transcript(turns)) && FromTurns(env, vs, wav, turns, r);
  }

  lemma ChainToAnalysis(env: Env, vs: Stage -> string, wav: Content, turns: seq<Turn>, r: FileResult)
    returns (a: Analysis)
    requires FromTurns(env, vs, wav, turns, r) && !FailsAt(env, vs, Emotion, turns, wav, r)
    requires !FailsAt(env, vs, Quality, turns, Content.Transcript(turns), r)
    ensures CanYield(env, Quality, Origin(Content.Transcript(turns), vs(Quality)), Judged(a))
            && r == FinalResult(turns, a)
  {
    hide CanYield, FailsAt, FinalResult;
    a :| CanYield(env, Quality, Origin(Content.Transcript(turns), vs(Quality)), Judged(a))
         && r == FinalResult(turns, a);
  }

  /** Under flaky stages, deadlines and upgrades, all files that end well with the same producer versions end alike. */
  lemma SuccessIsUnique(env: Env, s: State, t: State)
    requires OneAnswer(env) && Reachable(env, s) && Reachable(env, t) && s.versions == t.versions
    requires s.pc.Finished? && s.pc.result.status != Files.FailedFinal
    requires t.pc.Finished? && t.pc.result.status != Files.FailedFinal
    ensures s.pc.result == t.pc.result
  {
    hide Reachable, FromScratch, CanYield, FinalResult;
    ReuseRefinesRecomputation(env, s);
    ReuseRefinesRecomputation(env, t);
    var wav, turns, a := SuccessChain(env, s.versions, s.pc.result);
    var wav', turns', a' := SuccessChain(env, t.versions, t.pc.result);
    assert wav == wav';
    assert Content.Transcript(turns) == Content.Transcript(turns');
    assert Judged(a) == Judged(a');
  }

  // ---------------------------------------------------------------- the retry budget does not bound crashes

  lemma OneMoreStep(env: Env, s: State, s': State)
    requires Reachable(env, s) && Next(env, s, s')
    ensures Reachable(env, s')
  {
    hide Next, Fresh;
    var run :| IsRun(env, run) && run[|run| - 1] == s;
    var longer := run + [s'];
    forall i | 0 <= i < |longer| - 1
      ensures Next(env, longer[i], longer[i + 1])
    {
      assert longer[i] == run[i];
      assert i + 1 < |run| ==> longer[i + 1] == run[i + 1];
    }
    assert IsRun(env, longer);
  }

  /** A row left RUNNING by a crash is not held against the budget: any number of attempts can pile up. */
  lemma {:induction false} CrashesOutrunTheBudget(env: Env, vs: Stage -> string, n: nat) returns (s: State)
    ensures Reachable(env, s) && s.pc.Idle? && s.versions == vs && PreviousAttempts(s.db, Transcode) == n
    ensures n > 0 ==> s.db.cells[Transcode].status.Running?
    ensures Transcode in s.db.cells <==> n > 0
  {
    if n == 0 {
      s := State(Db(map[], map[]), Idle, vs, map[]);
      assert IsRun(env, [s]) && [s][0] == s;
    } else {
      var idle := CrashesOutrunTheBudget(env, vs, n - 1);
      s := CrashDuringTranscode(env, idle);
    }
  }

  lemma CrashDuringTranscode(env: Env, s: State) returns (s': State)
    requires Reachable(env, s) && s.pc.Idle?
    requires Transcode in s.db.cells ==> s.db.cells[Transcode].status.Running?
    ensures Reachable(env, s') && s'.pc.Idle? && s'.versions == s.versions
    ensures Transcode in s'.db.cells && s'.db.cells[Transcode].status.Running?
    ensures PreviousAttempts(s'.db, Transcode) == PreviousAttempts(s.db, Transcode) + 1
  {
    hide Reachable;
    var acting := BeginTranscode(env, s);
    s' := acting.(pc := Idle);
    assert OutsideStep(env, acting, s');
    OneMoreStep(env, acting, s');
  }

  lemma BeginTranscode(env: Env, s: State) returns (s': State)
    requires Reachable(env, s) && s.pc.Idle?
    requires Transcode in s.db.cells ==> s.db.cells[Transcode].status.Running?
    ensures Reachable(env, s') && s'.pc == Acting(Transcode, []) && s'.versions == s.versions
    ensures Transcode in s'.db.cells && s'.db.cells[Transcode].status.Running?
    ensures PreviousAttempts(s'.db, Transcode) == PreviousAttempts(s.db, Transcode) + 1
  {
    hide Reachable;
    var entered := s.(pc := Entering(Transcode, []));
    assert OutsideStep(env, s, entered);
    OneMoreStep(env, s, entered);
    var invalidating := entered.(pc := Invalidating(Transcode, []));
    assert EnterStep(env, entered, invalidating);
    OneMoreStep(env, entered, invalidating);
    var beginning := invalidating.(db := InvalidateDb(s.db, Transcode), pc := Beginning(Transcode, []));
    assert InvalidateStep(invalidating, beginning);
    OneMoreStep(env, invalidating, beginning);
    s' := beginning.(db := BeginDb(beginning.db, Transcode), pc := Acting(Transcode, []),
                     origins := s.origins[Transcode := Origin(env.source, s.versions(Transcode))]);
    assert BeginStep(env, beginning, s');
    OneMoreStep(env, beginning, s');
  }

  // ---------------------------------------------------------------- a final failure is raised again as recorded

  /** A final failure of any stage outlives everything that leaves its row and the checkpoints before it alone: from
      every reachable idle state, also after upgrades, a pass that loads the earlier stages raises it as it reads in
      the row. */
  lemma FailureOutlives(env: Env, s: State, stage: Stage, later: Stage -> string) returns (t: State, turns: seq<Turn>)
    requires Reachable(env, s) && s.pc.Idle? && Exhausted(s.db, stage, env.maxAttempts)
    requires forall u | Place(u) < Place(stage) :: Loaded(s.db, u, later(u)).Some?
    requires later == s.versions || env.upgrades
    ensures Reachable(env, t) && t.versions == later && t.db == s.db
    ensures t.pc == Finished(FailedResult(stage, RequestAt(stage, turns), Reported(RecordedError(s.db, stage))))
    ensures stage.Quality? ==> Loaded(s.db, Asr, later(Asr)) == Some(Content.Transcript(turns))
  {
    hide Reachable, Loaded, Exhausted;
    var upgraded := s.(versions := later);
    if later != s.versions {
      assert OutsideStep(env, s, upgraded);
      OneMoreStep(env, s, upgraded);
    }
    t, turns := upgraded.(pc := Entering(Transcode, [])), [];
    assert OutsideStep(env, upgraded, t);
    OneMoreStep(env, upgraded, t);
    if !stage.Transcode? {
      t := PassLoaded(env, t);
      if !stage.Asr? {
        t := PassLoaded(env, t);
        turns := t.pc.turns;
        if !stage.Emotion? {
          t := PassLoaded(env, t);
        }
      }
    }
    t := RaiseFinal(env, t);
  }

  lemma PassLoaded(env: Env, s: State) returns (t: State)
    requires Reachable(env, s) && s.pc.Entering? && Loaded(s.db, s.pc.stage, s.versions(s.pc.stage)).Some?
    ensures var stage, value := s.pc.stage, Loaded(s.db, s.pc.stage, s.versions(s.pc.stage)).value;
            && Reachable(env, t) && Usable(stage, value) && t == s.(pc := After(stage, s.pc.turns, value))
  {
    hide Reachable;
    t := s.(pc := After(s.pc.stage, s.pc.turns, Loaded(s.db, s.pc.stage, s.versions(s.pc.stage)).value));
    assert EnterStep(env, s, t);
    OneMoreStep(env, s, t);
  }

  /** Entering a stage whose row is a final failure ends the file, whatever version is asked for. */
  lemma RaiseFinal(env: Env, s: State) returns (t: State)
    requires Reachable(env, s) && s.pc.Entering? && Exhausted(s.db, s.pc.stage, env.maxAttempts)
    ensures var stage := s.pc.stage;
            var raised := FailedResult(stage, RequestAt(stage, s.pc.turns), Reported(RecordedError(s.db, stage)));
            && Reachable(env, t) && t == s.(pc := Finished(raised))
            && forall s' | EnterStep(env, s, s') && !env.timed :: s' == t
  {
    hide Reachable, FailedResult, Reported, RequestAt, RecordedError;
    var stage := s.pc.stage;
    t := s.(pc := Finished(FailedResult(stage, RequestAt(stage, s.pc.turns), Reported(RecordedError(s.db, stage)))));
    assert EnterStep(env, s, t);
    OneMoreStep(env, s, t);
  }

  /** For instance a transcode that fails for good: it is raised again although the producer was upgraded. */
  lemma TranscodeFailureOutlives(env: Env, vs: Stage -> string, later: Stage -> string, outcome: Outcome,
                                 error: StageError)
    returns (s: State)
    requires env.may(Transcode, vs(Transcode), env.source, outcome) && Effect(Transcode, outcome) == Failure(error)
    requires !error.retryable && (later == vs || env.upgrades)
    ensures Reachable(env, s) && s.versions == later
    ensures s.pc == Finished(FailedResult(Transcode, None, Reported(error)))
  {
    hide Reachable;
    var failed := FailTranscode(env, vs, outcome, error);
    var turns;
    s, turns := FailureOutlives(env, failed, Transcode, later);
  }

  lemma FailTranscode(env: Env, vs: Stage -> string, outcome: Outcome, error: StageError) returns (s: State)
    requires env.may(Transcode, vs(Transcode), env.source, outcome) && Effect(Transcode, outcome) == Failure(error)
    requires !error.retryable
    ensures Reachable(env, s) && s.pc.Idle? && s.versions == vs && Transcode in s.db.cells
    ensures s.db.cells[Transcode].status.Failed? && s.db.cells[Transcode].error == Some(error)
  {
    hide Reachable;
    var acting := StartTranscode(env, vs);
    hide Effect;
    var failing := acting.(pc := Failing(Transcode, [], error));
    assert ActStep(env, acting, failing, outcome);
    OneMoreStep(env, acting, failing);
    var finished :=
      failing.(db := FailDb(failing.db, Transcode, error), pc := Finished(FailedResult(Transcode, None, error)));
    assert FailStep(env, failing, finished);
    OneMoreStep(env, failing, finished);
    s := finished.(pc := Idle);
    assert OutsideStep(env, finished, s);
    OneMoreStep(env, finished, s);
  }

  lemma StartTranscode(env: Env, vs: Stage -> string) returns (s: State)
    ensures Reachable(env, s) && s.pc == Acting(Transcode, []) && s.versions == vs && Transcode in s.db.cells
  {
    hide Reachable;
    var idle := CrashesOutrunTheBudget(env, vs, 0);
    s := BeginTranscode(env, idle);
  }
}
