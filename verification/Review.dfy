/** Human review (qc/review_store.py, qc/orm_models.py): concurrent submissions, each a read without lock followed by
    a section under the task's row lock, refine a first-writer-wins specification. */
module Review {
  import opened Common

  datatype TaskStatus = Pending | Resolved | Unresolved

  datatype Verdict = ConfirmedPass | ConfirmedViolation | Undecided

  datatype Task = Task(run: string, item: Option<nat>, status: TaskStatus, version: int, effective: Option<string>,
                       reason: Option<string>)

  datatype Revision = Revision(id: string, task: string, outcome: Verdict, reasonCode: string, note: string,
                               reviewer: string, key: string, hash: string)

  datatype Db = Db(tasks: map<string, Task>, revisions: seq<Revision>)

  datatype Submission = Submission(task: string, expectedVersion: int, outcome: Verdict, reasonCode: string,
                                   note: string, reviewer: string, key: string, hash: string)

  /** The task's detail, or the error raised. */
  datatype Answer =
    | Detail(task: Task, revisions: seq<Revision>)
    | NotFound | IdempotencyConflict | StateConflict(status: TaskStatus) | VersionConflict(version: int)

  // ---------------------------------------------------------------- the specification

  function RevisionsOf(revisions: seq<Revision>, task: string): (r: seq<Revision>)
    ensures forall x :: x in r <==> x in revisions && x.task == task
  {
    if revisions == [] then []
    else
      var init, last := revisions[..|revisions| - 1], revisions[|revisions| - 1];
      assert revisions == init + [last];
      RevisionsOf(init, task) + if last.task == task then [last] else []
  }

  function Replayed(revisions: seq<Revision>, task: string, key: string): (r: Option<Revision>)
    ensures r.Some? ==> r.value in revisions && r.value.task == task && r.value.key == key
    ensures r.None? ==> forall x | x in revisions :: x.task != task || x.key != key
  {
    if revisions == [] then None
    else if revisions[0].task == task && revisions[0].key == key then Some(revisions[0])
    else Replayed(revisions[1..], task, key)
  }

  function DetailOf(db: Db, task: string): Answer {
    if task in db.tasks then Detail(db.tasks[task], RevisionsOf(db.revisions, task)) else NotFound
  }

  function Written(s: Submission, id: string): Revision {
    Revision(id, s.task, s.outcome, s.reasonCode, s.note, s.reviewer, s.key, s.hash)
  }

  function Decided(task: Task, s: Submission, id: string): Task {
    if s.outcome.Undecided?
    then task.(status := Unresolved, version := task.version + 1, effective := None,
               reason := Some(if s.note != "" then s.note else s.reasonCode))
    else task.(status := Resolved, version := task.version + 1, effective := Some(id), reason := None)
  }

  /** The whole submission as one atomic action: the first decision wins, a replay reads it back, anything else errs. */
  function Submitted(db: Db, s: Submission, id: string): (Db, Answer) {
    var replayed := Replayed(db.revisions, s.task, s.key);
    if replayed.Some? then (db, if replayed.value.hash == s.hash then DetailOf(db, s.task) else IdempotencyConflict)
    else if s.task !in db.tasks then (db, NotFound)
    else
      var task := db.tasks[s.task];
      if task.status != Pending then (db, StateConflict(task.status))
      else if task.version != s.expectedVersion then (db, VersionConflict(task.version))
      else
        var after := Db(db.tasks[s.task := Decided(task, s, id)], db.revisions + [Written(s, id)]);
        (after, DetailOf(after, s.task))
  }

  /** `ensure_review_task_in_session`: at most one task per run; `id` is fresh. */
  function Ensured(db: Db, run: string, id: string): Db {
    if (exists t :: t in db.tasks && db.tasks[t].run == run) || id in db.tasks then db
    else db.(tasks := db.tasks[id := Task(run, None, Pending, 1, None, None)])
  }

  /** `attach_batch_item_in_session`. */
  function Attached(db: Db, run: string, item: nat): Db {
    db.(tasks := map t | t in db.tasks ::
          if db.tasks[t].run == run then db.tasks[t].(item := Some(item)) else db.tasks[t])
  }

  // ---------------------------------------------------------------- what always holds

  function CountOf(revisions: seq<Revision>, task: string): nat {
    if revisions == [] then 0
    else CountOf(revisions[..|revisions| - 1], task) + if revisions[|revisions| - 1].task == task then 1 else 0
  }

  /** The table constraints on the effective pointer, and the version: 1 while pending, 2 once decided. */
  predicate TaskOk(task: Task) {
    && task.version == (if task.status == Pending then 1 else 2)
    && (task.status == Pending ==> task.effective.None?)
    && (task.status == Resolved ==> task.effective.Some?)
    && (task.status == Unresolved ==> task.effective.None? && task.reason.Some?)
  }

  /** A decided task has exactly one revision, the one it points at when resolved; a pending task has none. */
  ghost predicate Ok(db: Db) {
    TasksOk(db.tasks) && CountsOk(db) && RevisionsOk(db)
  }

  ghost predicate TasksOk(tasks: map<string, Task>) {
    && (forall t | t in tasks :: TaskOk(tasks[t]))
    && (forall t, u | t in tasks && u in tasks && tasks[t].run == tasks[u].run :: t == u)
  }

  ghost predicate CountsOk(db: Db) {
    forall t | t in db.tasks :: CountOf(db.revisions, t) == if db.tasks[t].status == Pending then 0 else 1
  }

  ghost predicate RevisionsOk(db: Db) {
    forall r | r in db.revisions :: r.task in db.tasks && Explains(db.tasks[r.task], r)
  }

  predicate Explains(task: Task, r: Revision) {
    && task.status == (if r.outcome.Undecided? then Unresolved else Resolved)
    && task.effective == (if r.outcome.Undecided? then None else Some(r.id))
  }

  /** What others may do meanwhile: tasks stay, revisions stay, and a decided task keeps its decision. */
  ghost predicate Grows(before: Db, after: Db) {
    && (forall t | t in before.tasks :: t in after.tasks && after.tasks[t].run == before.tasks[t].run
          && (before.tasks[t].status != Pending ==> after.tasks[t] == before.tasks[t].(item := after.tasks[t].item)))
    && before.revisions <= after.revisions
  }

  lemma GrowsTransitive(a: Db, b: Db, c: Db)
    requires Grows(a, b) && Grows(b, c)
    ensures Grows(a, c)
  {
    assert forall t | t in a.tasks :: t in b.tasks;
  }

  lemma CountAppend(revisions: seq<Revision>, r: Revision, task: string)
    ensures CountOf(revisions + [r], task) == CountOf(revisions, task) + if r.task == task then 1 else 0
  {
    assert (revisions + [r])[..|revisions|] == revisions;
  }

  lemma {:induction false} CountPositive(revisions: seq<Revision>, task: string)
    ensures CountOf(revisions, task) > 0 <==> exists r :: r in revisions && r.task == task
  {
    if revisions != [] {
      var init, last := revisions[..|revisions| - 1], revisions[|revisions| - 1];
      assert revisions == init + [last];
      CountPositive(init, task);
    }
  }

  /** The insertion of a first decision violates no unique constraint. */
  lemma PendingHasNoRevision(db: Db, task: string)
    requires Ok(db) && task in db.tasks && db.tasks[task].status == Pending
    ensures forall r | r in db.revisions :: r.task != task
  {
    CountPositive(db.revisions, task);
  }

  lemma SubmissionKeeps(db: Db, s: Submission, id: string)
    requires Ok(db)
    ensures Ok(Submitted(db, s, id).0) && Grows(db, Submitted(db, s, id).0)
  {
    hide RevisionsOf, CountsOk, TasksOk, RevisionsOk, Replayed, Decided;
    var after := Submitted(db, s, id).0;
    if after != db {
      PendingHasNoRevision(db, s.task);
      DecisionKeepsTasks(db, s, id);
      DecisionKeepsCounts(db, s, id);
      DecisionKeepsRevisions(db, s, id);
      DecisionKeepsRun(db.tasks[s.task], s, id);
    }
  }

  lemma DecisionKeepsRun(task: Task, s: Submission, id: string)
    ensures Decided(task, s, id).run == task.run && Decided(task, s, id).item == task.item
  {
  }

  lemma DecisionKeepsTasks(db: Db, s: Submission, id: string)
    requires TasksOk(db.tasks) && s.task in db.tasks && db.tasks[s.task].status == Pending
    ensures TasksOk(db.tasks[s.task := Decided(db.tasks[s.task], s, id)])
  {
  }

  lemma DecisionKeepsCounts(db: Db, s: Submission, id: string)
    requires CountsOk(db) && s.task in db.tasks && db.tasks[s.task].status == Pending
    ensures CountsOk(Db(db.tasks[s.task := Decided(db.tasks[s.task], s, id)], db.revisions + [Written(s, id)]))
  {
    hide CountOf;
    forall t {
      CountAppend(db.revisions, Written(s, id), t);
    }
  }

  lemma DecisionKeepsRevisions(db: Db, s: Submission, id: string)
    requires RevisionsOk(db) && s.task in db.tasks && forall r | r in db.revisions :: r.task != s.task
    ensures RevisionsOk(Db(db.tasks[s.task := Decided(db.tasks[s.task], s, id)], db.revisions + [Written(s, id)]))
  {
    assert forall r | r in db.revisions + [Written(s, id)] :: r in db.revisions || r == Written(s, id);
  }

  lemma EnsuringKeeps(db: Db, run: string, id: string)
    requires Ok(db)
    ensures Ok(Ensured(db, run, id)) && Grows(db, Ensured(db, run, id))
  {
    CountPositive(db.revisions, id);
  }

  lemma AttachingKeeps(db: Db, run: string, item: nat)
    requires Ok(db)
    ensures Ok(Attached(db, run, item)) && Grows(db, Attached(db, run, item))
    ensures var after := Attached(db, run, item);
            && after.revisions == db.revisions && after.tasks.Keys == db.tasks.Keys
            && forall t | t in db.tasks ::
                 var was, now := db.tasks[t], after.tasks[t];
                 && (was.run != run ==> now == was)
                 && (was.run == run ==> now == Task(was.run, Some(item), was.status, was.version, was.effective,
                                                    was.reason))
  {
    hide CountOf;
    assert TasksOk(Attached(db, run, item).tasks) by { hide CountsOk, RevisionsOk; }
  }

  // ---------------------------------------------------------------- what a submission leaves

  /** The revision has the submission's words, one by one. */
  predicate Quotes(r: Revision, s: Submission, id: string) {
    && r.id == id && r.task == s.task && r.outcome == s.outcome && r.reasonCode == s.reasonCode && r.note == s.note
    && r.reviewer == s.reviewer && r.key == s.key && r.hash == s.hash
  }

  /** A first decision: one revision, the pointer to it when it settles the task, the reason when it does not. */
  ghost predicate FirstDecision(before: Db, after: Db, s: Submission, id: string) {
    && s.task in before.tasks && after.tasks.Keys == before.tasks.Keys
    && (forall t | t in before.tasks && t != s.task :: after.tasks[t] == before.tasks[t])
    && |after.revisions| == |before.revisions| + 1 && before.revisions <= after.revisions
    && Quotes(after.revisions[|before.revisions|], s, id)
    && var was, now := before.tasks[s.task], after.tasks[s.task];
    && now.run == was.run && now.item == was.item && now.version == was.version + 1
    && (now.status == Unresolved <==> s.outcome == Undecided) && (now.status == Resolved <==> s.outcome != Undecided)
    && (now.effective == Some(id) <==> s.outcome != Undecided) && (now.effective == None <==> s.outcome == Undecided)
    && (s.outcome != Undecided ==> now.reason == None)
    && (s.outcome == Undecided && s.note == "" ==> now.reason == Some(s.reasonCode))
    && (s.outcome == Undecided && s.note != "" ==> now.reason == Some(s.note))
  }

  /** The detail is the task's row with all of its revisions. */
  ghost predicate ShowsTask(db: Db, task: string, answer: Answer) {
    && task in db.tasks && answer.Detail? && answer.task == db.tasks[task]
    && (forall r :: r in answer.revisions <==> r in db.revisions && r.task == task)
    && |answer.revisions| == CountOf(db.revisions, task)
  }

  /** Who decides and who is turned away, told by the task and the revision that has the submission's key. */
  ghost predicate Ruled(before: Db, after: Db, s: Submission, id: string, answer: Answer) {
    if r :| r in before.revisions && r.task == s.task && r.key == s.key then
      && after == before
      && if r.hash == s.hash then ShowsTask(before, s.task, answer) else answer == IdempotencyConflict
    else if s.task !in before.tasks then after == before && answer == NotFound
    else if before.tasks[s.task].status != Pending then
      after == before && answer == StateConflict(before.tasks[s.task].status)
    else if before.tasks[s.task].version != s.expectedVersion then
      after == before && answer == VersionConflict(before.tasks[s.task].version)
    else
      && FirstDecision(before, after, s, id) && ShowsTask(after, s.task, answer)
      && |answer.revisions| == 1 && Quotes(answer.revisions[0], s, id)
  }

  lemma {:induction false} RevisionsAreCounted(revisions: seq<Revision>, task: string)
    ensures |RevisionsOf(revisions, task)| == CountOf(revisions, task)
  {
    if revisions != [] {
      RevisionsAreCounted(revisions[..|revisions| - 1], task);
    }
  }

  lemma SubmissionIsRuled(db: Db, s: Submission, id: string)
    requires Ok(db)
    ensures Ruled(db, Submitted(db, s, id).0, s, id, Submitted(db, s, id).1)
  {
    hide CountOf, TasksOk, RevisionsOf, Replayed, Ok;
    var (after, answer) := Submitted(db, s, id);
    if r :| r in db.revisions && r.task == s.task && r.key == s.key {
      RevisionHasTask(db, r);
      OneRevision(db, s.task, r);
      RevisionsAreCounted(db.revisions, s.task);
    } else if after != db {
      PendingHasNoRevision(db, s.task);
      FirstIsOnly(db, s, id);
    }
  }

  lemma RevisionHasTask(db: Db, r: Revision)
    requires Ok(db) && r in db.revisions
    ensures r.task in db.tasks
  {
  }

  lemma FirstIsOnly(db: Db, s: Submission, id: string)
    requires Ok(db) && s.task in db.tasks && db.tasks[s.task].status == Pending
    requires forall r | r in db.revisions :: r.task != s.task
    ensures var shown := RevisionsOf(db.revisions + [Written(s, id)], s.task);
            && shown == [Written(s, id)] && |shown| == CountOf(db.revisions + [Written(s, id)], s.task)
            && forall r :: r in shown <==> r in db.revisions + [Written(s, id)] && r.task == s.task
  {
    var after := db.revisions + [Written(s, id)];
    RevisionsAreCounted(after, s.task);
    CountAppend(db.revisions, Written(s, id), s.task);
    var shown := RevisionsOf(after, s.task);
    assert |shown| == 1;
    assert shown[0] in shown;
  }

  // ---------------------------------------------------------------- the store

  class PostgresReviewStore {
    var tasks: map<string, Task>
    var revisions: seq<Revision>

    constructor ()
      ensures Contents() == Db(map[], []) && Ok(Contents())
    {
      tasks, revisions := map[], [];
    }

    ghost function Contents(): Db
      reads this
    {
      Db(tasks, revisions)
    }

    method EnsureReviewTask(run: string, newId: string) returns (id: string)
      requires Ok(Contents()) && newId !in tasks
      modifies this
      ensures Contents() == Ensured(old(Contents()), run, newId) && Ok(Contents())
      ensures id in tasks && tasks[id].run == run && revisions == old(revisions)
      ensures if exists t :: t in old(tasks) && old(tasks)[t].run == run then id in old(tasks) && tasks == old(tasks)
              else id == newId && tasks == old(tasks)[newId := Task(run, None, Pending, 1, None, None)]
    {
      EnsuringKeeps(Contents(), run, newId);
      if exists t :: t in tasks && tasks[t].run == run {
        id :| id in tasks && tasks[id].run == run;
      } else {
        id := newId;
        tasks := tasks[newId := Task(run, None, Pending, 1, None, None)];
      }
    }

    /** The section under the row lock. */
    method SubmitLocked(s: Submission, newId: string) returns (answer: Answer)
      modifies this
      ensures (Contents(), answer) == Submitted(old(Contents()), s, newId)
      ensures Ok(old(Contents())) ==> Ruled(old(Contents()), Contents(), s, newId, answer)
    {
      if Ok(Contents()) {
        SubmissionIsRuled(Contents(), s, newId);
      }
      hide RevisionsOf, Replayed, Ok, Ruled;
      var existing := Replayed(revisions, s.task, s.key);
      if existing.Some? {
        if existing.value.hash != s.hash {
          return IdempotencyConflict;
        }
        if s.task !in tasks {
          return NotFound;
        }
        return Detail(tasks[s.task], RevisionsOf(revisions, s.task));
      }
      if s.task !in tasks {
        return NotFound;
      }
      var task := tasks[s.task];
      if task.status != Pending {
        return StateConflict(task.status);
      }
      if task.version != s.expectedVersion {
        return VersionConflict(task.version);
      }
      revisions := revisions + [Revision(newId, s.task, s.outcome, s.reasonCode, s.note, s.reviewer, s.key, s.hash)];
      var resolved := s.outcome != Undecided;
      tasks := tasks[s.task := task.(status := if resolved then Resolved else Unresolved,
                                     version := task.version + 1,
                                     effective := if resolved then Some(newId) else None,
                                     reason :=
                                       if resolved then None else Some(if s.note != "" then s.note else s.reasonCode))];
      answer := Detail(tasks[s.task], RevisionsOf(revisions, s.task));
    }

    /** `others` is what other submissions do between the unlocked read and the lock. The answer and the change are
        those of the atomic specification, at the read for a replay, at the lock otherwise. */
    method Submit(s: Submission, newId: string, others: Db -> Db) returns (answer: Answer)
      requires Ok(Contents())
      requires forall db | Ok(db) :: Ok(others(db)) && Grows(db, others(db))
      modifies this
      ensures Ok(Contents()) && Grows(old(Contents()), Contents())
      ensures if Replayed(old(revisions), s.task, s.key).Some?
              then (Contents(), answer) == Submitted(old(Contents()), s, newId)
              else (Contents(), answer) == Submitted(others(old(Contents())), s, newId)
      ensures if exists r :: r in old(revisions) && r.task == s.task && r.key == s.key
              then Ruled(old(Contents()), Contents(), s, newId, answer)
              else Ruled(others(old(Contents())), Contents(), s, newId, answer)
    {
      hide Ok, Grows, RevisionsOf, Replayed, Ruled;
      var existing := Replayed(revisions, s.task, s.key);
      if existing.Some? {
        SubmissionKeeps(Contents(), s, newId);
        SubmissionIsRuled(Contents(), s, newId);
        if existing.value.hash != s.hash {
          return IdempotencyConflict;
        }
        if s.task !in tasks {
          return NotFound;
        }
        return Detail(tasks[s.task], RevisionsOf(revisions, s.task));
      }
      ghost var entered := Contents();
      var meanwhile := others(Db(tasks, revisions));
      tasks, revisions := meanwhile.tasks, meanwhile.revisions;
      hide Submitted;
      SubmissionKeeps(meanwhile, s, newId);
      GrowsTransitive(entered, meanwhile, Submitted(meanwhile, s, newId).0);
      answer := SubmitLocked(s, newId);
    }
  }

  // ---------------------------------------------------------------- first writer wins, over every history

  datatype Event =
    | Submitting(s: Submission, id: string)
    | Ensuring(run: string, id: string)
    | Attaching(run: string, item: nat)

  function Step(db: Db, e: Event): Db {
    match e
    case Submitting(s, id) => Submitted(db, s, id).0
    case Ensuring(run, id) => Ensured(db, run, id)
    case Attaching(run, item) => Attached(db, run, item)
  }

  function After(db: Db, events: seq<Event>): Db {
    if events == [] then db else Step(After(db, events[..|events| - 1]), events[|events| - 1])
  }

  lemma {:induction false} HistoryKeeps(db: Db, events: seq<Event>)
    requires Ok(db)
    ensures Ok(After(db, events)) && Grows(db, After(db, events))
  {
    hide Ok, Grows;
    if events == [] {
      GrowsFromItself(db);
    } else {
      var before, e := After(db, events[..|events| - 1]), events[|events| - 1];
      HistoryKeeps(db, events[..|events| - 1]);
      match e {
        case Submitting(s, id) => SubmissionKeeps(before, s, id);
        case Ensuring(run, id) => EnsuringKeeps(before, run, id);
        case Attaching(run, item) => AttachingKeeps(before, run, item);
      }
      GrowsTransitive(db, before, After(db, events));
    }
  }

  lemma GrowsFromItself(db: Db)
    ensures Grows(db, db)
  {
  }

  /** From any reachable state on: a task is decided at most once, and once it is, later submissions change nothing;
      the deciding key with its hash reads the decision back, with another hash it conflicts, any other
      key conflicts. */
  lemma FirstWriterWins(db: Db, s: Submission, id: string, later: seq<Event>, t: Submission, other: string)
    requires Ok(db) && s.task in db.tasks && t.task == s.task
    requires db.tasks[s.task].status == Pending && s.expectedVersion == 1
    ensures var decided := Submitted(db, s, id).0;
            var now := After(decided, later);
            var (final, answer) := Submitted(now, t, other);
            && s.task in now.tasks && s.task in decided.tasks
            && now.tasks[s.task] == decided.tasks[s.task].(item := now.tasks[s.task].item)
            && now.tasks[s.task].version == 2 && Written(s, id) in now.revisions
            && final == now
            && answer == if t.key == s.key then if t.hash == s.hash then DetailOf(now, s.task) else IdempotencyConflict
                         else StateConflict(if s.outcome.Undecided? then Unresolved else Resolved)
  {
    hide Ok, Grows, RevisionsOf;
    assert db.tasks[s.task].version == 1 by { PendingIsVersionOne(db, s.task); }
    PendingHasNoRevision(db, s.task);
    var decided := Submitted(db, s, id).0;
    assert decided.revisions == db.revisions + [Written(s, id)];
    SubmissionKeeps(db, s, id);
    HistoryKeeps(decided, later);
    DecisionStands(decided, After(decided, later), s, id, t);
  }

  lemma PendingIsVersionOne(db: Db, task: string)
    requires Ok(db) && task in db.tasks && db.tasks[task].status == Pending
    ensures db.tasks[task].version == 1
  {
  }

  lemma DecisionStands(decided: Db, now: Db, s: Submission, id: string, t: Submission)
    requires Ok(decided) && Ok(now) && Grows(decided, now) && t.task == s.task
    requires s.task in decided.tasks && decided.tasks[s.task].status != Pending && Written(s, id) in decided.revisions
    ensures s.task in now.tasks && now.tasks[s.task] == decided.tasks[s.task].(item := now.tasks[s.task].item)
    ensures now.tasks[s.task].version == 2 && Written(s, id) in now.revisions
    ensures now.tasks[s.task].status == if s.outcome.Undecided? then Unresolved else Resolved
    ensures Replayed(now.revisions, s.task, t.key) == if t.key == s.key then Some(Written(s, id)) else None
  {
    assert Written(s, id) in now.revisions by {
      var k :| 0 <= k < |decided.revisions| && decided.revisions[k] == Written(s, id);
      assert now.revisions[k] == Written(s, id);
    }
    OneRevision(now, s.task, Written(s, id));
    hide CountOf, Replayed, TasksOk, CountsOk;
    assert TaskOk(now.tasks[s.task]) by { TaskIsOk(now, s.task); }
  }

  lemma TaskIsOk(db: Db, task: string)
    requires Ok(db) && task in db.tasks
    ensures TaskOk(db.tasks[task])
  {
    hide TaskOk, CountsOk, RevisionsOk;
  }

  lemma OneRevision(db: Db, task: string, r: Revision)
    requires Ok(db) && task in db.tasks && r in db.revisions && r.task == task
    ensures forall x | x in db.revisions && x.task == task :: x == r
  {
    hide Explains, TaskOk;
    forall x | x in db.revisions && x.task == task
      ensures x == r
    {
      if x != r {
        TwoRevisionsCountTwice(db.revisions, task, x, r);
      }
    }
  }

  lemma {:induction false} TwoRevisionsCountTwice(revisions: seq<Revision>, task: string, x: Revision, y: Revision)
    requires x in revisions && y in revisions && x != y && x.task == task == y.task
    ensures CountOf(revisions, task) >= 2
  {
    var init, last := revisions[..|revisions| - 1], revisions[|revisions| - 1];
    assert revisions == init + [last];
    if x != last && y != last {
      TwoRevisionsCountTwice(init, task, x, y);
    } else {
      CountPositive(init, task);
      assert x in init || y in init;
    }
  }
}
