/** The two stage tables: SQLite overwrites the newest row of a file's stage, Postgres appends an execution
    log (qc/batch/store.py, qc/batch/postgres_store.py). Seen through the newest row they are the same. */
module StageStore {
  import opened Common
  import opened Stages

  type Digest = string

  datatype Key = Key(file: int, stage: Stage)

  datatype Row = Row(key: Key, cell: Cell<Digest>)

  datatype Request =
    | Begin(key: Key)
    | Complete(key: Key, artifact: Artifact<Digest>)
    | Fail(key: Key, error: StageError)
    | Invalidate(file: int, stages: seq<Stage>)

  /** What the caller gets back: an attempt number, nothing, a StateConflictError or a KeyError. */
  datatype Answer = Attempt(n: nat) | Accepted | Conflict | NoSuchFile

  /** Position of the newest row of a key. */
  function Latest(rows: seq<Row>, key: Key): (r: Option<nat>)
    ensures r.Some? ==> r.value < |rows| && rows[r.value].key == key
                        && forall j | r.value < j < |rows| :: rows[j].key != key
    ensures r.None? ==> forall row | row in rows :: row.key != key
  {
    if rows == [] then None
    else if rows[|rows| - 1].key == key then Some(|rows| - 1)
    else Latest(rows[..|rows| - 1], key)
  }

  /** The checkpoint a reader sees. */
  function View(rows: seq<Row>, key: Key): Option<Cell<Digest>> {
    match Latest(rows, key)
    case None => None
    case Some(i) => Some(rows[i].cell)
  }

  ghost predicate SameView(a: seq<Row>, b: seq<Row>) {
    forall key :: View(a, key) == View(b, key)
  }

  function Overwrite(rows: seq<Row>, key: Key, cell: Cell<Digest>): (r: seq<Row>)
    requires Latest(rows, key).Some?
  {
    rows[Latest(rows, key).value := Row(key, cell)]
  }

  predicate IsRunning(rows: seq<Row>, key: Key) {
    View(rows, key).Some? && View(rows, key).value.status == Running
  }

  function InvalidateAll(rows: seq<Row>, file: int, stages: seq<Stage>): seq<Row> {
    if stages == [] then rows
    else
      var init, key := InvalidateAll(rows, file, stages[..|stages| - 1]), Key(file, stages[|stages| - 1]);
      if View(init, key).None? then init else Overwrite(init, key, Invalidated(View(init, key).value))
  }

  /** Completing, failing and invalidating write the newest row in place in both stores. */
  function Settle(rows: seq<Row>, request: Request): (seq<Row>, Answer)
    requires !request.Begin?
  {
    match request
    case Complete(key, artifact) =>
      if IsRunning(rows, key) then (Overwrite(rows, key, Completed(View(rows, key).value, artifact)), Accepted)
      else (rows, Conflict)
    case Fail(key, error) =>
      if IsRunning(rows, key) then (Overwrite(rows, key, FailedWith(View(rows, key).value, error)), Accepted)
      else (rows, Conflict)
    case Invalidate(file, stages) => (InvalidateAll(rows, file, stages), Accepted)
  }

  function SqliteStep(rows: seq<Row>, request: Request): (seq<Row>, Answer) {
    match request
    case Begin(key) =>
      var cell := Begun(View(rows, key));
      (if View(rows, key).None? then rows + [Row(key, cell)] else Overwrite(rows, key, cell), Attempt(cell.attempts))
    case _ => Settle(rows, request)
  }

  /** `files` are the batch items that exist; only Postgres looks. */
  function PostgresStep(rows: seq<Row>, files: set<int>, request: Request): (seq<Row>, Answer) {
    match request
    case Begin(key) =>
      if key.file !in files then (rows, NoSuchFile)
      else
        var cell := Begun(View(rows, key));
        (rows + [Row(key, cell)], Attempt(cell.attempts))
    case _ => Settle(rows, request)
  }

  function SqliteRun(rows: seq<Row>, requests: seq<Request>): (seq<Row>, seq<Answer>) {
    if requests == [] then (rows, [])
    else
      var (before, answers) := SqliteRun(rows, requests[..|requests| - 1]);
      var (after, answer) := SqliteStep(before, requests[|requests| - 1]);
      (after, answers + [answer])
  }

  function PostgresRun(rows: seq<Row>, files: set<int>, requests: seq<Request>): (seq<Row>, seq<Answer>) {
    if requests == [] then (rows, [])
    else
      var (before, answers) := PostgresRun(rows, files, requests[..|requests| - 1]);
      var (after, answer) := PostgresStep(before, files, requests[|requests| - 1]);
      (after, answers + [answer])
  }

  // ---------------------------------------------------------------- the stores

  class SqliteStages {
    var rows: seq<Row>

    constructor ()
      ensures rows == []
    {
      rows := [];
    }

    method Checkpoint(key: Key) returns (r: Option<Cell<Digest>>)
      ensures r == View(rows, key)
    {
      var i := Latest(rows, key);
      r := if i.Some? then Some(rows[i.value].cell) else None;
    }

    method BeginStage(key: Key) returns (answer: Answer)
      modifies this
      ensures (rows, answer) == SqliteStep(old(rows), Begin(key))
      ensures answer.Attempt? && View(rows, key) == Some(Cell(Running, answer.n, None, None))
      ensures answer.n == 1 + if View(old(rows), key).Some? then View(old(rows), key).value.attempts else 0
      ensures forall other | other != key :: View(rows, other) == View(old(rows), other)
    {
      var current := Checkpoint(key);
      var attempts := (if current.Some? then current.value.attempts else 0) + 1;
      var row := Row(key, Cell(Running, attempts, None, None));
      if current.None? {
        AppendView(rows, row);
        rows := rows + [row];
      } else {
        OverwriteView(rows, key, row.cell);
        rows := rows[Latest(rows, key).value := row];
      }
      answer := Attempt(attempts);
    }

    method CompleteStage(key: Key, artifact: Artifact<Digest>) returns (answer: Answer)
      modifies this
      ensures (rows, answer) == SqliteStep(old(rows), Complete(key, artifact))
      ensures answer.Accepted? <==> View(old(rows), key).Some? && View(old(rows), key).value.status == Running
      ensures answer.Accepted? ==>
                View(rows, key) == Some(Cell(Done, View(old(rows), key).value.attempts, Some(artifact), None))
      ensures forall other | other != key :: View(rows, other) == View(old(rows), other)
      ensures answer.Conflict? ==> rows == old(rows)
    {
      var current := Checkpoint(key);
      if current.None? || current.value.status != Running {
        return Conflict;
      }
      OverwriteView(rows, key, Completed(current.value, artifact));
      var cell := current.value.(status := Done, artifact := Some(artifact), error := None);
      rows := rows[Latest(rows, key).value := Row(key, cell)];
      answer := Accepted;
    }

    method FailStage(key: Key, error: StageError) returns (answer: Answer)
      modifies this
      ensures (rows, answer) == SqliteStep(old(rows), Fail(key, error))
      ensures answer.Accepted? <==> View(old(rows), key).Some? && View(old(rows), key).value.status == Running
      ensures answer.Accepted? ==>
                var was := View(old(rows), key).value;
                View(rows, key) == Some(Cell(Failed, was.attempts, was.artifact, Some(error)))
      ensures forall other | other != key :: View(rows, other) == View(old(rows), other)
      ensures answer.Conflict? ==> rows == old(rows)
    {
      var current := Checkpoint(key);
      if current.None? || current.value.status != Running {
        return Conflict;
      }
      OverwriteView(rows, key, FailedWith(current.value, error));
      rows := rows[Latest(rows, key).value := Row(key, current.value.(status := Failed, error := Some(error)))];
      answer := Accepted;
    }

    method InvalidateStages(file: int, stages: seq<Stage>)
      modifies this
      ensures rows == SqliteStep(old(rows), Invalidate(file, stages)).0
      ensures ViewInvalidated(old(rows), rows, file, stages)
    {
      for i := 0 to |stages|
        invariant rows == InvalidateAll(old(rows), file, stages[..i])
      {
        assert stages[..i + 1][..i] == stages[..i];
        var key := Key(file, stages[i]);
        var current := Checkpoint(key);
        if current.Some? {
          var cell := current.value.(status := Pending, artifact := None, error := None);
          rows := rows[Latest(rows, key).value := Row(key, cell)];
        }
      }
      assert stages[..|stages|] == stages;
      InvalidateView(old(rows), file, stages);
    }
  }

  class PostgresStages {
    const files: set<int>
    var rows: seq<Row>

    constructor (files: set<int>)
      ensures this.files == files && rows == []
    {
      this.files := files;
      rows := [];
    }

    method BeginStage(key: Key) returns (answer: Answer)
      modifies this
      ensures (rows, answer) == PostgresStep(old(rows), files, Begin(key))
      ensures answer == NoSuchFile <==> key.file !in files
      ensures answer.Attempt? ==>
                && View(rows, key) == Some(Cell(Running, answer.n, None, None))
                && answer.n == 1 + if View(old(rows), key).Some? then View(old(rows), key).value.attempts else 0
      ensures forall other | other != key :: View(rows, other) == View(old(rows), other)
      ensures old(rows) <= rows
    {
      if key.file !in files {
        return NoSuchFile;
      }
      var current := View(rows, key);
      var attempts := (if current.Some? then current.value.attempts else 0) + 1;
      AppendView(rows, Row(key, Cell(Running, attempts, None, None)));
      rows := rows + [Row(key, Cell(Running, attempts, None, None))];
      answer := Attempt(attempts);
    }

    method CompleteStage(key: Key, artifact: Artifact<Digest>) returns (answer: Answer)
      modifies this
      ensures (rows, answer) == PostgresStep(old(rows), files, Complete(key, artifact))
      ensures answer.Accepted? <==> View(old(rows), key).Some? && View(old(rows), key).value.status == Running
      ensures answer.Accepted? ==>
                View(rows, key) == Some(Cell(Done, View(old(rows), key).value.attempts, Some(artifact), None))
      ensures forall other | other != key :: View(rows, other) == View(old(rows), other)
      ensures answer.Conflict? ==> rows == old(rows)
    {
      var current := Latest(rows, key);
      if current.None? || rows[current.value].cell.status != Running {
        return Conflict;
      }
      var cell := rows[current.value].cell.(status := Done, artifact := Some(artifact), error := None);
      OverwriteView(rows, key, cell);
      rows := rows[current.value := Row(key, cell)];
      answer := Accepted;
    }

    method FailStage(key: Key, error: StageError) returns (answer: Answer)
      modifies this
      ensures (rows, answer) == PostgresStep(old(rows), files, Fail(key, error))
      ensures answer.Accepted? <==> View(old(rows), key).Some? && View(old(rows), key).value.status == Running
      ensures answer.Accepted? ==>
                var was := View(old(rows), key).value;
                View(rows, key) == Some(Cell(Failed, was.attempts, was.artifact, Some(error)))
      ensures forall other | other != key :: View(rows, other) == View(old(rows), other)
      ensures answer.Conflict? ==> rows == old(rows)
    {
      var current := Latest(rows, key);
      if current.None? || rows[current.value].cell.status != Running {
        return Conflict;
      }
      var cell := rows[current.value].cell.(status := Failed, error := Some(error));
      OverwriteView(rows, key, cell);
      rows := rows[current.value := Row(key, cell)];
      answer := Accepted;
    }

    method InvalidateStages(file: int, stages: seq<Stage>)
      modifies this
      ensures rows == PostgresStep(old(rows), files, Invalidate(file, stages)).0
      ensures ViewInvalidated(old(rows), rows, file, stages)
    {
      for i := 0 to |stages|
        invariant rows == InvalidateAll(old(rows), file, stages[..i])
      {
        assert stages[..i + 1][..i] == stages[..i];
        var key := Key(file, stages[i]);
        var current := Latest(rows, key);
        if current.Some? {
          var cell := rows[current.value].cell.(status := Pending, artifact := None, error := None);
          rows := rows[current.value := Row(key, cell)];
        }
      }
      assert stages[..|stages|] == stages;
      InvalidateView(old(rows), file, stages);
    }
  }

  // ---------------------------------------------------------------- what a write does to the view

  lemma AppendView(rows: seq<Row>, row: Row)
    ensures forall key :: View(rows + [row], key) == if key == row.key then Some(row.cell) else View(rows, key)
  {
    assert (rows + [row])[..|rows|] == rows;
  }

  lemma OverwriteView(rows: seq<Row>, key: Key, cell: Cell<Digest>)
    requires Latest(rows, key).Some?
    ensures forall other ::
              View(Overwrite(rows, key, cell), other) == if other == key then Some(cell) else View(rows, other)
  {
    var after := Overwrite(rows, key, cell);
    forall other
      ensures Latest(after, other) == Latest(rows, other)
    {
      LatestFollowsKeys(rows, after, other);
    }
  }

  lemma {:induction false} LatestFollowsKeys(a: seq<Row>, b: seq<Row>, key: Key)
    requires |a| == |b| && forall i | 0 <= i < |a| :: a[i].key == b[i].key
    ensures Latest(a, key) == Latest(b, key)
  {
    if a != [] {
      LatestFollowsKeys(a[..|a| - 1], b[..|b| - 1], key);
    }
  }

  lemma ViewOverwritten(rows: seq<Row>, key: Key, cell: Cell<Digest>)
    requires View(rows, key).Some?
    ensures forall other ::
              View(Overwrite(rows, key, cell), other) == if other == key then Some(cell) else View(rows, other)
  {
    OverwriteView(rows, key, cell);
  }

  /** What invalidation means to a reader: the listed stages of the file are PENDING again with their attempt numbers
      kept, a stage that never ran stays without a row, and nothing else is touched. */
  ghost predicate ViewInvalidated(before: seq<Row>, after: seq<Row>, file: int, stages: seq<Stage>) {
    forall key :: View(after, key) ==
      if key.file == file && key.stage in stages && View(before, key).Some? then
        Some(Cell(Pending, View(before, key).value.attempts, None, None))
      else View(before, key)
  }

  lemma {:induction false} InvalidateView(rows: seq<Row>, file: int, stages: seq<Stage>)
    ensures ViewInvalidated(rows, InvalidateAll(rows, file, stages), file, stages)
  {
    if stages != [] {
      var init, last := stages[..|stages| - 1], stages[|stages| - 1];
      assert stages == init + [last];
      InvalidateView(rows, file, init);
      var before := InvalidateAll(rows, file, init);
      var key := Key(file, last);
      if View(before, key).Some? {
        hide Latest, View;
        ViewOverwritten(before, key, Invalidated(View(before, key).value));
      }
    }
  }

  lemma InvalidateSameView(a: seq<Row>, b: seq<Row>, file: int, stages: seq<Stage>)
    requires SameView(a, b)
    ensures SameView(InvalidateAll(a, file, stages), InvalidateAll(b, file, stages))
  {
    InvalidateView(a, file, stages);
    InvalidateView(b, file, stages);
    hide View, InvalidateAll;
  }

  // ---------------------------------------------------------------- refinement

  /** One request: equal views stay equal and both stores answer alike, unless Postgres misses the file. */
  lemma StepRefines(sqlite: seq<Row>, postgres: seq<Row>, files: set<int>, request: Request)
    requires SameView(sqlite, postgres)
    ensures PostgresStep(postgres, files, request).1 == NoSuchFile <==> request.Begin? && request.key.file !in files
    ensures PostgresStep(postgres, files, request).1 != NoSuchFile ==>
              SameView(SqliteStep(sqlite, request).0, PostgresStep(postgres, files, request).0)
    ensures SqliteStep(sqlite, request).1 == PostgresStep(postgres, files, request).1
            <==> PostgresStep(postgres, files, request).1 != NoSuchFile
  {
    hide Latest, InvalidateAll;
    match request
    case Begin(key) =>
      assert View(sqlite, key) == View(postgres, key);
      var cell := Begun(View(postgres, key));
      AppendView(postgres, Row(key, cell));
      if View(sqlite, key).None? {
        AppendView(sqlite, Row(key, cell));
      } else {
        ViewOverwritten(sqlite, key, cell);
      }
    case Complete(key, artifact) =>
      assert View(sqlite, key) == View(postgres, key);
      if IsRunning(sqlite, key) {
        ViewOverwritten(sqlite, key, Completed(View(sqlite, key).value, artifact));
        ViewOverwritten(postgres, key, Completed(View(sqlite, key).value, artifact));
      }
    case Fail(key, error) =>
      assert View(sqlite, key) == View(postgres, key);
      if IsRunning(sqlite, key) {
        ViewOverwritten(sqlite, key, FailedWith(View(sqlite, key).value, error));
        ViewOverwritten(postgres, key, FailedWith(View(sqlite, key).value, error));
      }
    case Invalidate(file, stages) =>
      InvalidateSameView(sqlite, postgres, file, stages);
  }

  predicate AboutFiles(requests: seq<Request>, files: set<int>) {
    forall r | r in requests :: r.Begin? ==> r.key.file in files
  }

  /** Any request sequence: the two stores are indistinguishable exactly when it begins stages of existing files
      only. */
  lemma {:induction false} PostgresRefinesSqlite(files: set<int>, requests: seq<Request>)
    ensures AboutFiles(requests, files) <==> SqliteRun([], requests).1 == PostgresRun([], files, requests).1
    ensures AboutFiles(requests, files) ==> SameView(SqliteRun([], requests).0, PostgresRun([], files, requests).0)
  {
    if requests != [] {
      var init, last := requests[..|requests| - 1], requests[|requests| - 1];
      assert requests == init + [last];
      PostgresRefinesSqlite(files, init);
      var (sqlite, answers) := SqliteRun([], init);
      var (postgres, answers') := PostgresRun([], files, init);
      AnswersPerRequest(files, init);
      hide SqliteStep, PostgresStep, SameView;
      if AboutFiles(init, files) {
        StepRefines(sqlite, postgres, files, last);
      } else {
        assert answers != answers';
        assert (answers + [SqliteStep(sqlite, last).1])[..|init|] == answers;
        assert (answers' + [PostgresStep(postgres, files, last).1])[..|init|] == answers';
      }
    }
  }

  lemma {:induction false} AnswersPerRequest(files: set<int>, requests: seq<Request>)
    ensures |SqliteRun([], requests).1| == |requests| == |PostgresRun([], files, requests).1|
  {
    if requests != [] {
      AnswersPerRequest(files, requests[..|requests| - 1]);
    }
  }

  // ---------------------------------------------------------------- the append log

  function CountUpTo(rows: seq<Row>, key: Key): nat {
    if rows == [] then 0 else CountUpTo(rows[..|rows| - 1], key) + if rows[|rows| - 1].key == key then 1 else 0
  }

  /** The n-th execution row of a file's stage carries attempt number n. */
  ghost predicate Numbered(rows: seq<Row>) {
    forall i | 0 <= i < |rows| :: rows[i].cell.attempts == CountUpTo(rows[..i + 1], rows[i].key)
  }

  /** Row `i` is history: a newer execution of the same stage exists. */
  predicate Superseded(rows: seq<Row>, i: nat)
    requires i < |rows|
  {
    exists j :: i < j < |rows| && rows[j].key == rows[i].key
  }

  /** `after` extends the log: history is untouched and every row keeps its key and its attempt number. */
  ghost predicate Extends(before: seq<Row>, after: seq<Row>) {
    && |before| <= |after|
    && (forall i | 0 <= i < |before| ::
          after[i].key == before[i].key && after[i].cell.attempts == before[i].cell.attempts)
    && forall i | 0 <= i < |before| :: Superseded(before, i) ==> after[i] == before[i]
  }

  lemma ExtendsTransitive(a: seq<Row>, b: seq<Row>, c: seq<Row>)
    requires Extends(a, b) && Extends(b, c)
    ensures Extends(a, c)
  {
    forall i | 0 <= i < |a| && Superseded(a, i)
      ensures c[i] == a[i]
    {
      var j :| i < j < |a| && a[j].key == a[i].key;
      assert b[j].key == b[i].key;
    }
  }

  lemma OverwriteExtends(rows: seq<Row>, key: Key, cell: Cell<Digest>)
    requires View(rows, key).Some? && View(rows, key).value.attempts == cell.attempts
    ensures Extends(rows, Overwrite(rows, key, cell))
    ensures |Overwrite(rows, key, cell)| == |rows|
  {
  }

  lemma {:induction false} InvalidateExtends(rows: seq<Row>, file: int, stages: seq<Stage>)
    ensures Extends(rows, InvalidateAll(rows, file, stages))
    ensures |InvalidateAll(rows, file, stages)| == |rows|
  {
    if stages != [] {
      var before := InvalidateAll(rows, file, stages[..|stages| - 1]);
      var key := Key(file, stages[|stages| - 1]);
      InvalidateExtends(rows, file, stages[..|stages| - 1]);
      if View(before, key).Some? {
        OverwriteExtends(before, key, Invalidated(View(before, key).value));
        ExtendsTransitive(rows, before, InvalidateAll(rows, file, stages));
      }
    }
  }

  lemma SettleExtends(rows: seq<Row>, request: Request)
    requires !request.Begin?
    ensures Extends(rows, Settle(rows, request).0) && |Settle(rows, request).0| == |rows|
  {
    hide Latest, InvalidateAll, Overwrite;
    match request
    case Complete(key, artifact) =>
      if IsRunning(rows, key) {
        OverwriteExtends(rows, key, Completed(View(rows, key).value, artifact));
      }
    case Fail(key, error) =>
      if IsRunning(rows, key) {
        OverwriteExtends(rows, key, FailedWith(View(rows, key).value, error));
      }
    case Invalidate(file, stages) => InvalidateExtends(rows, file, stages);
  }

  lemma {:induction false} CountFollowsKeys(a: seq<Row>, b: seq<Row>, key: Key)
    requires |a| == |b| && forall i | 0 <= i < |a| :: a[i].key == b[i].key
    ensures CountUpTo(a, key) == CountUpTo(b, key)
  {
    if a != [] {
      CountFollowsKeys(a[..|a| - 1], b[..|b| - 1], key);
    }
  }

  lemma NumberedFollowsKeys(before: seq<Row>, after: seq<Row>)
    requires Numbered(before) && Extends(before, after) && |after| == |before|
    ensures Numbered(after)
  {
    forall i | 0 <= i < |after|
      ensures after[i].cell.attempts == CountUpTo(after[..i + 1], after[i].key)
    {
      CountFollowsKeys(before[..i + 1], after[..i + 1], after[i].key);
    }
  }

  lemma PrefixNumbered(rows: seq<Row>, n: nat)
    requires Numbered(rows) && n <= |rows|
    ensures Numbered(rows[..n])
  {
    forall i | 0 <= i < n
      ensures rows[..n][i].cell.attempts == CountUpTo(rows[..n][..i + 1], rows[..n][i].key)
    {
      assert rows[..n][..i + 1] == rows[..i + 1];
    }
  }

  /** In a numbered log the newest row carries the number of rows. */
  lemma {:induction false} LatestCounts(rows: seq<Row>, key: Key)
    requires Numbered(rows)
    ensures CountUpTo(rows, key) == if View(rows, key).None? then 0 else View(rows, key).value.attempts
  {
    if rows != [] {
      var n := |rows| - 1;
      assert rows[..n + 1] == rows;
      PrefixNumbered(rows, n);
      if rows[n].key != key {
        LatestCounts(rows[..n], key);
      }
    }
  }

  lemma BeginNumbers(rows: seq<Row>, key: Key)
    requires Numbered(rows)
    ensures var after := rows + [Row(key, Begun(View(rows, key)))];
            Numbered(after) && Extends(rows, after)
  {
    var row := Row(key, Begun(View(rows, key)));
    var after := rows + [row];
    LatestCounts(rows, key);
    assert after[..|rows|] == rows && after[..|rows| + 1] == after;
    forall i | 0 <= i < |rows|
      ensures CountUpTo(after[..i + 1], after[i].key) == CountUpTo(rows[..i + 1], rows[i].key)
    {
      assert after[..i + 1] == rows[..i + 1];
    }
    assert CountUpTo(after, key) == CountUpTo(rows, key) + 1;
    hide CountUpTo, Latest, View;
  }

  lemma PostgresStepKeepsLog(rows: seq<Row>, files: set<int>, request: Request)
    requires Numbered(rows)
    ensures Numbered(PostgresStep(rows, files, request).0)
    ensures Extends(rows, PostgresStep(rows, files, request).0)
  {
    hide Settle, Numbered, View;
    match request
    case Begin(key) => BeginNumbers(rows, key);
    case _ =>
      SettleExtends(rows, request);
      NumberedFollowsKeys(rows, Settle(rows, request).0);
  }

  /** Every run of the Postgres store keeps the log numbered and never rewrites history. */
  lemma {:induction false} PostgresLogIsAppendOnly(files: set<int>, requests: seq<Request>, n: nat)
    requires n <= |requests|
    ensures Numbered(PostgresRun([], files, requests).0)
    ensures Extends(PostgresRun([], files, requests[..n]).0, PostgresRun([], files, requests).0)
    decreases |requests|
  {
    hide PostgresStep, Numbered;
    if requests == [] {
      assert Numbered([]) by { NothingNumbered(); }
      assert requests[..n] == requests;
    } else {
      var init := requests[..|requests| - 1];
      PostgresLogIsAppendOnly(files, init, if n < |requests| then n else 0);
      PostgresStepKeepsLog(PostgresRun([], files, init).0, files, requests[|requests| - 1]);
      if n < |requests| {
        assert init[..n] == requests[..n];
        ExtendsTransitive(PostgresRun([], files, requests[..n]).0, PostgresRun([], files, init).0,
                          PostgresRun([], files, requests).0);
      } else {
        assert requests[..n] == requests;
      }
    }
  }

  lemma NothingNumbered()
    ensures Numbered([])
  {
  }
}
