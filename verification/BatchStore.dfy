/** The Postgres batch store (qc/batch/postgres_store.py): jobs, items, outbox events, dead letters and
    idempotency bindings. Every method is one transaction; row ids are positions, in insertion order. */
module BatchStore {
  import opened Common
  import opened Files

  datatype JobStatus = Queued | Underway | Completed | Partial | Failed

  datatype Job = Job(status: JobStatus, total: nat)

  datatype Item = Item(batch: nat, key: string, status: Status, request: Option<string>, result: Option<string>,
                       reason: Option<string>)

  datatype EventStatus = Unsent | Published | Abandoned

  datatype Event = Event(item: nat, status: EventStatus, attempts: nat, message: Option<nat>)

  datatype Letter = Letter(item: nat, batch: nat, message: nat, code: string)

  datatype Binding = Binding(batch: nat, hash: string)

  datatype Store = Store(jobs: seq<Job>, items: seq<Item>, events: seq<Event>, letters: seq<Letter>,
                         bindings: map<string, Binding>)

  datatype StoreError = StateConflict | UnknownRow | NotFinal | IdempotencyConflict | OverCapacity | DuplicateItem

  datatype Response = Response(batch: nat, status: JobStatus, total: nat)

  const EMPTY_STORE := Store([], [], [], [], map[])

  // ---------------------------------------------------------------- statuses of a batch

  /** The statuses with a non-zero count among the items of a batch. */
  function Present(items: seq<Item>, batch: nat): set<Status> {
    set i | 0 <= i < |items| && items[i].batch == batch :: items[i].status
  }

  predicate AllFinal(present: set<Status>) {
    present != {} && forall st | st in present :: Terminal(st)
  }

  function FinalStatus(present: set<Status>): JobStatus {
    if FailedFinal in present then Failed else if HumanReview in present then Partial else Completed
  }

  /** The status `get_batch` recomputes; None stands for the KeyError of a batch without items. */
  function Derived(items: seq<Item>, batch: nat): Option<JobStatus> {
    var present := Present(items, batch);
    if present == {} then None
    else if AllFinal(present) then Some(FinalStatus(present))
    else if Running in present || Interrupted in present then Some(Underway)
    else Some(Queued)
  }

  // ---------------------------------------------------------------- what a batch status says

  ghost predicate SomeItem(items: seq<Item>, batch: nat, status: Status) {
    exists i :: 0 <= i < |items| && items[i].batch == batch && items[i].status == status
  }

  ghost predicate EveryItemEnded(items: seq<Item>, batch: nat) {
    forall i | 0 <= i < |items| && items[i].batch == batch :: Terminal(items[i].status)
  }

  /** A final status, read off the items: one failure fails the batch; else one review makes it partial. */
  ghost predicate EndsAs(items: seq<Item>, batch: nat, status: JobStatus) {
    && (status == Failed <==> SomeItem(items, batch, FailedFinal))
    && (status == Partial <==> SomeItem(items, batch, HumanReview) && !SomeItem(items, batch, FailedFinal))
    && (status == Completed <==> forall i | 0 <= i < |items| && items[i].batch == batch :: items[i].status == Done)
  }

  /** The answer of `get_batch`, read off the items. */
  ghost predicate Answers(items: seq<Item>, batch: nat, r: Option<JobStatus>) {
    && (r.None? <==> forall i | 0 <= i < |items| :: items[i].batch != batch)
    && (r.Some? && EveryItemEnded(items, batch) ==> EndsAs(items, batch, r.value))
    && (r.Some? && !EveryItemEnded(items, batch) ==>
          && r.value in {Underway, Queued}
          && (r.value == Underway <==> SomeItem(items, batch, Running) || SomeItem(items, batch, Interrupted)))
  }

  lemma PresentIsSomeItem(items: seq<Item>, batch: nat)
    ensures forall st :: st in Present(items, batch) <==> SomeItem(items, batch, st)
    ensures AllFinal(Present(items, batch)) <==> EveryItemEnded(items, batch) && Present(items, batch) != {}
    ensures Present(items, batch) == {} <==> forall i | 0 <= i < |items| :: items[i].batch != batch
  {
    forall i | 0 <= i < |items| && items[i].batch == batch
      ensures items[i].status in Present(items, batch)
    {
    }
  }

  lemma FinalStatusSays(items: seq<Item>, batch: nat)
    requires AllFinal(Present(items, batch))
    ensures EndsAs(items, batch, FinalStatus(Present(items, batch)))
  {
    PresentIsSomeItem(items, batch);
    assert forall i | 0 <= i < |items| && items[i].batch == batch :: SomeItem(items, batch, items[i].status);
    hide Present;
  }

  lemma DerivedAnswers(items: seq<Item>, batch: nat)
    ensures Answers(items, batch, Derived(items, batch))
  {
    PresentIsSomeItem(items, batch);
    if AllFinal(Present(items, batch)) {
      FinalStatusSays(items, batch);
    }
    hide Present, FinalStatus, EndsAs;
  }

  /** The batch is closed with its last item, with the status that its items give it; no other batch is touched. */
  ghost predicate JobFollows(before: seq<Job>, after: seq<Job>, items: seq<Item>, batch: nat) {
    && |after| == |before|
    && (forall b | 0 <= b < |before| && b != batch :: after[b] == before[b])
    && (batch < |before| ==>
          && after[batch].total == before[batch].total
          && if EveryItemEnded(items, batch) then EndsAs(items, batch, after[batch].status)
             else after[batch] == before[batch])
  }

  lemma ItemIsPresent(items: seq<Item>, i: nat)
    requires i < |items|
    ensures items[i].status in Present(items, items[i].batch)
  {
  }

  lemma FinalizingFollows(jobs: seq<Job>, items: seq<Item>, batch: nat)
    requires Present(items, batch) != {}
    ensures var present := Present(items, batch);
            JobFollows(jobs, if AllFinal(present) then WithJob(jobs, batch, FinalStatus(present)) else jobs, items,
                       batch)
  {
    PresentIsSomeItem(items, batch);
    if AllFinal(Present(items, batch)) {
      FinalStatusSays(items, batch);
    }
    hide Present, FinalStatus, EndsAs;
  }

  function Outstanding(items: seq<Item>): nat {
    if items == [] then 0 else Outstanding(items[..|items| - 1]) + if Terminal(items[|items| - 1].status) then 0 else 1
  }

  // ---------------------------------------------------------------- transactions

  function WithJob(jobs: seq<Job>, batch: nat, status: JobStatus): seq<Job> {
    if batch < |jobs| then jobs[batch := jobs[batch].(status := status)] else jobs
  }

  function ClaimTx(s: Store, i: nat, expected: Status): (Store, bool) {
    if (expected == Pending || expected == Interrupted) && i < |s.items| && s.items[i].status == expected then
      var item := s.items[i].(status := Running, reason := None);
      (s.(items := s.items[i := item], jobs := WithJob(s.jobs, item.batch, Underway)), true)
    else (s, false)
  }

  /** The transitions `set_file_status` may make. */
  predicate LegalMove(before: Status, after: Status) {
    || (after == Running && (before == Pending || before == Interrupted))
    || (after == Interrupted && before == Running)
  }

  function SetStatusTx(s: Store, i: nat, target: Status, reason: Option<string>): Result<Store, StoreError> {
    if Terminal(target) then Failure(StateConflict)
    else if i >= |s.items| then Failure(UnknownRow)
    else if target !in Successors(s.items[i].status) then Failure(StateConflict)
    else Success(s.(items := s.items[i := s.items[i].(status := target, reason := reason)]))
  }

  function FinalizeTx(s: Store, i: nat, target: Status, request: Option<string>, result: Option<string>,
                      reason: Option<string>)
    : Result<Store, StoreError>
  {
    if !Terminal(target) then Failure(NotFinal)
    else if i >= |s.items| || s.items[i].status != Running then Failure(StateConflict)
    else
      var item := s.items[i].(status := target, request := request, result := result, reason := reason);
      var items := s.items[i := item];
      var present := Present(items, item.batch);
      var jobs := if AllFinal(present) then WithJob(s.jobs, item.batch, FinalStatus(present)) else s.jobs;
      Success(s.(items := items, jobs := jobs))
  }

  function DeadLetterTx(s: Store, i: nat, request: Option<string>, result: Option<string>, reason: Option<string>,
                        message: nat, code: string): Result<Store, StoreError>
  {
    match FinalizeTx(s, i, FailedFinal, request, result, reason)
    case Failure(e) => Failure(e)
    case Success(t) => Success(t.(letters := t.letters + [Letter(i, t.items[i].batch, message, code)]))
  }

  predicate Repeats(keys: seq<string>) {
    exists i, j :: 0 <= i < j < |keys| && keys[i] == keys[j]
  }

  function NewItems(batch: nat, keys: seq<string>): (r: seq<Item>)
    ensures |r| == |keys|
  {
    seq(|keys|, k requires 0 <= k < |keys| => Item(batch, keys[k], Pending, None, None, None))
  }

  function NewEvents(first: nat, n: nat): (r: seq<Event>)
    ensures |r| == n
  {
    seq(n, k requires 0 <= k < n => Event(first + k, Unsent, 0, None))
  }

  function BatchSize(items: seq<Item>, batch: nat): nat {
    if items == [] then 0
    else BatchSize(items[..|items| - 1], batch) + if items[|items| - 1].batch == batch then 1 else 0
  }

  /** `create_batch_with_outbox`; an absent or empty idempotency key binds nothing. */
  function CreateTx(s: Store, keys: seq<string>, idempotencyKey: string, hash: string, maxPending: Option<int>)
    : Result<(Store, Response), StoreError>
  {
    if idempotencyKey != "" && idempotencyKey in s.bindings then
      var binding := s.bindings[idempotencyKey];
      if binding.hash != hash then Failure(IdempotencyConflict)
      else if binding.batch >= |s.jobs| then Failure(UnknownRow)
      else Success((s, Response(binding.batch, s.jobs[binding.batch].status, BatchSize(s.items, binding.batch))))
    else if maxPending.Some? && Outstanding(s.items) + |keys| > maxPending.value then Failure(OverCapacity)
    else if Repeats(keys) then Failure(DuplicateItem)
    else
      var batch := |s.jobs|;
      var after := Store(s.jobs + [Job(Queued, |keys|)], s.items + NewItems(batch, keys),
                         s.events + NewEvents(|s.items|, |keys|), s.letters,
                         if idempotencyKey != "" then s.bindings[idempotencyKey := Binding(batch, hash)]
                         else s.bindings);
      Success((after, Response(batch, Queued, |keys|)))
  }

  predicate IsBound(bindings: map<string, Binding>, key: string) {
    key != "" && key in bindings
  }

  /** What a creation request is answered: a bound key is replayed or refused; a full backlog and a repeated item are
      refused; anything else is accepted. */
  ghost predicate Requested(s: Store, keys: seq<string>, key: string, hash: string, maxPending: Option<int>,
                            r: Result<Response, StoreError>)
  {
    var open := set i | 0 <= i < |s.items| && !Terminal(s.items[i].status);
    if IsBound(s.bindings, key) then
      var bound := s.bindings[key];
      if bound.hash != hash then r == Failure(IdempotencyConflict)
      else if bound.batch >= |s.jobs| then r == Failure(UnknownRow)
      else r == Success(Response(bound.batch, s.jobs[bound.batch].status,
                                 |set i | 0 <= i < |s.items| && s.items[i].batch == bound.batch|))
    else if maxPending.Some? && |open| + |keys| > maxPending.value then r == Failure(OverCapacity)
    else if exists i, j :: 0 <= i < j < |keys| && keys[i] == keys[j] then r == Failure(DuplicateItem)
    else r == Success(Response(|s.jobs|, Queued, |keys|))
  }

  /** What an accepted request adds: one job, and for every key in order a pending item and its unsent event. */
  ghost predicate Added(s: Store, t: Store, keys: seq<string>, key: string, hash: string) {
    && t.jobs == s.jobs + [Job(Queued, |keys|)] && t.letters == s.letters
    && |t.items| == |s.items| + |keys| && s.items <= t.items
    && |t.events| == |s.events| + |keys| && s.events <= t.events
    && (forall k | 0 <= k < |keys| ::
          && t.items[|s.items| + k] == Item(|s.jobs|, keys[k], Pending, None, None, None)
          && t.events[|s.events| + k] == Event(|s.items| + k, Unsent, 0, None))
    && t.bindings == if key == "" then s.bindings else s.bindings[key := Binding(|s.jobs|, hash)]
  }

  lemma RequestIsRead(s: Store, keys: seq<string>, key: string, hash: string, maxPending: Option<int>)
    ensures var tx := CreateTx(s, keys, key, hash, maxPending);
            && Requested(s, keys, key, hash, maxPending,
                         if tx.Success? then Success(tx.value.1) else Failure(tx.error))
            && (tx.Success? && !IsBound(s.bindings, key) ==> Added(s, tx.value.0, keys, key, hash))
            && (tx.Success? && IsBound(s.bindings, key) ==> tx.value.0 == s)
  {
    OutstandingCounts(s.items);
    if IsBound(s.bindings, key) {
      SizeCounts(s.items, s.bindings[key].batch);
    }
  }

  lemma {:induction false} OutstandingCounts(items: seq<Item>)
    ensures Outstanding(items) == |set i | 0 <= i < |items| && !Terminal(items[i].status)|
  {
    if items != [] {
      var n := |items| - 1;
      var before := set i | 0 <= i < n && !Terminal(items[..n][i].status);
      var after := set i | 0 <= i < |items| && !Terminal(items[i].status);
      OutstandingCounts(items[..n]);
      assert |items[..n]| == n;
      assert after == before + if Terminal(items[n].status) then {} else {n};
    }
  }

  lemma {:induction false} SizeCounts(items: seq<Item>, batch: nat)
    ensures BatchSize(items, batch) == |set i | 0 <= i < |items| && items[i].batch == batch|
  {
    if items != [] {
      var n := |items| - 1;
      var before := set i | 0 <= i < n && items[..n][i].batch == batch;
      var after := set i | 0 <= i < |items| && items[i].batch == batch;
      SizeCounts(items[..n], batch);
      assert |items[..n]| == n;
      assert after == before + if items[n].batch == batch then {n} else {};
    }
  }

  function PublishedTx(s: Store, e: nat, message: nat): Result<Store, StoreError> {
    if e >= |s.events| || s.events[e].status != Unsent then Failure(StateConflict)
    else Success(s.(events := s.events[e := s.events[e].(status := Published, message := Some(message))]))
  }

  function SendFailedTx(s: Store, e: nat, maxAttempts: int): Result<Store, StoreError> {
    if e >= |s.events| then Failure(UnknownRow)
    else if s.events[e].status != Unsent then Failure(StateConflict)
    else
      var attempts := s.events[e].attempts + 1;
      var status := if attempts >= Max(1, maxAttempts) then Abandoned else Unsent;
      Success(s.(events := s.events[e := s.events[e].(status := status, attempts := attempts)]))
  }

  function InterruptAllTx(s: Store, batch: nat): Store {
    s.(items := seq(|s.items|, i requires 0 <= i < |s.items| =>
                    if s.items[i].batch == batch && s.items[i].status == Running
                    then s.items[i].(status := Interrupted) else s.items[i]))
  }

  /** The items of the batch that are RUNNING, among the first `n`. */
  ghost function RunningOf(items: seq<Item>, batch: nat, n: nat): set<int>
    requires n <= |items|
  {
    set i | 0 <= i < n && items[i].batch == batch && items[i].status == Running
  }

  lemma NothingRunning(items: seq<Item>, batch: nat)
    ensures RunningOf(items, batch, 0) == {}
  {
  }

  lemma OneMoreRunning(items: seq<Item>, batch: nat, n: nat)
    requires n < |items|
    ensures |RunningOf(items, batch, n + 1)|
         == |RunningOf(items, batch, n)| + if items[n].batch == batch && items[n].status == Running then 1 else 0
  {
    assert RunningOf(items, batch, n + 1)
           == RunningOf(items, batch, n)
              + if items[n].batch == batch && items[n].status == Running then {n} else {};
  }

  /** The oldest unsent events, in order: one is passed over only when the limit went to older ones. */
  ghost predicate FirstUnsent(events: seq<Event>, limit: nat, todo: seq<nat>) {
    && |todo| <= limit
    && (forall k | 0 <= k < |todo| :: todo[k] < |events| && events[todo[k]].status == Unsent)
    && (forall j, k | 0 <= j < k < |todo| :: todo[j] < todo[k])
    && (forall e: nat | e < |events| && events[e].status == Unsent && e !in todo ::
          |todo| == limit && forall k | 0 <= k < |todo| :: todo[k] < e)
  }

  // ---------------------------------------------------------------- the store

  class PostgresBatchStore {
    var jobs: seq<Job>
    var items: seq<Item>
    var events: seq<Event>
    var letters: seq<Letter>
    var bindings: map<string, Binding>

    constructor ()
      ensures Contents() == EMPTY_STORE
    {
      jobs, items, events, letters, bindings := [], [], [], [], map[];
    }

    ghost function Contents(): Store
      reads this
    {
      Store(jobs, items, events, letters, bindings)
    }

    /** Compare-and-set on the item status; the job follows a successful claim. */
    method ClaimFile(i: nat, expected: Status) returns (claimed: bool)
      modifies this
      ensures (Contents(), claimed) == ClaimTx(old(Contents()), i, expected)
      ensures claimed <==> expected in {Pending, Interrupted} && i < |old(items)| && old(items[i].status) == expected
      ensures claimed ==>
                var was := old(items[i]);
                && items == old(items)[i := Item(was.batch, was.key, Running, was.request, was.result, None)]
                && |jobs| == |old(jobs)|
                && forall b | 0 <= b < |jobs| :: jobs[b] == if b == was.batch then Job(Underway, old(jobs)[b].total)
                                                            else old(jobs)[b]
      ensures !claimed ==> Contents() == old(Contents())
    {
      if expected != Pending && expected != Interrupted {
        return false;
      }
      claimed := i < |items| && items[i].status == expected;
      if claimed {
        items := items[i := items[i].(status := Running, reason := None)];
        var batch := items[i].batch;
        if batch < |jobs| {
          jobs := jobs[batch := jobs[batch].(status := Underway)];
        }
      }
    }

    /** Claims, interrupts, and nothing else. */
    method SetFileStatus(i: nat, target: Status, reason: Option<string>) returns (r: Result<(), StoreError>)
      modifies this`items
      ensures r.Success? <==> SetStatusTx(old(Contents()), i, target, reason).Success?
      ensures r.Success? ==> Contents() == SetStatusTx(old(Contents()), i, target, reason).value
      ensures r.Failure? ==>
                Contents() == old(Contents()) && r.error == SetStatusTx(old(Contents()), i, target, reason).error
      ensures r.Success? <==> i < |old(items)| && LegalMove(old(items[i].status), target)
      ensures r.Success? ==>
                var was := old(items[i]);
                items == old(items)[i := Item(was.batch, was.key, target, was.request, was.result, reason)]
      ensures r.Failure? ==> r.error == if i >= |old(items)| && !Terminal(target) then UnknownRow else StateConflict
    {
      if target == Done || target == HumanReview || target == FailedFinal {
        return Failure(StateConflict);
      }
      if i >= |items| {
        return Failure(UnknownRow);
      }
      if target !in Successors(items[i].status) {
        return Failure(StateConflict);
      }
      items := items[i := items[i].(status := target, reason := reason)];
      r := Success(());
    }

    method FinalizeFile(i: nat, target: Status, request: Option<string>, result: Option<string>, reason: Option<string>)
      returns (r: Result<(), StoreError>)
      modifies this
      ensures var tx := FinalizeTx(old(Contents()), i, target, request, result, reason);
              && r.Success? == tx.Success?
              && (tx.Success? ==> Contents() == tx.value)
              && (tx.Failure? ==> Contents() == old(Contents()) && r.error == tx.error)
      ensures r.Success? <==> Terminal(target) && i < |old(items)| && old(items[i].status) == Running
      ensures r.Failure? ==> r.error == if Terminal(target) then StateConflict else NotFinal
      ensures letters == old(letters) && events == old(events) && bindings == old(bindings)
      ensures r.Success? ==>
                && items == old(items)[i := Item(old(items[i].batch), old(items[i].key), target, request, result,
                                                 reason)]
                && JobFollows(old(jobs), jobs, items, items[i].batch)
    {
      hide Present;
      if target != Done && target != HumanReview && target != FailedFinal {
        return Failure(NotFinal);
      }
      if i >= |items| || items[i].status != Running {
        return Failure(StateConflict);
      }
      items := items[i := items[i].(status := target, request := request, result := result, reason := reason)];
      var batch := items[i].batch;
      var counts := CountStatuses(items, batch);
      if counts.Keys != {} && forall st | st in counts.Keys :: Terminal(st) {
        var status := if FailedFinal in counts then Failed else if HumanReview in counts then Partial else Completed;
        if batch < |jobs| {
          jobs := jobs[batch := jobs[batch].(status := status)];
        }
      }
      ItemIsPresent(items, i);
      FinalizingFollows(old(jobs), items, batch);
      r := Success(());
    }

    /** The dead letter is written in the transaction that finalises the item. */
    method FinalizeFileWithDeadLetter(i: nat, request: Option<string>, result: Option<string>, reason: Option<string>,
                                      message: nat, code: string)
      returns (r: Result<(), StoreError>)
      modifies this
      ensures var tx := DeadLetterTx(old(Contents()), i, request, result, reason, message, code);
              && r.Success? == tx.Success?
              && (tx.Success? ==> Contents() == tx.value)
              && (tx.Failure? ==> Contents() == old(Contents()) && r.error == tx.error)
      ensures r.Success? <==> i < |old(items)| && old(items[i].status) == Running
      ensures r.Success? ==>
                var was := old(items[i]);
                && items == old(items)[i := Item(was.batch, was.key, FailedFinal, request, result, reason)]
                && letters == old(letters) + [Letter(i, was.batch, message, code)]
                && JobFollows(old(jobs), jobs, items, was.batch)
      ensures r.Failure? ==> r.error == StateConflict && letters == old(letters)
    {
      r := FinalizeFile(i, FailedFinal, request, result, reason);
      if r.Success? {
        letters := letters + [Letter(i, items[i].batch, message, code)];
      }
    }

    /** One pending item and one unsent event for every key. */
    method AddItems(batch: nat, keys: seq<string>)
      modifies this`items, this`events
      ensures items == old(items) + NewItems(batch, keys)
      ensures events == old(events) + NewEvents(|old(items)|, |keys|)
    {
      var first := |items|;
      for k := 0 to |keys|
        invariant items == old(items) + NewItems(batch, keys[..k])
        invariant events == old(events) + NewEvents(first, k)
      {
        assert NewItems(batch, keys[..k + 1])
               == NewItems(batch, keys[..k]) + [Item(batch, keys[k], Pending, None, None, None)];
        assert NewEvents(first, k + 1) == NewEvents(first, k) + [Event(first + k, Unsent, 0, None)];
        var item := |items|;
        items := items + [Item(batch, keys[k], Pending, None, None, None)];
        events := events + [Event(item, Unsent, 0, None)];
      }
      assert keys[..|keys|] == keys;
    }

    method CreateBatchWithOutbox(keys: seq<string>, idempotencyKey: string, hash: string, maxPending: Option<int>)
      returns (r: Result<Response, StoreError>)
      modifies this
      ensures var tx := CreateTx(old(Contents()), keys, idempotencyKey, hash, maxPending);
              && r.Success? == tx.Success?
              && (tx.Success? ==> (Contents(), r.value) == tx.value)
              && (tx.Failure? ==> Contents() == old(Contents()) && r.error == tx.error)
      ensures Requested(old(Contents()), keys, idempotencyKey, hash, maxPending, r)
      ensures r.Success? && !IsBound(old(bindings), idempotencyKey) ==>
                Added(old(Contents()), Contents(), keys, idempotencyKey, hash)
      ensures r.Failure? || IsBound(old(bindings), idempotencyKey) ==> Contents() == old(Contents())
    {
      RequestIsRead(Contents(), keys, idempotencyKey, hash, maxPending);
      hide Requested, Added;
      if idempotencyKey != "" && idempotencyKey in bindings {
        var existing := bindings[idempotencyKey];
        if existing.hash != hash {
          return Failure(IdempotencyConflict);
        }
        if existing.batch >= |jobs| {
          return Failure(UnknownRow);
        }
        return Success(Response(existing.batch, jobs[existing.batch].status, BatchSize(items, existing.batch)));
      }
      if maxPending.Some? {
        var pending := CountOutstanding(items);
        if pending + |keys| > maxPending.value {
          return Failure(OverCapacity);
        }
      }
      if exists i, j | 0 <= i < j < |keys| :: keys[i] == keys[j] {
        return Failure(DuplicateItem);
      }
      var batch := |jobs|;
      jobs := jobs + [Job(Queued, |keys|)];
      AddItems(batch, keys);
      if idempotencyKey != "" {
        bindings := bindings[idempotencyKey := Binding(batch, hash)];
      }
      r := Success(Response(batch, Queued, |keys|));
    }

    method PendingOutboxEvents(limit: nat) returns (todo: seq<nat>)
      ensures FirstUnsent(events, limit, todo)
    {
      todo := [];
      var e := 0;
      while e < |events| && |todo| < limit
        invariant e <= |events| && |todo| <= limit
        invariant forall k | 0 <= k < |todo| :: todo[k] < e && events[todo[k]].status == Unsent
        invariant forall j, k | 0 <= j < k < |todo| :: todo[j] < todo[k]
        invariant forall x | 0 <= x < e && events[x].status == Unsent :: x in todo
      {
        if events[e].status == Unsent {
          todo := todo + [e];
        }
        e := e + 1;
      }
    }

    method MarkOutboxPublished(e: nat, message: nat) returns (r: Result<(), StoreError>)
      modifies this`events
      ensures var tx := PublishedTx(old(Contents()), e, message);
              && r.Success? == tx.Success?
              && (tx.Success? ==> Contents() == tx.value)
              && (tx.Failure? ==> Contents() == old(Contents()) && r.error == tx.error)
      ensures r.Success? <==> e < |old(events)| && old(events[e].status) == Unsent
      ensures r.Success? ==>
                events == old(events)[e := Event(old(events[e].item), Published, old(events[e].attempts),
                                                 Some(message))]
      ensures r.Failure? ==> r.error == StateConflict && events == old(events)
    {
      if e >= |events| || events[e].status != Unsent {
        return Failure(StateConflict);
      }
      events := events[e := events[e].(status := Published, message := Some(message))];
      r := Success(());
    }

    method MarkOutboxFailed(e: nat, maxAttempts: int) returns (r: Result<bool, StoreError>)
      modifies this`events
      ensures var tx := SendFailedTx(old(Contents()), e, maxAttempts);
              && r.Success? == tx.Success?
              && (tx.Success? ==> Contents() == tx.value && r.value == (events[e].status == Abandoned))
              && (tx.Failure? ==> Contents() == old(Contents()) && r.error == tx.error)
      ensures r.Success? <==> e < |old(events)| && old(events[e].status) == Unsent
      ensures r.Success? ==>
                var was := old(events[e]);
                && (r.value <==> was.attempts + 1 >= 1 && was.attempts + 1 >= maxAttempts)
                && events == old(events)[e := Event(was.item, if r.value then Abandoned else Unsent, was.attempts + 1,
                                                    was.message)]
      ensures r.Failure? ==> events == old(events) && r.error == if e < |events| then StateConflict else UnknownRow
    {
      if e >= |events| {
        return Failure(UnknownRow);
      }
      if events[e].status != Unsent {
        return Failure(StateConflict);
      }
      var attempts := events[e].attempts + 1;
      var exhausted := attempts >= Max(1, maxAttempts);
      events := events[e := events[e].(status := if exhausted then Abandoned else Unsent, attempts := attempts)];
      r := Success(exhausted);
    }

    method MarkInterruptedRunning(batch: nat) returns (n: nat)
      modifies this`items
      ensures Contents() == InterruptAllTx(old(Contents()), batch)
      ensures n == |RunningOf(old(items), batch, |items|)|
      ensures |items| == |old(items)|
      ensures forall i | 0 <= i < |items| ::
                var was := old(items)[i];
                items[i] == if was.batch == batch && was.status == Running
                            then Item(was.batch, was.key, Interrupted, was.request, was.result, was.reason) else was
    {
      hide RunningOf;
      var updated: seq<Item> := [];
      n := 0;
      NothingRunning(items, batch);
      for i := 0 to |items|
        invariant items == old(items) && |updated| == i && n <= i
        invariant forall k | 0 <= k < i ::
                    updated[k] == if items[k].batch == batch && items[k].status == Running
                                  then items[k].(status := Interrupted) else items[k]
        invariant n == |RunningOf(items, batch, i)|
      {
        OneMoreRunning(items, batch, i);
        if items[i].batch == batch && items[i].status == Running {
          updated := updated + [items[i].(status := Interrupted)];
          n := n + 1;
        } else {
          updated := updated + [items[i]];
        }
      }
      items := updated;
    }

    /** `PostgresBatchService.get_batch`: the status is recomputed from the item counts. */
    method GetBatch(batch: nat) returns (r: Option<JobStatus>)
      ensures r == Derived(items, batch) && Answers(items, batch, r)
    {
      DerivedAnswers(items, batch);
      hide Answers;
      var counts := CountStatuses(items, batch);
      if counts.Keys == {} {
        return None;
      }
      if forall st | st in counts.Keys :: Terminal(st) {
        r := Some(if FailedFinal in counts then Failed else if HumanReview in counts then Partial else Completed);
      } else if Running in counts || Interrupted in counts {
        r := Some(Underway);
      } else {
        r := Some(Queued);
      }
    }
  }

  /** GROUP BY status over the items of a batch: only statuses that occur have an entry. */
  method CountStatuses(items: seq<Item>, batch: nat) returns (counts: map<Status, nat>)
    ensures counts.Keys == Present(items, batch)
    ensures forall st | st in counts :: counts[st] > 0
  {
    counts := map[];
    for i := 0 to |items|
      invariant forall st :: st in counts <==> exists k ::
                  0 <= k < i && items[k].batch == batch && items[k].status == st
      invariant forall st | st in counts :: counts[st] > 0
    {
      if items[i].batch == batch {
        var st := items[i].status;
        counts := counts[st := (if st in counts then counts[st] else 0) + 1];
      }
    }
  }

  method CountOutstanding(items: seq<Item>) returns (n: nat)
    ensures n == Outstanding(items)
  {
    n := 0;
    for i := 0 to |items|
      invariant n == Outstanding(items[..i])
    {
      assert items[..i + 1][..i] == items[..i];
      if items[i].status in {Pending, Running, Interrupted} {
        n := n + 1;
      }
    }
    assert items[..|items|] == items;
  }
}
