/** The worker's message handler and the publisher's loop in imperative form (qc/batch/worker.py,
    qc/batch/outbox_publisher.py). The handler runs while everyone else takes steps of the protocol in between; its own
    writes are protocol steps too. */
module Workers {
  import opened Common
  import opened Files
  import opened BatchStore
  import opened BatchLaws
  import opened Protocol
  import opened BatchSafety
  import opened BatchGuarantees

  /** What the pipeline hands back for an item. */
  datatype Outcome = Outcome(status: Status, request: Option<string>, result: Option<string>, reason: Option<string>)

  /** Where the system gets to before this process's n-th call. */
  type Others = (nat, State) -> State

  // ---------------------------------------------------------------- runs of the protocol

  ghost predicate IsPath(cfg: Config, run: seq<State>) {
    run != [] && forall i | 0 <= i < |run| - 1 :: Next(cfg, run[i], run[i + 1])
  }

  /** The protocol can get from one state to the other. */
  ghost predicate Leads(cfg: Config, s: State, t: State) {
    exists run :: IsPath(cfg, run) && run[0] == s && run[|run| - 1] == t
  }

  /** The worker stays where it is. */
  ghost predicate Stays(run: seq<State>, w: nat, pc: WorkerPc) {
    forall i | 0 <= i < |run| :: w in run[i].workers && run[i].workers[w] == pc
  }

  /** Others take any number of steps while the worker waits. */
  ghost predicate OthersMove(cfg: Config, w: nat, s: State, t: State) {
    w in s.workers &&
    exists run :: IsPath(cfg, run) && run[0] == s && run[|run| - 1] == t && Stays(run, w, s.workers[w])
  }

  ghost predicate Concurrent(cfg: Config, w: nat, others: Others) {
    forall n, s | Inv(cfg, s) && w in s.workers :: OthersMove(cfg, w, s, others(n, s))
  }

  /** A finished item stays as it is, and no item becomes pending again. */
  predicate Ages(a: Item, b: Item) {
    b == a || (!Terminal(a.status) && b.status != Pending && b.batch == a.batch && b.key == a.key)
  }

  /** What any number of steps leaves of a state: items only age, the stream only grows, acknowledgements last. */
  ghost predicate Later(s: State, t: State) {
    && |s.store.items| <= |t.store.items|
    && (forall i | 0 <= i < |s.store.items| :: Ages(s.store.items[i], t.store.items[i]))
    && |s.stream| <= |t.stream|
    && forall m | 0 <= m < |s.stream| ::
         t.stream[m].item == s.stream[m].item && (s.stream[m].acked ==> t.stream[m].acked)
  }

  lemma LaterIsTransitive(s: State, t: State, u: State)
    requires Later(s, t) && Later(t, u)
    ensures Later(s, u)
  {
    forall i | 0 <= i < |s.store.items|
      ensures Ages(s.store.items[i], u.store.items[i])
    {
      assert Ages(s.store.items[i], t.store.items[i]) && Ages(t.store.items[i], u.store.items[i]);
    }
  }

  lemma StepIsLater(cfg: Config, s: State, t: State)
    requires Inv(cfg, s) && Next(cfg, s, t)
    ensures Later(s, t)
  {
    hide Inv, Next;
    StepProgress(cfg, s, t);
    forall i | 0 <= i < |s.store.items|
      ensures Ages(s.store.items[i], t.store.items[i])
    {
      assert Changes(s.store.items[i], t.store.items[i]);
    }
  }

  lemma NothingIsLater(s: State)
    ensures Later(s, s)
  {
  }

  lemma {:induction false} PathKeeps(cfg: Config, run: seq<State>)
    requires IsPath(cfg, run) && Inv(cfg, run[0])
    ensures Inv(cfg, run[|run| - 1]) && Later(run[0], run[|run| - 1])
  {
    hide Inv, Next, Later;
    if |run| == 1 {
      NothingIsLater(run[0]);
    } else {
      var init := run[..|run| - 1];
      PathKeeps(cfg, init);
      StepKeeps(cfg, run[|run| - 2], run[|run| - 1]);
      StepIsLater(cfg, run[|run| - 2], run[|run| - 1]);
      LaterIsTransitive(run[0], run[|run| - 2], run[|run| - 1]);
    }
  }

  lemma LeadsKeeps(cfg: Config, s: State, t: State)
    requires Leads(cfg, s, t) && Inv(cfg, s)
    ensures Inv(cfg, t) && Later(s, t)
  {
    hide Inv, Later, Next;
    var run :| run != [] && IsPath(cfg, run) && run[0] == s && run[|run| - 1] == t;
    PathKeeps(cfg, run);
  }

  lemma LeadsIsTransitive(cfg: Config, s: State, t: State, u: State)
    requires Leads(cfg, s, t) && Leads(cfg, t, u)
    ensures Leads(cfg, s, u)
  {
    hide Next;
    var a :| IsPath(cfg, a) && a[0] == s && a[|a| - 1] == t;
    var b :| IsPath(cfg, b) && b[0] == t && b[|b| - 1] == u;
    var c := a + b[1..];
    forall i | 0 <= i < |c| - 1
      ensures Next(cfg, c[i], c[i + 1])
    {
      if i >= |a| - 1 {
        assert c[i] == b[i - |a| + 1] && c[i + 1] == b[i - |a| + 2];
      }
    }
    assert IsPath(cfg, c) && c[|c| - 1] == u;
  }

  lemma StepLeads(cfg: Config, s: State, t: State)
    requires Next(cfg, s, t)
    ensures Leads(cfg, s, t)
  {
    hide Next;
    assert IsPath(cfg, [s, t]);
  }

  /** One own step more. */
  lemma StepFurther(cfg: Config, s: State, t: State, u: State)
    requires Inv(cfg, s) && Leads(cfg, s, t) && Next(cfg, t, u)
    ensures Leads(cfg, s, u) && Inv(cfg, u) && Later(s, u) && Later(t, u)
  {
    hide Inv, Next, Leads, Later;
    LeadsKeeps(cfg, s, t);
    StepKeeps(cfg, t, u);
    StepLeads(cfg, t, u);
    LeadsIsTransitive(cfg, s, t, u);
    LeadsKeeps(cfg, s, u);
    StepIsLater(cfg, t, u);
  }

  lemma OthersFurther(cfg: Config, w: nat, s: State, t: State, u: State)
    requires Inv(cfg, s) && Leads(cfg, s, t) && OthersMove(cfg, w, t, u)
    ensures Leads(cfg, s, u) && Inv(cfg, u) && Later(s, u) && Later(t, u)
    ensures w in t.workers && w in u.workers && u.workers[w] == t.workers[w]
  {
    hide Inv, Later, Next;
    var run :| run != [] && IsPath(cfg, run) && run[0] == t && run[|run| - 1] == u && Stays(run, w, t.workers[w]);
    assert Leads(cfg, t, u);
    hide Leads;
    LeadsKeeps(cfg, s, t);
    LeadsKeeps(cfg, t, u);
    LeadsIsTransitive(cfg, s, t, u);
    LeadsKeeps(cfg, s, u);
  }

  // ---------------------------------------------------------------- the stream

  class RedisStream {
    var entries: seq<Entry>

    constructor ()
      ensures entries == []
    {
      entries := [];
    }

    method Add(item: nat) returns (message: nat)
      modifies this
      ensures message == |old(entries)| && entries == old(entries) + [Entry(item, false)]
    {
      message := |entries|;
      entries := entries + [Entry(item, false)];
    }

    method Ack(message: nat)
      requires message < |entries|
      modifies this
      ensures entries == old(entries)[message := old(entries)[message].(acked := true)]
    {
      entries := entries[message := entries[message].(acked := true)];
    }
  }

  /** The objects are the store and the stream of the system. */
  ghost predicate Mirrors(store: PostgresBatchStore, stream: RedisStream, s: State)
    reads store, stream
  {
    store.Contents() == s.store && stream.entries == s.stream
  }

  /** What the others did shows in the store and on the stream. */
  method Await(store: PostgresBatchStore, stream: RedisStream, ghost cfg: Config, w: nat, others: Others, n: nat,
               ghost s0: State, s: State)
    returns (t: State)
    requires Concurrent(cfg, w, others) && Inv(cfg, s0) && Leads(cfg, s0, s) && w in s.workers
    requires Mirrors(store, stream, s)
    modifies store, stream
    ensures t == others(n, s) && Mirrors(store, stream, t)
    ensures Leads(cfg, s0, t) && Inv(cfg, t) && Later(s0, t) && Later(s, t)
    ensures w in t.workers && t.workers[w] == s.workers[w]
  {
    hide Inv, Leads, Later, OthersMove;
    LeadsKeeps(cfg, s0, s);
    t := others(n, s);
    OthersFurther(cfg, w, s0, s, t);
    store.jobs, store.items, store.events := t.store.jobs, t.store.items, t.store.events;
    store.letters, store.bindings := t.store.letters, t.store.bindings;
    stream.entries := t.stream;
  }

  // ---------------------------------------------------------------- the message handler

  /** The record of a finished item is the outcome's. */
  predicate Bears(item: Item, outcome: Outcome) {
    && item.status == outcome.status && item.request == outcome.request
    && item.result == outcome.result && item.reason == outcome.reason
  }

  ghost predicate Entered(s: State, m: nat) {
    m < |s.stream| && s.stream[m].item < |s.store.items|
  }

  function RowOf(s: State, m: nat): Item
    requires m < |s.stream| && s.stream[m].item < |s.store.items|
  {
    s.store.items[s.stream[m].item]
  }

  /** The row is of the file the entry was published for. */
  ghost predicate SameFile(row: Item, s: State, m: nat) {
    Entered(s, m) && row.key == RowOf(s, m).key && row.batch == RowOf(s, m).batch
  }

  /** The item waits at the first look, and still in the same status at the claim. */
  ghost predicate Claimable(others: Others, w: nat, m: nat, s: State) {
    var seen := others(0, s);
    && Entered(seen, m) && RowOf(seen, m).status in {Pending, Interrupted}
    && var found := others(1, AtWork(seen, w, Claiming(m, RowOf(seen, m).status)));
    Entered(found, m) && RowOf(found, m).status == RowOf(seen, m).status
  }

  ghost function Claimed(others: Others, w: nat, m: nat, s: State): State
    requires Claimable(others, w, m, s)
  {
    var status := RowOf(others(0, s), m).status;
    Won(others(1, AtWork(others(0, s), w, Claiming(m, status))), w, m, status)
  }

  function Recording(m: nat, outcome: Outcome): WorkerPc {
    Finalizing(m, outcome.status, outcome.request, outcome.result, outcome.reason)
  }

  /** When the outcome is there to be recorded, the item is still RUNNING. */
  ghost predicate StillOurs(others: Others, w: nat, m: nat, s: State, outcome: Outcome)
    requires Claimable(others, w, m, s)
  {
    var t := others(2, AtWork(Claimed(others, w, m, s), w, Recording(m, outcome)));
    Entered(t, m) && RowOf(t, m).status == Running
  }

  ghost predicate Starts(cfg: Config, w: nat, m: nat, s: State) {
    Inv(cfg, s) && w in s.workers && s.workers[w] == Reading(m)
  }

  lemma AckedIsFinal(cfg: Config, s: State, m: nat)
    requires Inv(cfg, s) && m < |s.stream|
    ensures Entered(s, m) && (s.stream[m].acked ==> Terminal(StatusOf(s, m)))
  {
  }

  lemma OwnStep(cfg: Config, w: nat, s0: State, s: State, t: State)
    requires Inv(cfg, s0) && Leads(cfg, s0, s) && (TakeStep(s, t, w) || GiveStep(s, t, w))
    ensures Leads(cfg, s0, t) && Inv(cfg, t) && Later(s0, t) && Later(s, t)
  {
    hide Inv, Leads, Later, TakeStep, GiveStep;
    assert Next(cfg, s, t);
    StepFurther(cfg, s0, s, t);
  }

  /** A step that touches neither store nor stream. */
  method Step(ghost cfg: Config, w: nat, ghost s0: State, s: State, pc: WorkerPc) returns (t: State)
    requires Inv(cfg, s0) && Leads(cfg, s0, s)
    requires TakeStep(s, AtWork(s, w, pc), w) || GiveStep(s, AtWork(s, w, pc), w)
    ensures t == AtWork(s, w, pc) && Leads(cfg, s0, t) && Inv(cfg, t) && Later(s0, t)
  {
    hide Inv, Leads, Later, TakeStep, GiveStep;
    t := AtWork(s, w, pc);
    OwnStep(cfg, w, s0, s, t);
  }

  /** Acknowledges the entry of a finished item, which stays finished meanwhile. */
  method Acknowledge(store: PostgresBatchStore, stream: RedisStream, ghost cfg: Config, w: nat, m: nat, others: Others,
                     n: nat, ghost s0: State, s: State)
    returns (t: State)
    requires Concurrent(cfg, w, others) && Inv(cfg, s0) && Leads(cfg, s0, s) && w in s.workers
    requires s.workers[w] == Acking(m) && Mirrors(store, stream, s)
    modifies store, stream
    ensures Mirrors(store, stream, t) && Leads(cfg, s0, t) && Inv(cfg, t) && Later(s0, t)
    ensures w in t.workers && t.workers[w] == Resting
    ensures Entered(s, m) && Entered(t, m) && t.stream[m].acked && Terminal(StatusOf(s, m)) && Terminal(StatusOf(t, m))
    ensures t.stream[m].item == s.stream[m].item
    ensures t.store.items[t.stream[m].item] == s.store.items[s.stream[m].item]
  {
    hide Inv, Leads, Later, Concurrent, Ages;
    LeadsKeeps(cfg, s0, s);
    AckingIsFinal(cfg, s, w, m);
    var u := Await(store, stream, cfg, w, others, n, s0, s);
    FinalStays(s, u, m);
    stream.Ack(m);
    t := AtWork(u.(stream := stream.entries), w, Resting);
    OwnStep(cfg, w, s0, u, t);
  }

  lemma AckingIsFinal(cfg: Config, s: State, w: nat, m: nat)
    requires Inv(cfg, s) && w in s.workers && s.workers[w] == Acking(m)
    ensures Entered(s, m) && Terminal(StatusOf(s, m))
  {
    assert WorkerOk(s.store.items, s.stream, s.workers[w]);
  }

  lemma FinalStays(s: State, t: State, m: nat)
    requires Later(s, t) && Entered(s, m) && Terminal(StatusOf(s, m))
    ensures Entered(t, m) && t.stream[m].item == s.stream[m].item
    ensures t.store.items[t.stream[m].item] == s.store.items[s.stream[m].item]
  {
    assert Ages(s.store.items[s.stream[m].item], t.store.items[s.stream[m].item]);
  }

  lemma LaterEntry(s: State, t: State, m: nat)
    requires Later(s, t) && Entered(s, m)
    ensures Entered(t, m) && t.stream[m].item == s.stream[m].item
    ensures RowOf(t, m).key == RowOf(s, m).key && RowOf(t, m).batch == RowOf(s, m).batch
  {
    assert Ages(RowOf(s, m), RowOf(t, m));
  }

  lemma Begins(cfg: Config, s: State, w: nat, m: nat)
    requires Starts(cfg, w, m, s)
    ensures m < |s.stream| && Leads(cfg, s, s) && Later(s, s) && Entered(s, m)
  {
    assert WorkerOk(s.store.items, s.stream, s.workers[w]);
    assert IsPath(cfg, [s]);
  }

  /** The compare-and-set. When it is lost, the item is looked at again, and the entry of a finished item
      acknowledged. */
  method ClaimItem(store: PostgresBatchStore, stream: RedisStream, ghost cfg: Config, w: nat, m: nat, others: Others,
                   status: Status, ghost s0: State, s: State)
    returns (claimed: bool, t: State)
    requires Concurrent(cfg, w, others) && Inv(cfg, s0) && Leads(cfg, s0, s) && Entered(s, m)
    requires Mirrors(store, stream, s)
    requires w in s.workers && s.workers[w] == Claiming(m, status) && status in {Pending, Interrupted}
    modifies store, stream
    ensures Mirrors(store, stream, t) && Leads(cfg, s0, t) && Inv(cfg, t) && Later(s0, t) && Entered(t, m)
    ensures claimed <==> Entered(others(1, s), m) && StatusOf(others(1, s), m) == status
    ensures claimed ==> t == Won(others(1, s), w, m, status)
    ensures w in t.workers && t.workers[w] == if claimed then Executing(m) else Resting
    ensures !claimed ==> (t.stream[m].acked <==> Terminal(StatusOf(t, m)))
  {
    hide Inv, Leads, Later, Concurrent, Ages;
    t := Await(store, stream, cfg, w, others, 1, s0, s);
    LaterEntry(s, t, m);
    ghost var found := t;
    var i := stream.entries[m].item;
    claimed := store.ClaimFile(i, status);
    if claimed {
      t := AtWork(Moved(t, ClaimTx(t.store, i, status).0), w, Executing(m));
      OwnStep(cfg, w, s0, found, t);
      LaterEntry(found, t, m);
    } else {
      t := Step(cfg, w, s0, t, Rereading(m));
      t := Reread(store, stream, cfg, w, m, others, s0, t);
    }
  }

  function Won(found: State, w: nat, m: nat, status: Status): State
    requires m < |found.stream|
  {
    AtWork(Moved(found, ClaimTx(found.store, found.stream[m].item, status).0), w, Executing(m))
  }

  method Reread(store: PostgresBatchStore, stream: RedisStream, ghost cfg: Config, w: nat, m: nat, others: Others,
                ghost s0: State, s: State)
    returns (t: State)
    requires Concurrent(cfg, w, others) && Inv(cfg, s0) && Leads(cfg, s0, s) && Entered(s, m)
    requires Mirrors(store, stream, s)
    requires w in s.workers && s.workers[w] == Rereading(m)
    modifies store, stream
    ensures Mirrors(store, stream, t) && Leads(cfg, s0, t) && Inv(cfg, t) && Later(s0, t) && Entered(t, m)
    ensures w in t.workers && t.workers[w] == Resting
    ensures t.stream[m].acked <==> Terminal(StatusOf(t, m))
  {
    hide Inv, Leads, Later, Concurrent, Ages;
    t := Await(store, stream, cfg, w, others, 2, s0, s);
    LaterEntry(s, t, m);
    var latest := store.items[stream.entries[m].item];
    if latest.status == Done || latest.status == HumanReview || latest.status == FailedFinal {
      t := Step(cfg, w, s0, t, Acking(m));
      t := Acknowledge(store, stream, cfg, w, m, others, 3, s0, t);
    } else {
      t := Step(cfg, w, s0, t, Resting);
      AckedIsFinal(cfg, t, m);
    }
  }

  /** Looks at the item and claims it. When it is not taken, the entry is acknowledged exactly if the item was found
      finished. */
  method TakeItem(store: PostgresBatchStore, stream: RedisStream, ghost cfg: Config, w: nat, m: nat, others: Others,
                  s0: State)
    returns (row: Option<Item>, s: State)
    requires Starts(cfg, w, m, s0) && Mirrors(store, stream, s0) && Concurrent(cfg, w, others)
    modifies store, stream
    ensures Mirrors(store, stream, s) && Leads(cfg, s0, s) && Inv(cfg, s) && Later(s0, s) && Entered(s, m)
    ensures row.Some? <==> Claimable(others, w, m, s0)
    ensures row.Some? ==> && row.value == RowOf(others(0, s0), m) && SameFile(row.value, s0, m)
                          && s == Claimed(others, w, m, s0) && w in s.workers && s.workers[w] == Executing(m)
    ensures row.None? ==> && w in s.workers && s.workers[w] == Resting
                          && (s.stream[m].acked <==> Terminal(StatusOf(s, m)))
  {
    hide Inv, Leads, Later, Concurrent, Ages;
    Begins(cfg, s0, w, m);
    s := Await(store, stream, cfg, w, others, 0, s0, s0);
    LaterEntry(s0, s, m);
    var found := store.items[stream.entries[m].item];
    row := None;
    if found.status == Running {
      s := Step(cfg, w, s0, s, Resting);
      AckedIsFinal(cfg, s, m);
    } else if found.status != Pending && found.status != Interrupted {
      s := Step(cfg, w, s0, s, Acking(m));
      s := Acknowledge(store, stream, cfg, w, m, others, 1, s0, s);
    } else {
      s := Step(cfg, w, s0, s, Claiming(m, found.status));
      var claimed;
      claimed, s := ClaimItem(store, stream, cfg, w, m, others, found.status, s0, s);
      if claimed {
        row := Some(found);
      }
    }
  }

  /** Finalisation, with a dead letter for a failure. */
  method Settle(store: PostgresBatchStore, i: nat, m: nat, outcome: Outcome) returns (settled: bool)
    requires i < |store.items| && Terminal(outcome.status)
    modifies store
    ensures var tx := SettleTx(old(store.Contents()), i, m, outcome.status, outcome.request, outcome.result,
                               outcome.reason);
            && settled == tx.Success? && store.Contents() == if settled then tx.value else old(store.Contents())
    ensures settled <==> old(store.items[i].status) == Running
    ensures settled ==> i < |store.items| && Bears(store.items[i], outcome)
    ensures store.letters == if settled && outcome.status == FailedFinal
                             then old(store.letters) + [Letter(i, old(store.items[i].batch), m, "FAILED_FINAL")]
                             else old(store.letters)
  {
    hide Present, AllFinal, FinalStatus, WithJob;
    if outcome.status == FailedFinal {
      var r := store.FinalizeFileWithDeadLetter(i, outcome.request, outcome.result, outcome.reason, m, "FAILED_FINAL");
      settled := r.Success?;
    } else {
      var r := store.FinalizeFile(i, outcome.status, outcome.request, outcome.result, outcome.reason);
      settled := r.Success?;
    }
  }

  /** Records the outcome and acknowledges, unless the item was lost meanwhile. */
  method Finish(store: PostgresBatchStore, stream: RedisStream, ghost cfg: Config, w: nat, m: nat, outcome: Outcome,
                others: Others, ghost s0: State, s: State)
    returns (settled: bool, t: State)
    requires Concurrent(cfg, w, others) && Inv(cfg, s0) && Leads(cfg, s0, s) && Entered(s, m)
    requires Mirrors(store, stream, s)
    requires w in s.workers && s.workers[w] == Recording(m, outcome) && Terminal(outcome.status)
    modifies store, stream
    ensures Mirrors(store, stream, t) && Leads(cfg, s0, t) && Inv(cfg, t) && Later(s0, t) && Entered(t, m)
    ensures settled <==> Entered(others(2, s), m) && RowOf(others(2, s), m).status == Running
    ensures w in t.workers && t.workers[w] == if settled then Resting else GivingBack(m)
    ensures settled ==> t.stream[m].acked && Bears(RowOf(t, m), outcome)
    ensures !settled ==> t == AtWork(others(2, s), w, GivingBack(m))
  {
    hide Inv, Leads, Later, Concurrent, Ages, SettleTx, Bears;
    t := Await(store, stream, cfg, w, others, 2, s0, s);
    LaterEntry(s, t, m);
    ghost var found := t;
    var i := stream.entries[m].item;
    settled := Settle(store, i, m, outcome);
    if settled {
      var tx := SettleTx(t.store, i, m, outcome.status, outcome.request, outcome.result, outcome.reason);
      t := AtWork(Moved(t, tx.value), w, Acking(m));
      OwnStep(cfg, w, s0, found, t);
      LaterEntry(found, t, m);
      t := Acknowledge(store, stream, cfg, w, m, others, 3, s0, t);
    } else {
      t := Step(cfg, w, s0, t, GivingBack(m));
    }
  }

  /** An execution that did not finalise leaves the item INTERRUPTED, if it is still RUNNING. */
  method GiveBack(store: PostgresBatchStore, stream: RedisStream, ghost cfg: Config, w: nat, m: nat, others: Others,
                  n: nat, ghost s0: State, s: State)
    returns (t: State)
    requires Concurrent(cfg, w, others) && Inv(cfg, s0) && Leads(cfg, s0, s) && Entered(s, m)
    requires Mirrors(store, stream, s)
    requires w in s.workers && s.workers[w] == GivingBack(m)
    modifies store, stream
    ensures Mirrors(store, stream, t) && Leads(cfg, s0, t) && Inv(cfg, t) && Later(s0, t) && Entered(t, m)
    ensures w in t.workers && t.workers[w] == Resting
    ensures ReadsInterrupted(others(n, s), t, m)
  {
    hide Inv, Leads, Later, Concurrent, Ages, SetStatusTx, GiveStep, Observed;
    t := Await(store, stream, cfg, w, others, n, s0, s);
    LaterEntry(s, t, m);
    ghost var found := t;
    var i := stream.entries[m].item;
    var r := store.SetFileStatus(i, Interrupted, Some("WORKER_EXECUTION_INTERRUPTED"));
    if r.Success? {
      t := Moved(t, SetStatusTx(t.store, i, Interrupted, Some("WORKER_EXECUTION_INTERRUPTED")).value);
    }
    t := AtWork(t, w, Resting);
    GivingBackIs(found, t, w, m);
    OwnStep(cfg, w, s0, found, t);
  }

  /** The entry is not acknowledged, and its item is INTERRUPTED if it was RUNNING, and otherwise as it was. */
  ghost predicate ReadsInterrupted(found: State, s: State, m: nat) {
    && Entered(found, m) && Entered(s, m) && s.stream == found.stream && |s.store.items| == |found.store.items|
    && var i, was := s.stream[m].item, RowOf(found, m);
    && (forall k | 0 <= k < |s.store.items| && k != i :: s.store.items[k] == found.store.items[k])
    && RowOf(s, m) == if was.status == Running
                      then was.(status := Interrupted, reason := Some("WORKER_EXECUTION_INTERRUPTED")) else was
  }

  /** What the handler finds when it gives the item up, having had this outcome to record or none. */
  ghost function GivenUp(others: Others, w: nat, m: nat, s: State, outcome: Option<Outcome>): State
    requires Claimable(others, w, m, s)
  {
    var claimed := Claimed(others, w, m, s);
    match outcome
    case None => others(2, AtWork(claimed, w, GivingBack(m)))
    case Some(o) => others(3, AtWork(others(2, AtWork(claimed, w, Recording(m, o))), w, GivingBack(m)))
  }

  lemma GivingBackIs(s: State, t: State, w: nat, m: nat)
    requires Entered(s, m) && w in s.workers && s.workers[w] == GivingBack(m)
    requires var tx := SetStatusTx(s.store, s.stream[m].item, Interrupted, Some("WORKER_EXECUTION_INTERRUPTED"));
             t == AtWork(if tx.Success? then Moved(s, tx.value) else s, w, Resting)
    ensures GiveStep(s, t, w) && Entered(t, m) && ReadsInterrupted(s, t, m)
  {
    hide Observed;
  }

  /** `_handle_message`, as a run of the protocol in which this worker goes from reading to resting, with others moving
      before each of its calls. `row` is what the claim found at this entry's item. Success is reported exactly when
      the claim was won, the pipeline did not raise (`execute` gives None where it does) and the item is still RUNNING;
      then the item carries the outcome of executing that row. A claimed item is never left RUNNING. */
  method HandleMessage(store: PostgresBatchStore, stream: RedisStream, ghost cfg: Config, w: nat, m: nat,
                       execute: Item -> Option<Outcome>, others: Others, s0: State)
    returns (handled: bool, ghost row: Option<Item>, s: State)
    requires Starts(cfg, w, m, s0) && Mirrors(store, stream, s0) && Concurrent(cfg, w, others)
    requires forall item | execute(item).Some? :: Terminal(execute(item).value.status)
    modifies store, stream
    ensures Mirrors(store, stream, s) && Leads(cfg, s0, s) && Inv(cfg, s) && Later(s0, s) && Entered(s, m)
    ensures w in s.workers && s.workers[w] == Resting
    ensures row.Some? <==> Claimable(others, w, m, s0)
    ensures row.Some? ==> && row.value == RowOf(others(0, s0), m) && SameFile(row.value, s0, m)
                          && RowOf(s, m).status != Running
    ensures row.None? ==> (s.stream[m].acked <==> Terminal(RowOf(s, m).status))
    ensures handled <==> row.Some? && execute(row.value).Some?
                         && StillOurs(others, w, m, s0, execute(row.value).value)
    ensures handled ==> s.stream[m].acked && Bears(RowOf(s, m), execute(row.value).value)
    ensures row.Some? && !handled ==> ReadsInterrupted(GivenUp(others, w, m, s0, execute(row.value)), s, m)
  {
    hide Inv, Leads, Later, Concurrent, Ages, Bears, Claimable, Claimed, SameFile, ReadsInterrupted;
    var taken;
    taken, s := TakeItem(store, stream, cfg, w, m, others, s0);
    row, handled := taken, false;
    if taken.None? {
      return;
    }
    var outcome := execute(taken.value);
    if outcome.Some? {
      s := Step(cfg, w, s0, s, Recording(m, outcome.value));
      handled, s := Finish(store, stream, cfg, w, m, outcome.value, others, s0, s);
      if handled {
        RecordedIsFinal(RowOf(s, m), outcome.value);
        return;
      }
    } else {
      s := Step(cfg, w, s0, s, GivingBack(m));
    }
    s := GiveBack(store, stream, cfg, w, m, others, if outcome.Some? then 3 else 2, s0, s);
    InterruptedIsNotRunning(GivenUp(others, w, m, s0, outcome), s, m);
  }

  /** What the handler leaves is the end of a longer run, so every guarantee about runs goes on holding. */
  lemma RunGoesOn(cfg: Config, run: seq<State>, t: State) returns (longer: seq<State>)
    requires IsRun(cfg, run) && Leads(cfg, run[|run| - 1], t)
    ensures IsRun(cfg, longer) && run <= longer && longer[|longer| - 1] == t
  {
    hide Next;
    var path :| IsPath(cfg, path) && path[0] == run[|run| - 1] && path[|path| - 1] == t;
    longer := run + path[1..];
    forall i | 0 <= i < |longer| - 1
      ensures Next(cfg, longer[i], longer[i + 1])
    {
      if i >= |run| - 1 {
        assert longer[i] == path[i - |run| + 1] && longer[i + 1] == path[i - |run| + 2];
      }
    }
  }

  lemma InterruptedIsNotRunning(found: State, s: State, m: nat)
    requires ReadsInterrupted(found, s, m)
    ensures Entered(s, m) && RowOf(s, m).status != Running
  {
  }

  lemma RecordedIsFinal(item: Item, outcome: Outcome)
    requires Bears(item, outcome) && Terminal(outcome.status)
    ensures item.status != Running
  {
  }

  /** What one round did to an event: it is on the stream and marked so, or its failed send was counted. */
  predicate Sent(before: Event, after: Event, sent: bool, from: nat, entries: seq<Entry>, maxAttempts: int) {
    before.status == Unsent &&
    if sent then
      && after.status == Published && after.message.Some? && from <= after.message.value < |entries|
      && entries[after.message.value] == Entry(before.item, false)
    else
      && after.attempts == before.attempts + 1 && after.status != Published
      && (after.status == Abandoned <==> after.attempts >= Max(1, maxAttempts))
  }

  /** What the stream gains: one entry for each fetched event whose XADD succeeds, in order. */
  function NewEntries(events: seq<Event>, todo: seq<nat>, send: nat -> bool): seq<Entry>
    requires forall k | 0 <= k < |todo| :: todo[k] < |events|
  {
    if todo == [] then []
    else
      var e := todo[|todo| - 1];
      NewEntries(events, todo[..|todo| - 1], send) + if send(e) then [Entry(events[e].item, false)] else []
  }

  lemma NothingNew(events: seq<Event>, send: nat -> bool)
    ensures NewEntries(events, [], send) == []
  {
  }

  lemma NewEntriesStep(events: seq<Event>, todo: seq<nat>, k: nat, send: nat -> bool)
    requires k < |todo| && forall j | 0 <= j < |todo| :: todo[j] < |events|
    ensures NewEntries(events, todo[..k + 1], send)
         == NewEntries(events, todo[..k], send) + if send(todo[k]) then [Entry(events[todo[k]].item, false)] else []
  {
    assert todo[..k + 1][..k] == todo[..k];
  }

  lemma SentStays(before: Event, after: Event, sent: bool, from: nat, entries: seq<Entry>, more: seq<Entry>,
                  maxAttempts: int)
    requires Sent(before, after, sent, from, entries, maxAttempts)
    ensures Sent(before, after, sent, from, entries + more, maxAttempts)
  {
  }

  /** One round of the loop: XADD and its mark, or the mark of the failure. */
  method SendOne(store: PostgresBatchStore, stream: RedisStream, ghost cfg: Config, ghost p: nat, e: nat,
                 maxAttempts: int, sends: bool, ghost todo: seq<nat>, ghost s: State)
    returns (ghost t: State)
    requires e < |store.events| && store.events[e].status == Unsent
    requires Mirrors(store, stream, s) && maxAttempts == cfg.outboxAttempts
    requires todo != [] && todo[0] == e && p in s.publishers && s.publishers[p] == Publishing(todo)
    modifies store, stream
    ensures store.items == old(store.items) && store.jobs == old(store.jobs) && store.letters == old(store.letters)
    ensures |store.events| == |old(store.events)| && store.events == old(store.events)[e := store.events[e]]
    ensures stream.entries == old(stream.entries) + if sends then [Entry(old(store.events[e]).item, false)] else []
    ensures Sent(old(store.events[e]), store.events[e], sends, |old(stream.entries)|, stream.entries, maxAttempts)
    ensures Mirrors(store, stream, t) && Leads(cfg, s, t)
    ensures p in t.publishers && t.publishers[p] == Publishing(todo[1..])
  {
    hide Max, Next, Observed, Leads;
    ghost var u;
    if sends {
      var message := stream.Add(store.events[e].item);
      u := AtPublishing(s.(stream := stream.entries), p, Marking(e, message, todo[1..]));
      var r := store.MarkOutboxPublished(e, message);
    } else {
      u := AtPublishing(s, p, Downgrading(e, todo[1..]));
      var r := store.MarkOutboxFailed(e, maxAttempts);
    }
    t := AtPublishing(Moved(u, store.Contents()), p, Publishing(todo[1..]));
    TwoSteps(cfg, s, u, t, p);
  }

  lemma TwoSteps(cfg: Config, s: State, t: State, u: State, p: nat)
    requires PublisherStep(cfg, s, t, p) && PublisherStep(cfg, t, u, p)
    ensures Leads(cfg, s, u)
  {
    hide PublisherStep, Leads;
    assert Next(cfg, s, t) && Next(cfg, t, u);
    hide Next;
    StepLeads(cfg, s, t);
    StepLeads(cfg, t, u);
    LeadsIsTransitive(cfg, s, t, u);
  }

  /** The events of the first k rounds are handled, the others are as they were. */
  ghost predicate Handled(before: seq<Event>, after: seq<Event>, todo: seq<nat>, send: nat -> bool, from: nat,
                          entries: seq<Entry>, maxAttempts: int)
  {
    && |after| == |before|
    && forall e: nat | e < |before| ::
         if e in todo then Sent(before[e], after[e], send(e), from, entries, maxAttempts) else after[e] == before[e]
  }

  lemma HandledStep(before: seq<Event>, mid: seq<Event>, after: seq<Event>, todo: seq<nat>, k: nat,
                    send: nat -> bool, from: nat, entries: seq<Entry>, more: seq<Entry>, maxAttempts: int)
    requires k < |todo| && todo[k] < |before| && todo[k] !in todo[..k]
    requires Handled(before, mid, todo[..k], send, from, entries, maxAttempts)
    requires |after| == |mid| && after == mid[todo[k] := after[todo[k]]] && from <= |entries|
    requires Sent(mid[todo[k]], after[todo[k]], send(todo[k]), |entries|, entries + more, maxAttempts)
    ensures Handled(before, after, todo[..k + 1], send, from, entries + more, maxAttempts)
  {
    hide Max;
    assert todo[..k + 1] == todo[..k] + [todo[k]];
    forall e: nat | e < |before|
      ensures if e in todo[..k + 1] then Sent(before[e], after[e], send(e), from, entries + more, maxAttempts)
              else after[e] == before[e]
    {
      if e in todo[..k] {
        SentStays(before[e], mid[e], send(e), from, entries, more, maxAttempts);
      }
    }
  }

  /** `publish_once`: `send(e)` tells whether XADD succeeds for the event. The oldest unsent events are handled, each
      according to its send, and no other; returns how many were published. The whole is a run of the protocol in
      which the publisher goes from waiting to waiting. */
  method PublishOnce(store: PostgresBatchStore, stream: RedisStream, ghost cfg: Config, ghost p: nat, maxEvents: nat,
                     maxAttempts: int, send: nat -> bool, ghost s0: State)
    returns (published: nat, ghost todo: seq<nat>, ghost s: State)
    requires Mirrors(store, stream, s0) && maxAttempts == cfg.outboxAttempts
    requires p in s0.publishers && s0.publishers[p] == Waiting
    modifies store, stream
    ensures store.items == old(store.items) && store.jobs == old(store.jobs) && store.letters == old(store.letters)
    ensures FirstUnsent(old(store.events), maxEvents, todo)
    ensures stream.entries == old(stream.entries) + NewEntries(old(store.events), todo, send)
    ensures published == |NewEntries(old(store.events), todo, send)|
    ensures Handled(old(store.events), store.events, todo, send, |old(stream.entries)|, stream.entries, maxAttempts)
    ensures Mirrors(store, stream, s) && Leads(cfg, s0, s) && p in s.publishers && s.publishers[p] == Waiting
  {
    hide NewEntries, Sent, Max, Leads, Next;
    ghost var events0, from := store.events, |stream.entries|;
    var fetched := store.PendingOutboxEvents(maxEvents);
    todo := fetched;
    published := 0;
    assert fetched[..0] == [] && fetched[0..] == fetched;
    NothingNew(events0, send);
    s := Fetched(cfg, s0, p, fetched);
    for k := 0 to |fetched|
      invariant store.items == old(store.items) && store.jobs == old(store.jobs) && store.letters == old(store.letters)
      invariant stream.entries == old(stream.entries) + NewEntries(events0, fetched[..k], send)
      invariant published == |NewEntries(events0, fetched[..k], send)|
      invariant Handled(events0, store.events, fetched[..k], send, from, stream.entries, maxAttempts)
      invariant Mirrors(store, stream, s) && Leads(cfg, s0, s)
      invariant p in s.publishers && s.publishers[p] == Publishing(fetched[k..])
    {
      var e := fetched[k];
      ghost var events, entries, before := store.events, stream.entries, s;
      NewEntriesStep(events0, fetched, k, send);
      assert e !in fetched[..k] && fetched[k..][1..] == fetched[k + 1..];
      s := SendOne(store, stream, cfg, p, e, maxAttempts, send(e), fetched[k..], s);
      LeadsIsTransitive(cfg, s0, before, s);
      HandledStep(events0, events, store.events, fetched, k, send, from, entries, stream.entries[|entries|..],
                  maxAttempts);
      assert entries + stream.entries[|entries|..] == stream.entries;
      if send(e) {
        published := published + 1;
      }
    }
    assert fetched[..|fetched|] == fetched;
    s := AllDone(cfg, s0, s, p);
  }

  lemma Fetched(cfg: Config, s0: State, p: nat, fetched: seq<nat>) returns (s: State)
    requires p in s0.publishers && s0.publishers[p] == Waiting
    requires forall e | e in fetched :: e < |s0.store.events| && s0.store.events[e].status == Unsent
    ensures Leads(cfg, s0, s) && s == AtPublishing(s0, p, Publishing(fetched))
  {
    hide Leads;
    s := AtPublishing(s0, p, Publishing(fetched));
    assert PublisherStep(cfg, s0, s, p);
    hide PublisherStep;
    assert Next(cfg, s0, s);
    StepLeads(cfg, s0, s);
  }

  lemma AllDone(cfg: Config, s0: State, s: State, p: nat) returns (t: State)
    requires Leads(cfg, s0, s) && p in s.publishers && s.publishers[p] == Publishing([])
    ensures Leads(cfg, s0, t) && t == AtPublishing(s, p, Waiting)
  {
    hide Leads;
    t := AtPublishing(s, p, Waiting);
    assert PublisherStep(cfg, s, t, p);
    hide PublisherStep;
    assert Next(cfg, s, t);
    StepLeads(cfg, s, t);
    LeadsIsTransitive(cfg, s0, s, t);
  }
}
