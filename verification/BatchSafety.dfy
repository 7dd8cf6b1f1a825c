/** Safety of the batch protocol over every run: crashes, duplicate deliveries, expired leases with zombie
    executors, failed sends, any number of publishers and workers. */
module BatchSafety {
  import opened Common
  import opened Files
  import opened BatchStore
  import opened BatchLaws
  import opened Protocol

  // ---------------------------------------------------------------- the invariant

  /** Entries into RUNNING are accounted for: each ended in an interrupt, in the one finalisation, or goes on. */
  predicate TallyOk(status: Status, t: Tally) {
    && t.entries == t.interrupts + t.finals + (if status == Running then 1 else 0)
    && t.finals == (if Terminal(status) then 1 else 0)
    && (status == Pending <==> t.entries == 0)
  }

  ghost predicate HistoryOk(items: seq<Item>, history: seq<Tally>) {
    |history| == |items| && forall i | 0 <= i < |items| :: TallyOk(items[i].status, history[i])
  }

  ghost predicate StreamOk(items: seq<Item>, stream: seq<Entry>) {
    forall m | 0 <= m < |stream| ::
      stream[m].item < |items| && (stream[m].acked ==> Terminal(items[stream[m].item].status))
  }

  ghost predicate Delivered(stream: seq<Entry>, e: nat) {
    exists m :: 0 <= m < |stream| && stream[m].item == e
  }

  ghost predicate SentOk(events: seq<Event>, stream: seq<Entry>) {
    forall e | 0 <= e < |events| && events[e].status == Published :: Delivered(stream, e)
  }

  predicate WorkerOk(items: seq<Item>, stream: seq<Entry>, pc: WorkerPc) {
    match pc
    case Resting => true
    case Acking(m) => m < |stream| && stream[m].item < |items| && Terminal(items[stream[m].item].status)
    case Finalizing(m, target, _, _, _) => m < |stream| && Terminal(target)
    case _ => pc.m < |stream|
  }

  predicate InRange(todo: seq<nat>, n: nat) {
    forall k | 0 <= k < |todo| :: todo[k] < n
  }

  predicate PublisherOk(n: nat, stream: seq<Entry>, pc: PublisherPc) {
    match pc
    case Waiting => true
    case Publishing(todo) => InRange(todo, n)
    case Marking(e, message, todo) => e < n && InRange(todo, n) && message < |stream| && stream[message].item == e
    case Downgrading(e, todo) => e < n && InRange(todo, n)
  }

  ghost predicate ProcessesOk(s: State) {
    && (forall w | w in s.workers :: WorkerOk(s.store.items, s.stream, s.workers[w]))
    && (forall p | p in s.publishers :: PublisherOk(|s.store.events|, s.stream, s.publishers[p]))
  }

  ghost predicate Inv(cfg: Config, s: State) {
    && StoreOk(s.store, cfg.maxPending, cfg.outboxAttempts)
    && HistoryOk(s.store.items, s.history)
    && StreamOk(s.store.items, s.stream)
    && SentOk(s.store.events, s.stream)
    && ProcessesOk(s)
  }

  // ---------------------------------------------------------------- kinds of change

  lemma EvolvedStatus(before: seq<Item>, after: seq<Item>, i: nat)
    requires Evolves(before, after) && i < |before|
    ensures after[i].status == before[i].status || after[i].status in Successors(before[i].status)
    ensures Terminal(before[i].status) ==> after[i] == before[i]
  {
    assert Changes(before[i], after[i]);
  }

  lemma HistoryKept(before: seq<Item>, after: seq<Item>, history: seq<Tally>)
    requires HistoryOk(before, history) && Evolves(before, after)
    ensures HistoryOk(after, Observed(before, after, history))
  {
    hide Evolves;
    forall i | 0 <= i < |after|
      ensures TallyOk(after[i].status, Observed(before, after, history)[i])
    {
      if i < |before| {
        EvolvedStatus(before, after, i);
        assert TallyOk(before[i].status, history[i]);
      } else {
        assert after[i].status == Pending by { NewIsPending(before, after, i); }
      }
    }
  }

  lemma NewIsPending(before: seq<Item>, after: seq<Item>, i: nat)
    requires Evolves(before, after) && |before| <= i < |after|
    ensures after[i].status == Pending
  {
  }

  lemma StreamKept(before: seq<Item>, after: seq<Item>, stream: seq<Entry>)
    requires StreamOk(before, stream) && Evolves(before, after)
    ensures StreamOk(after, stream)
  {
    forall m | 0 <= m < |stream|
      ensures stream[m].item < |after| && (stream[m].acked ==> Terminal(after[stream[m].item].status))
    {
      EvolvedStatus(before, after, stream[m].item);
    }
  }

  lemma WorkerKept(before: seq<Item>, after: seq<Item>, stream: seq<Entry>, pc: WorkerPc)
    requires WorkerOk(before, stream, pc) && Evolves(before, after)
    ensures WorkerOk(after, stream, pc)
  {
    if pc.Acking? {
      EvolvedStatus(before, after, stream[pc.m].item);
    }
  }

  /** A legal transaction, whoever ran it, disturbs nobody. */
  lemma TransactionKeeps(cfg: Config, s: State, t: Store)
    requires Inv(cfg, s) && StoreOk(t, cfg.maxPending, cfg.outboxAttempts)
    requires Evolves(s.store.items, t.items) && EventsAdvance(s.store.events, t.events)
    requires SentOk(t.events, s.stream)
    ensures Inv(cfg, Moved(s, t))
  {
    hide StoreOk, HistoryOk, StreamOk, SentOk, WorkerOk, Evolves, Observed;
    HistoryKept(s.store.items, t.items, s.history);
    StreamKept(s.store.items, t.items, s.stream);
    forall w | w in s.workers {
      WorkerKept(s.store.items, t.items, s.stream, s.workers[w]);
    }
  }

  lemma SameEvents(events: seq<Event>)
    ensures EventsAdvance(events, events)
  {
  }

  lemma WorkerMoves(cfg: Config, s: State, w: nat, pc: WorkerPc)
    requires Inv(cfg, s) && WorkerOk(s.store.items, s.stream, pc)
    ensures Inv(cfg, AtWork(s, w, pc))
  {
    hide StoreOk, HistoryOk, StreamOk, SentOk, WorkerOk, PublisherOk;
  }

  lemma PublisherMoves(cfg: Config, s: State, p: nat, pc: PublisherPc)
    requires Inv(cfg, s) && PublisherOk(|s.store.events|, s.stream, pc)
    ensures Inv(cfg, AtPublishing(s, p, pc))
  {
    hide StoreOk, HistoryOk, StreamOk, SentOk, WorkerOk, PublisherOk;
  }

  lemma StreamGrows(cfg: Config, s: State, i: nat)
    requires Inv(cfg, s) && i < |s.store.items|
    ensures Inv(cfg, s.(stream := s.stream + [Entry(i, false)]))
  {
    hide StoreOk, HistoryOk;
    var longer := s.stream + [Entry(i, false)];
    forall e | 0 <= e < |s.store.events| && s.store.events[e].status == Published
      ensures Delivered(longer, e)
    {
      assert Delivered(s.stream, e);
      var m :| 0 <= m < |s.stream| && s.stream[m].item == e;
      assert longer[m].item == e;
    }
    hide SentOk;
  }

  lemma EntryAcked(cfg: Config, s: State, m: nat)
    requires Inv(cfg, s) && m < |s.stream| && Terminal(s.store.items[s.stream[m].item].status)
    ensures Inv(cfg, s.(stream := s.stream[m := s.stream[m].(acked := true)]))
  {
    hide StoreOk, HistoryOk;
    var after := s.stream[m := s.stream[m].(acked := true)];
    assert forall k | 0 <= k < |after| :: after[k].item == s.stream[k].item;
    forall e | 0 <= e < |s.store.events| && s.store.events[e].status == Published
      ensures Delivered(after, e)
    {
      assert Delivered(s.stream, e);
      var k :| 0 <= k < |s.stream| && s.stream[k].item == e;
      assert after[k].item == e;
    }
    hide SentOk;
  }

  // ---------------------------------------------------------------- every step keeps the invariant

  lemma CreateStepKeeps(cfg: Config, s: State, s': State, keys: seq<string>, idempotencyKey: string, hash: string)
    requires Inv(cfg, s) && CreateStep(cfg, s, s', keys, idempotencyKey, hash)
    ensures Inv(cfg, s')
  {
    hide StoreOk, HistoryOk, StreamOk, ProcessesOk, Evolves, CreateTx, Delivered;
    var limit := if cfg.maxPending.Some? then Some(cfg.maxPending.value as int) else None;
    var tx := CreateTx(s.store, keys, idempotencyKey, hash, limit);
    if tx.Success? {
      CreateKeeps(s.store, keys, idempotencyKey, hash, cfg.maxPending, cfg.outboxAttempts);
      TransactionKeeps(cfg, s, tx.value.0);
    }
  }

  lemma InterruptAllStepKeeps(cfg: Config, s: State, s': State, batch: nat)
    requires Inv(cfg, s) && InterruptAllStep(s, s', batch)
    ensures Inv(cfg, s')
  {
    hide StoreOk, HistoryOk, StreamOk, SentOk, ProcessesOk, Evolves, InterruptAllTx, EventsAdvance;
    InterruptAllKeeps(s.store, batch, cfg.maxPending, cfg.outboxAttempts);
    SameEvents(s.store.events);
    TransactionKeeps(cfg, s, InterruptAllTx(s.store, batch));
  }

  lemma EventsMatchItems(cfg: Config, s: State)
    requires Inv(cfg, s)
    ensures |s.store.events| == |s.store.items|
    ensures forall e | 0 <= e < |s.store.events| :: s.store.events[e].item == e
    ensures forall m | 0 <= m < |s.stream| :: s.stream[m].item < |s.store.items|
  {
    hide LettersOk, JobsOk, Linked, Outstanding;
  }

  lemma PublisherStepKeeps(cfg: Config, s: State, s': State, p: nat)
    requires Inv(cfg, s) && PublisherStep(cfg, s, s', p)
    ensures Inv(cfg, s')
  {
    hide Inv, PublishedTx, SendFailedTx;
    PublisherRange(cfg, s, p);
    EventsMatchItems(cfg, s);
    match s.publishers[p]
    case Waiting =>
      var todo :| (forall e | e in todo :: e < |s.store.events| && s.store.events[e].status == Unsent)
                  && s' == AtPublishing(s, p, Publishing(todo));
      assert InRange(todo, |s.store.events|) by {
        assert forall k | 0 <= k < |todo| :: todo[k] in todo;
      }
      PublisherMoves(cfg, s, p, Publishing(todo));
    case Publishing(todo) =>
      if todo == [] {
        PublisherMoves(cfg, s, p, Waiting);
      } else if s' == AtPublishing(s, p, Downgrading(todo[0], todo[1..])) {
        PublisherMoves(cfg, s, p, Downgrading(todo[0], todo[1..]));
      } else {
        var sent := s.(stream := s.stream + [Entry(todo[0], false)]);
        StreamGrows(cfg, s, todo[0]);
        PublisherMoves(cfg, sent, p, Marking(todo[0], |s.stream|, todo[1..]));
      }
    case Marking(e, message, todo) =>
      MarkingKeeps(cfg, s, s', p, e, message, todo);
    case Downgrading(e, todo) =>
      DowngradingKeeps(cfg, s, s', p, e, todo);
  }

  lemma PublisherRange(cfg: Config, s: State, p: nat)
    requires Inv(cfg, s) && p in s.publishers
    ensures PublisherOk(|s.store.events|, s.stream, s.publishers[p])
  {
    hide StoreOk, HistoryOk, StreamOk, SentOk, PublisherOk, WorkerOk;
  }

  lemma MarkingKeeps(cfg: Config, s: State, s': State, p: nat, e: nat, message: nat, todo: seq<nat>)
    requires Inv(cfg, s) && PublisherStep(cfg, s, s', p) && p in s.publishers
             && s.publishers[p] == Marking(e, message, todo)
    ensures Inv(cfg, s')
  {
    hide StoreOk, HistoryOk, StreamOk, ProcessesOk, Evolves, PublishedTx, Delivered;
    PublisherRange(cfg, s, p);
    var tx := PublishedTx(s.store, e, message);
    if s' == AtPublishing(s, p, Downgrading(e, todo)) {
      PublisherMoves(cfg, s, p, Downgrading(e, todo));
    } else {
      PublishedKeeps(s.store, e, message, cfg.maxPending, cfg.outboxAttempts);
      assert Delivered(s.stream, e) by { MarkedIsDelivered(s.stream, e, message); }
      SameItems(s.store.items);
      TransactionKeeps(cfg, s, tx.value);
      SameLength(s.store.events, tx.value.events, todo);
      PublisherMoves(cfg, Moved(s, tx.value), p, Publishing(todo));
    }
  }

  lemma SameItems(items: seq<Item>)
    ensures Evolves(items, items)
  {
  }

  lemma SameLength(before: seq<Event>, after: seq<Event>, todo: seq<nat>)
    requires EventsAdvance(before, after) && InRange(todo, |before|)
    ensures InRange(todo, |after|)
  {
  }

  lemma MarkedIsDelivered(stream: seq<Entry>, e: nat, message: nat)
    requires message < |stream| && stream[message].item == e
    ensures Delivered(stream, e)
  {
  }

  lemma DowngradingKeeps(cfg: Config, s: State, s': State, p: nat, e: nat, todo: seq<nat>)
    requires Inv(cfg, s) && PublisherStep(cfg, s, s', p) && p in s.publishers && s.publishers[p] == Downgrading(e, todo)
    ensures Inv(cfg, s')
  {
    hide StoreOk, HistoryOk, StreamOk, ProcessesOk, Evolves, SendFailedTx, Delivered;
    PublisherRange(cfg, s, p);
    var tx := SendFailedTx(s.store, e, cfg.outboxAttempts);
    if tx.Success? {
      SendFailedKeeps(s.store, e, cfg.maxPending, cfg.outboxAttempts);
      SendFailedLength(s.store, e, cfg.outboxAttempts);
      SameItems(s.store.items);
      TransactionKeeps(cfg, s, tx.value);
      SameLength(s.store.events, tx.value.events, todo);
      PublisherMoves(cfg, Moved(s, tx.value), p, Publishing(todo));
    } else {
      PublisherMoves(cfg, s, p, Waiting);
    }
  }

  lemma SendFailedLength(s: Store, e: nat, limit: int)
    requires SendFailedTx(s, e, limit).Success?
    ensures |SendFailedTx(s, e, limit).value.events| == |s.events|
  {
  }

  lemma WorkerRange(cfg: Config, s: State, w: nat)
    requires Inv(cfg, s) && w in s.workers
    ensures WorkerOk(s.store.items, s.stream, s.workers[w])
  {
    hide StoreOk, HistoryOk, StreamOk, SentOk, PublisherOk, WorkerOk;
  }

  lemma TakeStepKeeps(cfg: Config, s: State, s': State, w: nat)
    requires Inv(cfg, s) && TakeStep(s, s', w)
    ensures Inv(cfg, s')
  {
    hide Inv, ClaimTx, SetStatusTx, Moved;
    WorkerRange(cfg, s, w);
    EventsMatchItems(cfg, s);
    var pc := s.workers[w];
    if pc.Reclaiming? {
      InterruptionKeeps(cfg, s, w, s.stream[pc.m].item, Some("WORKER_LEASE_EXPIRED"), Reading(pc.m));
      WorkerMoves(cfg, s, w, Resting);
    } else if pc.Claiming? {
      var tx := ClaimTx(s.store, s.stream[pc.m].item, pc.expected);
      if tx.1 {
        ClaimMoves(cfg, s, s.stream[pc.m].item, pc.expected);
        MovedStream(s, tx.0);
        WorkerMoves(cfg, Moved(s, tx.0), w, Executing(pc.m));
      } else {
        WorkerMoves(cfg, s, w, Rereading(pc.m));
      }
    } else {
      WorkerMoves(cfg, s, w, s'.workers[w]);
    }
  }

  lemma MovedStream(s: State, t: Store)
    ensures Moved(s, t).stream == s.stream && Moved(s, t).store == t
  {
  }

  lemma ClaimMoves(cfg: Config, s: State, i: nat, expected: Status)
    requires Inv(cfg, s) && ClaimTx(s.store, i, expected).1
    ensures Inv(cfg, Moved(s, ClaimTx(s.store, i, expected).0))
  {
    hide StoreOk, HistoryOk, StreamOk, SentOk, ProcessesOk, Evolves, ClaimTx, EventsAdvance;
    ClaimKeeps(s.store, i, expected, cfg.maxPending, cfg.outboxAttempts);
    SameEvents(s.store.events);
    TransactionKeeps(cfg, s, ClaimTx(s.store, i, expected).0);
  }

  /** Marking an item INTERRUPTED, after which the worker goes on to `pc`. */
  lemma InterruptionKeeps(cfg: Config, s: State, w: nat, i: nat, reason: Option<string>, pc: WorkerPc)
    requires Inv(cfg, s) && (pc.Resting? || (pc.Reading? && pc.m < |s.stream|))
    ensures var tx := SetStatusTx(s.store, i, Interrupted, reason);
            tx.Success? ==> Inv(cfg, AtWork(Moved(s, tx.value), w, pc))
  {
    hide StoreOk, HistoryOk, StreamOk, SentOk, ProcessesOk, Evolves, SetStatusTx, EventsAdvance, Observed;
    var tx := SetStatusTx(s.store, i, Interrupted, reason);
    if tx.Success? {
      InterruptKeeps(s.store, i, reason, cfg.maxPending, cfg.outboxAttempts);
      SameEvents(s.store.events);
      TransactionKeeps(cfg, s, tx.value);
      WorkerMoves(cfg, Moved(s, tx.value), w, pc);
    }
  }

  lemma GiveStepKeeps(cfg: Config, s: State, s': State, w: nat)
    requires Inv(cfg, s) && GiveStep(s, s', w)
    ensures Inv(cfg, s')
  {
    hide Inv, SettleTx, SetStatusTx, Moved;
    WorkerRange(cfg, s, w);
    EventsMatchItems(cfg, s);
    var pc := s.workers[w];
    if pc.Executing? {
      WorkerMoves(cfg, s, w, s'.workers[w]);
    } else if pc.Finalizing? {
      if s' == AtWork(s, w, GivingBack(pc.m)) {
        WorkerMoves(cfg, s, w, GivingBack(pc.m));
      } else {
        SettlementKeeps(cfg, s, w, pc.m, pc.target, pc.request, pc.result, pc.reason);
      }
    } else if pc.GivingBack? {
      InterruptionKeeps(cfg, s, w, s.stream[pc.m].item, Some("WORKER_EXECUTION_INTERRUPTED"), Resting);
      WorkerMoves(cfg, s, w, Resting);
    } else {
      EntryAcked(cfg, s, pc.m);
      WorkerMoves(cfg, s.(stream := s.stream[pc.m := s.stream[pc.m].(acked := true)]), w, Resting);
    }
  }

  lemma SettlementKeeps(cfg: Config, s: State, w: nat, m: nat, target: Status,
                        request: Option<string>, result: Option<string>, reason: Option<string>)
    requires Inv(cfg, s) && m < |s.stream| && s.stream[m].item < |s.store.items|
    requires SettleTx(s.store, s.stream[m].item, m, target, request, result, reason).Success?
    ensures Inv(cfg, AtWork(Moved(s, SettleTx(s.store, s.stream[m].item, m, target, request, result, reason).value), w,
                            Acking(m)))
  {
    hide StoreOk, HistoryOk, StreamOk, SentOk, ProcessesOk, Evolves, EventsAdvance, SettleTx, Observed;
    var i := s.stream[m].item;
    var t := SettleTx(s.store, i, m, target, request, result, reason).value;
    SettleKeepsStore(cfg, s.store, i, m, target, request, result, reason);
    SameEvents(s.store.events);
    TransactionKeeps(cfg, s, t);
    WorkerMoves(cfg, Moved(s, t), w, Acking(m));
  }

  lemma SettleKeepsStore(cfg: Config, s: Store, i: nat, m: nat, target: Status,
                         request: Option<string>, result: Option<string>, reason: Option<string>)
    requires StoreOk(s, cfg.maxPending, cfg.outboxAttempts)
             && SettleTx(s, i, m, target, request, result, reason).Success?
    ensures var t := SettleTx(s, i, m, target, request, result, reason).value;
            && StoreOk(t, cfg.maxPending, cfg.outboxAttempts) && Evolves(s.items, t.items) && t.events == s.events
            && i < |t.items| && Terminal(t.items[i].status)
  {
    hide DeadLetterTx, FinalizeTx, Linked, JobsOk, LettersOk, EventsOk, Evolves, Outstanding;
    if target == FailedFinal {
      DeadLetterKeeps(s, i, request, result, reason, m, "FAILED_FINAL", cfg.maxPending, cfg.outboxAttempts);
    } else {
      FinalizeKeeps(s, i, target, request, result, reason, cfg.maxPending, cfg.outboxAttempts);
      assert Terminal(target) by { FinalizedIsFinal(s, i, target, request, result, reason); }
    }
  }

  lemma FinalizedIsFinal(s: Store, i: nat, target: Status, request: Option<string>, result: Option<string>,
                         reason: Option<string>)
    requires FinalizeTx(s, i, target, request, result, reason).Success?
    ensures Terminal(target)
  {
  }

  lemma StepKeeps(cfg: Config, s: State, s': State)
    requires Inv(cfg, s) && Next(cfg, s, s')
    ensures Inv(cfg, s')
  {
    hide Inv, CreateStep, InterruptAllStep, PublisherStep, TakeStep, GiveStep;
    if keys, idempotencyKey, hash :| CreateStep(cfg, s, s', keys, idempotencyKey, hash) {
      CreateStepKeeps(cfg, s, s', keys, idempotencyKey, hash);
    } else if batch :| InterruptAllStep(s, s', batch) {
      InterruptAllStepKeeps(cfg, s, s', batch);
    } else if p :| PublisherStep(cfg, s, s', p) {
      PublisherStepKeeps(cfg, s, s', p);
    } else if w :| TakeStep(s, s', w) {
      TakeStepKeeps(cfg, s, s', w);
    } else if w :| GiveStep(s, s', w) {
      GiveStepKeeps(cfg, s, s', w);
    } else if w :| s' == AtWork(s, w, Resting) {
      WorkerMoves(cfg, s, w, Resting);
    } else {
      var p :| s' == AtPublishing(s, p, Waiting);
      PublisherMoves(cfg, s, p, Waiting);
    }
  }

  lemma InitialIsOk(cfg: Config)
    ensures Inv(cfg, INITIAL)
  {
  }

  lemma {:induction false} RunKeeps(cfg: Config, run: seq<State>, k: nat)
    requires IsRun(cfg, run) && k < |run|
    ensures Inv(cfg, run[k])
  {
    hide Inv, Next;
    if k == 0 {
      InitialIsOk(cfg);
    } else {
      RunKeeps(cfg, run, k - 1);
      StepKeeps(cfg, run[k - 1], run[k]);
    }
  }
}
