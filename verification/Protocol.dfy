/** The recoverable batch protocol: outbox publishers, a Redis stream with a consumer group, and workers
    (qc/batch/outbox_publisher.py, qc/batch/worker.py) over the batch store (qc/batch/postgres_store.py). Every
    database transaction and every Redis call is one step; between any two steps other processes may move, any
    process may crash, and any unacknowledged entry may be delivered again, to anyone. */
module Protocol {
  import opened Common
  import opened Files
  import opened BatchStore

  datatype Entry = Entry(item: nat, acked: bool)

  /** Where a worker stands with the stream entry `m` it was handed. */
  datatype WorkerPc =
    | Resting
    | CheckingLease(m: nat)
    | Reclaiming(m: nat)
    | Reading(m: nat)
    | Claiming(m: nat, expected: Status)
    | Rereading(m: nat)
    | Executing(m: nat)
    | Finalizing(m: nat, target: Status, request: Option<string>, result: Option<string>, reason: Option<string>)
    | GivingBack(m: nat)
    | Acking(m: nat)

  /** Where a publisher stands with the events it fetched. */
  datatype PublisherPc =
    | Waiting
    | Publishing(todo: seq<nat>)
    | Marking(event: nat, message: nat, todo: seq<nat>)
    | Downgrading(event: nat, todo: seq<nat>)

  /** What an observer of the item table counted for one item. */
  datatype Tally = Tally(entries: nat, interrupts: nat, finals: nat)

  datatype State = State(store: Store, stream: seq<Entry>, workers: map<nat, WorkerPc>,
                         publishers: map<nat, PublisherPc>, history: seq<Tally>)

  datatype Config = Config(maxPending: Option<nat>, outboxAttempts: int)

  // ---------------------------------------------------------------- steps

  function Counted(before: Status, after: Status, t: Tally): Tally {
    Tally(t.entries + (if before != Running && after == Running then 1 else 0),
          t.interrupts + (if before == Running && after == Interrupted then 1 else 0),
          t.finals + (if !Terminal(before) && Terminal(after) then 1 else 0))
  }

  /** The observer looks at every item after every step. */
  function Observed(before: seq<Item>, after: seq<Item>, history: seq<Tally>): seq<Tally> {
    seq(|after|, i requires 0 <= i < |after| =>
        if i < |before| && i < |history| then Counted(before[i].status, after[i].status, history[i])
        else Tally(0, 0, 0))
  }

  function Moved(s: State, store: Store): State {
    s.(store := store, history := Observed(s.store.items, store.items, s.history))
  }

  function AtWork(s: State, w: nat, pc: WorkerPc): State {
    s.(workers := s.workers[w := pc])
  }

  function AtPublishing(s: State, p: nat, pc: PublisherPc): State {
    s.(publishers := s.publishers[p := pc])
  }

  function StatusOf(s: State, m: nat): Status
    requires m < |s.stream| && s.stream[m].item < |s.store.items|
  {
    s.store.items[s.stream[m].item].status
  }

  ghost predicate CreateStep(cfg: Config, s: State, s': State, keys: seq<string>, idempotencyKey: string,
                             hash: string) {
    var limit := if cfg.maxPending.Some? then Some(cfg.maxPending.value as int) else None;
    var tx := CreateTx(s.store, keys, idempotencyKey, hash, limit);
    s' == if tx.Success? then Moved(s, tx.value.0) else s
  }

  ghost predicate InterruptAllStep(s: State, s': State, batch: nat) {
    s' == Moved(s, InterruptAllTx(s.store, batch))
  }

  /** `publish_once` fetches unsent events, then handles them one by one. */
  ghost predicate PublisherStep(cfg: Config, s: State, s': State, p: nat) {
    p in s.publishers &&
    match s.publishers[p]
    case Waiting =>
      exists todo :: (forall e | e in todo :: e < |s.store.events| && s.store.events[e].status == Unsent)
                     && s' == AtPublishing(s, p, Publishing(todo))
    case Publishing(todo) =>
      if todo == [] then s' == AtPublishing(s, p, Waiting)
      else
        && todo[0] < |s.store.events|
        && (|| s' == AtPublishing(s.(stream := s.stream + [Entry(s.store.events[todo[0]].item, false)]), p,
                                  Marking(todo[0], |s.stream|, todo[1..]))
            || s' == AtPublishing(s, p, Downgrading(todo[0], todo[1..])))
    case Marking(e, message, todo) =>
      var tx := PublishedTx(s.store, e, message);
      || (tx.Success? && s' == AtPublishing(Moved(s, tx.value), p, Publishing(todo)))
      || s' == AtPublishing(s, p, Downgrading(e, todo))
    case Downgrading(e, todo) =>
      var tx := SendFailedTx(s.store, e, cfg.outboxAttempts);
      s' == if tx.Success? then AtPublishing(Moved(s, tx.value), p, Publishing(todo)) else AtPublishing(s, p, Waiting)
  }

  /** A worker before it owns the item: delivery or reclaim, status check, compare-and-set. */
  ghost predicate TakeStep(s: State, s': State, w: nat) {
    w in s.workers &&
    match s.workers[w]
    case Resting =>
      exists m: nat :: m < |s.stream| && !s.stream[m].acked
                  && (s' == AtWork(s, w, Reading(m)) || s' == AtWork(s, w, CheckingLease(m)))
    case CheckingLease(m) =>
      && m < |s.stream| && s.stream[m].item < |s.store.items|
      && s' == AtWork(s, w, if StatusOf(s, m) == Running then Reclaiming(m) else Reading(m))
    case Reclaiming(m) =>
      && m < |s.stream|
      && var tx := SetStatusTx(s.store, s.stream[m].item, Interrupted, Some("WORKER_LEASE_EXPIRED"));
      s' == if tx.Success? then AtWork(Moved(s, tx.value), w, Reading(m)) else AtWork(s, w, Resting)
    case Reading(m) =>
      && m < |s.stream| && s.stream[m].item < |s.store.items|
      && var status := StatusOf(s, m);
      s' == AtWork(s, w,
                   if status == Running then Resting else if Terminal(status) then Acking(m) else Claiming(m, status))
    case Claiming(m, expected) =>
      && m < |s.stream|
      && var tx := ClaimTx(s.store, s.stream[m].item, expected);
      s' == if tx.1 then AtWork(Moved(s, tx.0), w, Executing(m)) else AtWork(s, w, Rereading(m))
    case Rereading(m) =>
      && m < |s.stream| && s.stream[m].item < |s.store.items|
      && s' == AtWork(s, w, if Terminal(StatusOf(s, m)) then Acking(m) else Resting)
    case _ => false
  }

  function SettleTx(s: Store, i: nat, m: nat, target: Status, request: Option<string>, result: Option<string>,
                    reason: Option<string>)
    : Result<Store, StoreError>
  {
    if target == FailedFinal then DeadLetterTx(s, i, request, result, reason, m, "FAILED_FINAL")
    else FinalizeTx(s, i, target, request, result, reason)
  }

  /** A worker that owns, or owned, the item: execution with any outcome, finalisation, acknowledgement. */
  ghost predicate GiveStep(s: State, s': State, w: nat) {
    w in s.workers &&
    match s.workers[w]
    case Executing(m) =>
      || s' == AtWork(s, w, GivingBack(m))
      || exists target, request, result, reason ::
           Terminal(target) && s' == AtWork(s, w, Finalizing(m, target, request, result, reason))
    case Finalizing(m, target, request, result, reason) =>
      && m < |s.stream|
      && var tx := SettleTx(s.store, s.stream[m].item, m, target, request, result, reason);
      || (tx.Success? && s' == AtWork(Moved(s, tx.value), w, Acking(m)))
      || s' == AtWork(s, w, GivingBack(m))
    case GivingBack(m) =>
      && m < |s.stream|
      && var tx := SetStatusTx(s.store, s.stream[m].item, Interrupted, Some("WORKER_EXECUTION_INTERRUPTED"));
      s' == AtWork(if tx.Success? then Moved(s, tx.value) else s, w, Resting)
    case Acking(m) =>
      && m < |s.stream|
      && s' == AtWork(s.(stream := s.stream[m := s.stream[m].(acked := true)]), w, Resting)
    case _ => false
  }

  /** Processes come and go; a crash forgets everything the process knew. */
  ghost predicate ProcessStep(s: State, s': State) {
    || (exists w :: s' == AtWork(s, w, Resting))
    || (exists p :: s' == AtPublishing(s, p, Waiting))
  }

  ghost predicate Next(cfg: Config, s: State, s': State) {
    || (exists keys, idempotencyKey, hash :: CreateStep(cfg, s, s', keys, idempotencyKey, hash))
    || (exists batch :: InterruptAllStep(s, s', batch))
    || (exists p :: PublisherStep(cfg, s, s', p))
    || (exists w :: TakeStep(s, s', w))
    || (exists w :: GiveStep(s, s', w))
    || ProcessStep(s, s')
  }

  const INITIAL := State(EMPTY_STORE, [], map[], map[], [])

  ghost predicate IsRun(cfg: Config, run: seq<State>) {
    run != [] && run[0] == INITIAL && forall i | 0 <= i < |run| - 1 :: Next(cfg, run[i], run[i + 1])
  }
}
