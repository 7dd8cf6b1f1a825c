/** What the batch protocol guarantees over every run. */
module BatchGuarantees {
  import opened Common
  import opened Files
  import opened BatchStore
  import opened BatchLaws
  import opened Protocol
  import opened BatchSafety

  /** The item still has somewhere to go: an unsent event, an unacknowledged entry, or an event given up on. */
  ghost predicate StillTracked(s: State, i: nat, outboxAttempts: int)
    requires i < |s.store.events|
  {
    || s.store.events[i].status == Unsent
    || (s.store.events[i].status == Abandoned && s.store.events[i].attempts == Max(1, outboxAttempts))
    || exists m :: 0 <= m < |s.stream| && s.stream[m].item == i && !s.stream[m].acked
  }

  /** No lost work, and an acknowledgement is given only for a finished item. */
  lemma NoLostWork(cfg: Config, run: seq<State>, k: nat)
    requires IsRun(cfg, run) && k < |run|
    ensures var s := run[k];
            && |s.store.events| == |s.store.items|
            && (forall i: nat | i < |s.store.items| ::
                  Terminal(s.store.items[i].status) || StillTracked(s, i, cfg.outboxAttempts))
            && (forall m | 0 <= m < |s.stream| ::
                  && s.stream[m].item < |s.store.items|
                  && (s.stream[m].acked ==> Terminal(s.store.items[s.stream[m].item].status)))
  {
    hide IsRun;
    RunKeeps(cfg, run, k);
    TrackedByInvariant(cfg, run[k]);
  }

  lemma TrackedByInvariant(cfg: Config, s: State)
    requires Inv(cfg, s)
    ensures |s.store.events| == |s.store.items| && StreamOk(s.store.items, s.stream)
    ensures forall i: nat | i < |s.store.items| ::
              Terminal(s.store.items[i].status) || StillTracked(s, i, cfg.outboxAttempts)
  {
    hide HistoryOk, ProcessesOk, JobsOk, LettersOk, Linked, Outstanding;
    forall i: nat | i < |s.store.items|
      ensures Terminal(s.store.items[i].status) || StillTracked(s, i, cfg.outboxAttempts)
    {
      assert EventOk(s.store.events[i], i, cfg.outboxAttempts);
      if s.store.events[i].status == Published {
        assert Delivered(s.stream, i);
        var m :| 0 <= m < |s.stream| && s.stream[m].item == i;
      }
    }
  }

  /** Steps change items legally, keep bindings, and never take anything back from the stream. */
  ghost predicate Progress(s: State, t: State) {
    && Evolves(s.store.items, t.store.items)
    && (forall key | key in s.store.bindings ::
          key in t.store.bindings && t.store.bindings[key] == s.store.bindings[key])
    && |s.stream| <= |t.stream|
    && forall m | 0 <= m < |s.stream| ::
         t.stream[m].item == s.stream[m].item && (s.stream[m].acked ==> t.stream[m].acked)
  }

  lemma NothingHappens(s: State, t: State)
    requires t.store.items == s.store.items && t.store.bindings == s.store.bindings && t.stream == s.stream
    ensures Progress(s, t)
  {
  }

  lemma ItemsProgress(s: State, t: State)
    requires Evolves(s.store.items, t.store.items) && t.store.bindings == s.store.bindings && t.stream == s.stream
    ensures Progress(s, t)
  {
    hide Evolves;
  }

  lemma CreateProgress(cfg: Config, s: State, t: State, keys: seq<string>, idempotencyKey: string, hash: string)
    requires Inv(cfg, s) && CreateStep(cfg, s, t, keys, idempotencyKey, hash)
    ensures Progress(s, t)
  {
    hide StoreOk, HistoryOk, StreamOk, ProcessesOk, SentOk, Evolves, CreateTx;
    var limit := if cfg.maxPending.Some? then Some(cfg.maxPending.value as int) else None;
    if CreateTx(s.store, keys, idempotencyKey, hash, limit).Success? {
      CreateKeeps(s.store, keys, idempotencyKey, hash, cfg.maxPending, cfg.outboxAttempts);
    } else {
      NothingHappens(s, t);
    }
  }

  lemma InterruptAllProgress(cfg: Config, s: State, t: State, batch: nat)
    requires Inv(cfg, s) && InterruptAllStep(s, t, batch)
    ensures Progress(s, t)
  {
    hide StoreOk, HistoryOk, StreamOk, ProcessesOk, SentOk, Evolves;
    InterruptAllKeeps(s.store, batch, cfg.maxPending, cfg.outboxAttempts);
    ItemsProgress(s, t);
  }

  lemma PublisherProgress(cfg: Config, s: State, t: State, p: nat)
    requires PublisherStep(cfg, s, t, p)
    ensures Progress(s, t)
  {
    assert t.store.items == s.store.items && t.store.bindings == s.store.bindings;
  }

  lemma TakeProgress(cfg: Config, s: State, t: State, w: nat)
    requires Inv(cfg, s) && TakeStep(s, t, w)
    ensures Progress(s, t)
  {
    hide Inv, ClaimTx, SetStatusTx, Observed;
    if !s.workers[w].Claiming? && !s.workers[w].Reclaiming? {
      NothingHappens(s, t);
    } else {
      var i := s.stream[s.workers[w].m].item;
      ClaimOrInterruptProgress(cfg, s, i);
      if t.store == s.store {
        NothingHappens(s, t);
      } else {
        ItemsProgress(s, t);
      }
    }
  }

  lemma ClaimOrInterruptProgress(cfg: Config, s: State, i: nat)
    requires Inv(cfg, s)
    ensures forall expected :: var tx := ClaimTx(s.store, i, expected);
              tx.1 ==> Evolves(s.store.items, tx.0.items) && tx.0.bindings == s.store.bindings
    ensures forall reason :: var tx := SetStatusTx(s.store, i, Interrupted, reason);
              tx.Success? ==> Evolves(s.store.items, tx.value.items) && tx.value.bindings == s.store.bindings
  {
    hide StoreOk, HistoryOk, StreamOk, ProcessesOk, SentOk, Evolves;
    forall expected | ClaimTx(s.store, i, expected).1 {
      ClaimKeeps(s.store, i, expected, cfg.maxPending, cfg.outboxAttempts);
    }
    forall reason | SetStatusTx(s.store, i, Interrupted, reason).Success? {
      InterruptKeeps(s.store, i, reason, cfg.maxPending, cfg.outboxAttempts);
    }
  }

  lemma GiveProgress(cfg: Config, s: State, t: State, w: nat)
    requires Inv(cfg, s) && GiveStep(s, t, w)
    ensures Progress(s, t)
  {
    hide Inv, SettleTx, SetStatusTx, Observed;
    var pc := s.workers[w];
    if pc.Executing? {
      NothingHappens(s, t);
    } else if pc.Acking? {
      SameItems(s.store.items);
    } else {
      var i := s.stream[pc.m].item;
      ClaimOrInterruptProgress(cfg, s, i);
      if t.store == s.store {
        NothingHappens(s, t);
      } else {
        if pc.Finalizing? {
          SettleProgress(cfg, s, i, pc.m, pc.target, pc.request, pc.result, pc.reason);
        }
        ItemsProgress(s, t);
      }
    }
  }

  lemma SettleProgress(cfg: Config, s: State, i: nat, m: nat, target: Status,
                       request: Option<string>, result: Option<string>, reason: Option<string>)
    requires Inv(cfg, s)
    ensures var tx := SettleTx(s.store, i, m, target, request, result, reason);
            tx.Success? ==> Evolves(s.store.items, tx.value.items) && tx.value.bindings == s.store.bindings
  {
    hide StoreOk, HistoryOk, StreamOk, ProcessesOk, SentOk, Evolves;
    if SettleTx(s.store, i, m, target, request, result, reason).Success? {
      SettleKeepsStore(cfg, s.store, i, m, target, request, result, reason);
    }
  }

  lemma StepProgress(cfg: Config, s: State, t: State)
    requires Inv(cfg, s) && Next(cfg, s, t)
    ensures Progress(s, t)
  {
    hide Inv, CreateStep, InterruptAllStep, PublisherStep, TakeStep, GiveStep, Progress;
    if keys, idempotencyKey, hash :| CreateStep(cfg, s, t, keys, idempotencyKey, hash) {
      CreateProgress(cfg, s, t, keys, idempotencyKey, hash);
    } else if batch :| InterruptAllStep(s, t, batch) {
      InterruptAllProgress(cfg, s, t, batch);
    } else if p :| PublisherStep(cfg, s, t, p) {
      PublisherProgress(cfg, s, t, p);
    } else if w :| TakeStep(s, t, w) {
      TakeProgress(cfg, s, t, w);
    } else if w :| GiveStep(s, t, w) {
      GiveProgress(cfg, s, t, w);
    } else {
      NothingHappens(s, t);
    }
  }

  /** One effective result: from the moment an item is final, its record never changes again, it was finalised
      once, its entries into RUNNING are all accounted for, and it has a dead letter exactly when it failed. */
  lemma {:induction false} OneEffectiveResult(cfg: Config, run: seq<State>, j: nat, k: nat, i: nat)
    requires IsRun(cfg, run) && j <= k < |run| && i < |run[j].store.items|
    ensures i < |run[k].store.items| == |run[k].history|
    ensures Terminal(run[j].store.items[i].status) ==> run[k].store.items[i] == run[j].store.items[i]
    ensures TallyOk(run[k].store.items[i].status, run[k].history[i])
    ensures LettersFor(run[k].store.letters, i) == if run[k].store.items[i].status == FailedFinal then 1 else 0
    decreases k - j
  {
    hide Next, TallyOk, Progress;
    RunKeeps(cfg, run, k);
    ItemFacts(cfg, run[k]);
    if j < k {
      OneEffectiveResult(cfg, run, j, k - 1, i);
      RunKeeps(cfg, run, k - 1);
      StepProgress(cfg, run[k - 1], run[k]);
      ProgressKeepsItem(run[k - 1], run[k], i);
    }
  }

  lemma ProgressKeepsItem(s: State, t: State, i: nat)
    requires Progress(s, t) && i < |s.store.items|
    ensures i < |t.store.items| && (Terminal(s.store.items[i].status) ==> t.store.items[i] == s.store.items[i])
  {
    EvolvedStatus(s.store.items, t.store.items, i);
  }

  lemma ItemFacts(cfg: Config, s: State)
    requires Inv(cfg, s)
    ensures |s.history| == |s.store.items|
    ensures forall i: nat | i < |s.store.items| :: TallyOk(s.store.items[i].status, s.history[i])
    ensures forall i: nat | i < |s.store.items| ::
              LettersFor(s.store.letters, i) == if s.store.items[i].status == FailedFinal then 1 else 0
  {
    hide StreamOk, SentOk, ProcessesOk, JobsOk, EventsOk, Linked, Outstanding, TallyOk;
  }

  /** Admission control and bookkeeping: the backlog respects its limit, items and events correspond, and every binding
      names a batch that exists. */
  lemma AdmissionControl(cfg: Config, run: seq<State>, k: nat)
    requires IsRun(cfg, run) && k < |run|
    ensures var s := run[k].store;
            && (cfg.maxPending.Some? ==> Outstanding(s.items) <= cfg.maxPending.value)
            && |s.events| == |s.items| && (forall e | 0 <= e < |s.events| :: s.events[e].item == e)
            && (forall key | key in s.bindings :: s.bindings[key].batch < |s.jobs|)
  {
    hide IsRun;
    RunKeeps(cfg, run, k);
    EventsMatchItems(cfg, run[k]);
    AdmittedByInvariant(cfg, run[k]);
  }

  lemma AdmittedByInvariant(cfg: Config, s: State)
    requires Inv(cfg, s)
    ensures cfg.maxPending.Some? ==> Outstanding(s.store.items) <= cfg.maxPending.value
    ensures forall key | key in s.store.bindings :: s.store.bindings[key].batch < |s.store.jobs|
    ensures JobsOk(s.store)
  {
    hide JobsOk, HistoryOk, StreamOk, SentOk, ProcessesOk, LettersOk, EventsOk, Outstanding;
  }

  /** An idempotency key once bound stays bound to its request: at any later time the same request is answered with
      the batch it created, another request is refused, and neither changes the store. */
  lemma BindingsAreForGood(cfg: Config, run: seq<State>, j: nat, k: nat, key: string, keys: seq<string>, hash: string,
                           limit: Option<int>)
    requires IsRun(cfg, run) && j <= k < |run| && key != "" && key in run[j].store.bindings
    ensures var bound, now := run[j].store.bindings[key], run[k].store;
            && key in now.bindings && now.bindings[key] == bound && bound.batch < |now.jobs|
            && var tx := CreateTx(now, keys, key, hash, limit);
            if hash != bound.hash then tx == Failure(IdempotencyConflict)
            else tx.Success? && tx.value.0 == now
                 && tx.value.1 == Response(bound.batch, now.jobs[bound.batch].status, BatchSize(now.items, bound.batch))
  {
    hide IsRun, BatchSize;
    BindingsPersist(cfg, run, j, k, key);
    RunKeeps(cfg, run, k);
    AdmittedByInvariant(cfg, run[k]);
  }

  lemma {:induction false} BindingsPersist(cfg: Config, run: seq<State>, j: nat, k: nat, key: string)
    requires IsRun(cfg, run) && j <= k < |run| && key in run[j].store.bindings
    ensures key in run[k].store.bindings && run[k].store.bindings[key] == run[j].store.bindings[key]
    decreases k - j
  {
    hide Next, Evolves;
    if j < k {
      BindingsPersist(cfg, run, j, k - 1, key);
      RunKeeps(cfg, run, k - 1);
      StepProgress(cfg, run[k - 1], run[k]);
    }
  }

  /** Stored batch statuses agree with the recomputed ones on final values, in every reachable state. */
  lemma BatchStatusAgreement(cfg: Config, run: seq<State>, k: nat, b: nat)
    requires IsRun(cfg, run) && k < |run|
    requires b < |run[k].store.jobs| && Present(run[k].store.items, b) != {}
    ensures var present, stored, derived :=
              Present(run[k].store.items, b), run[k].store.jobs[b].status, Derived(run[k].store.items, b);
            && (stored in {Completed, Partial, Failed} <==> AllFinal(present))
            && (AllFinal(present) ==> derived == Some(stored))
            && (derived == Some(stored)
                <==> !(&& Pending in present && (exists st :: st in present && Terminal(st))
                       && Running !in present && Interrupted !in present))
  {
    hide IsRun, Present, Derived, AllFinal;
    RunKeeps(cfg, run, k);
    AdmittedByInvariant(cfg, run[k]);
    StoredMeetsDerived(run[k].store, b);
  }

  /** In every reachable state the stored status of a batch is what its items make of it. */
  lemma BatchStatusSays(cfg: Config, run: seq<State>, k: nat, b: nat)
    requires IsRun(cfg, run) && k < |run| && b < |run[k].store.jobs|
    requires exists i :: 0 <= i < |run[k].store.items| && run[k].store.items[i].batch == b
    ensures Stands(run[k].store.items, b, run[k].store.jobs[b].status)
  {
    hide IsRun, Stands;
    RunKeeps(cfg, run, k);
    AdmittedByInvariant(cfg, run[k]);
    StoredStatusSays(run[k].store, b);
  }

  /** The two statuses can differ: one of two items is done, the other still waits. */
  lemma DoneAndWaitingDiffer() returns (created: Store, claimed: Store, s: Store)
    ensures CreateTx(EMPTY_STORE, ["a", "b"], "", "", None) == Success((created, Response(0, Queued, 2)))
    ensures ClaimTx(created, 0, Pending) == (claimed, true)
    ensures FinalizeTx(claimed, 0, Done, None, None, None) == Success(s)
    ensures |s.jobs| == 1 && s.jobs[0].status == Underway && Derived(s.items, 0) == Some(Queued)
  {
    assert EMPTY_STORE.items + NewItems(0, ["a", "b"]) == NewItems(0, ["a", "b"]);
    created := CreateTx(EMPTY_STORE, ["a", "b"], "", "", None).value.0;
    claimed := ClaimTx(created, 0, Pending).0;
    var items := claimed.items[0 := claimed.items[0].(status := Done)];
    assert items[1].status == Pending && items[0].status == Done;
    assert Present(items, 0) == {Done, Pending};
    s := FinalizeTx(claimed, 0, Done, None, None, None).value;
    assert s.items == items;
  }
}
