/** What every transaction of the batch store keeps. */
module BatchLaws {
  import opened Common
  import opened Files
  import opened BatchStore

  /** Legal change of one item: nothing, or one legal transition; identity and batch stay. */
  predicate Changes(a: Item, b: Item) {
    b == a || (b.status in Successors(a.status) && b.batch == a.batch && b.key == a.key)
  }

  ghost predicate Evolves(before: seq<Item>, after: seq<Item>) {
    && |before| <= |after|
    && (forall i | 0 <= i < |before| :: Changes(before[i], after[i]))
    && (forall i | |before| <= i < |after| :: after[i].status == Pending)
  }

  /** The job status a batch with these item statuses should carry. */
  function Standing(present: set<Status>): JobStatus {
    if AllFinal(present) then FinalStatus(present) else if present <= {Pending} then Queued else Underway
  }

  ghost predicate JobsOk(s: Store) {
    forall b: nat | b < |s.jobs| :: s.jobs[b].status == Standing(Present(s.items, b))
  }

  function LettersFor(letters: seq<Letter>, i: nat): nat {
    if letters == [] then 0
    else LettersFor(letters[..|letters| - 1], i) + if letters[|letters| - 1].item == i then 1 else 0
  }

  /** An item has one dead letter when it failed for good, and none otherwise. */
  ghost predicate LettersOk(s: Store) {
    && (forall i: nat | i < |s.items| :: LettersFor(s.letters, i) == if s.items[i].status == FailedFinal then 1 else 0)
    && (forall letter | letter in s.letters :: letter.item < |s.items|)
  }

  predicate EventOk(e: Event, i: nat, limit: int) {
    && e.item == i
    && (e.status == Unsent ==> e.attempts < Max(1, limit))
    && (e.status == Abandoned ==> e.attempts == Max(1, limit))
  }

  /** Items and outbox events correspond one to one, in creation order. */
  ghost predicate EventsOk(s: Store, limit: int) {
    |s.events| == |s.items| && forall i | 0 <= i < |s.events| :: EventOk(s.events[i], i, limit)
  }

  ghost predicate Linked(s: Store) {
    && (forall i | 0 <= i < |s.items| :: s.items[i].batch < |s.jobs|)
    && (forall k | k in s.bindings :: s.bindings[k].batch < |s.jobs|)
  }

  ghost predicate StoreOk(s: Store, maxPending: Option<nat>, outboxAttempts: int) {
    && Linked(s) && JobsOk(s) && LettersOk(s) && EventsOk(s, outboxAttempts)
    && (maxPending.Some? ==> Outstanding(s.items) <= maxPending.value)
  }

  /** Transactions that change neither items nor jobs keep what the item table says. */
  ghost predicate EventsAdvance(before: seq<Event>, after: seq<Event>) {
    && |before| <= |after|
    && (forall i | 0 <= i < |before| ::
          after[i].item == before[i].item && (before[i].status == Published ==> after[i] == before[i]))
    && (forall i | |before| <= i < |after| :: after[i].status == Unsent)
  }

  // ---------------------------------------------------------------- one item at a time

  lemma OutstandingAfter(items: seq<Item>, i: nat, item: Item)
    requires i < |items|
    ensures Outstanding(items[i := item])
            == Outstanding(items) - (if Terminal(items[i].status) then 0 else 1)
               + (if Terminal(item.status) then 0 else 1)
  {
    var n := |items| - 1;
    if i < n {
      assert items[i := item][..n] == items[..n][i := item];
      OutstandingAfter(items[..n], i, item);
    } else {
      assert items[i := item][..n] == items[..n];
    }
  }

  lemma PresentAfter(items: seq<Item>, i: nat, item: Item, b: nat)
    requires i < |items| && item.batch == items[i].batch
    ensures b != item.batch ==> Present(items[i := item], b) == Present(items, b)
    ensures b == item.batch ==> item.status in Present(items[i := item], b)
    ensures b == item.batch ==> items[i].status in Present(items, b)
  {
    var after := items[i := item];
    if b != item.batch {
      forall st
        ensures st in Present(after, b) <==> st in Present(items, b)
      {
        if k :| 0 <= k < |items| && after[k].batch == b && after[k].status == st {
          assert items[k] == after[k];
        }
        if k :| 0 <= k < |items| && items[k].batch == b && items[k].status == st {
          assert items[k] == after[k];
        }
      }
    } else {
      assert after[i].status == item.status;
    }
  }

  /** The job rule survives the change of one item when its own job is given the right status. */
  lemma JobsAfter(s: Store, i: nat, item: Item, status: JobStatus)
    requires JobsOk(s) && i < |s.items| && item.batch == s.items[i].batch < |s.jobs|
    requires status == Standing(Present(s.items[i := item], item.batch))
    ensures JobsOk(s.(items := s.items[i := item], jobs := WithJob(s.jobs, item.batch, status)))
  {
    hide Present, Standing;
    forall b: nat | b < |s.jobs| {
      PresentAfter(s.items, i, item, b);
    }
  }

  lemma ActiveStanding(present: set<Status>)
    requires Running in present || Interrupted in present
    ensures Standing(present) == Underway
  {
  }

  lemma SettledStanding(present: set<Status>, target: Status)
    requires target in present && Terminal(target)
    ensures Standing(present) == if AllFinal(present) then FinalStatus(present) else Underway
  {
  }

  lemma LettersAfter(s: Store, i: nat, item: Item)
    requires LettersOk(s) && i < |s.items| && s.items[i].status != FailedFinal && item.status != FailedFinal
    ensures LettersOk(s.(items := s.items[i := item]))
  {
  }

  // ---------------------------------------------------------------- the transactions

  lemma ClaimKeeps(s: Store, i: nat, expected: Status, maxPending: Option<nat>, limit: int)
    requires StoreOk(s, maxPending, limit) && ClaimTx(s, i, expected).1
    ensures var t := ClaimTx(s, i, expected).0;
            StoreOk(t, maxPending, limit) && Evolves(s.items, t.items) && t.events == s.events
    ensures s.items[i].status in {Pending, Interrupted}
  {
    hide Present, Standing, LettersOk, JobsOk, EventsOk, Outstanding;
    var item := s.items[i].(status := Running, reason := None);
    PresentAfter(s.items, i, item, item.batch);
    ActiveStanding(Present(s.items[i := item], item.batch));
    JobsAfter(s, i, item, Underway);
    LettersAfter(s, i, item);
    OutstandingAfter(s.items, i, item);
    LettersIgnoreJobs(s.(items := s.items[i := item]), ClaimTx(s, i, expected).0);
    EventsIgnoreItems(s, ClaimTx(s, i, expected).0, limit);
  }

  lemma LettersIgnoreJobs(s: Store, t: Store)
    requires LettersOk(s) && t.items == s.items && t.letters == s.letters
    ensures LettersOk(t)
  {
  }

  lemma EventsIgnoreItems(s: Store, t: Store, limit: int)
    requires EventsOk(s, limit) && t.events == s.events && |t.items| == |s.items|
    ensures EventsOk(t, limit)
  {
  }

  lemma InterruptKeeps(s: Store, i: nat, reason: Option<string>, maxPending: Option<nat>, limit: int)
    requires StoreOk(s, maxPending, limit) && SetStatusTx(s, i, Interrupted, reason).Success?
    ensures var t := SetStatusTx(s, i, Interrupted, reason).value;
            StoreOk(t, maxPending, limit) && Evolves(s.items, t.items) && t.events == s.events
    ensures s.items[i].status == Running
  {
    hide Present, Standing, LettersOk, JobsOk, EventsOk, Outstanding;
    var t := SetStatusTx(s, i, Interrupted, reason).value;
    var item := t.items[i];
    PresentAfter(s.items, i, item, item.batch);
    ActiveStanding(Present(s.items, item.batch));
    ActiveStanding(Present(t.items, item.batch));
    JobStatusOf(s, item.batch);
    assert WithJob(s.jobs, item.batch, Underway) == s.jobs by { SameJob(s.jobs, item.batch, Underway); }
    JobsAfter(s, i, item, Underway);
    LettersAfter(s, i, item);
    OutstandingAfter(s.items, i, item);
    EventsIgnoreItems(s, t, limit);
  }

  lemma JobStatusOf(s: Store, b: nat)
    requires JobsOk(s) && b < |s.jobs|
    ensures s.jobs[b].status == Standing(Present(s.items, b))
  {
  }

  lemma SameJob(jobs: seq<Job>, b: nat, status: JobStatus)
    requires b < |jobs| && jobs[b].status == status
    ensures WithJob(jobs, b, status) == jobs
  {
  }

  /** Finalising: everything but the dead letter, which is due exactly when the target is FAILED_FINAL. */
  lemma FinalizeKeeps(s: Store, i: nat, target: Status, request: Option<string>, result: Option<string>,
                      reason: Option<string>, maxPending: Option<nat>, limit: int)
    requires StoreOk(s, maxPending, limit) && FinalizeTx(s, i, target, request, result, reason).Success?
    ensures var t := FinalizeTx(s, i, target, request, result, reason).value;
            && Linked(t) && JobsOk(t) && EventsOk(t, limit) && (target != FailedFinal ==> LettersOk(t))
            && (maxPending.Some? ==> Outstanding(t.items) <= maxPending.value)
            && Evolves(s.items, t.items) && t.events == s.events && t.letters == s.letters
            && i < |s.items| && s.items[i].status == Running && t.items == s.items[i := t.items[i]]
            && t.items[i] == s.items[i].(status := target, request := request, result := result, reason := reason)
  {
    hide Present, Standing, LettersOk, JobsOk, EventsOk, Outstanding, AllFinal, FinalStatus;
    var t := FinalizeTx(s, i, target, request, result, reason).value;
    var item := t.items[i];
    PresentAfter(s.items, i, item, item.batch);
    ActiveStanding(Present(s.items, item.batch));
    SettledStanding(Present(t.items, item.batch), target);
    JobStatusOf(s, item.batch);
    SameJob(s.jobs, item.batch, Underway);
    JobsAfter(s, i, item, Standing(Present(t.items, item.batch)));
    if target != FailedFinal {
      LettersAfter(s, i, item);
      LettersIgnoreJobs(s.(items := t.items), t);
    }
    OutstandingAfter(s.items, i, item);
    EventsIgnoreItems(s, t, limit);
  }

  lemma DeadLetterKeeps(s: Store, i: nat, request: Option<string>, result: Option<string>, reason: Option<string>,
                        message: nat, code: string, maxPending: Option<nat>, limit: int)
    requires StoreOk(s, maxPending, limit) && DeadLetterTx(s, i, request, result, reason, message, code).Success?
    ensures var t := DeadLetterTx(s, i, request, result, reason, message, code).value;
            && StoreOk(t, maxPending, limit) && Evolves(s.items, t.items) && t.events == s.events
            && i < |s.items| == |t.items| && t.items[i].status == FailedFinal
  {
    hide FinalizeTx, JobsOk, EventsOk, Outstanding, LettersOk, Linked, Evolves;
    FinalizeKeeps(s, i, FailedFinal, request, result, reason, maxPending, limit);
    var f := FinalizeTx(s, i, FailedFinal, request, result, reason).value;
    var letter := Letter(i, f.items[i].batch, message, code);
    LetterWritten(s, f, i, letter);
    JobsIgnoreLetters(f, f.(letters := f.letters + [letter]));
    EventsIgnoreItems(f, f.(letters := f.letters + [letter]), limit);
    LinksIgnoreLetters(f, f.(letters := f.letters + [letter]));
  }

  lemma LinksIgnoreLetters(s: Store, t: Store)
    requires Linked(s) && t.items == s.items && t.jobs == s.jobs && t.bindings == s.bindings
    ensures Linked(t)
  {
  }

  lemma JobsIgnoreLetters(s: Store, t: Store)
    requires JobsOk(s) && t.items == s.items && t.jobs == s.jobs
    ensures JobsOk(t)
  {
  }

  lemma LetterWritten(s: Store, f: Store, i: nat, letter: Letter)
    requires LettersOk(s) && i < |s.items| && s.items[i].status != FailedFinal
    requires f.letters == s.letters && |f.items| == |s.items|
    requires f.items == s.items[i := f.items[i]] && f.items[i].status == FailedFinal
    requires letter.item == i
    ensures LettersOk(f.(letters := f.letters + [letter]))
  {
    assert (f.letters + [letter])[..|f.letters|] == f.letters;
  }

  lemma InterruptAllKeeps(s: Store, batch: nat, maxPending: Option<nat>, limit: int)
    requires StoreOk(s, maxPending, limit)
    ensures var t := InterruptAllTx(s, batch);
            StoreOk(t, maxPending, limit) && Evolves(s.items, t.items) && t.events == s.events && |t.items| == |s.items|
  {
    hide Present, Standing, LettersOk, JobsOk, EventsOk, Outstanding;
    var t := InterruptAllTx(s, batch);
    EventsIgnoreItems(s, t, limit);
    SameOutstanding(s.items, t.items);
    assert LettersOk(t) by { LettersFollowFailures(s, t); }
    assert JobsOk(t) by { JobsAfterInterrupts(s, batch); }
  }

  lemma {:induction false} SameOutstanding(a: seq<Item>, b: seq<Item>)
    requires |a| == |b| && forall i | 0 <= i < |a| :: Terminal(a[i].status) == Terminal(b[i].status)
    ensures Outstanding(a) == Outstanding(b)
  {
    if a != [] {
      SameOutstanding(a[..|a| - 1], b[..|b| - 1]);
    }
  }

  lemma LettersFollowFailures(s: Store, t: Store)
    requires LettersOk(s) && t.letters == s.letters && |t.items| == |s.items|
    requires forall i | 0 <= i < |s.items| :: s.items[i].status == FailedFinal <==> t.items[i].status == FailedFinal
    ensures LettersOk(t)
  {
  }

  lemma JobsAfterInterrupts(s: Store, batch: nat)
    requires JobsOk(s)
    ensures JobsOk(InterruptAllTx(s, batch))
  {
    hide Standing, AllFinal, FinalStatus;
    var t := InterruptAllTx(s, batch);
    forall b: nat | b < |s.jobs|
      ensures Standing(Present(t.items, b)) == Standing(Present(s.items, b))
    {
      if i :| 0 <= i < |s.items| && s.items[i].batch == b && s.items[i].status == Running {
        assert t.items[i].status in Present(t.items, b) && Running in Present(s.items, b);
        ActiveStanding(Present(s.items, b));
        ActiveStanding(Present(t.items, b));
      } else {
        assert forall i | 0 <= i < |s.items| && s.items[i].batch == b :: t.items[i] == s.items[i];
        SamePresent(s.items, t.items, b);
      }
    }
  }

  lemma SamePresent(a: seq<Item>, b: seq<Item>, batch: nat)
    requires |a| == |b| && forall i | 0 <= i < |a| :: a[i].batch == b[i].batch && (a[i].batch == batch ==> a[i] == b[i])
    ensures Present(a, batch) == Present(b, batch)
  {
    forall st
      ensures st in Present(a, batch) <==> st in Present(b, batch)
    {
      if i :| 0 <= i < |a| && a[i].batch == batch && a[i].status == st {
        assert b[i].status == st;
      }
      if i :| 0 <= i < |b| && b[i].batch == batch && b[i].status == st {
        assert a[i].status == st;
      }
    }
  }

  lemma PublishedKeeps(s: Store, e: nat, message: nat, maxPending: Option<nat>, limit: int)
    requires StoreOk(s, maxPending, limit) && PublishedTx(s, e, message).Success?
    ensures var t := PublishedTx(s, e, message).value;
            StoreOk(t, maxPending, limit) && t.items == s.items && EventsAdvance(s.events, t.events)
            && forall i | 0 <= i < |s.events| && i != e :: t.events[i] == s.events[i]
  {
    hide JobsOk, LettersOk, Outstanding, Linked;
    var t := PublishedTx(s, e, message).value;
    JobsIgnoreLetters(s, t);
    LettersIgnoreJobs(s, t);
    LinksIgnoreLetters(s, t);
  }

  lemma SendFailedKeeps(s: Store, e: nat, maxPending: Option<nat>, limit: int)
    requires StoreOk(s, maxPending, limit) && SendFailedTx(s, e, limit).Success?
    ensures var t := SendFailedTx(s, e, limit).value;
            StoreOk(t, maxPending, limit) && t.items == s.items && EventsAdvance(s.events, t.events)
            && forall i | 0 <= i < |s.events| :: t.events[i].status == Published ==> t.events[i] == s.events[i]
  {
    hide JobsOk, LettersOk, Outstanding, Linked;
    var t := SendFailedTx(s, e, limit).value;
    JobsIgnoreLetters(s, t);
    LettersIgnoreJobs(s, t);
    LinksIgnoreLetters(s, t);
  }

  // ---------------------------------------------------------------- creation

  lemma {:induction false} OutstandingGrows(items: seq<Item>, batch: nat, keys: seq<string>)
    ensures Outstanding(items + NewItems(batch, keys)) == Outstanding(items) + |keys|
  {
    var all := items + NewItems(batch, keys);
    if keys == [] {
      assert all == items;
    } else {
      var n := |keys| - 1;
      OutstandingGrows(items, batch, keys[..n]);
      assert all[..|all| - 1] == items + NewItems(batch, keys[..n]);
    }
  }

  lemma CreateKeeps(s: Store, keys: seq<string>, idempotencyKey: string, hash: string, maxPending: Option<nat>,
                    limit: int)
    requires StoreOk(s, maxPending, limit)
    requires CreateTx(s, keys, idempotencyKey, hash,
                      if maxPending.Some? then Some(maxPending.value as int) else None).Success?
    ensures var t := CreateTx(s, keys, idempotencyKey, hash,
                              if maxPending.Some? then Some(maxPending.value as int) else None).value.0;
            && StoreOk(t, maxPending, limit) && Evolves(s.items, t.items) && EventsAdvance(s.events, t.events)
            && (forall i | 0 <= i < |s.items| :: t.items[i] == s.items[i])
            && (forall i | 0 <= i < |s.events| :: t.events[i] == s.events[i])
            && (forall k | k in s.bindings :: k in t.bindings && t.bindings[k] == s.bindings[k])
  {
    hide JobsOk, LettersOk, Outstanding;
    var t :=
      CreateTx(s, keys, idempotencyKey, hash, if maxPending.Some? then Some(maxPending.value as int) else None).value.0;
    if t != s {
      OutstandingGrows(s.items, |s.jobs|, keys);
      CreationKeepsJobs(s, keys, t);
      CreationKeepsLetters(s, keys, t);
    }
  }

  lemma CreationKeepsJobs(s: Store, keys: seq<string>, t: Store)
    requires JobsOk(s) && Linked(s)
    requires t.jobs == s.jobs + [Job(Queued, |keys|)] && t.items == s.items + NewItems(|s.jobs|, keys)
    ensures JobsOk(t)
  {
    forall b: nat | b < |t.jobs|
      ensures t.jobs[b].status == Standing(Present(t.items, b))
    {
      if b == |s.jobs| {
        assert Present(t.items, b) <= {Pending};
      } else {
        OlderBatchesKeepPresent(s, keys, t, b);
      }
    }
  }

  lemma OlderBatchesKeepPresent(s: Store, keys: seq<string>, t: Store, b: nat)
    requires b < |s.jobs| && t.items == s.items + NewItems(|s.jobs|, keys)
    ensures Present(t.items, b) == Present(s.items, b)
  {
    forall st
      ensures st in Present(t.items, b) <==> st in Present(s.items, b)
    {
      if i :| 0 <= i < |t.items| && t.items[i].batch == b && t.items[i].status == st {
        assert s.items[i].status == st;
      }
      if i :| 0 <= i < |s.items| && s.items[i].batch == b && s.items[i].status == st {
        assert t.items[i].status == st;
      }
    }
  }

  lemma CreationKeepsLetters(s: Store, keys: seq<string>, t: Store)
    requires LettersOk(s) && t.letters == s.letters && t.items == s.items + NewItems(|s.jobs|, keys)
    ensures LettersOk(t)
  {
    forall i: nat | |s.items| <= i < |t.items|
      ensures LettersFor(t.letters, i) == 0
    {
      NoLettersYet(t.letters, i);
    }
  }

  lemma {:induction false} NoLettersYet(letters: seq<Letter>, i: nat)
    requires forall letter | letter in letters :: letter.item != i
    ensures LettersFor(letters, i) == 0
  {
    if letters != [] {
      NoLettersYet(letters[..|letters| - 1], i);
    }
  }

  /** Stored and recomputed batch status: equal when final, and in general unless the batch has final items,
      waiting items, and nothing under way. */
  lemma StoredMeetsDerived(s: Store, b: nat)
    requires JobsOk(s) && b < |s.jobs| && Present(s.items, b) != {}
    ensures var present, stored := Present(s.items, b), s.jobs[b].status;
            && (stored in {Completed, Partial, Failed} <==> AllFinal(present))
            && (Derived(s.items, b).value in {Completed, Partial, Failed} <==> AllFinal(present))
            && (AllFinal(present) ==> Derived(s.items, b) == Some(stored))
            && (Derived(s.items, b) == Some(stored)
                <==> !(&& Pending in present && (exists st :: st in present && Terminal(st))
                       && Running !in present && Interrupted !in present))
  {
    hide Present;
    var present := Present(s.items, b);
    if present <= {Pending} {
      var st :| st in present;
      assert !AllFinal(present);
    } else if !AllFinal(present) && Running !in present && Interrupted !in present {
      var st :| st in present && st != Pending;
      assert Terminal(st);
      assert Pending in present;
    }
  }

  /** A stored batch status, read off the items: final with the last item, queued while none was ever taken. */
  ghost predicate Stands(items: seq<Item>, batch: nat, status: JobStatus) {
    if EveryItemEnded(items, batch) then EndsAs(items, batch, status)
    else
      && status in {Queued, Underway}
      && (status == Queued <==> forall i | 0 <= i < |items| && items[i].batch == batch :: items[i].status == Pending)
  }

  lemma StoredStatusSays(s: Store, b: nat)
    requires JobsOk(s) && b < |s.jobs| && exists i :: 0 <= i < |s.items| && s.items[i].batch == b
    ensures Stands(s.items, b, s.jobs[b].status)
  {
    PresentIsSomeItem(s.items, b);
    if AllFinal(Present(s.items, b)) {
      FinalStatusSays(s.items, b);
    }
    assert forall i | 0 <= i < |s.items| && s.items[i].batch == b :: SomeItem(s.items, b, s.items[i].status);
    hide Present, FinalStatus, EndsAs;
  }
}
