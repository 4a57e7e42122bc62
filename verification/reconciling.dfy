/** One reconciliation cycle: what it leaves behind, and that a second one at the same time does nothing. */
module Reconciling {
  import opened Wrappers
  import opened PoolTypes
  import opened PoolRows
  import opened PoolSpec
  import opened PoolSteps
  import opened Ledger
  import opened PoolInvariant

  // ---- after the sweep of expired leases

  ghost predicate NoExpiredLease(db: DB, now: int) {
    forall tid :: tid in db.tasks && db.tasks[tid].lease.holder.Some? ==>
      db.tasks[tid].lease.expires.Some? && now < db.tasks[tid].lease.expires.value
  }

  lemma RecoverClosesLeases(cfg: Config, db: DB, now: int)
    requires Inv(db)
    ensures NoExpiredLease(RecoverExpired(db, now), now) && Inv(RecoverExpired(db, now))
  {
    hide RowInv, LaneLedger, OneTaskPerWorker;
    RecoverIsQuiet(cfg, RecoverOp, db, now);
    QuietKeepsInv(cfg, RecoverOp, db, RecoverExpired(db, now), now);
    forall tid | tid in db.tasks && !Expired(db.tasks[tid], now) && db.tasks[tid].lease.holder.Some?
      ensures db.tasks[tid].lease.expires.Some? && now < db.tasks[tid].lease.expires.value
    {
      LeasedHasExpiry(db.tasks[tid], db.uuids);
    }
    forall tid | tid in db.tasks && Expired(db.tasks[tid], now)
      ensures Apply(db.tasks[tid], now, SweepExpired).lease.holder.None?
    {
      GivingBackReturns(db.tasks[tid], now, SweepExpired);
    }
  }

  lemma RecoverKeepsKeys(db: DB, now: int)
    ensures RecoverExpired(db, now).tasks.Keys == db.tasks.Keys
  {
  }

  lemma LeasedHasExpiry(t: Task, uuids: nat)
    requires RowInv(t, uuids)
    ensures t.lease.holder.Some? ==> Active(t) && t.lease.expires.Some?
    ensures t.lease.holder.None? ==> t.lease == NO_LEASE
  {
  }

  // ---- after the watchdog

  /** A row the watchdog handed back to the validators: still active, still without progress. */
  ghost predicate HandedBack(t: Task, now: int) {
    t.state == Validating && t.producedSha.Some? && t.lease == NO_LEASE && t.attemptCount < t.meta.maxAttempts && Clear(t) &&
    t.blockedReason.None? && t.lastError == Some(ProgressTimeoutRerouted) && t.updatedAt == now
  }

  lemma SweptRow(cfg: Config, t: Task, now: int, alternative: bool)
    ensures var r := Apply(t, now, SweepStalled(alternative));
      r.lease == NO_LEASE && r.producedSha == t.producedSha && r.meta == t.meta && r.lastProgress == t.lastProgress &&
      (Active(r) ==> HandedBack(r, now) && alternative)
  {
    GivingBackReturns(t, now, SweepStalled(alternative));
    var r := Apply(t, now, SweepStalled(alternative));
    if Active(r) { SameEffectsSameClear(t, r); }
  }

  lemma SameEffectsSameClear(t: Task, r: Task)
    requires r.checkpoints == t.checkpoints && r.reconciliations == t.reconciliations && r.meta == t.meta
    ensures Clear(r) == Clear(t)
  {
    forall i | 0 <= i < |t.checkpoints| ensures Unresolved(t, t.checkpoints[i]) == Unresolved(r, r.checkpoints[i]) {
      assert HasLaterOfSameEffect(t, t.checkpoints[i]) == HasLaterOfSameEffect(r, r.checkpoints[i]);
    }
  }

  /** Sweeping only frees workers. */
  ghost predicate Freer(db: DB, db': DB) {
    db' == db.(tasks := db'.tasks) && db'.tasks.Keys == db.tasks.Keys &&
    forall tid :: tid in db.tasks ==> db'.tasks[tid] == db.tasks[tid] || db'.tasks[tid].lease == NO_LEASE
  }

  lemma AlternativeStays(cfg: Config, db: DB, db': DB, now: int, row: Task, row': Task)
    requires Freer(db, db') && HasAlternative(cfg, db, now, row)
    requires row'.lease == NO_LEASE && row'.producedSha == row.producedSha && row'.meta == row.meta
    ensures HasAlternative(cfg, db', now, row')
  {
    var worker :| worker in db.workers && IsAlternative(cfg, db, now, row, worker);
    assert !Busy(db', worker);
    assert IsAlternative(cfg, db', now, row', worker);
  }

  ghost predicate Distinct(order: seq<TaskId>) {
    forall i, j :: 0 <= i < j < |order| ==> order[i] != order[j]
  }

  lemma SweepFrees(cfg: Config, db: DB, now: int, order: seq<TaskId>)
    requires (forall i :: 0 <= i < |order| ==> order[i] in db.tasks) && Distinct(order)
    ensures Freer(db, SweepRows(cfg, db, now, order))
    ensures forall tid :: tid in order ==> SweepRows(cfg, db, now, order).tasks[tid].lease == NO_LEASE
  {
    hide Apply;
    SweepRowsShape(cfg, db, now, order);
    forall tid | tid in order ensures SweepRows(cfg, db, now, order).tasks[tid].lease == NO_LEASE {
      SweptRow(cfg, db.tasks[tid], now, true);
      SweptRow(cfg, db.tasks[tid], now, false);
    }
  }

  /** Whatever the watchdog leaves active was handed back and has an alternative worker even at the end,
      although the busy check was read anew for every row. */
  lemma {:induction false} SweepLeaves(cfg: Config, db: DB, now: int, order: seq<TaskId>)
    requires (forall i :: 0 <= i < |order| ==> order[i] in db.tasks) && Distinct(order)
    ensures var end := SweepRows(cfg, db, now, order);
      forall tid :: tid in order && tid in end.tasks && Active(end.tasks[tid]) ==>
        HandedBack(end.tasks[tid], now) && HasAlternative(cfg, end, now, end.tasks[tid])
    decreases |order|
  {
    hide Apply, HasAlternative, HandedBack;
    if order != [] {
      var first := order[0];
      var move := StallMove(cfg, db, now, first);
      var next := Update(db, first, now, move);
      var end := SweepRows(cfg, db, now, order);
      assert end == SweepRows(cfg, next, now, order[1..]);
      SweepLeaves(cfg, next, now, order[1..]);
      SweepRowsShape(cfg, next, now, order[1..]);
      SweepFrees(cfg, db, now, order);
      SweptRow(cfg, db.tasks[first], now, move.alternative);
      assert first !in order[1..];
      assert end.tasks[first] == Apply(db.tasks[first], now, move);
      if Active(end.tasks[first]) {
        AlternativeStays(cfg, db, end, now, db.tasks[first], end.tasks[first]);
      }
      forall tid | tid in order && tid != first ensures tid in order[1..] {
        var i :| 0 <= i < |order| && order[i] == tid;
        assert order[1..][i - 1] == tid;
      }
    }
  }

  /** After `reconcile` at `now` every lease is unexpired and its task has progressed within the limit;
      whatever is still stalled waits, unleased, for a validator who exists. */
  lemma ReconcileCloses(cfg: Config, db: DB, now: int, order: seq<TaskId>)
    requires Inv(db) && Scan(order, StalledRows(cfg, RecoverExpired(db, now), now))
    ensures var end := ReconcileRows(cfg, db, now, order);
      Inv(end) && NoExpiredLease(end, now) &&
      (forall tid :: tid in end.tasks && end.tasks[tid].lease.holder.Some? ==>
        now - cfg.stallSeconds < end.tasks[tid].lastProgress) &&
      (forall tid :: tid in end.tasks && Stalled(cfg, end.tasks[tid], now) ==>
        HandedBack(end.tasks[tid], now) && HasAlternative(cfg, end, now, end.tasks[tid]))
  {
    hide Inv, Apply, HasAlternative, HandedBack, RecoverExpired;
    var db1 := RecoverExpired(db, now);
    RecoverKeepsKeys(db, now);
    RecoverClosesLeases(cfg, db, now);
    SweepKeepsInv(cfg, db1, now, order);
    SweepFrees(cfg, db1, now, order);
    SweepRowsShape(cfg, db1, now, order);
    SweepLeaves(cfg, db1, now, order);
    LeasedAreActive(db1);
    var end := ReconcileRows(cfg, db, now, order);
    forall tid | tid in end.tasks && tid !in order ensures end.tasks[tid] == db1.tasks[tid] && !Stalled(cfg, end.tasks[tid], now) {
      assert tid !in StalledRows(cfg, db1, now);
    }
  }

  lemma SweepKeepsInv(cfg: Config, db: DB, now: int, order: seq<TaskId>)
    requires Inv(db) && Scan(order, StalledRows(cfg, db, now))
    ensures Inv(SweepRows(cfg, db, now, order))
  {
    SweepIsQuiet(cfg, RecoverStalledOp(order), db, now, order);
    QuietKeepsInv(cfg, RecoverStalledOp(order), db, SweepRows(cfg, db, now, order), now);
  }

  lemma LeasedAreActive(db: DB)
    requires Inv(db)
    ensures forall tid :: tid in db.tasks ==> (db.tasks[tid].lease.holder.Some? ==> Active(db.tasks[tid]))
    ensures forall tid :: tid in db.tasks ==> (db.tasks[tid].lease.holder.None? ==> db.tasks[tid].lease == NO_LEASE)
  {
    hide RowInv;
    forall tid | tid in db.tasks
      ensures db.tasks[tid].lease.holder.Some? ==> Active(db.tasks[tid])
      ensures db.tasks[tid].lease.holder.None? ==> db.tasks[tid].lease == NO_LEASE
    {
      LeasedHasExpiry(db.tasks[tid], db.uuids);
    }
  }

  // ---- a second cycle

  lemma {:induction false} EndingNothing(attempts: seq<Attempt>, now: int, end: Reason)
    ensures EndAttempt(attempts, None, now, end) == attempts
  {
  }

  /** Handing back what was handed back at the same time changes no column. */
  lemma HandedBackIsStable(t: Task, now: int)
    requires HandedBack(t, now)
    ensures Apply(t, now, SweepStalled(true)) == t
  {
    EndingNothing(t.attempts, now, ProgressTimeoutRerouted);
  }

  lemma {:induction false} SweepIsStable(cfg: Config, db: DB, now: int, order: seq<TaskId>)
    requires forall i :: 0 <= i < |order| ==>
      order[i] in db.tasks && HandedBack(db.tasks[order[i]], now) && HasAlternative(cfg, db, now, db.tasks[order[i]])
    ensures SweepRows(cfg, db, now, order) == db
    decreases |order|
  {
    hide HasAlternative, HandedBack, Apply;
    if order != [] {
      var first := order[0];
      HandedBackIsStable(db.tasks[first], now);
      assert StallMove(cfg, db, now, first) == SweepStalled(true);
      assert db.tasks[first := db.tasks[first]] == db.tasks;
      assert Update(db, first, now, SweepStalled(true)) == db;
      SweepIsStable(cfg, db, now, order[1..]);
    }
  }

  lemma NothingToRecover(db: DB, now: int)
    requires Inv(db) && NoExpiredLease(db, now)
    ensures RecoverExpired(db, now) == db && ExpiredRows(db, now) == {}
  {
    hide RowInv, Apply;
    LeasedAreActive(db);
    forall tid | tid in db.tasks ensures !Expired(db.tasks[tid], now) {
    }
    assert RecoverExpired(db, now).tasks == db.tasks;
  }

  /** A second `reconcile` at the same time changes no row, whatever the two scan orders. */
  lemma ReconcileIsIdempotent(cfg: Config, db: DB, now: int, order: seq<TaskId>, again: seq<TaskId>)
    requires Inv(db) && Scan(order, StalledRows(cfg, RecoverExpired(db, now), now))
    requires var end := ReconcileRows(cfg, db, now, order); Scan(again, StalledRows(cfg, RecoverExpired(end, now), now))
    ensures var end := ReconcileRows(cfg, db, now, order); ReconcileRows(cfg, end, now, again) == end
  {
    hide Inv, NoExpiredLease, HasAlternative, HandedBack, RecoverExpired;
    RecoverKeepsKeys(db, now);
    var end := ReconcileRows(cfg, db, now, order);
    ReconcileCloses(cfg, db, now, order);
    NothingToRecover(end, now);
    assert ReconcileRows(cfg, end, now, again) == SweepRows(cfg, end, now, again);
    forall i | 0 <= i < |again|
      ensures again[i] in end.tasks && HandedBack(end.tasks[again[i]], now) && HasAlternative(cfg, end, now, end.tasks[again[i]])
    {
      assert again[i] in StalledRows(cfg, end, now);
    }
    SweepIsStable(cfg, end, now, again);
  }

  // ---- the counters

  function CountState(db: DB, order: seq<TaskId>, state: TaskState): nat
    requires forall tid :: tid in order ==> tid in db.tasks
    decreases |order|
  {
    if order == [] then 0
    else (if db.tasks[order[0]].state == state then 1 else 0) + CountState(db, order[1..], state)
  }

  /** The counters `_recover_stalled` returns are the numbers of rows it left in each state. */
  lemma {:induction false} TallyCounts(cfg: Config, db: DB, now: int, order: seq<TaskId>, tally: Tally)
    requires (forall i :: 0 <= i < |order| ==> order[i] in db.tasks) && Distinct(order)
    ensures SweepRows(cfg, db, now, order).tasks.Keys == db.tasks.Keys
    ensures var end := SweepRows(cfg, db, now, order);
      TallyRows(cfg, db, now, order, tally) ==
        Tally(tally.rerouted + CountState(end, order, Queued) + CountState(end, order, Validating),
              tally.blocked + CountState(end, order, Blocked), tally.failed + CountState(end, order, Failed)) &&
      |order| == CountState(end, order, Queued) + CountState(end, order, Validating) +
                 CountState(end, order, Blocked) + CountState(end, order, Failed)
    decreases |order|
  {
    hide Clear, HasAlternative, Count, Apply;
    SweepRowsShape(cfg, db, now, order);
    if order != [] {
      var first := order[0];
      var move := StallMove(cfg, db, now, first);
      var next := Update(db, first, now, move);
      var counted := Count(tally, db.tasks[first], move.alternative);
      SweepRowsShape(cfg, next, now, order[1..]);
      TallyCounts(cfg, next, now, order[1..], counted);
      assert first !in order[1..];
      SweptState(db.tasks[first], now, move.alternative, tally);
    }
  }

  lemma SweptState(t: Task, now: int, alternative: bool, tally: Tally)
    ensures var state := Apply(t, now, SweepStalled(alternative)).state;
      (state == Queued || state == Validating || state == Blocked || state == Failed) &&
      Count(tally, t, alternative) ==
        if state == Blocked then tally.(blocked := tally.blocked + 1)
        else if state == Failed then tally.(failed := tally.failed + 1)
        else tally.(rerouted := tally.rerouted + 1)
  {
  }
}
