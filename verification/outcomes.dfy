/** Where work goes when its lease ends, and what counts as progress, said on the columns of the task, its
    attempts and its checkpoints. */
module Outcomes {
  import opened Wrappers
  import opened PoolTypes
  import opened PoolRows
  import opened PoolSpec
  import opened PoolSteps
  import opened Ledger
  import opened PoolInvariant
  import opened Reconciling
  import opened Diagnostics

  // ---- leases and open effects, as the ledger has them

  /** The caller quotes the task's open attempt: its worker and its token, before its end, and for a fenced
      task also its number and its id, which nobody may quote wrongly. */
  ghost predicate HoldsOpenAttempt(db: DB, now: int, cred: Credentials) {
    cred.task in db.tasks &&
    var t := db.tasks[cred.task];
    t.attempts != [] &&
    var last := t.attempts[|t.attempts| - 1];
    last.endedAt.None? && last.worker == cred.worker && now < last.expires && t.lease.token == Some(cred.token) &&
    (t.meta.fenced ==> cred.generation.Some? && cred.attempt.Some?) &&
    (cred.generation.Some? ==> cred.generation.value == |t.attempts|) && (cred.attempt.Some? ==> cred.attempt.value == last.id)
  }

  lemma LeaseIsOpenAttempt(t: Task, uuids: nat)
    requires RowInv(t, uuids)
    ensures t.lease.holder.Some? <==> t.attempts != [] && t.attempts[|t.attempts| - 1].endedAt.None?
    ensures t.lease.holder.Some? ==>
      var last := t.attempts[|t.attempts| - 1];
      t.lease.holder == Some(last.worker) && t.lease.attempt == Some(last.id) && t.lease.expires == Some(last.expires) && Active(t)
    ensures t.generation == |t.attempts|
    ensures t.state == Leased || t.state == Running ==> t.lease.holder.Some?
  {
    hide ResultColumns, QuarantineLedger, CheckpointLedger, ReconciliationRows, EffectsContained;
  }

  /** The lease check passes exactly for the holder of the open attempt. */
  lemma LeaseCheckExactly(db: DB, now: int, cred: Credentials)
    requires Inv(db)
    ensures LeaseRefusal(db, now, cred, AnyActive).None? <==> HoldsOpenAttempt(db, now, cred)
  {
    hide RowInv, LaneLedger, OneTaskPerWorker;
    if cred.task in db.tasks { LeaseIsOpenAttempt(db.tasks[cred.task], db.uuids); }
  }

  /** The last word on some effect is open, and nobody has answered it. */
  ghost predicate LeftOpen(t: Task, i: int) {
    0 <= i < |t.checkpoints| && t.checkpoints[i].content.effect.Some? &&
    (t.checkpoints[i].content.effectState == Pending || t.checkpoints[i].content.effectState == Unknown) &&
    (forall j :: i < j < |t.checkpoints| ==> t.checkpoints[j].content.effect != t.checkpoints[i].content.effect) &&
    (t.checkpoints[i].content.effect.value, t.checkpoints[i].generation) !in t.reconciliations
  }

  ghost predicate HasOpenEffect(t: Task) {
    exists i :: LeftOpen(t, i)
  }

  lemma LaterIsBehind(t: Task, uuids: nat, i: int)
    requires RowInv(t, uuids) && 0 <= i < |t.checkpoints|
    ensures HasLaterOfSameEffect(t, t.checkpoints[i]) <==>
      exists j :: i < j < |t.checkpoints| && t.checkpoints[j].content.effect == t.checkpoints[i].content.effect
  {
    hide AttemptLedger, ResultColumns, QuarantineLedger, ReconciliationRows, EffectsContained;
    assert CheckpointRows(t.checkpoints, t.generation);
  }

  /** The unresolved-effect query finds exactly the effects whose last word is open. */
  lemma OpenEffectExactly(t: Task, uuids: nat)
    requires RowInv(t, uuids)
    ensures Clear(t) <==> !HasOpenEffect(t)
  {
    hide AttemptLedger, ResultColumns, QuarantineLedger, ReconciliationRows, CheckpointLedger, HasLaterOfSameEffect;
    forall i | 0 <= i < |t.checkpoints| ensures Unresolved(t, t.checkpoints[i]) <==> LeftOpen(t, i) {
      LaterIsBehind(t, uuids, i);
    }
    CheckpointsAreFenced(t, uuids);
    if HasUnresolved(t) {
      var i :| 0 <= i < |t.checkpoints| && Unresolved(t, t.checkpoints[i]);
      assert LeftOpen(t, i);
    }
  }

  lemma CheckpointsAreFenced(t: Task, uuids: nat)
    requires RowInv(t, uuids)
    ensures t.checkpoints != [] ==> t.meta.fenced
  {
  }

  // ---- leases that end without a result

  /** The attempt is closed, the lease is gone, and of the other columns only state, reasons and the time of the
      update may differ: results, history, counters and the last progress stay. */
  ghost predicate Ends(t: Task, t': Task, now: int, end: Reason) {
    t' == t.(state := t'.state, lease := NO_LEASE, blockedReason := t'.blockedReason, lastError := t'.lastError,
             updatedAt := now, attempts := t'.attempts, quarantine := t'.quarantine) &&
    LastClosed(t.attempts, t'.attempts, now, end)
  }

  ghost predicate LastClosed(a: seq<Attempt>, b: seq<Attempt>, now: int, end: Reason) {
    a != [] && |b| == |a| && b[..|a| - 1] == a[..|a| - 1] &&
    b[|a| - 1] == a[|a| - 1].(endedAt := Some(now), endReason := Some(end))
  }

  /** Work without a result waits for a Builder again, work with one for a Validator. */
  ghost predicate GoesBack(t: Task, t': Task) {
    (t'.state == Queued <==> t.producedSha.None?) && (t'.state == Validating <==> t.producedSha.Some?) &&
    t'.quarantine == t.quarantine
  }

  ghost predicate GivenUp(t: Task, t': Task, now: int, reason: Reason) {
    t'.state == Failed && t'.lastError == Some(reason) &&
    t'.quarantine == t.quarantine + [QuarantineRow(|t.attempts|, reason, now)]
  }

  ghost predicate Parked(t: Task, t': Task, reason: Reason) {
    t'.state == Blocked && t'.blockedReason == Some(reason) && t'.quarantine == t.quarantine
  }

  lemma EndClosesLast(t: Task, uuids: nat, now: int, end: Reason)
    requires RowInv(t, uuids) && t.lease.holder.Some?
    ensures LastClosed(t.attempts, EndAttempt(t.attempts, t.lease.attempt, now, end), now, end)
  {
    hide ResultColumns, QuarantineLedger, CheckpointLedger, ReconciliationRows, EffectsContained;
    var n := |t.attempts| - 1;
    assert AttemptRows(t.attempts, true, uuids);
    var b := EndAttempt(t.attempts, t.lease.attempt, now, end);
    assert b[..n] == t.attempts[..n];
  }

  /** A failure the caller may report: exactly one with the open attempt and no open effect.  It makes no
      progress; with attempts left the work goes back to wait for the role it needs next, and otherwise the
      task is quarantined. */
  lemma FailReturnsWork(db: DB, now: int, cred: Credentials, reason: Option<Reason>)
    requires Inv(db)
    ensures var tx := FailTask(db, now, cred, reason);
      (tx.Commit? <==> HoldsOpenAttempt(db, now, cred) && !HasOpenEffect(db.tasks[cred.task])) &&
      (tx.Commit? ==>
        cred.task in tx.db.tasks &&
        var t, t' := db.tasks[cred.task], tx.db.tasks[cred.task];
        tx.db == db.(tasks := db.tasks[cred.task := t']) && Ends(t, t', now, FailedAttempt) &&
        t'.blockedReason == t.blockedReason &&
        if |t.attempts| < t.meta.maxAttempts then GoesBack(t, t')
        else GivenUp(t, t', now, if reason.Some? then reason.value else WorkerFailure))
  {
    hide Inv, RowInv, HasOpenEffect, LeaseRefusal, HoldsOpenAttempt, Clear, EndAttempt;
    LeaseCheckExactly(db, now, cred);
    if HoldsOpenAttempt(db, now, cred) {
      HoldingIsLeased(db, now, cred);
      var t := db.tasks[cred.task];
      OpenEffectExactly(t, db.uuids);
      EndClosesLast(t, db.uuids, now, FailedAttempt);
      LeaseIsOpenAttempt(t, db.uuids);
      AttemptsAreCounted(t, db.uuids);
    }
  }

  lemma AttemptsAreCounted(t: Task, uuids: nat)
    requires RowInv(t, uuids)
    ensures t.attemptCount == |t.attempts|
  {
  }

  lemma HoldingIsLeased(db: DB, now: int, cred: Credentials)
    requires Inv(db) && HoldsOpenAttempt(db, now, cred)
    ensures cred.task in db.tasks && RowInv(db.tasks[cred.task], db.uuids) && db.tasks[cred.task].lease.holder.Some?
  {
    hide RowInv, LaneLedger, OneTaskPerWorker;
    LeaseIsOpenAttempt(db.tasks[cred.task], db.uuids);
  }

  // ---- sweeps

  /** As `Ends`, for a row that may have been waiting without a lease. */
  ghost predicate SweptAway(t: Task, t': Task, now: int, end: Reason) {
    if t.lease.holder.Some? then Ends(t, t', now, end) && t'.lastError == Some(end)
    else
      t' == t.(state := t'.state, blockedReason := t'.blockedReason, lastError := Some(end), updatedAt := now,
               quarantine := t'.quarantine)
  }

  /** The lease of an expired task is recovered: an open effect keeps it for the authority, used-up attempts
      end it, and otherwise it goes back. */
  ghost predicate RecoversTo(t: Task, t': Task, now: int) {
    if HasOpenEffect(t) then
      Parked(t, t', EffectReconciliationRequired) && SweptAway(t, t', now, EffectReconciliationRequired)
    else if |t.attempts| >= t.meta.maxAttempts then
      GivenUp(t, t', now, LeaseExpiredMaxAttempts) && SweptAway(t, t', now, LeaseExpiredMaxAttempts)
    else GoesBack(t, t') && t'.blockedReason.None? && SweptAway(t, t', now, LeaseExpiredRecovered)
  }

  lemma SweepRow(t: Task, uuids: nat, now: int, verdict: Verdict)
    requires RowInv(t, uuids)
    ensures SweptAway(t, Sweep(t, now, verdict), now, verdict.error)
    ensures var t' := Sweep(t, now, verdict);
      t'.state == verdict.state && t'.blockedReason == verdict.blocked && t'.lastError == Some(verdict.error) &&
      t'.quarantine == if verdict.state == Failed then t.quarantine + [QuarantineRow(|t.attempts|, verdict.error, now)]
                       else t.quarantine
  {
    hide RowInv, EndAttempt;
    AttemptsAreCounted(t, uuids);
    UnleasedHasNoColumns(t, uuids);
    if t.lease.holder.Some? {
      EndClosesLast(t, uuids, now, verdict.error);
    } else {
      EndingNothing(t.attempts, now, verdict.error);
    }
  }

  lemma UnleasedHasNoColumns(t: Task, uuids: nat)
    requires RowInv(t, uuids)
    ensures t.lease.holder.None? ==> t.lease == NO_LEASE
  {
  }

  lemma ExpiredRowRecovers(t: Task, uuids: nat, now: int)
    requires RowInv(t, uuids)
    ensures RecoversTo(t, Apply(t, now, SweepExpired), now)
  {
    hide RowInv, HasOpenEffect, Clear, SweptAway;
    OpenEffectExactly(t, uuids);
    AttemptsAreCounted(t, uuids);
    SweepRow(t, uuids, now, Judge(t, Clear(t), LeaseExpiredMaxAttempts, Some(LeaseExpiredRecovered), LeaseExpiredRecovered));
  }

  /** Recovery ends exactly the leases whose attempt has run out, and touches nothing else. */
  lemma RecoveryReturnsWork(db: DB, now: int, tid: TaskId)
    requires Inv(db) && tid in db.tasks
    ensures var db' := RecoverExpired(db, now);
      db' == db.(tasks := db'.tasks) && db'.tasks.Keys == db.tasks.Keys &&
      var t, t' := db.tasks[tid], db'.tasks[tid];
      if t.attempts != [] && t.attempts[|t.attempts| - 1].endedAt.None? && t.attempts[|t.attempts| - 1].expires <= now
      then RecoversTo(t, t', now) else t' == t
  {
    hide RowInv, LaneLedger, OneTaskPerWorker, Apply, RecoversTo;
    var t := db.tasks[tid];
    LeaseIsOpenAttempt(t, db.uuids);
    UnleasedHasNoColumns(t, db.uuids);
    ExpiredRowRecovers(t, db.uuids, now);
  }

  /** Someone else who is ready, in the role the work needs next, and may work in its lane. */
  ghost predicate CanTakeOver(cfg: Config, db: DB, now: int, t: Task, worker: WorkerId) {
    t.lease.holder != Some(worker) && Affine(db, worker, t.meta.repository) &&
    (t.producedSha.None? ==> NotReady(cfg, db, now, worker, Builder).None?) &&
    (t.producedSha.Some? ==> NotReady(cfg, db, now, worker, Validator).None?)
  }

  /** The watchdog's own list of checks is the one that every claim makes. */
  lemma AlternativeExactly(cfg: Config, db: DB, now: int, t: Task)
    ensures forall worker :: IsAlternative(cfg, db, now, t, worker) <==> CanTakeOver(cfg, db, now, t, worker)
    ensures HasAlternative(cfg, db, now, t) <==> exists worker :: CanTakeOver(cfg, db, now, t, worker)
  {
    hide Busy, Affine;
    forall worker ensures IsAlternative(cfg, db, now, t, worker) <==> CanTakeOver(cfg, db, now, t, worker) {
    }
    if HasAlternative(cfg, db, now, t) {
      var worker :| IsAlternative(cfg, db, now, t, worker);
      assert CanTakeOver(cfg, db, now, t, worker);
    }
    forall worker | CanTakeOver(cfg, db, now, t, worker) ensures worker in db.workers {
    }
  }

  /** What the watchdog makes of a row, given the database as it is when the row's turn comes. */
  ghost predicate WatchedTo(cfg: Config, db: DB, now: int, t: Task, t': Task) {
    if HasOpenEffect(t) then
      Parked(t, t', EffectReconciliationRequired) && SweptAway(t, t', now, EffectReconciliationRequired)
    else if |t.attempts| >= t.meta.maxAttempts then
      GivenUp(t, t', now, ProgressTimeoutMaxAttempts) && SweptAway(t, t', now, ProgressTimeoutMaxAttempts)
    else if exists worker :: CanTakeOver(cfg, db, now, t, worker) then
      GoesBack(t, t') && t'.blockedReason.None? && SweptAway(t, t', now, ProgressTimeoutRerouted)
    else Parked(t, t', ProgressTimeoutNoAlternative) && SweptAway(t, t', now, ProgressTimeoutNoAlternative)
  }

  lemma WatchedRow(cfg: Config, db: DB, now: int, t: Task, uuids: nat)
    requires RowInv(t, uuids)
    ensures WatchedTo(cfg, db, now, t, Apply(t, now, SweepStalled(HasAlternative(cfg, db, now, t))))
  {
    hide RowInv, HasOpenEffect, Clear, SweptAway, HasAlternative, CanTakeOver;
    OpenEffectExactly(t, uuids);
    AttemptsAreCounted(t, uuids);
    AlternativeExactly(cfg, db, now, t);
    var alternative := HasAlternative(cfg, db, now, t);
    SweepRow(t, uuids, now, Judge(t, Clear(t), ProgressTimeoutMaxAttempts,
                                  if alternative then Some(ProgressTimeoutRerouted) else None, ProgressTimeoutNoAlternative));
  }

  /** The row before its turn, and after it. */
  lemma {:induction false} SweepAtTurn(cfg: Config, db: DB, now: int, order: seq<TaskId>, k: nat)
    requires (forall i :: 0 <= i < |order| ==> order[i] in db.tasks) && Distinct(order) && k < |order|
    ensures forall tid :: tid in order[..k] ==> tid in db.tasks
    ensures var before, end := SweepRows(cfg, db, now, order[..k]), SweepRows(cfg, db, now, order);
      order[k] in before.tasks && before.tasks[order[k]] == db.tasks[order[k]] && order[k] in end.tasks &&
      end.tasks[order[k]] == Apply(db.tasks[order[k]], now, SweepStalled(HasAlternative(cfg, before, now, db.tasks[order[k]])))
    decreases k
  {
    hide Apply, HasAlternative;
    var next := Update(db, order[0], now, StallMove(cfg, db, now, order[0]));
    if k == 0 {
      assert order[..0] == [];
      SweepRowsShape(cfg, next, now, order[1..]);
      assert order[0] !in order[1..];
    } else {
      SweepAtTurn(cfg, next, now, order[1..], k - 1);
      assert order[..k][1..] == order[1..][..k - 1];
      assert order[..k][0] == order[0] && order[1..][k - 1] == order[k];
    }
  }

  /** The watchdog ends, in the order of its scan, exactly the active rows without recent progress. */
  lemma WatchdogReturnsWork(cfg: Config, db: DB, now: int, order: seq<TaskId>, tid: TaskId)
    requires Inv(db) && Scan(order, StalledRows(cfg, db, now)) && tid in db.tasks
    ensures var end := SweepRows(cfg, db, now, order);
      end == db.(tasks := end.tasks) && end.tasks.Keys == db.tasks.Keys &&
      var t, t' := db.tasks[tid], end.tasks[tid];
      if t.state in {Leased, Running, Validating} && t.lastProgress + cfg.stallSeconds <= now then
        exists k: nat ::
          k < |order| && order[k] == tid && (forall i :: 0 <= i < k ==> order[i] in db.tasks) &&
          WatchedTo(cfg, SweepRows(cfg, db, now, order[..k]), now, t, t')
      else t' == t
  {
    hide LaneLedger, OneTaskPerWorker, RowInv, Apply, WatchedTo, HasAlternative;
    ScanOfTasks(cfg, db, now, order);
    SweepRowsShape(cfg, db, now, order);
    if tid in order {
      var k: nat :| k < |order| && order[k] == tid;
      SweepAtTurn(cfg, db, now, order, k);
      WatchedRow(cfg, SweepRows(cfg, db, now, order[..k]), now, db.tasks[tid], db.uuids);
    } else {
      assert tid !in StalledRows(cfg, db, now);
    }
  }

  /** A worker who can take over gets the task by an exact claim, unless it is a result of its own or its lane is
      closed or full: these the watchdog does not look at. */
  lemma TakeOverIsClaim(cfg: Config, db: DB, now: int, tid: TaskId, worker: WorkerId)
    requires ValidConfig(cfg) && Inv(db) && tid in db.tasks && CanTakeOver(cfg, db, now, db.tasks[tid], worker)
    requires db.tasks[tid].lease.holder.None? && db.tasks[tid].state in {Queued, Validating}
    ensures worker in db.workers && db.tasks[tid].meta.repository in db.lanes
    ensures var t := db.tasks[tid];
      var lane := db.lanes[t.meta.repository];
      ExactClaimAcquires(cfg, db, now, tid, worker) <==>
        if t.producedSha.Some? then t.builder != Some(worker)
        else lane.enabled && |ActiveIn(db, t.meta.repository)| < lane.maxInFlight
  {
    hide RowInv, LaneLedger, OneTaskPerWorker, ExactClaimAcquires, Affine, Busy;
    AcquiresWhen(cfg, db, now, tid, worker);
    StateTellsResult(db.tasks[tid], db.uuids);
  }

  lemma StateTellsResult(t: Task, uuids: nat)
    requires RowInv(t, uuids)
    ensures t.state == Queued || t.state == Running ==> t.producedSha.None?
    ensures t.state == Validating ==> t.producedSha.Some?
  {
  }

  // ---- leases that lead on

  /** The same row but for the state, the closed attempt and the columns that say what happened when. */
  ghost predicate Leads(t: Task, t': Task, now: int, end: Reason) {
    t' == t.(state := t'.state, lease := NO_LEASE, producedSha := t'.producedSha, blockedReason := t'.blockedReason,
             updatedAt := now, lastProgress := now, completedAt := t'.completedAt, attempts := t'.attempts) &&
    LastClosed(t.attempts, t'.attempts, now, end)
  }

  ghost predicate ChangesRow(db: DB, db': DB, tid: TaskId) {
    tid in db.tasks && tid in db'.tasks && db' == db.(tasks := db.tasks[tid := db'.tasks[tid]])
  }

  /** What every lemma below needs of a row whose open attempt the caller quotes. */
  lemma HeldRow(db: DB, now: int, cred: Credentials, end: Reason)
    requires Inv(db) && HoldsOpenAttempt(db, now, cred)
    ensures cred.task in db.tasks
    ensures var t := db.tasks[cred.task];
      Active(t) && t.lease.holder == Some(cred.worker) && t.attempts != [] &&
      LastClosed(t.attempts, EndAttempt(t.attempts, t.lease.attempt, now, end), now, end) &&
      (Clear(t) <==> !HasOpenEffect(t)) && (t.state == Running ==> t.builder == t.lease.holder) &&
      (t.state == Validating ==> t.builder != t.lease.holder && t.producedSha.Some?)
    ensures LeaseRefusal(db, now, cred, AnyActive).None?
  {
    hide Inv, RowInv, HasOpenEffect, LeaseRefusal, Clear, EndAttempt;
    LeaseCheckExactly(db, now, cred);
    HoldingIsLeased(db, now, cred);
    var t := db.tasks[cred.task];
    LeaseIsOpenAttempt(t, db.uuids);
    EndClosesLast(t, db.uuids, now, end);
    OpenEffectExactly(t, db.uuids);
    WhoBuilds(t, db.uuids);
  }

  lemma WhoBuilds(t: Task, uuids: nat)
    requires RowInv(t, uuids)
    ensures t.state == Running ==> t.builder == t.lease.holder
    ensures t.state == Validating && t.lease.holder.Some? ==> t.builder != t.lease.holder && t.producedSha.Some?
  {
  }

  lemma RefusedWithout(db: DB, now: int, cred: Credentials, allowed: Allowed)
    requires Inv(db)
    ensures allowed.Only? && Permits(AnyActive, allowed.state) ==>
      (LeaseRefusal(db, now, cred, allowed).None? <==>
        HoldsOpenAttempt(db, now, cred) && db.tasks[cred.task].state == allowed.state)
  {
    hide Inv, HoldsOpenAttempt;
    LeaseCheckExactly(db, now, cred);
  }

  /** Work starts exactly under the open attempt of a leased task, for a worker who is still a Builder. */
  lemma StartBegins(db: DB, now: int, cred: Credentials)
    requires Inv(db)
    ensures var tx := StartTask(db, now, cred);
      (tx.Commit? <==>
        HoldsOpenAttempt(db, now, cred) && db.tasks[cred.task].state == Leased &&
        cred.worker in db.workers && db.workers[cred.worker].role == Builder) &&
      (tx.Commit? ==>
        ChangesRow(db, tx.db, cred.task) &&
        tx.db.tasks[cred.task] == db.tasks[cred.task].(state := Running, builder := Some(cred.worker),
                                                       updatedAt := now, lastProgress := now))
  {
    hide Inv, HoldsOpenAttempt, LeaseRefusal;
    RefusedWithout(db, now, cred, Only(Leased));
    if HoldsOpenAttempt(db, now, cred) { HeldRow(db, now, cred, WorkerFailure); }
  }

  /** A result is handed over exactly under the open attempt of a running task without an open effect; that the
      caller is the one who started it goes without saying. */
  lemma SubmitHandsOver(db: DB, now: int, cred: Credentials, sha: Sha)
    requires Inv(db)
    ensures var tx := SubmitForValidation(db, now, cred, sha);
      (tx.Commit? <==>
        HoldsOpenAttempt(db, now, cred) && db.tasks[cred.task].state == Running && !HasOpenEffect(db.tasks[cred.task])) &&
      (tx.Commit? ==>
        ChangesRow(db, tx.db, cred.task) &&
        var t, t' := db.tasks[cred.task], tx.db.tasks[cred.task];
        Leads(t, t', now, ValidationHandoff) && t'.state == Validating && t'.producedSha == Some(sha) &&
        t'.blockedReason == t.blockedReason && t'.completedAt == t.completedAt)
  {
    hide Inv, HoldsOpenAttempt, LeaseRefusal, HasOpenEffect, Clear, EndAttempt;
    RefusedWithout(db, now, cred, Only(Running));
    if HoldsOpenAttempt(db, now, cred) { HeldRow(db, now, cred, ValidationHandoff); }
  }

  /** A task is completed exactly under the open attempt of its validation, without an open effect, by a worker
      who is still a Validator; that there is a result of somebody else goes without saying. */
  lemma CompleteCloses(db: DB, now: int, cred: Credentials)
    requires Inv(db)
    ensures var tx := CompleteTask(db, now, cred);
      (tx.Commit? <==>
        HoldsOpenAttempt(db, now, cred) && db.tasks[cred.task].state == Validating && !HasOpenEffect(db.tasks[cred.task]) &&
        cred.worker in db.workers && db.workers[cred.worker].role == Validator) &&
      (tx.Commit? ==>
        ChangesRow(db, tx.db, cred.task) &&
        var t, t' := db.tasks[cred.task], tx.db.tasks[cred.task];
        Leads(t, t', now, CompletedReason) && t'.state == Completed && t'.completedAt == Some(now) &&
        t'.producedSha == t.producedSha && t'.blockedReason == t.blockedReason)
  {
    hide Inv, HoldsOpenAttempt, LeaseRefusal, HasOpenEffect, Clear, EndAttempt;
    RefusedWithout(db, now, cred, Only(Validating));
    if HoldsOpenAttempt(db, now, cred) { HeldRow(db, now, cred, CompletedReason); }
  }

  /** A block is taken exactly under the open attempt, for a reason; an open effect overrides the reason. */
  lemma BlockParks(db: DB, now: int, cred: Credentials, reason: Option<Reason>)
    requires Inv(db)
    ensures var tx := BlockTask(db, now, cred, reason);
      (tx.Commit? <==> reason.Some? && HoldsOpenAttempt(db, now, cred)) &&
      (tx.Commit? ==>
        ChangesRow(db, tx.db, cred.task) &&
        var t, t' := db.tasks[cred.task], tx.db.tasks[cred.task];
        Leads(t, t', now, BlockedReason) && t'.producedSha == t.producedSha && t'.completedAt == t.completedAt &&
        Parked(t, t', if HasOpenEffect(t) then EffectReconciliationRequired else reason.value))
  {
    hide Inv, HoldsOpenAttempt, LeaseRefusal, HasOpenEffect, Clear, EndAttempt;
    LeaseCheckExactly(db, now, cred);
    if HoldsOpenAttempt(db, now, cred) { HeldRow(db, now, cred, BlockedReason); }
  }

  /** A renewal is taken exactly under the open attempt; lease and attempt then end at the same new time. */
  lemma RenewMovesTheEnd(cfg: Config, db: DB, now: int, cred: Credentials, seconds: Option<int>)
    requires Inv(db)
    ensures var tx := RenewLease(cfg, db, now, cred, seconds);
      (tx.Commit? <==> HoldsOpenAttempt(db, now, cred)) &&
      (tx.Commit? ==>
        ChangesRow(db, tx.db, cred.task) &&
        var t, t' := db.tasks[cred.task], tx.db.tasks[cred.task];
        var end := now + if seconds.Some? && seconds.value != 0 then seconds.value else cfg.leaseSeconds;
        var n := |t.attempts| - 1;
        n >= 0 && t' == t.(lease := t.lease.(expires := Some(end)), updatedAt := now, attempts := t'.attempts) &&
        t'.attempts == t.attempts[..n] + [t.attempts[n].(expires := end)])
  {
    hide Inv, HoldsOpenAttempt, LeaseRefusal;
    LeaseCheckExactly(db, now, cred);
    if HoldsOpenAttempt(db, now, cred) {
      HoldingIsLeased(db, now, cred);
      LastExtended(db.tasks[cred.task], db.uuids, now + OrDefault(seconds, cfg.leaseSeconds));
    }
  }

  lemma LastExtended(t: Task, uuids: nat, end: int)
    requires RowInv(t, uuids) && t.lease.holder.Some?
    ensures var n := |t.attempts| - 1;
      n >= 0 && ExtendAttempt(t.attempts, t.lease.attempt, end) == t.attempts[..n] + [t.attempts[n].(expires := end)]
  {
    hide ResultColumns, QuarantineLedger, CheckpointLedger, ReconciliationRows, EffectsContained;
    assert AttemptRows(t.attempts, true, uuids);
  }

  // ---- checkpoints

  /** The next number of the running attempt: one more than its last checkpoint, or 1 if it has none. */
  ghost function NextSequence(t: Task): int {
    if t.checkpoints != [] && t.checkpoints[|t.checkpoints| - 1].generation == |t.attempts|
    then t.checkpoints[|t.checkpoints| - 1].content.sequence + 1 else 1
  }

  /** Nobody has answered what became of this effect. */
  ghost predicate InDoubt(t: Task, effect: EffectId) {
    exists i :: LeftOpen(t, i) && t.checkpoints[i].content.effect == Some(effect) &&
      t.checkpoints[i].content.effectState == Unknown
  }

  lemma SequenceIsNext(t: Task, uuids: nat)
    requires RowInv(t, uuids)
    ensures MaxSequence(t.checkpoints, t.generation) + 1 == NextSequence(t)
  {
    hide AttemptLedger, ResultColumns, QuarantineLedger, ReconciliationRows, EffectsContained;
    LeaseIsOpenAttempt(t, uuids);
    assert CheckpointRows(t.checkpoints, t.generation);
    MaxSequenceIsLast(t.checkpoints, t.generation);
  }

  lemma UnknownIsInDoubt(t: Task, uuids: nat, effect: EffectId)
    requires RowInv(t, uuids)
    ensures HasUnknown(t, effect) <==> InDoubt(t, effect)
  {
    hide AttemptLedger, ResultColumns, QuarantineLedger, ReconciliationRows, CheckpointLedger, HasLaterOfSameEffect;
    forall i | 0 <= i < |t.checkpoints| && t.checkpoints[i].content.effect == Some(effect) &&
               t.checkpoints[i].content.effectState == Unknown && !Reconciled(t, t.checkpoints[i])
      ensures LeftOpen(t, i)
    {
      assert Unresolved(t, t.checkpoints[i]);
      LaterIsBehind(t, uuids, i);
    }
  }
}
