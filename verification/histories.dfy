/** Which checkpoints and answers the store takes, said on the history of the task, and which steps of a run
    count as progress. */
module Histories {
  import opened Wrappers
  import opened PoolTypes
  import opened PoolRows
  import opened PoolSpec
  import opened PoolSteps
  import opened Ledger
  import opened PoolInvariant
  import opened Outcomes

  // ---- checkpoints

  /** An effect is named exactly with a state; a settled one has its result, and without an effect there is none. */
  predicate SaysWhatItMust(c: Content) {
    (c.effect.Some? <==> c.effectState != NoEffect) &&
    (c.effectState in {Confirmed, NotApplied} ==> c.resultRef.Some?) &&
    (c.effect.None? ==> c.resultRef.None?)
  }

  /** The caller quotes the open attempt of a fenced task, all of it. */
  ghost predicate WritesHistory(db: DB, now: int, cred: Credentials) {
    HoldsOpenAttempt(db, now, cred) && db.tasks[cred.task].meta.fenced && cred.generation.Some? && cred.attempt.Some?
  }

  ghost predicate Known(t: Task, id: CheckpointId, content: Content) {
    exists i :: 0 <= i < |t.checkpoints| && t.checkpoints[i].id == id && t.checkpoints[i].content == content
  }

  ghost predicate Continues(t: Task, id: CheckpointId, content: Content) {
    (forall i :: 0 <= i < |t.checkpoints| ==> t.checkpoints[i].id != id) && SaysWhatItMust(content) &&
    content.sequence == NextSequence(t) && (content.effect.Some? ==> !InDoubt(t, content.effect.value))
  }

  lemma OneContentPerId(t: Task, uuids: nat, id: CheckpointId, content: Content)
    requires RowInv(t, uuids)
    ensures Known(t, id, content) ==>
      HasCheckpoint(t, id) && ContentValid(content) &&
      !exists i :: 0 <= i < |t.checkpoints| && t.checkpoints[i].id == id && t.checkpoints[i].content != content
    ensures HasCheckpoint(t, id) && !Known(t, id, content) ==>
      exists i :: 0 <= i < |t.checkpoints| && t.checkpoints[i].id == id && t.checkpoints[i].content != content
  {
    hide AttemptLedger, ResultColumns, QuarantineLedger, ReconciliationRows, EffectsContained;
    assert CheckpointRows(t.checkpoints, t.generation);
  }

  lemma ContinuingIsRecordable(t: Task, uuids: nat, id: CheckpointId, content: Content)
    requires RowInv(t, uuids)
    ensures Continues(t, id, content) <==>
      ContentValid(content) && !HasCheckpoint(t, id) &&
      (content.effect.Some? ==> !HasUnknown(t, content.effect.value)) &&
      content.sequence == MaxSequence(t.checkpoints, t.generation) + 1
  {
    hide RowInv, InDoubt, HasUnknown, MaxSequence;
    SequenceIsNext(t, uuids);
    if content.effect.Some? { UnknownIsInDoubt(t, uuids, content.effect.value); }
  }

  /** A checkpoint is created exactly under the whole open attempt of a fenced task, with a new id, the next
      number, and about no effect that is in doubt; it is recognised exactly when id and content are known; any
      other changes nothing. */
  lemma RecordExtendsHistory(db: DB, now: int, cred: Credentials, id: CheckpointId, content: Content)
    requires Inv(db)
    ensures var tx := RecordCheckpoint(db, now, cred, id, content);
      (tx.Commit? && tx.value <==> WritesHistory(db, now, cred) && Continues(db.tasks[cred.task], id, content)) &&
      (tx.Commit? && !tx.value <==> WritesHistory(db, now, cred) && Known(db.tasks[cred.task], id, content)) &&
      (tx.Commit? && !tx.value ==> tx.db == db) &&
      (tx.Commit? && tx.value ==>
        ChangesRow(db, tx.db, cred.task) &&
        var t := db.tasks[cred.task];
        t.attempts != [] &&
        tx.db.tasks[cred.task] == t.(updatedAt := now, lastProgress := now, checkpoints := t.checkpoints +
          [Checkpoint(id, |t.attempts|, t.attempts[|t.attempts| - 1].id, content, now)]))
  {
    hide Inv, RowInv, HoldsOpenAttempt, LeaseRefusal, Continues, Known, HasCheckpoint, ContentValid, HasUnknown, MaxSequence;
    LeaseCheckExactly(db, now, cred);
    if HoldsOpenAttempt(db, now, cred) {
      HoldingIsLeased(db, now, cred);
      var t := db.tasks[cred.task];
      LeaseIsOpenAttempt(t, db.uuids);
      OneContentPerId(t, db.uuids, id, content);
      ContinuingIsRecordable(t, db.uuids, id, content);
    }
  }

  // ---- answers of the authority

  /** The task waits for the authority to say what became of this effect, left open in this generation. */
  ghost predicate AwaitsAnswer(t: Task, effect: EffectId, at: int) {
    t.state == Blocked && t.blockedReason == Some(EffectReconciliationRequired) &&
    exists i :: LeftOpen(t, i) && t.checkpoints[i].content.effect == Some(effect) && t.checkpoints[i].generation == at
  }

  lemma LatestIsLastOfEffect(t: Task, uuids: nat, effect: EffectId, i: int)
    requires RowInv(t, uuids) && 0 <= i < |t.checkpoints|
    ensures IsLatestFor(t, effect, i) <==>
      t.checkpoints[i].content.effect == Some(effect) &&
      forall j :: i < j < |t.checkpoints| ==> t.checkpoints[j].content.effect != Some(effect)
  {
    hide AttemptLedger, ResultColumns, QuarantineLedger, ReconciliationRows, EffectsContained;
    assert CheckpointRows(t.checkpoints, t.generation);
  }

  lemma AwaitingIsReconcilable(t: Task, uuids: nat, effect: EffectId, at: nat)
    requires RowInv(t, uuids)
    ensures AwaitsAnswer(t, effect, at) <==>
      AwaitingAuthority(t) && AwaitsReconciliation(t, effect, at) && (effect, at) !in t.reconciliations
    ensures AwaitsReconciliation(t, effect, at) ==> EffectPending(t, effect) && t.meta.fenced && at >= 1
  {
    hide AttemptLedger, ResultColumns, QuarantineLedger, ReconciliationRows, EffectsContained, IsLatestFor;
    CheckpointsAreFenced(t, uuids);
    assert CheckpointRows(t.checkpoints, t.generation);
    forall i | 0 <= i < |t.checkpoints|
      ensures LeftOpen(t, i) && t.checkpoints[i].content.effect == Some(effect) && t.checkpoints[i].generation == at <==>
        IsLatestFor(t, effect, i) && t.checkpoints[i].generation == at && OpenState(t.checkpoints[i].content.effectState) &&
        (effect, at) !in t.reconciliations
    {
      LatestIsLastOfEffect(t, uuids, effect, i);
    }
  }

  lemma AnswersAreSettled(t: Task, uuids: nat)
    requires RowInv(t, uuids)
    ensures forall key :: key in t.reconciliations ==>
      key.1 >= 1 && t.reconciliations[key].outcome in {Confirmed, NotApplied}
  {
    assert ReconciliationKeys(t);
  }

  /** An answer is added exactly for an effect the task was blocked for, left open in the generation it names;
      the same answer again is recognised, and nothing else is accepted. */
  lemma AnswerIsTaken(db: DB, now: int, tid: TaskId, effect: EffectId, at: int, outcome: EffectState, readbackRef: Text)
    requires Inv(db)
    ensures var tx := ReconcileEffect(db, now, tid, effect, at, outcome, readbackRef);
      (tx.Commit? && tx.value <==>
        tid in db.tasks && outcome in {Confirmed, NotApplied} && AwaitsAnswer(db.tasks[tid], effect, at)) &&
      (tx.Commit? && !tx.value <==>
        tid in db.tasks && at >= 0 && (effect, at) in db.tasks[tid].reconciliations &&
        db.tasks[tid].reconciliations[(effect, at)].outcome == outcome &&
        db.tasks[tid].reconciliations[(effect, at)].readbackRef == readbackRef) &&
      (tx.Commit? && !tx.value ==> tx.db == db) &&
      (tx.Commit? && tx.value ==>
        ChangesRow(db, tx.db, tid) && at >= 0 &&
        var t := db.tasks[tid];
        tx.db.tasks[tid] == t.(reconciliations := t.reconciliations[(effect, at) := Reconciliation(outcome, readbackRef, now)]))
  {
    hide RowInv, LaneLedger, OneTaskPerWorker, AwaitsAnswer, AwaitsReconciliation, EffectPending;
    if tid in db.tasks {
      var t := db.tasks[tid];
      AnswersAreSettled(t, db.uuids);
      if at >= 0 { AwaitingIsReconcilable(t, db.uuids, effect, at); }
      AwaitsAnswerWhen(t, effect, at);
    }
  }

  lemma AwaitsAnswerWhen(t: Task, effect: EffectId, at: int)
    ensures AwaitsAnswer(t, effect, at) ==> at >= 0
  {
  }

  /** The operator's requeue: exactly for a blocked task without an open effect, back to the role it needs next. */
  lemma RequeueReturnsWork(db: DB, now: int, tid: TaskId)
    requires Inv(db)
    ensures var tx := RequeueBlocked(db, now, tid);
      (tx.Commit? <==> tid in db.tasks && db.tasks[tid].state == Blocked && !HasOpenEffect(db.tasks[tid])) &&
      (tx.Commit? ==>
        ChangesRow(db, tx.db, tid) &&
        var t, t' := db.tasks[tid], tx.db.tasks[tid];
        GoesBack(t, t') && t' == t.(state := t'.state, blockedReason := None, updatedAt := now, lastProgress := now))
  {
    hide RowInv, LaneLedger, OneTaskPerWorker, HasOpenEffect, Clear;
    if tid in db.tasks { OpenEffectExactly(db.tasks[tid], db.uuids); }
  }

  // ---- progress

  /** What happened to the row in a step that counts as progress: a grant, a start, a checkpoint, a result, a
      completion, a block by its worker, a requeue. */
  ghost predicate Progresses(op: Op, t: Task, t': Task) {
    t'.generation > t.generation || |t'.checkpoints| > |t.checkpoints| || t'.producedSha != t.producedSha ||
    (t'.state != t.state &&
     (t'.state == Running || t'.state == Completed || (t'.state == Blocked && op.BlockOp?) || t.state == Blocked))
  }

  ghost predicate KeepsTime(op: Op, t: Task, t': Task, now: int) {
    t'.lastProgress == if Progresses(op, t, t') then now else t.lastProgress
  }

  /** A sweep moves nothing forward. */
  ghost predicate Idle(t: Task, t': Task) {
    t'.lastProgress == t.lastProgress && t'.generation == t.generation && t'.checkpoints == t.checkpoints &&
    t'.producedSha == t.producedSha &&
    (t'.state == t.state || (Active(t) && t'.state != Running && t'.state != Completed && t'.state != Leased))
  }

  lemma MoveKeepsTime(cfg: Config, op: Op, tid: TaskId, t: Task, now: int, move: Move)
    requires !move.Acquire? && MoveOf(cfg, op, now, tid, move) && Enabled(cfg, t, now, move)
    requires t.state == Running ==> t.producedSha.None?
    ensures KeepsTime(op, t, Apply(t, now, move), now)
    ensures Recovers(op) || Watches(op) ==> Idle(t, Apply(t, now, move))
  {
    hide Clear, EndAttempt, ExtendAttempt, ContentValid, HasCheckpoint, HasUnknown, MaxSequence, AwaitsReconciliation;
  }

  lemma RowKeepsTime(cfg: Config, op: Op, tid: TaskId, t: Task, t': Task, now: int, uuids: nat)
    requires QuietRow(cfg, op, tid, t, t', now) && RowInv(t, uuids)
    ensures KeepsTime(op, t, t', now)
    ensures Recovers(op) || Watches(op) ==> Idle(t, t')
  {
    hide RowInv, Apply, Enabled, MoveOf;
    StateTellsResult(t, uuids);
    if t' != t {
      var move :| QuietMove(cfg, op, tid, t, t', now, move);
      MoveKeepsTime(cfg, op, tid, t, now, move);
    }
  }

  lemma GrantKeepsTime(cfg: Config, op: Op, db: DB, db': DB, now: int, c: Claim, tid: TaskId, t: Task)
    requires Granted(cfg, db, db', now, c) && tid in db.tasks && Idle(t, db.tasks[tid])
    requires op.ClaimOp? && KeepsTime(op, t, db.tasks[tid], now)
    ensures tid in db'.tasks && KeepsTime(op, t, db'.tasks[tid], now)
  {
    hide NotReady, IsFirst;
  }

  /** The stages of a step, one row. */
  lemma StageRow(cfg: Config, op: Op, db: DB, db': DB, now: int, tid: TaskId)
    requires Inv(db) && Quiet(cfg, op, db, db', now) && tid in db.tasks
    ensures tid in db'.tasks && KeepsTime(op, db.tasks[tid], db'.tasks[tid], now)
    ensures Recovers(op) || Watches(op) ==> Idle(db.tasks[tid], db'.tasks[tid])
  {
    hide RowInv, LaneLedger, OneTaskPerWorker, QuietRow, QuietLanes, KeepsTime, Idle;
    RowKeepsTime(cfg, op, tid, db.tasks[tid], db'.tasks[tid], now, db.uuids);
  }

  lemma IdleIsTransitive(a: Task, b: Task, c: Task)
    requires Idle(a, b) && Idle(b, c)
    ensures Idle(a, c)
  {
  }

  lemma IdleKeepsTime(op: Op, t: Task, t': Task, now: int)
    requires Idle(t, t') && !op.BlockOp?
    ensures KeepsTime(op, t, t', now)
  {
  }

  lemma OneStage(cfg: Config, db: DB, now: int, op: Op)
    requires Possible(cfg, db, now, op) && !Recovers(op) && !Watches(op)
    ensures Swept(cfg, db, now, op) == db
  {
  }

  /** The clock of the watchdog: a step sets the last progress of a task to its own time exactly if it granted,
      started, recorded, handed over, completed, blocked or requeued it.  Renewals, failures, replays, answers,
      sweeps and all administration leave it alone. */
  lemma ProgressExactly(cfg: Config, db: DB, now: int, op: Op, tid: TaskId)
    requires Inv(db) && Possible(cfg, db, now, op) && tid in db.tasks
    ensures var db' := After(cfg, db, now, op); tid in db'.tasks && KeepsTime(op, db.tasks[tid], db'.tasks[tid], now)
  {
    hide Inv, Quiet, Recovered, Swept, After, Idle, KeepsTime, Possible, Granted;
    var first, mid, last := Recovered(cfg, db, now, op), Swept(cfg, db, now, op), After(cfg, db, now, op);
    StepStages(cfg, db, now, op);
    StepKeepsInv(cfg, db, now, op);
    if Recovers(op) || Watches(op) {
      StageRow(cfg, op, db, first, now, tid);
      StageRow(cfg, op, first, mid, now, tid);
      IdleIsTransitive(db.tasks[tid], first.tasks[tid], mid.tasks[tid]);
      IdleKeepsTime(op, db.tasks[tid], mid.tasks[tid], now);
      if Quiet(cfg, op, mid, last, now) {
        StageRow(cfg, op, mid, last, now, tid);
        IdleIsTransitive(db.tasks[tid], mid.tasks[tid], last.tasks[tid]);
        IdleKeepsTime(op, db.tasks[tid], last.tasks[tid], now);
      } else {
        var c :| GrantedTo(cfg, mid, last, now, op, c);
        GrantKeepsTime(cfg, op, mid, last, now, c, tid, db.tasks[tid]);
      }
    } else {
      OneStage(cfg, db, now, op);
      StageRow(cfg, op, db, last, now, tid);
    }
  }
}
