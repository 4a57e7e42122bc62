/** Effects: what is open is contained, and the authority can always close it. */
module Effects {
  import opened Wrappers
  import opened PoolTypes
  import opened PoolRows
  import opened PoolSpec
  import opened PoolSteps
  import opened Ledger
  import opened PoolInvariant
  import opened Fencing

  ghost function OpenEffects(t: Task): set<EffectId> {
    set i | 0 <= i < |t.checkpoints| && Unresolved(t, t.checkpoints[i]) :: t.checkpoints[i].content.effect.value
  }

  /** In every reachable state a task with an open effect is fenced, and either leased and active or
      blocked for reconciliation; every open checkpoint is of the current generation and the last
      word on its effect. */
  lemma OpenEffectsContained(cfg: Config, db: DB, tid: TaskId, i: int)
    requires Reachable(cfg, db) && tid in db.tasks
    requires 0 <= i < |db.tasks[tid].checkpoints| && Unresolved(db.tasks[tid], db.tasks[tid].checkpoints[i])
    ensures var t := db.tasks[tid];
      t.meta.fenced && ((t.lease.holder.Some? && Active(t)) || (t.lease.holder.None? && AwaitingAuthority(t))) &&
      t.checkpoints[i].generation == t.generation && IsLatestFor(t, t.checkpoints[i].content.effect.value, i)
  {
    ReachableInv(cfg, db);
    assert RowInv(db.tasks[tid], db.uuids);
  }

  /** `reconcile_effect` is enabled for every open effect of a task that is not leased, closes exactly
      that effect and writes nothing else. */
  lemma OpenEffectCloses(db: DB, now: int, tid: TaskId, effect: EffectId, outcome: EffectState, readbackRef: Text)
    requires Inv(db) && tid in db.tasks && db.tasks[tid].lease.holder.None?
    requires effect in OpenEffects(db.tasks[tid]) && SettledState(outcome)
    ensures var t := db.tasks[tid];
      var tx := ReconcileEffect(db, now, tid, effect, t.generation, outcome, readbackRef);
      tx.Commit? && tx.value &&
      tx.db == db.(tasks := db.tasks[tid :=
        t.(reconciliations := t.reconciliations[(effect, t.generation) := Reconciliation(outcome, readbackRef, now)])]) &&
      OpenEffects(tx.db.tasks[tid]) == OpenEffects(t) - {effect}
  {
    hide Inv, OpenEffects, RowInv, AwaitsReconciliation, EffectPending;
    RowOf(db, tid);
    AwaitsAuthority(db.tasks[tid], db.uuids, effect);
    ResolvingCloses(db.tasks[tid], now, effect, outcome, readbackRef);
  }

  lemma RowOf(db: DB, tid: TaskId)
    requires Inv(db) && tid in db.tasks
    ensures RowInv(db.tasks[tid], db.uuids) && EffectsContained(db.tasks[tid])
  {
    hide LaneLedger, OneTaskPerWorker;
  }

  /** Every check of `reconcile_effect` passes for an effect left open by a lease that is gone. */
  lemma AwaitsAuthority(t: Task, uuids: nat, effect: EffectId)
    requires RowInv(t, uuids) && t.lease.holder.None? && effect in OpenEffects(t)
    ensures AwaitsReconciliation(t, effect, t.generation) && EffectPending(t, effect)
    ensures t.meta.fenced && AwaitingAuthority(t) && (effect, t.generation) !in t.reconciliations && t.generation >= 1
  {
    hide AttemptLedger, ResultColumns, QuarantineLedger, OpenEffects, AnsweredOpen;
    var i := OpenCheckpoint(t, effect);
    assert IsLatestFor(t, effect, i);
  }

  lemma OpenCheckpoint(t: Task, effect: EffectId) returns (i: nat)
    requires effect in OpenEffects(t)
    ensures i < |t.checkpoints| && Unresolved(t, t.checkpoints[i]) && t.checkpoints[i].content.effect == Some(effect)
  {
    i :| 0 <= i < |t.checkpoints| && Unresolved(t, t.checkpoints[i]) && t.checkpoints[i].content.effect.value == effect;
  }

  lemma ResolvingCloses(t: Task, now: int, effect: EffectId, outcome: EffectState, readbackRef: Text)
    requires EffectsContained(t)
    ensures OpenEffects(Apply(t, now, Resolve(effect, t.generation, outcome, readbackRef))) == OpenEffects(t) - {effect}
  {
    var r := Apply(t, now, Resolve(effect, t.generation, outcome, readbackRef));
    forall i | 0 <= i < |t.checkpoints|
      ensures Unresolved(r, r.checkpoints[i]) <==>
        Unresolved(t, t.checkpoints[i]) && t.checkpoints[i].content.effect != Some(effect)
    {
      assert HasLaterOfSameEffect(r, r.checkpoints[i]) == HasLaterOfSameEffect(t, t.checkpoints[i]);
    }
  }

  // ---- a blocked task always gets out

  ghost predicate Lists(order: seq<EffectId>, effects: set<EffectId>) {
    (forall i :: 0 <= i < |order| ==> order[i] in effects) &&
    (forall e :: e in effects ==> e in order) &&
    (forall i, j :: 0 <= i < j < |order| ==> order[i] != order[j])
  }

  /** One reconciliation after the other, with any outcomes and references. */
  ghost function Settle(now: int, tid: TaskId, at: nat, order: seq<EffectId>,
                        outcome: EffectId -> EffectState, readback: EffectId -> Text): seq<Event>
  {
    if order == [] then []
    else [Event(now, ReconcileEffectOp(tid, order[0], at, outcome(order[0]), readback(order[0])))] +
         Settle(now, tid, at, order[1..], outcome, readback)
  }

  ghost predicate SettledRow(t: Task, t': Task) {
    t' == t.(reconciliations := t'.reconciliations)
  }

  lemma SettlingOne(cfg: Config, db: DB, now: int, tid: TaskId, effect: EffectId, outcome: EffectState, readbackRef: Text)
    requires Inv(db) && tid in db.tasks && db.tasks[tid].lease.holder.None?
    requires effect in OpenEffects(db.tasks[tid]) && SettledState(outcome)
    ensures var op := ReconcileEffectOp(tid, effect, db.tasks[tid].generation, outcome, readbackRef);
      Possible(cfg, db, now, op) &&
      var next := After(cfg, db, now, op);
      Inv(next) && tid in next.tasks && next == db.(tasks := db.tasks[tid := next.tasks[tid]]) &&
      SettledRow(db.tasks[tid], next.tasks[tid]) && OpenEffects(next.tasks[tid]) == OpenEffects(db.tasks[tid]) - {effect}
  {
    hide Inv, OpenEffects;
    OpenEffectCloses(db, now, tid, effect, outcome, readbackRef);
    StepKeepsInv(cfg, db, now, ReconcileEffectOp(tid, effect, db.tasks[tid].generation, outcome, readbackRef));
  }

  lemma {:induction false} SettlingCloses(cfg: Config, db: DB, now: int, tid: TaskId, order: seq<EffectId>,
                        outcome: EffectId -> EffectState, readback: EffectId -> Text)
    requires Inv(db) && tid in db.tasks && db.tasks[tid].lease.holder.None?
    requires Lists(order, OpenEffects(db.tasks[tid]))
    requires forall e :: SettledState(outcome(e))
    ensures var events := Settle(now, tid, db.tasks[tid].generation, order, outcome, readback);
      Run(cfg, db, events) &&
      var last := End(cfg, db, events);
      tid in last.tasks && last == db.(tasks := db.tasks[tid := last.tasks[tid]]) &&
      SettledRow(db.tasks[tid], last.tasks[tid]) && OpenEffects(last.tasks[tid]) == {}
    decreases |order|
  {
    hide Inv, OpenEffects, After;
    var t := db.tasks[tid];
    if order == [] {
      assert db == db.(tasks := db.tasks[tid := t]);
    } else {
      var op := ReconcileEffectOp(tid, order[0], t.generation, outcome(order[0]), readback(order[0]));
      SettlingOne(cfg, db, now, tid, order[0], outcome(order[0]), readback(order[0]));
      var next := After(cfg, db, now, op);
      RestIsListed(order, OpenEffects(t));
      SettlingCloses(cfg, next, now, tid, order[1..], outcome, readback);
      var events := Settle(now, tid, t.generation, order, outcome, readback);
      assert events[0] == Event(now, op) && events[1..] == Settle(now, tid, t.generation, order[1..], outcome, readback);
    }
  }

  lemma RestIsListed(order: seq<EffectId>, effects: set<EffectId>)
    requires order != [] && Lists(order, effects)
    ensures order[0] in effects && Lists(order[1..], effects - {order[0]})
  {
  }

  /** No reconciliation deadlock: whatever the order and the outcomes, reconciling every open effect of
      a blocked task makes `requeue_blocked` succeed, into `validating` exactly when there is a result. */
  lemma BlockedTaskGetsOut(cfg: Config, db: DB, now: int, tid: TaskId, order: seq<EffectId>,
                           outcome: EffectId -> EffectState, readback: EffectId -> Text)
    requires Inv(db) && tid in db.tasks && db.tasks[tid].state == Blocked
    requires Lists(order, OpenEffects(db.tasks[tid]))
    requires forall e :: SettledState(outcome(e))
    ensures var events := Settle(now, tid, db.tasks[tid].generation, order, outcome, readback);
      Run(cfg, db, events) &&
      var tx := RequeueBlocked(End(cfg, db, events), now, tid);
      tx.Commit? && tid in tx.db.tasks &&
      tx.db.tasks[tid].state == (if db.tasks[tid].producedSha.Some? then Validating else Queued) &&
      forall other :: other in db.tasks && other != tid ==> other in tx.db.tasks && tx.db.tasks[other] == db.tasks[other]
  {
    hide Inv, EffectsContained;
    BlockedIsUnleased(db, tid);
    SettlingCloses(cfg, db, now, tid, order, outcome, readback);
    NoOpenEffectsIsClear(End(cfg, db, Settle(now, tid, db.tasks[tid].generation, order, outcome, readback)).tasks[tid]);
  }

  lemma BlockedIsUnleased(db: DB, tid: TaskId)
    requires Inv(db) && tid in db.tasks && db.tasks[tid].state == Blocked
    ensures db.tasks[tid].lease.holder.None?
  {
    LeasedIsActive(db.tasks[tid], db.uuids);
  }

  lemma NoOpenEffectsIsClear(t: Task)
    ensures OpenEffects(t) == {} <==> !HasUnresolved(t)
  {
    forall i | 0 <= i < |t.checkpoints| && Unresolved(t, t.checkpoints[i])
      ensures t.checkpoints[i].content.effect.value in OpenEffects(t)
    {
    }
  }

  // ---- what a claimant finds

  /** The last word on the effect, or the answer of the authority to it. */
  ghost predicate SettledAt(t: Task, i: int)
    requires 0 <= i < |t.checkpoints| && t.checkpoints[i].content.effect.Some?
  {
    SettledState(t.checkpoints[i].content.effectState) ||
    (Reconciled(t, t.checkpoints[i]) &&
     SettledState(t.reconciliations[(t.checkpoints[i].content.effect.value, t.checkpoints[i].generation)].outcome))
  }

  /** Whoever is granted a task finds every effect of its recovery context confirmed, not applied or
      reconciled: nothing is open at the start of a lease. */
  lemma GrantFindsEverythingSettled(cfg: Config, db: DB, now: int, op: Op, g: LeaseGrant, i: int)
    requires Inv(db) && Possible(cfg, db, now, op) && Hands(cfg, db, now, op, g)
    requires g.task in After(cfg, db, now, op).tasks
    requires var t := After(cfg, db, now, op).tasks[g.task];
      0 <= i < |t.checkpoints| && t.checkpoints[i].content.effect.Some? &&
      IsLatestFor(t, t.checkpoints[i].content.effect.value, i)
    ensures !HasUnresolved(After(cfg, db, now, op).tasks[g.task]) && SettledAt(After(cfg, db, now, op).tasks[g.task], i)
  {
    hide Inv, After, Hands;
    GrantWrites(cfg, db, now, op, g);
    StepKeepsInv(cfg, db, now, op);
    RowOf(db, g.task);
    RowOf(After(cfg, db, now, op), g.task);
    NewLeaseIsSettled(db.tasks[g.task], After(cfg, db, now, op).tasks[g.task], db.uuids, After(cfg, db, now, op).uuids, i);
  }

  lemma NewLeaseIsSettled(t: Task, t': Task, uuids: nat, uuids': nat, i: int)
    requires RowInv(t, uuids) && RowInv(t', uuids') && t'.checkpoints == t.checkpoints && t'.generation > t.generation
    requires 0 <= i < |t'.checkpoints| && t'.checkpoints[i].content.effect.Some?
    requires IsLatestFor(t', t'.checkpoints[i].content.effect.value, i)
    ensures !HasUnresolved(t') && SettledAt(t', i)
  {
    hide AttemptLedger, ResultColumns, QuarantineLedger, AnsweredOpen;
    assert CheckpointRows(t.checkpoints, t.generation) && EffectsContained(t') && ReconciliationKeys(t');
    assert ContentValid(t'.checkpoints[i].content) && !Unresolved(t', t'.checkpoints[i]);
  }
}
