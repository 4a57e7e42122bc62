/** What never changes back: facts about two states of one run. */
module Evolution {
  import opened Wrappers
  import opened PoolTypes
  import opened PoolRows
  import opened PoolSpec
  import opened PoolSteps
  import opened Ledger
  import opened PoolInvariant

  /** Write-once results and final states. */
  ghost predicate ResultFixed(t: Task, t': Task) {
    t'.meta == t.meta &&
    (t.producedSha.Some? ==> t'.producedSha == t.producedSha && t'.builder == t.builder) &&
    (t.state == Completed || t.state == Failed ==> t' == t)
  }

  /** Checkpoints are only appended, reconciliations only added, generations only raised. */
  ghost predicate HistoryGrows(t: Task, t': Task) {
    t.generation <= t'.generation &&
    t.checkpoints <= t'.checkpoints &&
    (forall key :: key in t.reconciliations ==>
      key in t'.reconciliations && t'.reconciliations[key] == t.reconciliations[key])
  }

  /** A token found on the task later was there under the same generation, or was drawn since. */
  ghost predicate TokensFresh(t: Task, t': Task, uuids: nat) {
    t'.lease.token.Some? && t'.lease.token.value < uuids ==>
      t'.lease.token == t.lease.token && t'.lease.attempt == t.lease.attempt && t'.lease.holder == t.lease.holder &&
      t'.generation == t.generation
  }

  ghost predicate RowEvolves(t: Task, t': Task, uuids: nat) {
    ResultFixed(t, t') && HistoryGrows(t, t') && TokensFresh(t, t', uuids)
  }

  ghost predicate Evolves(db: DB, db': DB) {
    db.uuids <= db'.uuids &&
    (forall tid :: tid in db.tasks ==>
      tid in db'.tasks && RowEvolves(db.tasks[tid], db'.tasks[tid], db.uuids)) &&
    (forall r :: r in db.lanes ==>
      r in db'.lanes && db.lanes[r].builderClaims <= db'.lanes[r].builderClaims &&
      db.lanes[r].validatorClaims <= db'.lanes[r].validatorClaims)
  }

  lemma MoveEvolves(cfg: Config, t: Task, now: int, move: Move, uuids: nat, uuids': nat)
    requires RowInv(t, uuids) && Enabled(cfg, t, now, move) && Fresh(move, uuids, uuids')
    ensures RowEvolves(t, Apply(t, now, move), uuids)
  {
    hide AttemptLedger, CheckpointLedger, EffectsContained, QuarantineLedger;
    if GivesBack(move) { GivingBackReturns(t, now, move); }
  }

  lemma QuietEvolves(cfg: Config, op: Op, db: DB, db': DB, now: int)
    requires Inv(db) && Quiet(cfg, op, db, db', now)
    ensures Evolves(db, db')
  {
    hide RowInv, RowEvolves;
    forall tid | tid in db.tasks ensures RowEvolves(db.tasks[tid], db'.tasks[tid], db.uuids) {
      RowQuietEvolves(cfg, op, tid, db.tasks[tid], db'.tasks[tid], now, db.uuids);
    }
  }

  lemma RowQuietEvolves(cfg: Config, op: Op, tid: TaskId, t: Task, t': Task, now: int, uuids: nat)
    requires RowInv(t, uuids) && QuietRow(cfg, op, tid, t, t', now)
    ensures RowEvolves(t, t', uuids)
  {
    hide RowInv;
    if t' != t {
      var move :| QuietMove(cfg, op, tid, t, t', now, move);
      MoveEvolves(cfg, t, now, move, uuids, uuids);
    }
  }

  lemma GrantEvolves(cfg: Config, db: DB, db': DB, now: int, c: Claim)
    requires Inv(db) && Granted(cfg, db, db', now, c)
    ensures Evolves(db, db')
  {
    hide RowInv, IsFirst, NotReady, Candidates, LaneLedger;
    GrantEnabled(cfg, db, db', now, c);
    MoveEvolves(cfg, db.tasks[c.task], now, GrantMove(db, now, c), db.uuids, db'.uuids);
  }

  lemma RowEvolvesTransitive(a: Task, b: Task, c: Task, u: nat, v: nat)
    requires RowEvolves(a, b, u) && RowEvolves(b, c, v) && u <= v
    ensures RowEvolves(a, c, u)
  {
  }

  lemma EvolvesTransitive(a: DB, b: DB, c: DB)
    requires Evolves(a, b) && Evolves(b, c)
    ensures Evolves(a, c)
  {
    hide RowEvolves;
    forall tid | tid in a.tasks ensures RowEvolves(a.tasks[tid], c.tasks[tid], a.uuids) {
      RowEvolvesTransitive(a.tasks[tid], b.tasks[tid], c.tasks[tid], a.uuids, b.uuids);
    }
  }

  lemma StepEvolves(cfg: Config, db: DB, now: int, op: Op)
    requires Inv(db) && Possible(cfg, db, now, op)
    ensures Evolves(db, After(cfg, db, now, op))
  {
    hide Inv, Evolves;
    StepStages(cfg, db, now, op);
    StepKeepsInv(cfg, db, now, op);
    var first, mid, last := Recovered(cfg, db, now, op), Swept(cfg, db, now, op), After(cfg, db, now, op);
    QuietEvolves(cfg, op, db, first, now);
    QuietEvolves(cfg, op, first, mid, now);
    EvolvesTransitive(db, first, mid);
    if Quiet(cfg, op, mid, last, now) {
      QuietEvolves(cfg, op, mid, last, now);
    } else {
      var c :| GrantedTo(cfg, mid, last, now, op, c);
      GrantEvolves(cfg, mid, last, now, c);
    }
    EvolvesTransitive(db, mid, last);
  }

  /** Results, histories and generations over whole runs: once a commit is submitted it and its
      Builder stay, completed and failed rows never change, generations never go back. */
  lemma {:induction false} RunEvolves(cfg: Config, db: DB, events: seq<Event>)
    requires Inv(db) && Run(cfg, db, events)
    ensures Evolves(db, End(cfg, db, events))
    decreases |events|
  {
    if events != [] {
      var next := After(cfg, db, events[0].now, events[0].op);
      StepEvolves(cfg, db, events[0].now, events[0].op);
      StepKeepsInv(cfg, db, events[0].now, events[0].op);
      RunEvolves(cfg, next, events[1..]);
      EvolvesTransitive(db, next, End(cfg, next, events[1..]));
    }
  }

  /** What the publisher of finished issues checks of a completed task holds of every completed task of
      every reachable state, whatever roles its workers have registered with since. */
  lemma CompletedIsProved(cfg: Config, db: DB, tid: TaskId)
    requires Reachable(cfg, db) && tid in db.tasks && db.tasks[tid].state == Completed
    ensures var t := db.tasks[tid];
      t.lease == NO_LEASE && t.producedSha.Some? && t.builder.Some? && t.validator.Some? && t.builder != t.validator &&
      t.attemptCount == t.generation == |t.attempts| && t.generation >= 2 && !HasUnresolved(t) && t.quarantine == []
  {
    ReachableInv(cfg, db);
    CompletedRow(db.tasks[tid], db.uuids);
  }

  lemma CompletedRow(t: Task, uuids: nat)
    requires RowInv(t, uuids) && t.state == Completed
    ensures t.lease == NO_LEASE && t.producedSha.Some? && t.builder.Some? && t.validator.Some? && t.builder != t.validator &&
      t.attemptCount == t.generation == |t.attempts| && t.generation >= 2 && !HasUnresolved(t) && t.quarantine == []
  {
    hide AttemptRows, CheckpointLedger, ReconciliationRows;
  }
}
