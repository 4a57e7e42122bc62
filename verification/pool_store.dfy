/** WorkerPoolStore itself: an object whose methods update its tables in place, each inside one
    transaction.  The clock reading of the transaction is a parameter. */
module PoolStore {
  import opened Wrappers
  import opened PoolTypes
  import opened PoolRows
  import opened PoolSpec
  import opened PoolSteps
  import opened Ledger
  import opened PoolInvariant
  import opened Reconciling
  import opened ClaimOrder

  function Reply<T>(tx: Tx<T>): Result<T, PoolError> {
    match tx
    case Commit(_, value) => Ok(value)
    case Rollback(error) => Err(error)
  }

  lemma RecoveredTasks(db: DB, now: int, tasks: map<TaskId, Task>)
    requires tasks.Keys == db.tasks.Keys
    requires forall tid :: tid in tasks ==>
      tasks[tid] == if tid in ExpiredRows(db, now) then Apply(db.tasks[tid], now, SweepExpired) else db.tasks[tid]
    ensures tasks == RecoverExpired(db, now).tasks
  {
    hide Apply, Expired;
  }

  // ---- the watchdog loop, one more row at a time

  lemma {:induction false} SweepOneMore(cfg: Config, db: DB, now: int, order: seq<TaskId>, tid: TaskId, tally: Tally)
    requires (forall i :: 0 <= i < |order| ==> order[i] in db.tasks) && Distinct(order)
    requires tid in db.tasks && tid !in order
    ensures var before := SweepRows(cfg, db, now, order);
      tid in before.tasks && before.tasks[tid] == db.tasks[tid] &&
      SweepRows(cfg, db, now, order + [tid]) == Update(before, tid, now, StallMove(cfg, before, now, tid)) &&
      TallyRows(cfg, db, now, order + [tid], tally) ==
        Count(TallyRows(cfg, db, now, order, tally), db.tasks[tid], StallMove(cfg, before, now, tid).alternative)
    decreases |order|
  {
    hide Apply, HasAlternative, Count;
    SweepRowsShape(cfg, db, now, order);
    if order == [] {
      assert [tid][1..] == [];
    } else {
      var next := Update(db, order[0], now, StallMove(cfg, db, now, order[0]));
      assert (order + [tid])[1..] == order[1..] + [tid];
      SweepOneMore(cfg, next, now, order[1..], tid,
                   Count(tally, db.tasks[order[0]], StallMove(cfg, db, now, order[0]).alternative));
    }
  }

  lemma ScanOneMore(order: seq<TaskId>, rows: set<TaskId>, tid: TaskId)
    requires Scan(order, rows) && tid !in rows
    ensures Scan(order + [tid], rows + {tid}) && tid !in order
  {
  }

  lemma {:induction false} SomeScan(rows: set<TaskId>) returns (order: seq<TaskId>)
    ensures Scan(order, rows)
    decreases rows
  {
    order := [];
    if rows != {} {
      var tid :| tid in rows;
      order := SomeScan(rows - {tid});
      ScanOneMore(order, rows - {tid}, tid);
      order := order + [tid];
      assert rows - {tid} + {tid} == rows;
    }
  }

  lemma AddOneMore(lanes: map<Repository, Lane>, id: WorkerId, some: set<Repository>, r: Repository)
    ensures Affinities(id, some + {r}) == Affinities(id, some) + {(id, r)}
    ensures AddLanes(lanes, some + {r}) ==
      if r in AddLanes(lanes, some) then AddLanes(lanes, some) else AddLanes(lanes, some)[r := FRESH_LANE]
  {
    var more := AddLanes(lanes, some + {r});
    if r in AddLanes(lanes, some) {
      assert lanes.Keys + (some + {r}) == lanes.Keys + some;
    } else {
      assert more.Keys == AddLanes(lanes, some).Keys + {r};
    }
  }

  class WorkerPoolStore {
    const cfg: Config
    var tasks: map<TaskId, Task>
    var workers: map<WorkerId, Worker>
    var lanes: map<Repository, Lane>
    var affinities: set<(WorkerId, Repository)>
    var cutover: bool
    var uuids: nat
    var rowids: nat

    function Db(): DB
      reads this
    {
      DB(tasks, workers, lanes, affinities, cutover, uuids, rowids)
    }

    constructor (config: Config)
      requires ValidConfig(config)
      ensures cfg == config && Db() == EMPTY_DB && Inv(Db())
    {
      cfg := config;
      tasks, workers, lanes, affinities := map[], map[], map[], {};
      cutover, uuids, rowids := false, 0, 0;
      new;
      EmptyInv();
    }

    /** The end of a transaction that raised. */
    method Restore(db: DB)
      modifies this
      ensures Db() == db
    {
      tasks, workers, lanes, affinities := db.tasks, db.workers, db.lanes, db.affinities;
      cutover, uuids, rowids := db.cutover, db.uuids, db.rowids;
    }

    method Put(tid: TaskId, row: Task)
      modifies this`tasks
      ensures tasks == old(tasks)[tid := row]
    {
      tasks := tasks[tid := row];
    }

    // ---- administration

    method EnableFencedCutover(drained: bool, exclusive: bool) returns (r: Result<(), PoolError>)
      modifies this
      ensures var tx := EnableCutover(old(Db()), drained, exclusive); r == Reply(tx) && Db() == DbOf(old(Db()), tx)
    {
      if !drained || !exclusive { return Err(InvalidValue); }
      cutover := true;
      r := Ok(());
    }

    method RegisterWorker(now: int, id: WorkerId, role: Role, profile: Profile, rulesSha: Option<Sha>,
                          gatewayOk: bool, stateValidated: bool) returns (r: Result<(), PoolError>)
      modifies this
      ensures var tx := PoolSpec.RegisterWorker(old(Db()), now, id, role, profile, rulesSha, gatewayOk, stateValidated);
        r == Reply(tx) && Db() == DbOf(old(Db()), tx)
    {
      workers := workers[id := Worker(role, profile, rulesSha, gatewayOk, stateValidated, now)];
      r := Ok(());
    }

    method HeartbeatWorker(now: int, id: WorkerId, profile: Option<Profile>, gatewayOk: Option<bool>,
                           stateValidated: Option<bool>) returns (r: Result<(), PoolError>)
      modifies this
      ensures var tx := PoolSpec.HeartbeatWorker(old(Db()), now, id, profile, gatewayOk, stateValidated);
        r == Reply(tx) && Db() == DbOf(old(Db()), tx)
    {
      if id !in workers { return Err(NotFound); }
      var w := workers[id];
      if profile.Some? { w := w.(profile := profile.value); }
      if gatewayOk.Some? { w := w.(gatewayOk := gatewayOk.value); }
      if stateValidated.Some? { w := w.(stateValidated := stateValidated.value); }
      workers := workers[id := w.(lastHeartbeat := now)];
      r := Ok(());
    }

    method EnsureRepositoryLane(repository: Repository)
      modifies this`lanes
      ensures lanes == EnsureLane(old(Db()), repository).lanes
    {
      if repository !in lanes { lanes := lanes[repository := FRESH_LANE]; }
    }

    method ConfigureRepository(repository: Repository, enabled: bool, maxInFlight: int) returns (r: Result<(), PoolError>)
      modifies this
      ensures var tx := PoolSpec.ConfigureRepository(old(Db()), repository, enabled, maxInFlight);
        r == Reply(tx) && Db() == DbOf(old(Db()), tx)
    {
      if maxInFlight < 1 || maxInFlight > 100 { return Err(InvalidValue); }
      EnsureRepositoryLane(repository);
      lanes := lanes[repository := lanes[repository].(enabled := enabled, maxInFlight := maxInFlight)];
      r := Ok(());
    }

    /** The old rows go, then lane and affinity of each repository are inserted in turn. */
    method ReplaceWorkerAffinities(id: WorkerId, repositories: set<Repository>) returns (r: Result<(), PoolError>)
      modifies this
      ensures var tx := ReplaceAffinities(old(Db()), id, repositories); r == Reply(tx) && Db() == DbOf(old(Db()), tx)
    {
      if id !in workers { return Err(NotFound); }
      affinities := OthersAffinities(affinities, id);
      var rest := repositories;
      assert AddLanes(lanes, {}) == lanes;
      while rest != {}
        invariant rest <= repositories
        invariant Db() == old(Db()).(lanes := lanes, affinities := affinities)
        invariant lanes == AddLanes(old(lanes), repositories - rest)
        invariant affinities == OthersAffinities(old(affinities), id) + Affinities(id, repositories - rest)
        decreases rest
      {
        var repository :| repository in rest;
        AddOneMore(old(lanes), id, repositories - rest, repository);
        EnsureRepositoryLane(repository);
        affinities := affinities + {(id, repository)};
        assert repositories - rest + {repository} == repositories - (rest - {repository});
        rest := rest - {repository};
      }
      assert repositories - {} == repositories;
      r := Ok(());
    }

    method EnqueueTask(now: int, tid: TaskId, repository: Repository, priority: int, maxAttempts: Option<int>,
                       targetBranch: Option<Text>, defaultBranch: Text, fenced: bool) returns (r: Result<bool, PoolError>)
      modifies this
      ensures var tx := PoolSpec.EnqueueTask(cfg, old(Db()), now, tid, repository, priority, maxAttempts,
                                             targetBranch, defaultBranch, fenced);
        r == Reply(tx) && Db() == DbOf(old(Db()), tx)
    {
      var attempts := OrDefault(maxAttempts, cfg.maxAttempts);
      if attempts < 1 { return Err(InvalidValue); }
      var saved := Db();
      if fenced && !cutover { return Err(CutoverNotEnabled); }
      EnsureRepositoryLane(repository);
      if tid in tasks {
        if (targetBranch.Some? && tasks[tid].meta.branch != targetBranch.value) || tasks[tid].meta.fenced != fenced {
          Restore(saved);
          return Err(ReplayDiverges);
        }
        return Ok(false);
      }
      var branch := if targetBranch.Some? then targetBranch.value else defaultBranch;
      Put(tid, FreshTask(saved, now, repository, priority, attempts, branch, fenced));
      rowids := rowids + 1;
      r := Ok(true);
    }

    // ---- sweeps

    method RecoverRow(now: int, tid: TaskId, row: Task)
      requires tid in tasks && tasks[tid] == row
      modifies this`tasks
      ensures tasks == old(tasks)[tid := Apply(row, now, PoolRows.SweepExpired)]
    {
      var state, blocked, error := Queued, None, LeaseExpiredRecovered;
      if row.meta.fenced && HasUnresolved(row) {
        state, blocked, error := Blocked, Some(EffectReconciliationRequired), EffectReconciliationRequired;
      } else if row.attemptCount >= row.meta.maxAttempts {
        state, error := Failed, LeaseExpiredMaxAttempts;
      } else if row.producedSha.Some? {
        state := Validating;
      }
      Put(tid, Release(row, now, state, error, blocked, Some(error), row.lastProgress));
    }

    /** `_recover`: the rows are read once, then updated one by one in whatever order they came. */
    method Recover(now: int) returns (count: nat)
      modifies this`tasks
      ensures Db() == RecoverExpired(old(Db()), now)
      ensures count == |ExpiredRows(old(Db()), now)|
    {
      hide PoolRows.Apply;
      var rows := tasks;
      var rest := ExpiredRows(Db(), now);
      count := |rest|;
      ghost var all := rest;
      while rest != {}
        invariant rest <= all
        invariant Db() == old(Db()).(tasks := tasks) && tasks.Keys == rows.Keys
        invariant forall tid :: tid in tasks ==>
          tasks[tid] == if tid in all && tid !in rest then Apply(rows[tid], now, SweepExpired) else rows[tid]
        decreases rest
      {
        var tid :| tid in rest;
        RecoverRow(now, tid, rows[tid]);
        rest := rest - {tid};
      }
      RecoveredTasks(old(Db()), now, tasks);
    }

    /** One row of the watchdog loop, decided on the database as it is now. */
    method SweepStalledRow(now: int, tid: TaskId, row: Task, tally: Tally) returns (counted: Tally)
      requires tid in tasks && tasks[tid] == row
      modifies this`tasks
      ensures Db() == Update(old(Db()), tid, now, StallMove(cfg, old(Db()), now, tid))
      ensures counted == Count(tally, row, HasAlternative(cfg, old(Db()), now, row))
    {
      var state, blocked, error;
      if row.meta.fenced && HasUnresolved(row) {
        state, blocked, error := Blocked, Some(EffectReconciliationRequired), EffectReconciliationRequired;
        counted := tally.(blocked := tally.blocked + 1);
      } else if row.attemptCount >= row.meta.maxAttempts {
        state, blocked, error := Failed, None, ProgressTimeoutMaxAttempts;
        counted := tally.(failed := tally.failed + 1);
      } else if HasAlternative(cfg, Db(), now, row) {
        state, blocked, error := Pool(row), None, ProgressTimeoutRerouted;
        counted := tally.(rerouted := tally.rerouted + 1);
      } else {
        state, blocked, error := Blocked, Some(ProgressTimeoutNoAlternative), ProgressTimeoutNoAlternative;
        counted := tally.(blocked := tally.blocked + 1);
      }
      Put(tid, Release(row, now, state, error, blocked, Some(error), row.lastProgress));
    }

    /** `_recover_stalled`: rows and workers are read once, whether a worker is busy for every row anew.
        `order` is the order in which the rows came. */
    method RecoverStalled(now: int) returns (tally: Tally, ghost order: seq<TaskId>)
      modifies this`tasks
      ensures Scan(order, StalledRows(cfg, old(Db()), now))
      ensures Db() == SweepRows(cfg, old(Db()), now, order)
      ensures tally == TallyRows(cfg, old(Db()), now, order, Tally(0, 0, 0))
    {
      var rows := tasks;
      var rest := StalledRows(cfg, Db(), now);
      ghost var all := rest;
      tally, order := Tally(0, 0, 0), [];
      while rest != {}
        invariant rest <= all && Scan(order, all - rest)
        invariant forall i :: 0 <= i < |order| ==> order[i] in old(Db()).tasks
        invariant Db() == SweepRows(cfg, old(Db()), now, order)
        invariant tally == TallyRows(cfg, old(Db()), now, order, Tally(0, 0, 0))
        decreases rest
      {
        var tid :| tid in rest;
        SweepOneMore(cfg, old(Db()), now, order, tid, Tally(0, 0, 0));
        tally := SweepStalledRow(now, tid, rows[tid], tally);
        ScanOneMore(order, all - rest, tid);
        order := order + [tid];
        assert all - rest + {tid} == all - (rest - {tid});
        rest := rest - {tid};
      }
      assert all - {} == all;
    }

    method RecoverExpiredLeases(now: int) returns (count: nat)
      modifies this
      ensures Db() == After(cfg, old(Db()), now, RecoverOp) && count == |ExpiredRows(old(Db()), now)|
    {
      count := Recover(now);
    }

    /** `reconcile`: both sweeps in one transaction. */
    method Reconcile(now: int) returns (expired: nat, tally: Tally, ghost order: seq<TaskId>)
      modifies this
      ensures Possible(cfg, old(Db()), now, ReconcileOp(order))
      ensures Db() == After(cfg, old(Db()), now, ReconcileOp(order))
      ensures expired == |ExpiredRows(old(Db()), now)|
      ensures tally == TallyRows(cfg, RecoverExpired(old(Db()), now), now, order, Tally(0, 0, 0))
    {
      expired := Recover(now);
      tally, order := RecoverStalled(now);
    }

    // ---- claims

    /** `claim_task`: a general claim sweeps first; a refused worker rolls everything back. */
    method ClaimTask(now: int, worker: WorkerId, role: Role, seconds: Option<int>, only: Option<TaskId>, fenced: bool)
      returns (r: Result<Option<LeaseGrant>, PoolError>, ghost order: seq<TaskId>)
      modifies this
      ensures Possible(cfg, old(Db()), now, ClaimOp(worker, role, seconds, only, fenced, order))
      ensures var tx := PoolSpec.ClaimTask(cfg, old(Db()), now, worker, role, seconds, only, fenced, order);
        r == Reply(tx) && Db() == DbOf(old(Db()), tx)
    {
      hide Pick, RecoverExpired, StalledRows;
      var ttl := OrDefault(seconds, cfg.leaseSeconds);
      if ttl < 1 {
        order := SomeScan(StalledRows(cfg, RecoverExpired(Db(), now), now));
        return Err(InvalidValue), order;
      }
      var saved := Db();
      order := [];
      if only.None? {
        var _ := Recover(now);
        var _, scan := RecoverStalled(now);
        order := scan;
      }
      r := ChooseAndGrant(now, worker, role, ttl, only, fenced);
      if r.Err? { Restore(saved); }
    }

    /** Check the worker, choose the first row, then write task, lane and attempt. */
    method ChooseAndGrant(now: int, worker: WorkerId, role: Role, ttl: int, only: Option<TaskId>, fenced: bool)
      returns (r: Result<Option<LeaseGrant>, PoolError>)
      modifies this
      ensures var tx := Pick(cfg, old(Db()), now, worker, role, ttl, only, fenced);
        r == Reply(tx) && Db() == DbOf(old(Db()), tx)
    {
      hide IsFirst, NotReady, Grant;
      var refusal := NotReady(cfg, Db(), now, worker, role);
      if refusal.Some? { return Err(refusal.value); }
      var rows := Candidates(Db(), worker, role, fenced, only);
      if rows == {} { return Ok(None); }
      var tid := SelectFirst(role, rows);
      if tasks[tid].lease.holder.Some? { return Err(TakenConcurrently); }
      var granted := Grants(now, tid, worker, role, ttl);
      r := Ok(Some(granted));
    }

    /** The ORDER BY ... LIMIT 1 of the claim queries. */
    method SelectFirst(role: Role, rows: set<TaskId>) returns (tid: TaskId)
      requires rows != {} && forall u :: u in rows ==> u in tasks && tasks[u].meta.repository in lanes
      ensures tid == First(Db(), role, rows) && tid in rows
      ensures forall u :: u in rows ==> ServedInTurn(Db(), role, tid, u)
    {
      hide SortKey, ServedInTurn;
      FirstExists(Db(), role, rows);
      tid :| tid in rows && IsFirst(Db(), role, tid, rows);
      FirstUnique(Db(), role, tid, First(Db(), role, rows), rows);
      forall u | u in rows ensures ServedInTurn(Db(), role, tid, u) { FirstInTurn(Db(), role, tid, u, rows); }
    }

    /** The three writes of a successful claim. */
    method Grants(now: int, tid: TaskId, worker: WorkerId, role: Role, ttl: int) returns (granted: LeaseGrant)
      requires tid in tasks && tasks[tid].meta.repository in lanes
      modifies this
      ensures Db() == Grant(old(Db()), now, tid, worker, role, ttl)
      ensures granted == LeaseGrant(tid, old(uuids), worker, role, now + ttl, old(tasks)[tid].generation + 1, old(uuids) + 1)
    {
      var row := tasks[tid];
      var token, attempt, expires := uuids, uuids + 1, now + ttl;
      uuids := uuids + 2;
      var leased := row.(
        state := if role == Builder then Leased else Validating,
        lease := LeaseColumns(Some(worker), Some(token), Some(expires), Some(attempt)),
        generation := row.generation + 1, attemptCount := row.attemptCount + 1,
        validator := if role == Validator then Some(worker) else row.validator,
        updatedAt := now, lastProgress := now);
      var lane := lanes[row.meta.repository];
      lanes := lanes[row.meta.repository := ServeLane(lane, role, now)];
      Put(tid, leased.(attempts := leased.attempts +
            [Attempt(attempt, leased.generation, worker, role, now, expires, None, None)]));
      granted := LeaseGrant(tid, token, worker, role, expires, leased.generation, attempt);
    }

    // ---- mutations under a lease

    method RenewLease(now: int, cred: Credentials, seconds: Option<int>) returns (r: Result<(), PoolError>)
      modifies this
      ensures var tx := PoolSpec.RenewLease(cfg, old(Db()), now, cred, seconds); r == Reply(tx) && Db() == DbOf(old(Db()), tx)
    {
      var refusal := LeaseRefusal(Db(), now, cred, AnyActive);
      if refusal.Some? { return Err(refusal.value); }
      var row := tasks[cred.task];
      var expires := now + OrDefault(seconds, cfg.leaseSeconds);
      var renewed := row.(lease := row.lease.(expires := Some(expires)), updatedAt := now);
      Put(cred.task, renewed.(attempts := ExtendAttempt(row.attempts, row.lease.attempt, expires)));
      r := Ok(());
    }

    method StartTask(now: int, cred: Credentials) returns (r: Result<(), PoolError>)
      modifies this
      ensures var tx := PoolSpec.StartTask(old(Db()), now, cred); r == Reply(tx) && Db() == DbOf(old(Db()), tx)
    {
      var refusal := LeaseRefusal(Db(), now, cred, Only(Leased));
      if refusal.Some? { return Err(refusal.value); }
      if cred.worker !in workers { return Err(NotFound); }
      if workers[cred.worker].role != Builder { return Err(BuilderRequired); }
      Put(cred.task, tasks[cred.task].(state := Running, builder := Some(cred.worker), updatedAt := now, lastProgress := now));
      r := Ok(());
    }

    method SubmitForValidation(now: int, cred: Credentials, sha: Sha) returns (r: Result<(), PoolError>)
      modifies this
      ensures var tx := PoolSpec.SubmitForValidation(old(Db()), now, cred, sha); r == Reply(tx) && Db() == DbOf(old(Db()), tx)
    {
      var refusal := LeaseRefusal(Db(), now, cred, Only(Running));
      if refusal.Some? { return Err(refusal.value); }
      var row := tasks[cred.task];
      if row.builder != Some(cred.worker) { return Err(BuilderMismatch); }
      if row.meta.fenced && HasUnresolved(row) { return Err(EffectUnresolved); }
      Put(cred.task, Release(row, now, Validating, ValidationHandoff, row.blockedReason, row.lastError, now)
                       .(producedSha := Some(sha)));
      r := Ok(());
    }

    method CompleteTask(now: int, cred: Credentials) returns (r: Result<(), PoolError>)
      modifies this
      ensures var tx := PoolSpec.CompleteTask(old(Db()), now, cred); r == Reply(tx) && Db() == DbOf(old(Db()), tx)
    {
      var refusal := LeaseRefusal(Db(), now, cred, Only(Validating));
      if refusal.Some? { return Err(refusal.value); }
      if cred.worker !in workers { return Err(NotFound); }
      var row := tasks[cred.task];
      if workers[cred.worker].role != Validator || row.builder == Some(cred.worker) { return Err(IndependentValidatorRequired); }
      if row.producedSha.None? { return Err(ProducedShaMissing); }
      if row.meta.fenced && HasUnresolved(row) { return Err(EffectUnresolved); }
      Put(cred.task, Release(row, now, Completed, CompletedReason, row.blockedReason, row.lastError, now)
                       .(completedAt := Some(now)));
      r := Ok(());
    }

    method FailTask(now: int, cred: Credentials, reason: Option<Reason>) returns (r: Result<(), PoolError>)
      modifies this
      ensures var tx := PoolSpec.FailTask(old(Db()), now, cred, reason); r == Reply(tx) && Db() == DbOf(old(Db()), tx)
    {
      var refusal := LeaseRefusal(Db(), now, cred, AnyActive);
      if refusal.Some? { return Err(refusal.value); }
      var row := tasks[cred.task];
      if row.meta.fenced && HasUnresolved(row) { return Err(EffectUnresolved); }
      var state := Failed;
      if row.attemptCount < row.meta.maxAttempts {
        state := if row.producedSha.Some? then Validating else Queued;
      }
      Put(cred.task, Release(row, now, state, FailedAttempt, row.blockedReason, Some(OrWorkerFailure(reason)), row.lastProgress));
      r := Ok(());
    }

    method BlockTask(now: int, cred: Credentials, reason: Option<Reason>) returns (r: Result<(), PoolError>)
      modifies this
      ensures var tx := PoolSpec.BlockTask(old(Db()), now, cred, reason); r == Reply(tx) && Db() == DbOf(old(Db()), tx)
    {
      if reason.None? { return Err(InvalidValue); }
      var refusal := LeaseRefusal(Db(), now, cred, AnyActive);
      if refusal.Some? { return Err(refusal.value); }
      var row := tasks[cred.task];
      var text := reason.value;
      if row.meta.fenced && HasUnresolved(row) { text := EffectReconciliationRequired; }
      Put(cred.task, Release(row, now, Blocked, BlockedReason, Some(text), row.lastError, now));
      r := Ok(());
    }

    method RecordCheckpoint(now: int, cred: Credentials, id: CheckpointId, content: Content)
      returns (r: Result<bool, PoolError>)
      modifies this
      ensures var tx := PoolSpec.RecordCheckpoint(old(Db()), now, cred, id, content); r == Reply(tx) && Db() == DbOf(old(Db()), tx)
    {
      if !ContentValid(content) || cred.generation.None? || cred.attempt.None? { return Err(InvalidValue); }
      var refusal := LeaseRefusal(Db(), now, cred, AnyActive);
      if refusal.Some? { return Err(refusal.value); }
      var row := tasks[cred.task];
      if !row.meta.fenced { return Err(FencedTaskRequired); }
      if HasCheckpoint(row, id) {
        if exists i :: 0 <= i < |row.checkpoints| && row.checkpoints[i].id == id && row.checkpoints[i].content != content {
          return Err(ReplayDiverges);
        }
        return Ok(false);
      }
      if content.effect.Some? && HasUnknown(row, content.effect.value) { return Err(UnknownEffectNeedsReconciliation); }
      if content.sequence != MaxSequence(row.checkpoints, row.generation) + 1 { return Err(SequenceInvalid); }
      var recorded := row.(checkpoints := row.checkpoints + [Checkpoint(id, row.generation, cred.attempt.value, content, now)]);
      Put(cred.task, recorded.(updatedAt := now, lastProgress := now));
      r := Ok(true);
    }

    // ---- the reconciliation authority and the operator

    method ReconcileEffect(now: int, tid: TaskId, effect: EffectId, at: int, outcome: EffectState, readbackRef: Text)
      returns (r: Result<bool, PoolError>)
      modifies this
      ensures var tx := PoolSpec.ReconcileEffect(old(Db()), now, tid, effect, at, outcome, readbackRef);
        r == Reply(tx) && Db() == DbOf(old(Db()), tx)
    {
      if at < 1 || !SettledState(outcome) { return Err(InvalidValue); }
      if tid !in tasks { return Err(NotFound); }
      var row := tasks[tid];
      if (effect, at) in row.reconciliations {
        var existing := row.reconciliations[(effect, at)];
        if existing.outcome != outcome || existing.readbackRef != readbackRef { return Err(ReplayDiverges); }
        return Ok(false);
      }
      if !row.meta.fenced { return Err(FencedTaskRequired); }
      if row.state != Blocked || row.blockedReason != Some(EffectReconciliationRequired) { return Err(NotAwaitingReconciliation); }
      if !EffectPending(row, effect) { return Err(EffectNotPending); }
      if !AwaitsReconciliation(row, effect, at) { return Err(ReconciliationGenerationMismatch); }
      Put(tid, row.(reconciliations := row.reconciliations[(effect, at) := Reconciliation(outcome, readbackRef, now)]));
      r := Ok(true);
    }

    method RequeueBlocked(now: int, tid: TaskId) returns (r: Result<(), PoolError>)
      modifies this
      ensures var tx := PoolSpec.RequeueBlocked(old(Db()), now, tid); r == Reply(tx) && Db() == DbOf(old(Db()), tx)
    {
      if tid !in tasks { return Err(NotFound); }
      var row := tasks[tid];
      if row.state != Blocked { return Err(StateNotAllowed); }
      if row.meta.fenced && HasUnresolved(row) { return Err(EffectUnresolved); }
      var state := if row.producedSha.Some? then Validating else Queued;
      Put(tid, row.(state := state, blockedReason := None, updatedAt := now, lastProgress := now));
      r := Ok(());
    }
  }
}
