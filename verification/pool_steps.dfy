/** The whole store as one step function over its operations, and the two kinds of stages
    every step is made of: quiet ones, which grant no lease, and grants. */
module PoolSteps {
  import opened Wrappers
  import opened PoolTypes
  import opened PoolRows
  import opened PoolSpec

  datatype Op =
    | EnableCutoverOp(drained: bool, exclusive: bool)
    | RegisterOp(id: WorkerId, role: Role, profile: Profile, rulesSha: Option<Sha>, gatewayOk: bool, stateValidated: bool)
    | HeartbeatOp(id: WorkerId, newProfile: Option<Profile>, newGateway: Option<bool>, newState: Option<bool>)
    | ConfigureOp(repository: Repository, enabled: bool, maxInFlight: int)
    | AffinitiesOp(id: WorkerId, repositories: set<Repository>)
    | EnqueueOp(tid: TaskId, repository: Repository, priority: int, maxAttempts: Option<int>,
                targetBranch: Option<Text>, defaultBranch: Text, fenced: bool)
    | ClaimOp(id: WorkerId, role: Role, seconds: Option<int>, only: Option<TaskId>, fenced: bool, order: seq<TaskId>)
    | RenewOp(cred: Credentials, seconds: Option<int>)
    | StartOp(cred: Credentials)
    | SubmitOp(cred: Credentials, sha: Sha)
    | CompleteOp(cred: Credentials)
    | FailOp(cred: Credentials, reason: Option<Reason>)
    | BlockOp(cred: Credentials, reason: Option<Reason>)
    | RecordOp(cred: Credentials, checkpoint: CheckpointId, content: Content)
    | ReconcileEffectOp(tid: TaskId, effect: EffectId, at: int, outcome: EffectState, readbackRef: Text)
    | RequeueOp(tid: TaskId)
    | RecoverOp
    | RecoverStalledOp(order: seq<TaskId>)
    | ReconcileOp(order: seq<TaskId>)

  /** The scan orders an operation carries are scans of the rows its queries return. */
  ghost predicate Possible(cfg: Config, db: DB, now: int, op: Op) {
    match op
    case ClaimOp(_, _, _, only, _, order) =>
      only.None? ==> Scan(order, StalledRows(cfg, RecoverExpired(db, now), now))
    case RecoverStalledOp(order) => Scan(order, StalledRows(cfg, db, now))
    case ReconcileOp(order) => Scan(order, StalledRows(cfg, RecoverExpired(db, now), now))
    case _ => true
  }

  function DbOf<T>(db: DB, tx: Tx<T>): DB {
    if tx.Commit? then tx.db else db
  }

  /** The database after an operation; an operation that raises leaves it as it was. */
  ghost function After(cfg: Config, db: DB, now: int, op: Op): DB
    requires Possible(cfg, db, now, op)
  {
    match op
    case EnableCutoverOp(drained, exclusive) => DbOf(db, EnableCutover(db, drained, exclusive))
    case RegisterOp(id, role, profile, sha, gateway, state) =>
      DbOf(db, RegisterWorker(db, now, id, role, profile, sha, gateway, state))
    case HeartbeatOp(id, profile, gateway, state) => DbOf(db, HeartbeatWorker(db, now, id, profile, gateway, state))
    case ConfigureOp(repository, enabled, max) => DbOf(db, ConfigureRepository(db, repository, enabled, max))
    case AffinitiesOp(id, repositories) => DbOf(db, ReplaceAffinities(db, id, repositories))
    case EnqueueOp(tid, repository, priority, max, target, default, fenced) =>
      DbOf(db, EnqueueTask(cfg, db, now, tid, repository, priority, max, target, default, fenced))
    case ClaimOp(id, role, seconds, only, fenced, order) =>
      DbOf(db, ClaimTask(cfg, db, now, id, role, seconds, only, fenced, order))
    case RenewOp(cred, seconds) => DbOf(db, RenewLease(cfg, db, now, cred, seconds))
    case StartOp(cred) => DbOf(db, StartTask(db, now, cred))
    case SubmitOp(cred, sha) => DbOf(db, SubmitForValidation(db, now, cred, sha))
    case CompleteOp(cred) => DbOf(db, CompleteTask(db, now, cred))
    case FailOp(cred, reason) => DbOf(db, FailTask(db, now, cred, reason))
    case BlockOp(cred, reason) => DbOf(db, BlockTask(db, now, cred, reason))
    case RecordOp(cred, id, content) => DbOf(db, RecordCheckpoint(db, now, cred, id, content))
    case ReconcileEffectOp(tid, effect, at, outcome, ref) =>
      DbOf(db, ReconcileEffect(db, now, tid, effect, at, outcome, ref))
    case RequeueOp(tid) => DbOf(db, RequeueBlocked(db, now, tid))
    case RecoverOp => RecoverExpired(db, now)
    case RecoverStalledOp(order) => SweepRows(cfg, db, now, order)
    case ReconcileOp(order) => ReconcileRows(cfg, db, now, order)
  }

  // ---- quiet stages

  /** The moves an operation can make on a task; every sweep an operation begins with is among them. */
  ghost predicate MoveOf(cfg: Config, op: Op, now: int, tid: TaskId, move: Move) {
    match op
    case RenewOp(cred, seconds) => tid == cred.task && move == Renew(now + OrDefault(seconds, cfg.leaseSeconds))
    case StartOp(cred) => tid == cred.task && move == Start
    case SubmitOp(cred, sha) => tid == cred.task && move == Submit(sha)
    case CompleteOp(cred) => tid == cred.task && move == Complete
    case FailOp(cred, reason) => tid == cred.task && move == Fail(OrWorkerFailure(reason))
    case BlockOp(cred, reason) => tid == cred.task && reason.Some? && move == Block(reason.value)
    case RecordOp(cred, id, content) => tid == cred.task && move == Record(id, content)
    case ReconcileEffectOp(id, effect, at, outcome, ref) =>
      tid == id && at >= 1 && move == Resolve(effect, at, outcome, ref)
    case RequeueOp(id) => tid == id && move == Requeue
    case ClaimOp(_, _, _, _, _, _) => move.SweepExpired? || move.SweepStalled?
    case RecoverOp => move.SweepExpired?
    case RecoverStalledOp(_) => move.SweepStalled?
    case ReconcileOp(_) => move.SweepExpired? || move.SweepStalled?
    case _ => false
  }

  ghost predicate QuietMove(cfg: Config, op: Op, tid: TaskId, t: Task, t': Task, now: int, move: Move) {
    !move.Acquire? && MoveOf(cfg, op, now, tid, move) && Enabled(cfg, t, now, move) && t' == Apply(t, now, move)
  }

  ghost predicate QuietRow(cfg: Config, op: Op, tid: TaskId, t: Task, t': Task, now: int) {
    t' == t || exists move :: QuietMove(cfg, op, tid, t, t', now, move)
  }

  ghost predicate NewRow(t: Task, now: int) {
    t.state == Queued && t.lease == NO_LEASE && t.generation == t.attemptCount == 0 && t.meta.maxAttempts >= 1 &&
    t.producedSha.None? && t.builder.None? && t.blockedReason.None? && t.lastProgress == now &&
    t.attempts == [] && t.checkpoints == [] && t.reconciliations == map[] && t.quarantine == []
  }

  /** Lanes are added empty and keep their claim counters; only configuring one changes its capacity. */
  ghost predicate QuietLanes(op: Op, db: DB, db': DB) {
    (forall r :: r in db.lanes ==>
      r in db'.lanes && db'.lanes[r].builderClaims == db.lanes[r].builderClaims &&
      db'.lanes[r].validatorClaims == db.lanes[r].validatorClaims &&
      (db'.lanes[r].maxInFlight == db.lanes[r].maxInFlight ||
       (op.ConfigureOp? && op.repository == r && db'.lanes[r].maxInFlight == op.maxInFlight))) &&
    (forall r :: r in db'.lanes && r !in db.lanes ==>
      db'.lanes[r].builderClaims == 0 && db'.lanes[r].validatorClaims == 0 && db'.lanes[r].maxInFlight >= 1)
  }

  ghost predicate QuietTasks(cfg: Config, op: Op, db: DB, db': DB, now: int) {
    (forall tid :: tid in db.tasks ==> tid in db'.tasks && QuietRow(cfg, op, tid, db.tasks[tid], db'.tasks[tid], now)) &&
    (forall tid :: tid in db'.tasks && tid !in db.tasks ==>
      NewRow(db'.tasks[tid], now) && db'.tasks[tid].meta.repository in db'.lanes)
  }

  ghost predicate Quiet(cfg: Config, op: Op, db: DB, db': DB, now: int) {
    db'.uuids == db.uuids && QuietLanes(op, db, db') && QuietTasks(cfg, op, db, db', now)
  }

  // ---- grants

  datatype Claim = Claim(task: TaskId, worker: WorkerId, role: Role, ttl: int, only: Option<TaskId>, fenced: bool)

  ghost predicate Granted(cfg: Config, db: DB, db': DB, now: int, c: Claim) {
    c.ttl >= 1 && NotReady(cfg, db, now, c.worker, c.role).None? &&
    c.task in Candidates(db, c.worker, c.role, c.fenced, c.only) &&
    IsFirst(db, c.role, c.task, Candidates(db, c.worker, c.role, c.fenced, c.only)) &&
    db.tasks[c.task].lease.holder.None? &&
    db' == Grant(db, now, c.task, c.worker, c.role, c.ttl)
  }

  ghost predicate GrantedTo(cfg: Config, db: DB, db': DB, now: int, op: Op, c: Claim)
    requires op.ClaimOp?
  {
    Granted(cfg, db, db', now, c) &&
    c.worker == op.id && c.role == op.role && c.only == op.only && c.fenced == op.fenced
  }

  /** Where a step stands after its sweep of expired leases, and after its watchdog sweep. */
  ghost function Recovered(cfg: Config, db: DB, now: int, op: Op): DB
    requires Possible(cfg, db, now, op)
  {
    match op
    case ClaimOp(id, role, seconds, only, fenced, order) =>
      if only.None? && ClaimTask(cfg, db, now, id, role, seconds, only, fenced, order).Commit?
      then RecoverExpired(db, now) else db
    case ReconcileOp(_) => RecoverExpired(db, now)
    case RecoverOp => RecoverExpired(db, now)
    case _ => db
  }

  ghost function Swept(cfg: Config, db: DB, now: int, op: Op): DB
    requires Possible(cfg, db, now, op)
  {
    match op
    case ClaimOp(id, role, seconds, only, fenced, order) =>
      if ClaimTask(cfg, db, now, id, role, seconds, only, fenced, order).Commit?
      then ClaimBase(cfg, db, now, only, order) else db
    case ReconcileOp(order) => ReconcileRows(cfg, db, now, order)
    case RecoverStalledOp(order) => SweepRows(cfg, db, now, order)
    case _ => Recovered(cfg, db, now, op)
  }

  lemma QuietRefl(cfg: Config, op: Op, db: DB, now: int)
    ensures Quiet(cfg, op, db, db, now)
  {
  }

  lemma QuietUpdate(cfg: Config, op: Op, db: DB, now: int, tid: TaskId, move: Move)
    requires tid in db.tasks && !move.Acquire? && MoveOf(cfg, op, now, tid, move) && Enabled(cfg, db.tasks[tid], now, move)
    ensures Quiet(cfg, op, db, Update(db, tid, now, move), now)
  {
    hide MoveOf, Enabled, Apply, QuietRow;
    MoveIsQuiet(cfg, op, tid, db.tasks[tid], now, move);
    forall other | other in db.tasks ensures QuietRow(cfg, op, other, db.tasks[other], db.tasks[other], now) {
      SameRowIsQuiet(cfg, op, other, db.tasks[other], now);
    }
  }

  ghost predicate Recovers(op: Op) {
    op.ClaimOp? || op.RecoverOp? || op.ReconcileOp?
  }

  ghost predicate Watches(op: Op) {
    op.ClaimOp? || op.RecoverStalledOp? || op.ReconcileOp?
  }

  lemma MoveIsQuiet(cfg: Config, op: Op, tid: TaskId, t: Task, now: int, move: Move)
    requires !move.Acquire? && MoveOf(cfg, op, now, tid, move) && Enabled(cfg, t, now, move)
    ensures QuietRow(cfg, op, tid, t, Apply(t, now, move), now)
  {
    hide Apply;
    assert QuietMove(cfg, op, tid, t, Apply(t, now, move), now, move);
  }

  lemma RecoverIsQuiet(cfg: Config, op: Op, db: DB, now: int)
    requires Recovers(op)
    ensures Quiet(cfg, op, db, RecoverExpired(db, now), now)
  {
    hide Apply, QuietRow;
    forall tid | tid in db.tasks
      ensures QuietRow(cfg, op, tid, db.tasks[tid], RecoverExpired(db, now).tasks[tid], now)
    {
      if Expired(db.tasks[tid], now) {
        MoveIsQuiet(cfg, op, tid, db.tasks[tid], now, SweepExpired);
      } else {
        SameRowIsQuiet(cfg, op, tid, db.tasks[tid], now);
      }
    }
  }

  lemma SameRowIsQuiet(cfg: Config, op: Op, tid: TaskId, t: Task, now: int)
    ensures QuietRow(cfg, op, tid, t, t, now)
  {
  }

  /** The watchdog moves each scanned row once and no other. */
  lemma {:induction false} SweepRowsShape(cfg: Config, db: DB, now: int, order: seq<TaskId>)
    requires forall i :: 0 <= i < |order| ==> order[i] in db.tasks
    requires forall i, j :: 0 <= i < j < |order| ==> order[i] != order[j]
    ensures var db' := SweepRows(cfg, db, now, order);
      db' == db.(tasks := db'.tasks) && db'.tasks.Keys == db.tasks.Keys &&
      (forall tid :: tid in db.tasks && tid !in order ==> db'.tasks[tid] == db.tasks[tid]) &&
      (forall tid :: tid in order ==>
        db'.tasks[tid] == Apply(db.tasks[tid], now, SweepStalled(true)) ||
        db'.tasks[tid] == Apply(db.tasks[tid], now, SweepStalled(false)))
    decreases |order|
  {
    if order != [] {
      var db1 := Update(db, order[0], now, StallMove(cfg, db, now, order[0]));
      SweepRowsShape(cfg, db1, now, order[1..]);
      forall tid | tid in order && tid != order[0] ensures tid in order[1..] {
        var i :| 0 <= i < |order| && order[i] == tid;
        assert order[1..][i - 1] == tid;
      }
      assert order[0] !in order[1..];
    }
  }

  lemma ScanOfTasks(cfg: Config, db: DB, now: int, order: seq<TaskId>)
    requires Scan(order, StalledRows(cfg, db, now))
    ensures forall i :: 0 <= i < |order| ==> order[i] in db.tasks
    ensures forall i, j :: 0 <= i < j < |order| ==> order[i] != order[j]
    ensures forall tid :: tid in order ==> tid in db.tasks && Stalled(cfg, db.tasks[tid], now)
  {
    hide Stalled;
  }

  lemma SweptRowIsQuiet(cfg: Config, op: Op, db: DB, now: int, order: seq<TaskId>, tid: TaskId)
    requires Watches(op) && Scan(order, StalledRows(cfg, db, now)) && tid in db.tasks
    ensures tid in SweepRows(cfg, db, now, order).tasks
    ensures QuietRow(cfg, op, tid, db.tasks[tid], SweepRows(cfg, db, now, order).tasks[tid], now)
  {
    hide Apply, QuietRow, SweepRows, Stalled, Scan, StalledRows;
    ScanOfTasks(cfg, db, now, order);
    SweepRowsShape(cfg, db, now, order);
    if tid in order {
      MoveIsQuiet(cfg, op, tid, db.tasks[tid], now, SweepStalled(true));
      MoveIsQuiet(cfg, op, tid, db.tasks[tid], now, SweepStalled(false));
    } else {
      SameRowIsQuiet(cfg, op, tid, db.tasks[tid], now);
    }
  }

  lemma SweepIsQuiet(cfg: Config, op: Op, db: DB, now: int, order: seq<TaskId>)
    requires Watches(op) && Scan(order, StalledRows(cfg, db, now))
    ensures Quiet(cfg, op, db, SweepRows(cfg, db, now, order), now)
  {
    hide QuietRow, Stalled, Watches, SweepRows;
    SweepRowsKeys(cfg, db, now, order);
    forall tid | tid in db.tasks
      ensures QuietRow(cfg, op, tid, db.tasks[tid], SweepRows(cfg, db, now, order).tasks[tid], now)
    {
      SweptRowIsQuiet(cfg, op, db, now, order, tid);
    }
  }

  lemma SweepRowsKeys(cfg: Config, db: DB, now: int, order: seq<TaskId>)
    requires Scan(order, StalledRows(cfg, db, now))
    ensures var db' := SweepRows(cfg, db, now, order);
      db'.tasks.Keys == db.tasks.Keys && db'.lanes == db.lanes && db'.uuids == db.uuids
  {
    hide Apply, Stalled;
    SweepRowsShape(cfg, db, now, order);
  }

  /** Every step is at most two quiet stages followed by a quiet stage or a grant. */
  lemma StepStages(cfg: Config, db: DB, now: int, op: Op)
    requires Possible(cfg, db, now, op)
    ensures Quiet(cfg, op, db, Recovered(cfg, db, now, op), now)
    ensures Quiet(cfg, op, Recovered(cfg, db, now, op), Swept(cfg, db, now, op), now)
    ensures Quiet(cfg, op, Swept(cfg, db, now, op), After(cfg, db, now, op), now) ||
            (op.ClaimOp? && exists c :: GrantedTo(cfg, Swept(cfg, db, now, op), After(cfg, db, now, op), now, op, c))
  {
    QuietRefl(cfg, op, db, now);
    QuietRefl(cfg, op, After(cfg, db, now, op), now);
    match op
    case ClaimOp(_, _, _, _, _, _) =>
      ClaimStages(cfg, db, now, op);
      QuietRefl(cfg, op, Swept(cfg, db, now, op), now);
    case RecoverOp => RecoverIsQuiet(cfg, op, db, now);
    case RecoverStalledOp(order) => SweepIsQuiet(cfg, op, db, now, order);
    case ReconcileOp(order) =>
      RecoverIsQuiet(cfg, op, db, now);
      SweepIsQuiet(cfg, op, RecoverExpired(db, now), now, order);
    case _ => SimpleIsQuiet(cfg, db, now, op);
  }

  /** A committed claim leaves what it chose from, with at most one grant on top. */
  lemma ClaimOutcome(cfg: Config, db: DB, now: int, worker: WorkerId, role: Role, seconds: Option<int>,
                     only: Option<TaskId>, fenced: bool, order: seq<TaskId>)
    requires only.None? ==> Scan(order, StalledRows(cfg, RecoverExpired(db, now), now))
    ensures var tx := ClaimTask(cfg, db, now, worker, role, seconds, only, fenced, order);
      var base := ClaimBase(cfg, db, now, only, order);
      var ttl := OrDefault(seconds, cfg.leaseSeconds);
      tx.Rollback? || (tx.value.None? && tx.db == base) ||
      (tx.value.Some? &&
       Granted(cfg, base, tx.db, now, Claim(tx.value.value.task, worker, role, ttl, only, fenced)) &&
       tx.value.value == LeaseGrant(tx.value.value.task, base.uuids, worker, role, now + ttl,
                                    base.tasks[tx.value.value.task].generation + 1, base.uuids + 1))
  {
    if OrDefault(seconds, cfg.leaseSeconds) >= 1 {
      PickGrants(cfg, ClaimBase(cfg, db, now, only, order), now, worker, role, OrDefault(seconds, cfg.leaseSeconds), only, fenced);
    }
  }

  lemma ClaimStages(cfg: Config, db: DB, now: int, op: Op)
    requires op.ClaimOp? && Possible(cfg, db, now, op)
    ensures Quiet(cfg, op, db, Recovered(cfg, db, now, op), now)
    ensures Quiet(cfg, op, Recovered(cfg, db, now, op), Swept(cfg, db, now, op), now)
    ensures After(cfg, db, now, op) == Swept(cfg, db, now, op) ||
            (exists c :: GrantedTo(cfg, Swept(cfg, db, now, op), After(cfg, db, now, op), now, op, c))
  {
    QuietRefl(cfg, op, db, now);
    ClaimBaseIsQuiet(cfg, op, db, now, op.only, op.order);
    var tx := ClaimTask(cfg, db, now, op.id, op.role, op.seconds, op.only, op.fenced, op.order);
    if tx.Commit? {
      ClaimOutcome(cfg, db, now, op.id, op.role, op.seconds, op.only, op.fenced, op.order);
      if tx.value.Some? {
        var c := Claim(tx.value.value.task, op.id, op.role, OrDefault(op.seconds, cfg.leaseSeconds), op.only, op.fenced);
        assert GrantedTo(cfg, Swept(cfg, db, now, op), After(cfg, db, now, op), now, op, c);
      }
    }
  }

  lemma ClaimBaseIsQuiet(cfg: Config, op: Op, db: DB, now: int, only: Option<TaskId>, order: seq<TaskId>)
    requires op.ClaimOp?
    requires only.None? ==> Scan(order, StalledRows(cfg, RecoverExpired(db, now), now))
    ensures only.None? ==> Quiet(cfg, op, db, RecoverExpired(db, now), now)
    ensures only.None? ==> Quiet(cfg, op, RecoverExpired(db, now), ClaimBase(cfg, db, now, only, order), now)
    ensures only.Some? ==> ClaimBase(cfg, db, now, only, order) == db
  {
    if only.None? {
      RecoverIsQuiet(cfg, op, db, now);
      SweepIsQuiet(cfg, op, RecoverExpired(db, now), now, order);
    }
  }

  lemma PickGrants(cfg: Config, db: DB, now: int, worker: WorkerId, role: Role, ttl: int, only: Option<TaskId>, fenced: bool)
    requires ttl >= 1
    ensures var tx := Pick(cfg, db, now, worker, role, ttl, only, fenced);
      tx.Rollback? || (tx.value.None? && tx.db == db) ||
      (tx.value.Some? &&
       var g := tx.value.value;
       Granted(cfg, db, tx.db, now, Claim(g.task, worker, role, ttl, only, fenced)) &&
       g == LeaseGrant(g.task, db.uuids, worker, role, now + ttl, db.tasks[g.task].generation + 1, db.uuids + 1))
  {
  }

  lemma SimpleIsQuiet(cfg: Config, db: DB, now: int, op: Op)
    requires !op.ClaimOp? && !op.RecoverOp? && !op.RecoverStalledOp? && !op.ReconcileOp?
    ensures Quiet(cfg, op, db, After(cfg, db, now, op), now)
  {
    if Administrative(op) {
      AdministrationIsQuiet(cfg, db, now, op);
    } else if op.RecordOp? || op.ReconcileEffectOp? || op.RequeueOp? {
      LedgerOpIsQuiet(cfg, db, now, op);
    } else {
      LeaseOpIsQuiet(cfg, db, now, op);
    }
  }

  ghost predicate Administrative(op: Op) {
    op.EnableCutoverOp? || op.RegisterOp? || op.HeartbeatOp? || op.ConfigureOp? || op.AffinitiesOp? || op.EnqueueOp?
  }

  lemma SameTasksIsQuiet(cfg: Config, op: Op, db: DB, db': DB, now: int)
    requires db'.tasks == db.tasks && db'.uuids == db.uuids && QuietLanes(op, db, db')
    ensures Quiet(cfg, op, db, db', now)
  {
  }

  lemma EnsureLaneIsQuiet(op: Op, db: DB, repository: Repository)
    ensures QuietLanes(op, db, EnsureLane(db, repository)) && repository in EnsureLane(db, repository).lanes
    ensures EnsureLane(db, repository) == db.(lanes := EnsureLane(db, repository).lanes)
  {
  }

  lemma NewTaskIsQuiet(cfg: Config, op: Op, db: DB, db': DB, now: int, tid: TaskId)
    requires tid !in db.tasks && tid in db'.tasks && db'.tasks == db.tasks[tid := db'.tasks[tid]]
    requires NewRow(db'.tasks[tid], now) && db'.tasks[tid].meta.repository in db'.lanes
    requires QuietLanes(op, db, db') && db'.uuids == db.uuids
    ensures Quiet(cfg, op, db, db', now)
  {
    hide NewRow, QuietRow, QuietLanes;
    forall other | other in db.tasks ensures QuietRow(cfg, op, other, db.tasks[other], db.tasks[other], now) {
      SameRowIsQuiet(cfg, op, other, db.tasks[other], now);
    }
  }

  lemma EnqueueIsQuiet(cfg: Config, db: DB, now: int, op: Op)
    requires op.EnqueueOp?
    ensures Quiet(cfg, op, db, After(cfg, db, now, op), now)
  {
    hide Quiet, QuietLanes, EnsureLane;
    var EnqueueOp(tid, repository, priority, max, target, default, fenced) := op;
    var tx := EnqueueTask(cfg, db, now, tid, repository, priority, max, target, default, fenced);
    EnsureLaneIsQuiet(op, db, repository);
    SameTasksIsQuiet(cfg, op, db, EnsureLane(db, repository), now);
    QuietRefl(cfg, op, db, now);
    if tx.Commit? && tx.value {
      SameLanes(op, db, EnsureLane(db, repository), tx.db);
      NewTaskIsQuiet(cfg, op, db, tx.db, now, tid);
    }
  }

  lemma SameLanes(op: Op, db: DB, a: DB, b: DB)
    requires QuietLanes(op, db, a) && b.lanes == a.lanes
    ensures QuietLanes(op, db, b)
  {
  }

  lemma AdministrationIsQuiet(cfg: Config, db: DB, now: int, op: Op)
    requires Administrative(op)
    ensures Quiet(cfg, op, db, After(cfg, db, now, op), now)
  {
    hide EnqueueTask, QuietTasks;
    if op.EnqueueOp? {
      EnqueueIsQuiet(cfg, db, now, op);
    } else {
      SameTasksIsQuiet(cfg, op, db, After(cfg, db, now, op), now);
    }
  }

  /** What `_lease` has established once it returns the row. */
  lemma LeaseHeld(db: DB, now: int, cred: Credentials, allowed: Allowed)
    requires LeaseRefusal(db, now, cred, allowed).None?
    ensures cred.task in db.tasks
    ensures var t := db.tasks[cred.task];
      Permits(allowed, t.state) && Live(t, now) && t.lease.holder == Some(cred.worker) && t.lease.token == Some(cred.token) &&
      (t.meta.fenced ==> cred.generation == Some(t.generation) && cred.attempt.Some?) &&
      (cred.generation.Some? ==> cred.generation == Some(t.generation)) &&
      (cred.attempt.Some? ==> cred.attempt == t.lease.attempt)
  {
  }

  /** A lease mutation that passes its checks makes its one move. */
  lemma LeaseOpIsQuiet(cfg: Config, db: DB, now: int, op: Op)
    requires op.RenewOp? || op.StartOp? || op.SubmitOp? || op.CompleteOp? || op.FailOp? || op.BlockOp?
    ensures Quiet(cfg, op, db, After(cfg, db, now, op), now)
  {
    hide Quiet, After;
    if op.RenewOp? || op.StartOp? || op.SubmitOp? {
      WorkOpIsQuiet(cfg, db, now, op);
    } else {
      EndOpIsQuiet(cfg, db, now, op);
    }
  }

  lemma WorkOpIsQuiet(cfg: Config, db: DB, now: int, op: Op)
    requires op.RenewOp? || op.StartOp? || op.SubmitOp?
    ensures Quiet(cfg, op, db, After(cfg, db, now, op), now)
  {
    hide LeaseRefusal, Apply, Clear, Quiet;
    QuietRefl(cfg, op, db, now);
    match op
    case RenewOp(cred, seconds) =>
      if RenewLease(cfg, db, now, cred, seconds).Commit? {
        LeaseHeld(db, now, cred, AnyActive);
        QuietUpdate(cfg, op, db, now, cred.task, Renew(now + OrDefault(seconds, cfg.leaseSeconds)));
      }
    case StartOp(cred) =>
      if StartTask(db, now, cred).Commit? {
        LeaseHeld(db, now, cred, Only(Leased));
        QuietUpdate(cfg, op, db, now, cred.task, Start);
      }
    case SubmitOp(cred, sha) =>
      if SubmitForValidation(db, now, cred, sha).Commit? {
        LeaseHeld(db, now, cred, Only(Running));
        QuietUpdate(cfg, op, db, now, cred.task, Submit(sha));
      }
  }

  lemma EndOpIsQuiet(cfg: Config, db: DB, now: int, op: Op)
    requires op.CompleteOp? || op.FailOp? || op.BlockOp?
    ensures Quiet(cfg, op, db, After(cfg, db, now, op), now)
  {
    hide LeaseRefusal, Apply, Clear, Quiet;
    QuietRefl(cfg, op, db, now);
    match op
    case CompleteOp(cred) =>
      if CompleteTask(db, now, cred).Commit? {
        LeaseHeld(db, now, cred, Only(Validating));
        QuietUpdate(cfg, op, db, now, cred.task, Complete);
      }
    case FailOp(cred, reason) =>
      if FailTask(db, now, cred, reason).Commit? {
        LeaseHeld(db, now, cred, AnyActive);
        QuietUpdate(cfg, op, db, now, cred.task, Fail(OrWorkerFailure(reason)));
      }
    case BlockOp(cred, reason) =>
      if BlockTask(db, now, cred, reason).Commit? {
        LeaseHeld(db, now, cred, AnyActive);
        QuietUpdate(cfg, op, db, now, cred.task, Block(reason.value));
      }
  }

  lemma LedgerOpIsQuiet(cfg: Config, db: DB, now: int, op: Op)
    requires op.RecordOp? || op.ReconcileEffectOp? || op.RequeueOp?
    ensures Quiet(cfg, op, db, After(cfg, db, now, op), now)
  {
    hide LeaseRefusal, Apply, Clear, Quiet, HasCheckpoint, HasUnknown, MaxSequence, AwaitsReconciliation, EffectPending;
    QuietRefl(cfg, op, db, now);
    match op
    case RecordOp(cred, id, content) =>
      var tx := RecordCheckpoint(db, now, cred, id, content);
      if tx.Commit? && tx.value {
        LeaseHeld(db, now, cred, AnyActive);
        QuietUpdate(cfg, op, db, now, cred.task, Record(id, content));
      }
    case ReconcileEffectOp(tid, effect, at, outcome, ref) =>
      var tx := ReconcileEffect(db, now, tid, effect, at, outcome, ref);
      if tx.Commit? && tx.value {
        QuietUpdate(cfg, op, db, now, tid, Resolve(effect, at, outcome, ref));
      }
    case RequeueOp(tid) =>
      if RequeueBlocked(db, now, tid).Commit? {
        QuietUpdate(cfg, op, db, now, tid, Requeue);
      }
  }
}
