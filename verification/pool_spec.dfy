/** Every method of WorkerPoolStore as one transaction on the whole database: either a new
    database and a reply, or the error that rolls it back. */
module PoolSpec {
  import opened Wrappers
  import opened PoolTypes
  import opened PoolRows
  import opened Lexicographic

  function Update(db: DB, tid: TaskId, now: int, move: Move): DB
    requires tid in db.tasks
  {
    db.(tasks := db.tasks[tid := Apply(db.tasks[tid], now, move)])
  }

  // ---- workers, lanes, admission

  function OrDefault(value: Option<int>, default: int): int {
    if value.None? || value.value == 0 then default else value.value
  }

  const FRESH_LANE := Lane(true, 1, 0, 0, None, None)

  function EnsureLane(db: DB, repository: Repository): DB {
    if repository in db.lanes then db else db.(lanes := db.lanes[repository := FRESH_LANE])
  }

  function EnableCutover(db: DB, drained: bool, exclusive: bool): Tx<()> {
    if !drained || !exclusive then Rollback(InvalidValue) else Commit(db.(cutover := true), ())
  }

  function RegisterWorker(db: DB, now: int, id: WorkerId, role: Role, profile: Profile, rulesSha: Option<Sha>,
                          gatewayOk: bool, stateValidated: bool): Tx<()>
  {
    Commit(db.(workers := db.workers[id := Worker(role, profile, rulesSha, gatewayOk, stateValidated, now)]), ())
  }

  function HeartbeatWorker(db: DB, now: int, id: WorkerId, profile: Option<Profile>,
                           gatewayOk: Option<bool>, stateValidated: Option<bool>): Tx<()>
  {
    if id !in db.workers then Rollback(NotFound)
    else
      var w := db.workers[id];
      var w' := w.(profile := if profile.Some? then profile.value else w.profile,
                   gatewayOk := if gatewayOk.Some? then gatewayOk.value else w.gatewayOk,
                   stateValidated := if stateValidated.Some? then stateValidated.value else w.stateValidated,
                   lastHeartbeat := now);
      Commit(db.(workers := db.workers[id := w']), ())
  }

  function ConfigureRepository(db: DB, repository: Repository, enabled: bool, maxInFlight: int): Tx<()> {
    if maxInFlight < 1 || maxInFlight > 100 then Rollback(InvalidValue)
    else
      var lane := EnsureLane(db, repository).lanes[repository];
      Commit(db.(lanes := db.lanes[repository := lane.(enabled := enabled, maxInFlight := maxInFlight)]), ())
  }

  function ReplaceAffinities(db: DB, id: WorkerId, repositories: set<Repository>): Tx<()> {
    if id !in db.workers then Rollback(NotFound)
    else
      Commit(db.(lanes := AddLanes(db.lanes, repositories),
                 affinities := OthersAffinities(db.affinities, id) + Affinities(id, repositories)), ())
  }

  function AddLanes(lanes: map<Repository, Lane>, repositories: set<Repository>): map<Repository, Lane> {
    map r | r in lanes.Keys + repositories :: if r in lanes then lanes[r] else FRESH_LANE
  }

  function OthersAffinities(affinities: set<(WorkerId, Repository)>, id: WorkerId): set<(WorkerId, Repository)> {
    set p | p in affinities && p.0 != id
  }

  function Affinities(id: WorkerId, repositories: set<Repository>): set<(WorkerId, Repository)> {
    set r | r in repositories :: (id, r)
  }

  /** The task id is derived from the identity of the request, so a replay finds the same row. */
  function EnqueueTask(cfg: Config, db: DB, now: int, tid: TaskId, repository: Repository, priority: int,
                       maxAttempts: Option<int>, targetBranch: Option<Text>, defaultBranch: Text, fenced: bool): Tx<bool>
  {
    var attempts := OrDefault(maxAttempts, cfg.maxAttempts);
    if attempts < 1 then Rollback(InvalidValue)
    else if fenced && !db.cutover then Rollback(CutoverNotEnabled)
    else
      var db1 := EnsureLane(db, repository);
      if tid in db.tasks then
        if targetBranch.Some? && db.tasks[tid].meta.branch != targetBranch.value then Rollback(ReplayDiverges)
        else if db.tasks[tid].meta.fenced != fenced then Rollback(ReplayDiverges)
        else Commit(db1, false)
      else
        var branch := if targetBranch.Some? then targetBranch.value else defaultBranch;
        Commit(db1.(tasks := db1.tasks[tid := FreshTask(db, now, repository, priority, attempts, branch, fenced)],
                    rowids := db.rowids + 1), true)
  }

  function FreshTask(db: DB, now: int, repository: Repository, priority: int, maxAttempts: nat,
                     branch: Text, fenced: bool): Task
  {
    Task(Meta(repository, branch, priority, fenced, maxAttempts, now, db.rowids), Queued, NO_LEASE, 0, 0,
         None, None, None, None, None, now, now, None, [], [], map[], [])
  }

  // ---- readiness of a worker

  predicate Busy(db: DB, worker: WorkerId) {
    exists tid :: tid in db.tasks && db.tasks[tid].lease.holder == Some(worker) && Active(db.tasks[tid])
  }

  predicate Affine(db: DB, worker: WorkerId, repository: Repository) {
    (forall p :: p in db.affinities ==> p.0 != worker) || (worker, repository) in db.affinities
  }

  /** `_ready`: the first check that fails, or None. */
  function NotReady(cfg: Config, db: DB, now: int, worker: WorkerId, role: Role): Option<PoolError> {
    if worker !in db.workers then Some(NotFound)
    else
      var w := db.workers[worker];
      if w.role != role then Some(RoleMismatch)
      else if w.profile != Normal then Some(ProfileNotNormal)
      else if !w.gatewayOk || !w.stateValidated then Some(NotGoverned)
      else if cfg.rulesSha.Some? && w.rulesSha != cfg.rulesSha then Some(RulesMismatch)
      else if now - w.lastHeartbeat > cfg.heartbeatTtl then Some(WorkerStale)
      else if Busy(db, worker) then Some(WorkerBusy)
      else None
  }

  // ---- sweeps

  /** `_worker_is_alternative`, with the busy check read from the database as it is now. */
  predicate IsAlternative(cfg: Config, db: DB, now: int, row: Task, worker: WorkerId) {
    worker in db.workers &&
    var w := db.workers[worker];
    row.lease.holder != Some(worker) &&
    w.role == (if row.producedSha.Some? then Validator else Builder) && w.profile == Normal &&
    w.gatewayOk && w.stateValidated &&
    (cfg.rulesSha.Some? ==> w.rulesSha == cfg.rulesSha) &&
    now - w.lastHeartbeat <= cfg.heartbeatTtl &&
    !Busy(db, worker) && Affine(db, worker, row.meta.repository)
  }

  predicate HasAlternative(cfg: Config, db: DB, now: int, row: Task) {
    exists worker :: worker in db.workers && IsAlternative(cfg, db, now, row, worker)
  }

  function ExpiredRows(db: DB, now: int): set<TaskId> {
    set tid | tid in db.tasks && Expired(db.tasks[tid], now)
  }

  function StalledRows(cfg: Config, db: DB, now: int): set<TaskId> {
    set tid | tid in db.tasks && Stalled(cfg, db.tasks[tid], now)
  }

  /** `_recover`: every expired lease is swept; the rows do not influence one another. */
  function RecoverExpired(db: DB, now: int): DB {
    db.(tasks := map tid | tid in db.tasks ::
          if Expired(db.tasks[tid], now) then Apply(db.tasks[tid], now, SweepExpired) else db.tasks[tid])
  }

  /** A scan of exactly the rows of `rows`, each once: the order in which SQL returns them is not fixed. */
  ghost predicate Scan(order: seq<TaskId>, rows: set<TaskId>) {
    (forall i :: 0 <= i < |order| ==> order[i] in rows) &&
    (forall tid :: tid in rows ==> tid in order) &&
    (forall i, j :: 0 <= i < j < |order| ==> order[i] != order[j])
  }

  function StallMove(cfg: Config, db: DB, now: int, tid: TaskId): Move
    requires tid in db.tasks
  {
    SweepStalled(HasAlternative(cfg, db, now, db.tasks[tid]))
  }

  /** `_recover_stalled`: the rows one after the other.  A swept row frees its worker, who may be
      the alternative of a row swept later. */
  function SweepRows(cfg: Config, db: DB, now: int, order: seq<TaskId>): DB
    requires forall tid :: tid in order ==> tid in db.tasks
    decreases |order|
  {
    if order == [] then db
    else SweepRows(cfg, Update(db, order[0], now, StallMove(cfg, db, now, order[0])), now, order[1..])
  }

  function Count(tally: Tally, row: Task, alternative: bool): Tally {
    if !Clear(row) then tally.(blocked := tally.blocked + 1)
    else if row.attemptCount >= row.meta.maxAttempts then tally.(failed := tally.failed + 1)
    else if alternative then tally.(rerouted := tally.rerouted + 1)
    else tally.(blocked := tally.blocked + 1)
  }

  function TallyRows(cfg: Config, db: DB, now: int, order: seq<TaskId>, tally: Tally): Tally
    requires forall tid :: tid in order ==> tid in db.tasks
    decreases |order|
  {
    if order == [] then tally
    else
      var move := StallMove(cfg, db, now, order[0]);
      TallyRows(cfg, Update(db, order[0], now, move), now, order[1..],
                Count(tally, db.tasks[order[0]], move.alternative))
  }

  function ReconcileRows(cfg: Config, db: DB, now: int, order: seq<TaskId>): DB
    requires forall tid :: tid in order ==> tid in db.tasks
  {
    SweepRows(cfg, RecoverExpired(db, now), now, order)
  }

  // ---- claims

  function ActiveIn(db: DB, repository: Repository): set<TaskId> {
    set tid | tid in db.tasks && db.tasks[tid].meta.repository == repository && Active(db.tasks[tid])
  }

  /** The WHERE clause of the two claim queries.  Only the Builder's one looks at the lane. */
  predicate Candidate(db: DB, tid: TaskId, worker: WorkerId, role: Role, fenced: bool, only: Option<TaskId>) {
    tid in db.tasks &&
    var t := db.tasks[tid];
    t.meta.repository in db.lanes && t.meta.fenced == fenced && Affine(db, worker, t.meta.repository) &&
    (only.None? || only.value == tid) &&
    match role
    case Builder =>
      t.state == Queued && db.lanes[t.meta.repository].enabled &&
      |ActiveIn(db, t.meta.repository)| < db.lanes[t.meta.repository].maxInFlight
    case Validator =>
      t.state == Validating && t.lease.holder.None? && t.producedSha.Some? && t.builder != Some(worker)
  }

  function Candidates(db: DB, worker: WorkerId, role: Role, fenced: bool, only: Option<TaskId>): set<TaskId> {
    set tid | tid in db.tasks && Candidate(db, tid, worker, role, fenced, only)
  }

  function ClaimsOf(lane: Lane, role: Role): nat {
    if role == Builder then lane.builderClaims else lane.validatorClaims
  }

  function LastClaimOf(lane: Lane, role: Role): Option<int> {
    if role == Builder then lane.lastBuilderClaim else lane.lastValidatorClaim
  }

  /** The ORDER BY columns of the claim queries; the task id makes the order strict. */
  function SortKey(db: DB, role: Role, tid: TaskId): seq<int>
    requires tid in db.tasks && db.tasks[tid].meta.repository in db.lanes
  {
    var t := db.tasks[tid];
    var lane := db.lanes[t.meta.repository];
    var last := LastClaimOf(lane, role);
    [ClaimsOf(lane, role), if last.None? then 0 else 1, if last.None? then 0 else last.value, t.meta.repository,
     t.meta.priority, if role == Builder then t.meta.createdAt else t.updatedAt, t.meta.rowid, tid]
  }

  predicate IsFirst(db: DB, role: Role, tid: TaskId, rows: set<TaskId>)
    requires forall u :: u in rows ==> u in db.tasks && db.tasks[u].meta.repository in db.lanes
  {
    tid in rows && forall u :: u in rows ==> LexLeq(SortKey(db, role, tid), SortKey(db, role, u))
  }

  lemma {:induction false} FirstExists(db: DB, role: Role, rows: set<TaskId>)
    requires rows != {}
    requires forall u :: u in rows ==> u in db.tasks && db.tasks[u].meta.repository in db.lanes
    ensures exists tid :: IsFirst(db, role, tid, rows)
    decreases rows
  {
    var x :| x in rows;
    LexTotal(SortKey(db, role, x), SortKey(db, role, x));
    if rows - {x} == {} {
      assert rows == {x};
      assert IsFirst(db, role, x, rows);
    } else {
      FirstExists(db, role, rows - {x});
      var y :| IsFirst(db, role, y, rows - {x});
      LexTotal(SortKey(db, role, x), SortKey(db, role, y));
      if LexLeq(SortKey(db, role, x), SortKey(db, role, y)) {
        forall u | u in rows ensures LexLeq(SortKey(db, role, x), SortKey(db, role, u)) {
          if u != x { LexTransitive(SortKey(db, role, x), SortKey(db, role, y), SortKey(db, role, u)); }
        }
        assert IsFirst(db, role, x, rows);
      } else {
        assert IsFirst(db, role, y, rows);
      }
    }
  }

  lemma FirstUnique(db: DB, role: Role, a: TaskId, b: TaskId, rows: set<TaskId>)
    requires forall u :: u in rows ==> u in db.tasks && db.tasks[u].meta.repository in db.lanes
    requires IsFirst(db, role, a, rows) && IsFirst(db, role, b, rows)
    ensures a == b
  {
    var ka, kb := SortKey(db, role, a), SortKey(db, role, b);
    LexAntisymmetric(ka, kb);
    assert ka[7] == kb[7];
  }

  /** ORDER BY ... LIMIT 1. */
  ghost function First(db: DB, role: Role, rows: set<TaskId>): (tid: TaskId)
    requires rows != {}
    requires forall u :: u in rows ==> u in db.tasks && db.tasks[u].meta.repository in db.lanes
    ensures IsFirst(db, role, tid, rows)
  {
    FirstExists(db, role, rows);
    var tid :| IsFirst(db, role, tid, rows);
    tid
  }

  function ServeLane(lane: Lane, role: Role, now: int): Lane {
    if role == Builder then lane.(builderClaims := lane.builderClaims + 1, lastBuilderClaim := Some(now))
    else lane.(validatorClaims := lane.validatorClaims + 1, lastValidatorClaim := Some(now))
  }

  /** The claim of one chosen row: task, lane and attempt are written together. */
  function Grant(db: DB, now: int, tid: TaskId, worker: WorkerId, role: Role, ttl: int): DB
    requires tid in db.tasks && db.tasks[tid].meta.repository in db.lanes
  {
    var repository := db.tasks[tid].meta.repository;
    Update(db, tid, now, Acquire(worker, role, db.uuids, db.uuids + 1, now + ttl))
      .(lanes := db.lanes[repository := ServeLane(db.lanes[repository], role, now)], uuids := db.uuids + 2)
  }

  /** Choosing and granting, after the sweeps of a general claim. */
  ghost function Pick(cfg: Config, db: DB, now: int, worker: WorkerId, role: Role, ttl: int, only: Option<TaskId>,
                      fenced: bool): Tx<Option<LeaseGrant>>
  {
    var refusal := NotReady(cfg, db, now, worker, role);
    if refusal.Some? then Rollback(refusal.value)
    else
      var rows := Candidates(db, worker, role, fenced, only);
      if rows == {} then Commit(db, None)
      else
        var tid := First(db, role, rows);
        if db.tasks[tid].lease.holder.Some? then Rollback(TakenConcurrently)
        else
          Commit(Grant(db, now, tid, worker, role, ttl),
                 Some(LeaseGrant(tid, db.uuids, worker, role, now + ttl, db.tasks[tid].generation + 1, db.uuids + 1)))
  }

  /** What a claim chooses from: a general claim first recovers and reroutes, an exact one touches nothing else. */
  function ClaimBase(cfg: Config, db: DB, now: int, only: Option<TaskId>, order: seq<TaskId>): DB
    requires only.None? ==> forall tid :: tid in order ==> tid in db.tasks
  {
    if only.None? then ReconcileRows(cfg, db, now, order) else db
  }

  /** `claim_task`.  The sweeps of a general claim stay when nothing can be claimed, and roll back
      when the worker is refused. */
  ghost function ClaimTask(cfg: Config, db: DB, now: int, worker: WorkerId, role: Role, seconds: Option<int>,
                           only: Option<TaskId>, fenced: bool, order: seq<TaskId>): Tx<Option<LeaseGrant>>
    requires only.None? ==> Scan(order, StalledRows(cfg, RecoverExpired(db, now), now))
  {
    var ttl := OrDefault(seconds, cfg.leaseSeconds);
    if ttl < 1 then Rollback(InvalidValue)
    else Pick(cfg, ClaimBase(cfg, db, now, only, order), now, worker, role, ttl, only, fenced)
  }

  // ---- mutations under a lease

  /** The states a mutation accepts: one of them, or every active one. */
  datatype Allowed = Only(state: TaskState) | AnyActive

  predicate Permits(allowed: Allowed, state: TaskState) {
    match allowed
    case Only(s) => state == s
    case AnyActive => state == Leased || state == Running || state == Validating
  }

  /** `_lease`: the first check that fails, or None. */
  function LeaseRefusal(db: DB, now: int, cred: Credentials, allowed: Allowed): Option<PoolError> {
    if cred.task !in db.tasks then Some(NotFound)
    else
      var row := db.tasks[cred.task];
      if !Permits(allowed, row.state) then Some(StateNotAllowed)
      else if row.lease.holder != Some(cred.worker) || row.lease.token != Some(cred.token) then Some(LeaseInvalid)
      else if row.meta.fenced && (cred.generation.None? || cred.attempt.None?) then Some(FenceRequired)
      else if cred.generation.Some? && row.generation != cred.generation.value then Some(GenerationInvalid)
      else if cred.attempt.Some? && row.lease.attempt != cred.attempt then Some(AttemptInvalid)
      else if row.lease.expires.None? || row.lease.expires.value <= now then Some(LeaseExpired)
      else None
  }

  function RenewLease(cfg: Config, db: DB, now: int, cred: Credentials, seconds: Option<int>): Tx<()> {
    var refusal := LeaseRefusal(db, now, cred, AnyActive);
    if refusal.Some? then Rollback(refusal.value)
    else Commit(Update(db, cred.task, now, Renew(now + OrDefault(seconds, cfg.leaseSeconds))), ())
  }

  function StartTask(db: DB, now: int, cred: Credentials): Tx<()> {
    var refusal := LeaseRefusal(db, now, cred, Only(Leased));
    if refusal.Some? then Rollback(refusal.value)
    else if cred.worker !in db.workers then Rollback(NotFound)
    else if db.workers[cred.worker].role != Builder then Rollback(BuilderRequired)
    else Commit(Update(db, cred.task, now, Start), ())
  }

  function SubmitForValidation(db: DB, now: int, cred: Credentials, sha: Sha): Tx<()> {
    var refusal := LeaseRefusal(db, now, cred, Only(Running));
    if refusal.Some? then Rollback(refusal.value)
    else if db.tasks[cred.task].builder != Some(cred.worker) then Rollback(BuilderMismatch)
    else if !Clear(db.tasks[cred.task]) then Rollback(EffectUnresolved)
    else Commit(Update(db, cred.task, now, Submit(sha)), ())
  }

  function CompleteTask(db: DB, now: int, cred: Credentials): Tx<()> {
    var refusal := LeaseRefusal(db, now, cred, Only(Validating));
    if refusal.Some? then Rollback(refusal.value)
    else if cred.worker !in db.workers then Rollback(NotFound)
    else
      var row := db.tasks[cred.task];
      if db.workers[cred.worker].role != Validator || row.builder == Some(cred.worker) then
        Rollback(IndependentValidatorRequired)
      else if row.producedSha.None? then Rollback(ProducedShaMissing)
      else if !Clear(row) then Rollback(EffectUnresolved)
      else Commit(Update(db, cred.task, now, Complete), ())
  }

  function FailTask(db: DB, now: int, cred: Credentials, reason: Option<Reason>): Tx<()> {
    var refusal := LeaseRefusal(db, now, cred, AnyActive);
    if refusal.Some? then Rollback(refusal.value)
    else if !Clear(db.tasks[cred.task]) then Rollback(EffectUnresolved)
    else Commit(Update(db, cred.task, now, Fail(OrWorkerFailure(reason))), ())
  }

  function BlockTask(db: DB, now: int, cred: Credentials, reason: Option<Reason>): Tx<()> {
    if reason.None? then Rollback(InvalidValue)
    else
      var refusal := LeaseRefusal(db, now, cred, AnyActive);
      if refusal.Some? then Rollback(refusal.value)
      else Commit(Update(db, cred.task, now, Block(reason.value)), ())
  }

  /** `record_checkpoint`; the reply says whether a row was created (an identical replay creates none). */
  function RecordCheckpoint(db: DB, now: int, cred: Credentials, id: CheckpointId, content: Content): Tx<bool> {
    if !ContentValid(content) || cred.generation.None? || cred.attempt.None? then Rollback(InvalidValue)
    else
      var refusal := LeaseRefusal(db, now, cred, AnyActive);
      if refusal.Some? then Rollback(refusal.value)
      else
        var row := db.tasks[cred.task];
        if !row.meta.fenced then Rollback(FencedTaskRequired)
        else if HasCheckpoint(row, id) then
          if exists i :: 0 <= i < |row.checkpoints| && row.checkpoints[i].id == id && row.checkpoints[i].content != content
          then Rollback(ReplayDiverges)
          else Commit(db, false)
        else if content.effect.Some? && HasUnknown(row, content.effect.value) then
          Rollback(UnknownEffectNeedsReconciliation)
        else if content.sequence != MaxSequence(row.checkpoints, row.generation) + 1 then Rollback(SequenceInvalid)
        else Commit(Update(db, cred.task, now, Record(id, content)), true)
  }

  // ---- the reconciliation authority and the operator

  function ReconcileEffect(db: DB, now: int, tid: TaskId, effect: EffectId, at: int,
                           outcome: EffectState, readbackRef: Text): Tx<bool>
  {
    if at < 1 || !SettledState(outcome) then Rollback(InvalidValue)
    else if tid !in db.tasks then Rollback(NotFound)
    else
      var t := db.tasks[tid];
      if (effect, at) in t.reconciliations then
        var r := t.reconciliations[(effect, at)];
        if r.outcome != outcome || r.readbackRef != readbackRef then Rollback(ReplayDiverges) else Commit(db, false)
      else if !t.meta.fenced then Rollback(FencedTaskRequired)
      else if t.state != Blocked || t.blockedReason != Some(EffectReconciliationRequired) then
        Rollback(NotAwaitingReconciliation)
      else if !EffectPending(t, effect) then Rollback(EffectNotPending)
      else if !AwaitsReconciliation(t, effect, at) then Rollback(ReconciliationGenerationMismatch)
      else Commit(Update(db, tid, now, Resolve(effect, at, outcome, readbackRef)), true)
  }

  function RequeueBlocked(db: DB, now: int, tid: TaskId): Tx<()> {
    if tid !in db.tasks then Rollback(NotFound)
    else if db.tasks[tid].state != Blocked then Rollback(StateNotAllowed)
    else if !Clear(db.tasks[tid]) then Rollback(EffectUnresolved)
    else Commit(Update(db, tid, now, Requeue), ())
  }
}
