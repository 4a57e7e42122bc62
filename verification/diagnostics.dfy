/** app/task_diagnostics.py: a second, read-only account of who could claim a task, compared with
    what an exact claim does. */
module Diagnostics {
  import opened Wrappers
  import opened PoolTypes
  import opened PoolRows
  import opened PoolSpec
  import opened PoolSteps
  import opened Ledger
  import opened PoolInvariant
  import opened Scenarios

  datatype Why =
    | OfflineOrStale | ProfileNotNormalWhy | GovernanceNotReady | RulesShaMismatch | WorkerBusyWhy | AffinityMismatch
    | LaneDisabledOrMissing | LaneCapacityReached | ValidatorSameAsBuilder | RoleNotRequired

  datatype View = View(worker: WorkerId, reasons: seq<Why>) {
    predicate Eligible() { reasons == [] }
  }

  /** The role the task waits for, if any. */
  function RequiredRole(t: Task): Option<Role> {
    if t.state == Queued && t.lease.holder.None? then Some(Builder)
    else if t.state == Validating && t.lease.holder.None? then Some(Validator)
    else None
  }

  function Add(reasons: seq<Why>, condition: bool, why: Why): seq<Why> {
    if condition then reasons + [why] else reasons
  }

  /** Whatever counts against the worker itself. */
  function WorkerReasons(cfg: Config, db: DB, now: int, id: WorkerId): seq<Why>
    requires id in db.workers
  {
    var w := db.workers[id];
    var r1 := Add([], now - w.lastHeartbeat > cfg.heartbeatTtl, OfflineOrStale);
    var r2 := Add(r1, w.profile != Normal, ProfileNotNormalWhy);
    var r3 := Add(r2, !w.gatewayOk || !w.stateValidated, GovernanceNotReady);
    var r4 := Add(r3, cfg.rulesSha.Some? && w.rulesSha != cfg.rulesSha, RulesShaMismatch);
    Add(r4, Busy(db, id), WorkerBusyWhy)
  }

  /** Whatever counts against the worker, in the order the view lists it. */
  function Reasons(cfg: Config, db: DB, now: int, t: Task, id: WorkerId): seq<Why>
    requires id in db.workers
  {
    var w, repository := db.workers[id], t.meta.repository;
    var r6 := Add(WorkerReasons(cfg, db, now, id), !Affine(db, id, repository), AffinityMismatch);
    var r7 := Add(r6, repository !in db.lanes || !db.lanes[repository].enabled, LaneDisabledOrMissing);
    var r8 := Add(r7, w.role == Builder && repository in db.lanes &&
                  |ActiveIn(db, repository)| >= db.lanes[repository].maxInFlight, LaneCapacityReached);
    var r9 := Add(r8, w.role == Validator && t.builder == Some(id), ValidatorSameAsBuilder);
    Add(r9, RequiredRole(t) != Some(w.role), RoleNotRequired)
  }

  /** The rows of the affinity table, gathered per worker. */
  ghost predicate Gathers(m: map<WorkerId, set<Repository>>, rows: set<(WorkerId, Repository)>) {
    (forall p :: p in rows ==> p.0 in m && p.1 in m[p.0]) &&
    (forall id :: id in m ==> m[id] != {} && forall r :: r in m[id] ==> (id, r) in rows)
  }

  lemma AllowedIsAffine(m: map<WorkerId, set<Repository>>, db: DB, id: WorkerId, r: Repository)
    requires Gathers(m, db.affinities)
    ensures (var allowed := if id in m then m[id] else {}; allowed != {} && r !in allowed) <==> !Affine(db, id, r)
  {
    if id in m {
      var q :| q in m[id];
      assert (id, q) in db.affinities && (id, q).0 == id;
    }
  }

  /** `read_task_diagnostics`: fills the affinity map, the set of busy workers and one view per worker. */
  method ReadTaskDiagnostics(cfg: Config, db: DB, now: int, tid: TaskId, workers: seq<WorkerId>)
    returns (r: Result<seq<View>, PoolError>)
    requires forall i :: 0 <= i < |workers| ==> workers[i] in db.workers
    ensures r.Err? <==> tid !in db.tasks
    ensures r.Ok? ==> |r.value| == |workers|
    ensures r.Ok? ==> forall i :: 0 <= i < |workers| ==>
      r.value[i] == View(workers[i], Reasons(cfg, db, now, db.tasks[tid], workers[i]))
  {
    if tid !in db.tasks { return Err(NotFound); }
    var t := db.tasks[tid];
    var affinityMap: map<WorkerId, set<Repository>> := map[];
    var rows := db.affinities;
    while rows != {}
      invariant rows <= db.affinities && Gathers(affinityMap, db.affinities - rows)
      decreases rows
    {
      var p :| p in rows;
      var known := if p.0 in affinityMap then affinityMap[p.0] else {};
      affinityMap := affinityMap[p.0 := known + {p.1}];
      rows := rows - {p};
    }
    assert Gathers(affinityMap, db.affinities);
    var busy := set u | u in db.tasks && db.tasks[u].lease.holder.Some? && Active(db.tasks[u]) :: db.tasks[u].lease.holder.value;
    var views: seq<View> := [];
    for i := 0 to |workers|
      invariant |views| == i
      invariant forall k :: 0 <= k < i ==> views[k] == View(workers[k], Reasons(cfg, db, now, t, workers[k]))
    {
      var id := workers[i];
      AllowedIsAffine(affinityMap, db, id, t.meta.repository);
      var allowed := if id in affinityMap then affinityMap[id] else {};
      var reasons := CheckWorker(cfg, db, now, id, id in busy);
      reasons := CheckTask(cfg, db, now, t, id, reasons, allowed != {} && t.meta.repository !in allowed);
      views := views + [View(id, reasons)];
    }
    r := Ok(views);
  }

  /** The checks in the body of the loop that look at the worker alone. */
  method CheckWorker(cfg: Config, db: DB, now: int, id: WorkerId, busy: bool) returns (reasons: seq<Why>)
    requires id in db.workers && busy == Busy(db, id)
    ensures reasons == WorkerReasons(cfg, db, now, id)
  {
    hide Busy;
    var w := db.workers[id];
    reasons := [];
    if now - w.lastHeartbeat > cfg.heartbeatTtl { reasons := reasons + [OfflineOrStale]; }
    if w.profile != Normal { reasons := reasons + [ProfileNotNormalWhy]; }
    if !w.gatewayOk || !w.stateValidated { reasons := reasons + [GovernanceNotReady]; }
    if cfg.rulesSha.Some? && w.rulesSha != cfg.rulesSha { reasons := reasons + [RulesShaMismatch]; }
    if busy { reasons := reasons + [WorkerBusyWhy]; }
  }

  /** The checks that look at its lane and at the task. */
  method CheckTask(cfg: Config, db: DB, now: int, t: Task, id: WorkerId, soFar: seq<Why>, mismatch: bool)
    returns (reasons: seq<Why>)
    requires id in db.workers && soFar == WorkerReasons(cfg, db, now, id) && mismatch == !Affine(db, id, t.meta.repository)
    ensures reasons == Reasons(cfg, db, now, t, id)
  {
    hide WorkerReasons, Affine;
    var role := db.workers[id].role;
    var lane := t.meta.repository in db.lanes;
    reasons := soFar;
    if mismatch { reasons := reasons + [AffinityMismatch]; }
    if !lane || !db.lanes[t.meta.repository].enabled { reasons := reasons + [LaneDisabledOrMissing]; }
    if role == Builder && lane && |ActiveIn(db, t.meta.repository)| >= db.lanes[t.meta.repository].maxInFlight {
      reasons := reasons + [LaneCapacityReached];
    }
    if role == Validator && t.builder == Some(id) { reasons := reasons + [ValidatorSameAsBuilder]; }
    if RequiredRole(t) != Some(role) { reasons := reasons + [RoleNotRequired]; }
  }

  // ---- agreement with claims

  /** An exact claim by this worker, in its role and with the task's own fencing flag, gets the task. */
  ghost predicate ExactClaimAcquires(cfg: Config, db: DB, now: int, tid: TaskId, id: WorkerId)
    requires tid in db.tasks && id in db.workers
  {
    var tx := ClaimTask(cfg, db, now, id, db.workers[id].role, None, Some(tid), db.tasks[tid].meta.fenced, []);
    tx.Commit? && tx.value.Some? && tx.value.value.task == tid
  }

  lemma ExactCandidates(db: DB, tid: TaskId, id: WorkerId, role: Role, fenced: bool)
    ensures Candidates(db, id, role, fenced, Some(tid)) == if Candidate(db, tid, id, role, fenced, Some(tid)) then {tid} else {}
  {
  }

  lemma AcquiresWhen(cfg: Config, db: DB, now: int, tid: TaskId, id: WorkerId)
    requires ValidConfig(cfg) && Inv(db) && tid in db.tasks && id in db.workers
    ensures ExactClaimAcquires(cfg, db, now, tid, id) <==>
      NotReady(cfg, db, now, id, db.workers[id].role).None? &&
      Candidate(db, tid, id, db.workers[id].role, db.tasks[tid].meta.fenced, Some(tid))
  {
    hide NotReady, RowInv, LaneLedger;
    var role, fenced := db.workers[id].role, db.tasks[tid].meta.fenced;
    ExactCandidates(db, tid, id, role, fenced);
    QueuedIsFree(db.tasks[tid], db.uuids);
  }

  lemma QueuedIsFree(t: Task, uuids: nat)
    requires RowInv(t, uuids)
    ensures t.state == Queued ==> t.lease.holder.None?
    ensures t.state == Validating ==> t.producedSha.Some?
  {
  }

  /** The precheck agrees with the claim, except that it holds a disabled lane against Validators too:
      a worker is eligible iff its exact claim would succeed and, for a Validator, the lane is enabled. */
  lemma DiagnosticsAgree(cfg: Config, db: DB, now: int, tid: TaskId, id: WorkerId)
    requires ValidConfig(cfg) && Inv(db) && tid in db.tasks && id in db.workers
    ensures View(id, Reasons(cfg, db, now, db.tasks[tid], id)).Eligible() <==>
      ExactClaimAcquires(cfg, db, now, tid, id) &&
      (db.workers[id].role == Validator ==>
        db.tasks[tid].meta.repository in db.lanes && db.lanes[db.tasks[tid].meta.repository].enabled)
  {
    hide RowInv, LaneLedger, ExactClaimAcquires, Busy, Affine, ActiveIn;
    AcquiresWhen(cfg, db, now, tid, id);
    QueuedIsFree(db.tasks[tid], db.uuids);
  }

  /** When they differ, exactly: for a ready Validator who could be given the task, on a disabled lane.
      Then the claim succeeds and the precheck rules it out. */
  lemma DiagnosticsDiffer(cfg: Config, db: DB, now: int, tid: TaskId, id: WorkerId)
    requires ValidConfig(cfg) && Inv(db) && tid in db.tasks && id in db.workers
    ensures var t := db.tasks[tid];
      var eligible := View(id, Reasons(cfg, db, now, t, id)).Eligible();
      (eligible != ExactClaimAcquires(cfg, db, now, tid, id) <==>
        db.workers[id].role == Validator && NotReady(cfg, db, now, id, Validator).None? &&
        Candidate(db, tid, id, Validator, t.meta.fenced, Some(tid)) && !db.lanes[t.meta.repository].enabled) &&
      (eligible ==> ExactClaimAcquires(cfg, db, now, tid, id))
  {
    hide RowInv, LaneLedger, ExactClaimAcquires, Reasons, NotReady;
    AcquiresWhen(cfg, db, now, tid, id);
    DiagnosticsAgree(cfg, db, now, tid, id);
  }

  // ---- a run after which they differ

  /** Task 0 is built by worker 1, then its lane is disabled while Validator 2 is ready. */
  const DISABLING := BUILDING + [Event(0, ConfigureOp(LANE, false, 1))]

  lemma DisablingLeads()
    ensures Run(CFG, EMPTY_DB, DISABLING)
    ensures var db := End(CFG, EMPTY_DB, DISABLING);
      0 in db.tasks && Scenarios.BuiltRow(db.tasks[0]) && VALIDATOR in db.workers && db.workers[VALIDATOR].role == Validator &&
      LANE in db.lanes && !db.lanes[LANE].enabled && NotReady(CFG, db, 0, VALIDATOR, Validator).None? &&
      Candidate(db, 0, VALIDATOR, Validator, false, Some(0))
  {
    hide Run, End, NotReady, Inv;
    ReachesBuilt();
    var db := End(CFG, EMPTY_DB, BUILDING);
    RunLonger(CFG, EMPTY_DB, BUILDING, 0, ConfigureOp(LANE, false, 1));
    var db' := End(CFG, EMPTY_DB, DISABLING);
    assert db' == db.(lanes := db'.lanes);
    StaffIsReady(db, Validator);
    ReadyDespiteLanes(db, db');
  }

  lemma ReadyDespiteLanes(db: DB, db': DB)
    requires db' == db.(lanes := db'.lanes)
    ensures NotReady(CFG, db', 0, VALIDATOR, Validator) == NotReady(CFG, db, 0, VALIDATOR, Validator)
  {
    assert Busy(db', VALIDATOR) == Busy(db, VALIDATOR);
  }

  /** In that reachable state Validator 2 is not eligible and yet its claim succeeds. */
  lemma DisabledLaneDisagrees()
    ensures Run(CFG, EMPTY_DB, DISABLING)
    ensures var db := End(CFG, EMPTY_DB, DISABLING);
      Reachable(CFG, db) && 0 in db.tasks && VALIDATOR in db.workers &&
      ExactClaimAcquires(CFG, db, 0, 0, VALIDATOR) &&
      !View(VALIDATOR, Reasons(CFG, db, 0, db.tasks[0], VALIDATOR)).Eligible()
  {
    hide Inv, ExactClaimAcquires, Reasons, NotReady, Candidate, End, Run;
    DisablingLeads();
    ReachableInv(CFG, End(CFG, EMPTY_DB, DISABLING));
    DiagnosticsDiffer(CFG, End(CFG, EMPTY_DB, DISABLING), 0, 0, VALIDATOR);
  }
}
