/** A small pool with one Builder and one Validator, and what single operations do to it: the steps
    from which concrete runs are put together.  Everything happens at time 0. */
module Scenarios {
  import opened Wrappers
  import opened PoolTypes
  import opened PoolRows
  import opened PoolSpec
  import opened PoolSteps
  import opened PoolInvariant

  const CFG := Config(90, 120, 3, 300, None)

  const BUILDER: WorkerId := 1
  const VALIDATOR: WorkerId := 2
  const LANE: Repository := 1

  function Ready(role: Role): Worker {
    Worker(role, Normal, None, true, true, 0)
  }

  function WorkerOf(role: Role): WorkerId {
    if role == Builder then BUILDER else VALIDATOR
  }

  /** Both workers are ready, nothing is reserved, and the lane is open. */
  ghost predicate Staffed(db: DB) {
    BUILDER in db.workers && db.workers[BUILDER] == Ready(Builder) &&
    VALIDATOR in db.workers && db.workers[VALIDATOR] == Ready(Validator) &&
    db.affinities == {} && LANE in db.lanes && db.lanes[LANE].enabled && db.lanes[LANE].maxInFlight == 1
  }

  ghost predicate Free(db: DB, worker: WorkerId) {
    forall tid :: tid in db.tasks ==> db.tasks[tid].lease.holder != Some(worker)
  }

  /** The operation is possible and leads there. */
  ghost predicate Leads(db: DB, op: Op, db': DB) {
    Possible(CFG, db, 0, op) && After(CFG, db, 0, op) == db'
  }

  // ---- opening the pool

  const OPEN_DB := DB(
    map[], map[BUILDER := Ready(Builder), VALIDATOR := Ready(Validator)], map[LANE := Lane(true, 1, 0, 0, None, None)],
    {}, false, 0, 0)

  function RegisterReady(role: Role): Op {
    RegisterOp(WorkerOf(role), role, Normal, None, true, true)
  }

  const OPENING :=
    [Event(0, RegisterReady(Builder))] + [Event(0, RegisterReady(Validator))] + [Event(0, ConfigureOp(LANE, true, 1))]

  // ---- runs, one event longer

  lemma {:induction false} RunLonger(cfg: Config, db: DB, events: seq<Event>, now: int, op: Op)
    requires Run(cfg, db, events) && Possible(cfg, End(cfg, db, events), now, op)
    ensures Run(cfg, db, events + [Event(now, op)])
    ensures End(cfg, db, events + [Event(now, op)]) == After(cfg, End(cfg, db, events), now, op)
    decreases |events|
  {
    hide Possible, After;
    var e := Event(now, op);
    if events == [] {
      assert [] + [e] == [e] && [e][1..] == [];
      assert Run(cfg, After(cfg, db, now, op), []);
    } else {
      RunLonger(cfg, After(cfg, db, events[0].now, events[0].op), events[1..], now, op);
      assert (events + [e])[0] == events[0] && (events + [e])[1..] == events[1..] + [e];
    }
  }

  // ---- claims

  /** An exact claim of the one candidate by a ready worker is granted. */
  lemma ExactClaimGrants(cfg: Config, db: DB, now: int, worker: WorkerId, role: Role, tid: TaskId, fenced: bool)
    requires cfg.leaseSeconds >= 1 && NotReady(cfg, db, now, worker, role).None?
    requires Candidate(db, tid, worker, role, fenced, Some(tid)) && db.tasks[tid].lease.holder.None?
    ensures var tx := ClaimTask(cfg, db, now, worker, role, None, Some(tid), fenced, []);
      tx == Commit(Grant(db, now, tid, worker, role, cfg.leaseSeconds),
                   Some(LeaseGrant(tid, db.uuids, worker, role, now + cfg.leaseSeconds, db.tasks[tid].generation + 1,
                                   db.uuids + 1)))
  {
    hide NotReady, Grant, IsFirst;
    assert Candidates(db, worker, role, fenced, Some(tid)) == {tid};
    OnlyOneIsFirst(db, role, tid);
  }

  lemma OnlyOneIsFirst(db: DB, role: Role, tid: TaskId)
    requires tid in db.tasks && db.tasks[tid].meta.repository in db.lanes
    ensures First(db, role, {tid}) == tid
  {
    assert First(db, role, {tid}) in {tid};
  }

  lemma StaffIsReady(db: DB, role: Role)
    requires Staffed(db) && Free(db, WorkerOf(role))
    ensures NotReady(CFG, db, 0, WorkerOf(role), role).None?
  {
  }

  function ClaimExact(role: Role, tid: TaskId): Op {
    ClaimOp(WorkerOf(role), role, None, Some(tid), false, [])
  }

  /** One row changes, or is new; workers and capacities stay. */
  ghost predicate Touches(db: DB, db': DB, tid: TaskId) {
    tid in db'.tasks && db'.tasks == db.tasks[tid := db'.tasks[tid]] && Staffed(db')
  }

  lemma StaffClaims(db: DB, role: Role, tid: TaskId)
    requires Staffed(db) && Free(db, WorkerOf(role)) && Candidate(db, tid, WorkerOf(role), role, false, Some(tid))
    requires db.tasks[tid].lease.holder.None? && db.tasks[tid].meta.repository == LANE
    ensures var db' := Grant(db, 0, tid, WorkerOf(role), role, 120);
      Leads(db, ClaimExact(role, tid), db') && Touches(db, db', tid) &&
      db'.tasks[tid] == Apply(db.tasks[tid], 0, Acquire(WorkerOf(role), role, db.uuids, db.uuids + 1, 120)) &&
      db'.uuids == db.uuids + 2
  {
    hide NotReady, Candidate, Apply;
    StaffIsReady(db, role);
    ExactClaimGrants(CFG, db, 0, WorkerOf(role), role, tid, false);
    CandidateIsThere(db, role, tid);
  }

  lemma CandidateIsThere(db: DB, role: Role, tid: TaskId)
    requires Candidate(db, tid, WorkerOf(role), role, false, Some(tid))
    ensures tid in db.tasks && db.tasks[tid].meta.repository in db.lanes
  {
  }

  // ---- the life of one unfenced task with a single attempt allowed

  function Enqueue(tid: TaskId): Op {
    EnqueueOp(tid, LANE, 0, Some(1), None, 0, false)
  }

  function Quote(tid: TaskId, role: Role, token: nat): Credentials {
    Credentials(tid, WorkerOf(role), token, None, None)
  }

  /** What all stages of the life have in common. */
  ghost predicate Plain(t: Task) {
    !t.meta.fenced && t.meta.repository == LANE && t.meta.maxAttempts == 1 && t.checkpoints == []
  }

  ghost predicate WaitingRow(t: Task) {
    Plain(t) && t.state == Queued && t.lease == NO_LEASE && t.attemptCount == 0
  }

  ghost predicate HeldRow(t: Task, role: Role, token: nat) {
    Plain(t) && t.lease.holder == Some(WorkerOf(role)) && t.lease.token == Some(token) && t.lease.expires == Some(120) &&
    (role == Validator ==> t.state == Validating && t.builder == Some(BUILDER) && t.producedSha.Some?)
  }

  ghost predicate BuiltRow(t: Task) {
    Plain(t) && t.state == Validating && t.lease == NO_LEASE && t.builder == Some(BUILDER) && t.producedSha == Some(7)
  }

  ghost predicate ParkedRow(t: Task) {
    Plain(t) && t.state == Blocked && t.lease == NO_LEASE && t.builder == Some(BUILDER) && t.producedSha == Some(7)
  }

  lemma EnqueueStep(db: DB, tid: TaskId)
    requires Staffed(db) && tid !in db.tasks
    ensures var db' := After(CFG, db, 0, Enqueue(tid));
      Leads(db, Enqueue(tid), db') && Touches(db, db', tid) && WaitingRow(db'.tasks[tid]) && db'.uuids == db.uuids
  {
  }

  lemma BuilderClaimStep(db: DB, tid: TaskId)
    requires Staffed(db) && Free(db, BUILDER) && tid in db.tasks && WaitingRow(db.tasks[tid]) && ActiveIn(db, LANE) == {}
    ensures var db' := After(CFG, db, 0, ClaimExact(Builder, tid));
      Leads(db, ClaimExact(Builder, tid), db') && Touches(db, db', tid) && HeldRow(db'.tasks[tid], Builder, db.uuids) &&
      db'.tasks[tid].state == Leased && db'.tasks[tid].attemptCount == 1 && db'.uuids == db.uuids + 2
  {
    hide Staffed, Free, Touches;
    StaffedIsOpen(db);
    StaffClaims(db, Builder, tid);
  }

  lemma StaffedIsOpen(db: DB)
    requires Staffed(db)
    ensures LANE in db.lanes && db.lanes[LANE].enabled && db.lanes[LANE].maxInFlight == 1
    ensures forall p :: p !in db.affinities
    ensures BUILDER in db.workers && db.workers[BUILDER].role == Builder
    ensures VALIDATOR in db.workers && db.workers[VALIDATOR].role == Validator
  {
  }

  lemma ValidatorClaimStep(db: DB, tid: TaskId)
    requires Staffed(db) && Free(db, VALIDATOR) && tid in db.tasks && BuiltRow(db.tasks[tid])
    ensures var db' := After(CFG, db, 0, ClaimExact(Validator, tid));
      Leads(db, ClaimExact(Validator, tid), db') && Touches(db, db', tid) && HeldRow(db'.tasks[tid], Validator, db.uuids) &&
      db'.tasks[tid].producedSha == Some(7) &&
      db'.tasks[tid].attemptCount == db.tasks[tid].attemptCount + 1 && db'.uuids == db.uuids + 2
  {
    hide Staffed, Free, Touches;
    StaffedIsOpen(db);
    StaffClaims(db, Validator, tid);
  }

  lemma StartStep(db: DB, tid: TaskId, token: nat)
    requires Staffed(db) && tid in db.tasks && HeldRow(db.tasks[tid], Builder, token) && db.tasks[tid].state == Leased
    ensures var op := StartOp(Quote(tid, Builder, token));
      var db' := After(CFG, db, 0, op);
      Leads(db, op, db') && Touches(db, db', tid) && HeldRow(db'.tasks[tid], Builder, token) &&
      db'.tasks[tid].state == Running && db'.tasks[tid].builder == Some(BUILDER) &&
      db'.tasks[tid].attemptCount == db.tasks[tid].attemptCount && db'.uuids == db.uuids
  {
  }

  lemma SubmitStep(db: DB, tid: TaskId, token: nat)
    requires Staffed(db) && tid in db.tasks && HeldRow(db.tasks[tid], Builder, token)
    requires db.tasks[tid].state == Running && db.tasks[tid].builder == Some(BUILDER)
    ensures var op := SubmitOp(Quote(tid, Builder, token), 7);
      var db' := After(CFG, db, 0, op);
      Leads(db, op, db') && Touches(db, db', tid) && BuiltRow(db'.tasks[tid]) &&
      db'.tasks[tid].attemptCount == db.tasks[tid].attemptCount && db'.uuids == db.uuids
  {
    hide EndAttempt;
  }

  lemma BlockStep(db: DB, tid: TaskId, token: nat)
    requires Staffed(db) && tid in db.tasks && HeldRow(db.tasks[tid], Validator, token) && db.tasks[tid].producedSha == Some(7)
    ensures var op := BlockOp(Quote(tid, Validator, token), Some(OtherReason(0)));
      var db' := After(CFG, db, 0, op);
      Leads(db, op, db') && Touches(db, db', tid) && ParkedRow(db'.tasks[tid]) &&
      db'.tasks[tid].attemptCount == db.tasks[tid].attemptCount && db'.uuids == db.uuids
  {
    hide EndAttempt;
  }

  lemma CompleteStep(db: DB, tid: TaskId, token: nat)
    requires Staffed(db) && tid in db.tasks && HeldRow(db.tasks[tid], Validator, token) && db.tasks[tid].producedSha == Some(7)
    ensures var op := CompleteOp(Quote(tid, Validator, token));
      var db' := After(CFG, db, 0, op);
      Leads(db, op, db') && Touches(db, db', tid) && db'.tasks[tid].state == Completed && db'.tasks[tid].producedSha == Some(7)
  {
    hide EndAttempt;
  }

  lemma RequeueStep(db: DB, tid: TaskId)
    requires Staffed(db) && tid in db.tasks && ParkedRow(db.tasks[tid])
    ensures var db' := After(CFG, db, 0, RequeueOp(tid));
      RequeueBlocked(db, 0, tid).Commit? && Leads(db, RequeueOp(tid), db') && Touches(db, db', tid) && BuiltRow(db'.tasks[tid]) &&
      db'.tasks[tid].attemptCount == db.tasks[tid].attemptCount && db'.uuids == db.uuids
  {
  }

  /** The pool opens: two registrations and one configuration. */
  lemma Opens()
    ensures Run(CFG, EMPTY_DB, OPENING) && End(CFG, EMPTY_DB, OPENING) == OPEN_DB && Staffed(OPEN_DB)
  {
    hide Run, End;
    var e := EMPTY_DB;
    EmptyRun(CFG, e);
    RunLonger(CFG, e, [], 0, RegisterReady(Builder));
    assert [] + [Event(0, RegisterReady(Builder))] == [Event(0, RegisterReady(Builder))];
    RunLonger(CFG, e, [Event(0, RegisterReady(Builder))], 0, RegisterReady(Validator));
    RunLonger(CFG, e, [Event(0, RegisterReady(Builder))] + [Event(0, RegisterReady(Validator))], 0, ConfigureOp(LANE, true, 1));
  }

  lemma EmptyRun(cfg: Config, db: DB)
    ensures Run(cfg, db, []) && End(cfg, db, []) == db
  {
  }

  // ---- up to a finished build

  /** From the opening to a built task 0. */
  const BUILDING := OPENING + [Event(0, Enqueue(0))] + [Event(0, ClaimExact(Builder, 0))] +
                    [Event(0, StartOp(Quote(0, Builder, 0)))] + [Event(0, SubmitOp(Quote(0, Builder, 0), 7))]

  lemma ReachesBuilt()
    ensures Run(CFG, EMPTY_DB, BUILDING)
    ensures var db := End(CFG, EMPTY_DB, BUILDING);
      Staffed(db) && db.tasks.Keys == {0} && BuiltRow(db.tasks[0]) && db.tasks[0].attemptCount == 1 && db.uuids == 2
  {
    hide Run, End, After, Possible, Staffed, HeldRow, BuiltRow, WaitingRow;
    Opens();
    var d0 := OPEN_DB;
    var e1 := OPENING + [Event(0, Enqueue(0))];
    EnqueueStep(d0, 0);
    RunLonger(CFG, EMPTY_DB, OPENING, 0, Enqueue(0));
    var d1 := End(CFG, EMPTY_DB, e1);
    WaitingIsIdle(d1, 0);
    BuilderClaimStep(d1, 0);
    RunLonger(CFG, EMPTY_DB, e1, 0, ClaimExact(Builder, 0));
    var e2 := e1 + [Event(0, ClaimExact(Builder, 0))];
    var d2 := End(CFG, EMPTY_DB, e2);
    StartStep(d2, 0, 0);
    RunLonger(CFG, EMPTY_DB, e2, 0, StartOp(Quote(0, Builder, 0)));
    var e3 := e2 + [Event(0, StartOp(Quote(0, Builder, 0)))];
    var d3 := End(CFG, EMPTY_DB, e3);
    SubmitStep(d3, 0, 0);
    RunLonger(CFG, EMPTY_DB, e3, 0, SubmitOp(Quote(0, Builder, 0), 7));
  }

  lemma WaitingIsIdle(db: DB, tid: TaskId)
    requires db.tasks.Keys == {tid} && WaitingRow(db.tasks[tid])
    ensures Free(db, BUILDER) && Free(db, VALIDATOR) && ActiveIn(db, LANE) == {}
  {
  }
}
