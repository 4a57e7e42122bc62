/** Runs that reach the bounds on attempts and on active tasks, for every number of requeues. */
module BudgetLimits {
  import opened Wrappers
  import opened PoolTypes
  import opened PoolRows
  import opened PoolSpec
  import opened PoolSteps
  import opened PoolInvariant
  import opened Budgets
  import opened Scenarios

  // ---- counting along a run that grows

  ghost function Requeued(db: DB, now: int, op: Op, tid: TaskId): nat {
    if op == RequeueOp(tid) && RequeueBlocked(db, now, tid).Commit? then 1 else 0
  }

  ghost function Readmitted(db: DB, op: Op, r: Repository): nat {
    if Readmits(db, op, r) then 1 else 0
  }

  lemma {:induction false} RequeuesLonger(cfg: Config, db: DB, events: seq<Event>, now: int, op: Op, tid: TaskId)
    requires Run(cfg, db, events) && Possible(cfg, End(cfg, db, events), now, op)
    ensures Run(cfg, db, events + [Event(now, op)])
    ensures Requeues(cfg, db, events + [Event(now, op)], tid) ==
      Requeues(cfg, db, events, tid) + Requeued(End(cfg, db, events), now, op, tid)
    decreases |events|
  {
    hide Possible, After, RequeueBlocked;
    RunLonger(cfg, db, events, now, op);
    var e := Event(now, op);
    if events == [] {
      assert [] + [e] == [e] && [e][1..] == [];
      assert Requeues(cfg, After(cfg, db, now, op), [], tid) == 0;
    } else {
      RequeuesLonger(cfg, After(cfg, db, events[0].now, events[0].op), events[1..], now, op, tid);
      assert (events + [e])[0] == events[0] && (events + [e])[1..] == events[1..] + [e];
    }
  }

  lemma {:induction false} ReadmissionsLonger(cfg: Config, db: DB, events: seq<Event>, now: int, op: Op, r: Repository)
    requires Run(cfg, db, events) && Possible(cfg, End(cfg, db, events), now, op)
    ensures Run(cfg, db, events + [Event(now, op)])
    ensures Readmissions(cfg, db, events + [Event(now, op)], r) ==
      Readmissions(cfg, db, events, r) + Readmitted(End(cfg, db, events), op, r)
    ensures CapacityOnlyRises(cfg, db, events, r) && NeverLowers(End(cfg, db, events), op, r) ==>
      CapacityOnlyRises(cfg, db, events + [Event(now, op)], r)
    decreases |events|
  {
    hide Possible, After, Readmits, NeverLowers;
    RunLonger(cfg, db, events, now, op);
    var e := Event(now, op);
    if events == [] {
      assert [] + [e] == [e] && [e][1..] == [];
      assert Readmissions(cfg, After(cfg, db, now, op), [], r) == 0;
    } else {
      ReadmissionsLonger(cfg, After(cfg, db, events[0].now, events[0].op), events[1..], now, op, r);
      assert (events + [e])[0] == events[0] && (events + [e])[1..] == events[1..] + [e];
    }
  }

  // ---- attempts

  /** A run from the empty database, what it ends in and how often it requeued task 0. */
  ghost predicate Spent(events: seq<Event>, db: DB, n: nat) {
    Run(CFG, EMPTY_DB, events) && End(CFG, EMPTY_DB, events) == db && Requeues(CFG, EMPTY_DB, events, 0) == n
  }

  lemma SpendMore(events: seq<Event>, db: DB, n: nat, op: Op)
    requires Spent(events, db, n) && Possible(CFG, db, 0, op)
    ensures Spent(events + [Event(0, op)], After(CFG, db, 0, op), n + Requeued(db, 0, op, 0))
  {
    hide Run, End, Possible, After, Requeues, Requeued;
    RunLonger(CFG, EMPTY_DB, events, 0, op);
    RequeuesLonger(CFG, EMPTY_DB, events, 0, op, 0);
  }

  /** A task that is validated, blocked and requeued over and over; it allows a single attempt. */
  function OverAttempts(n: nat): seq<Event> {
    if n == 0 then BUILDING + [Event(0, ClaimExact(Validator, 0))]
    else
      OverAttempts(n - 1) + [Event(0, BlockOp(Quote(0, Validator, 2 * n), Some(OtherReason(0))))] +
      [Event(0, RequeueOp(0))] + [Event(0, ClaimExact(Validator, 0))]
  }

  ghost predicate Overspent(db: DB, n: nat) {
    Staffed(db) && db.tasks.Keys == {0} && HeldRow(db.tasks[0], Validator, 2 + 2 * n) && db.tasks[0].producedSha == Some(7) &&
    db.tasks[0].attemptCount == 2 + n && db.uuids == 4 + 2 * n
  }

  lemma BuildsWithoutRequeue()
    ensures Run(CFG, EMPTY_DB, BUILDING) && Spent(BUILDING, End(CFG, EMPTY_DB, BUILDING), 0)
  {
    hide Run, End, RequeueBlocked, After, Possible;
    ReachesBuilt();
    NoRequeueInIt(EMPTY_DB, BUILDING, 0);
  }

  lemma {:induction false} NoRequeueInIt(db: DB, events: seq<Event>, tid: TaskId)
    requires Run(CFG, db, events) && forall i :: 0 <= i < |events| ==> !events[i].op.RequeueOp?
    ensures Requeues(CFG, db, events, tid) == 0
    decreases |events|
  {
    hide After, Possible;
    if events != [] { NoRequeueInIt(After(CFG, db, events[0].now, events[0].op), events[1..], tid); }
  }

  lemma FreeToValidate(db: DB)
    requires db.tasks.Keys == {0} && (BuiltRow(db.tasks[0]) || ParkedRow(db.tasks[0]))
    ensures Free(db, VALIDATOR)
  {
  }

  lemma {:induction false} Overspends(n: nat)
    ensures Run(CFG, EMPTY_DB, OverAttempts(n))
    ensures var db := End(CFG, EMPTY_DB, OverAttempts(n)); Spent(OverAttempts(n), db, n) && Overspent(db, n)
    decreases n
  {
    hide Spent, End, After, Possible, Staffed, Requeued, HeldRow, BuiltRow, ParkedRow;
    if n == 0 {
      ReachesBuilt();
      BuildsWithoutRequeue();
      var db := End(CFG, EMPTY_DB, BUILDING);
      FreeToValidate(db);
      ValidatorClaimStep(db, 0);
      SpendMore(BUILDING, db, 0, ClaimExact(Validator, 0));
      NotARequeue(db, ClaimExact(Validator, 0));
      EndOf(OverAttempts(0), After(CFG, db, 0, ClaimExact(Validator, 0)), 0);
    } else {
      Overspends(n - 1);
      OverspendsMore(n);
    }
  }

  lemma NotARequeue(db: DB, op: Op)
    requires !op.RequeueOp?
    ensures Requeued(db, 0, op, 0) == 0
  {
  }

  lemma EndOf(events: seq<Event>, db: DB, n: nat)
    requires Spent(events, db, n)
    ensures Run(CFG, EMPTY_DB, events) && End(CFG, EMPTY_DB, events) == db
  {
  }

  /** One more round: block, requeue, claim. */
  lemma OverspendsMore(n: nat)
    requires n >= 1 && Run(CFG, EMPTY_DB, OverAttempts(n - 1))
    requires Spent(OverAttempts(n - 1), End(CFG, EMPTY_DB, OverAttempts(n - 1)), n - 1)
    requires Overspent(End(CFG, EMPTY_DB, OverAttempts(n - 1)), n - 1)
    ensures Run(CFG, EMPTY_DB, OverAttempts(n))
    ensures var db := End(CFG, EMPTY_DB, OverAttempts(n)); Spent(OverAttempts(n), db, n) && Overspent(db, n)
  {
    hide Spent, End, After, Possible, Staffed, Requeued, HeldRow, BuiltRow, ParkedRow, RequeueBlocked;
    var e0 := OverAttempts(n - 1);
    var d0 := End(CFG, EMPTY_DB, e0);
    var block := BlockOp(Quote(0, Validator, 2 * n), Some(OtherReason(0)));
    BlockStep(d0, 0, 2 * n);
    SpendMore(e0, d0, n - 1, block);
    NotARequeue(d0, block);
    var e1, d1 := e0 + [Event(0, block)], After(CFG, d0, 0, block);
    RequeueStep(d1, 0);
    SpendMore(e1, d1, n - 1, RequeueOp(0));
    RequeueCounts(d1);
    var e2, d2 := e1 + [Event(0, RequeueOp(0))], After(CFG, d1, 0, RequeueOp(0));
    FreeToValidate(d2);
    ValidatorClaimStep(d2, 0);
    SpendMore(e2, d2, n, ClaimExact(Validator, 0));
    NotARequeue(d2, ClaimExact(Validator, 0));
    EndOf(OverAttempts(n), After(CFG, d2, 0, ClaimExact(Validator, 0)), n);
  }

  lemma RequeueCounts(db: DB)
    requires RequeueBlocked(db, 0, 0).Commit?
    ensures Requeued(db, 0, RequeueOp(0), 0) == 1
  {
  }

  /** The bound on attempts is reached, whatever the number of requeues; without any, a task that
      allows one attempt has two. */
  lemma AttemptsAreTight(n: nat)
    ensures Run(CFG, EMPTY_DB, OverAttempts(n)) && 0 in End(CFG, EMPTY_DB, OverAttempts(n)).tasks
    ensures Requeues(CFG, EMPTY_DB, OverAttempts(n), 0) == n
    ensures var t := End(CFG, EMPTY_DB, OverAttempts(n)).tasks[0];
      t.meta.maxAttempts == 1 && t.attemptCount == t.meta.maxAttempts + 1 + n
  {
    hide End, Run, Requeues;
    Overspends(n);
  }

  // ---- active tasks

  ghost predicate Filled(events: seq<Event>, db: DB, n: nat) {
    Run(CFG, EMPTY_DB, events) && End(CFG, EMPTY_DB, events) == db &&
    CapacityOnlyRises(CFG, EMPTY_DB, events, LANE) && Readmissions(CFG, EMPTY_DB, events, LANE) == n
  }

  lemma FillMore(events: seq<Event>, db: DB, n: nat, op: Op)
    requires Filled(events, db, n) && Possible(CFG, db, 0, op) && NeverLowers(db, op, LANE)
    ensures Filled(events + [Event(0, op)], After(CFG, db, 0, op), n + Readmitted(db, op, LANE))
  {
    hide Run, End, Possible, After, Readmissions, Readmitted, CapacityOnlyRises, NeverLowers;
    RunLonger(CFG, EMPTY_DB, events, 0, op);
    ReadmissionsLonger(CFG, EMPTY_DB, events, 0, op, LANE);
  }

  /** Neither a requeue nor a configuration. */
  lemma FillOn(events: seq<Event>, db: DB, n: nat, op: Op)
    requires Filled(events, db, n) && Possible(CFG, db, 0, op) && !op.RequeueOp? && !op.ConfigureOp?
    ensures Filled(events + [Event(0, op)], After(CFG, db, 0, op), n)
  {
    hide Filled, Possible, After;
    FillMore(events, db, n, op);
  }

  /** One task after the other is built, claimed for validation and blocked. */
  function ParkMany(n: nat): seq<Event> {
    if n == 0 then OPENING else ParkOne(ParkMany(n - 1), n - 1)
  }

  function ParkOne(events: seq<Event>, k: nat): seq<Event> {
    events + [Event(0, Enqueue(k))] + [Event(0, ClaimExact(Builder, k))] + [Event(0, StartOp(Quote(k, Builder, 4 * k)))] +
    [Event(0, SubmitOp(Quote(k, Builder, 4 * k), 7))] + [Event(0, ClaimExact(Validator, k))] +
    [Event(0, BlockOp(Quote(k, Validator, 4 * k + 2), Some(OtherReason(0))))]
  }

  /** Tasks 0..n-1 exist and are all parked. */
  ghost predicate ParkedUpTo(db: DB, n: nat) {
    Staffed(db) && (forall tid: nat :: tid in db.tasks <==> tid < n) && (forall tid :: tid in db.tasks ==> ParkedRow(db.tasks[tid]))
  }

  /** The others are parked while task `k` lives its life. */
  ghost predicate AllButParked(db: DB, k: TaskId) {
    Staffed(db) && k in db.tasks && forall tid :: tid in db.tasks && tid != k ==> ParkedRow(db.tasks[tid])
  }

  lemma OthersArePassive(db: DB, k: TaskId)
    requires AllButParked(db, k) && (WaitingRow(db.tasks[k]) || BuiltRow(db.tasks[k]))
    ensures Free(db, BUILDER) && Free(db, VALIDATOR)
    ensures WaitingRow(db.tasks[k]) ==> ActiveIn(db, LANE) == {}
  {
  }

  lemma StillAllButParked(db: DB, db': DB, k: TaskId)
    requires AllButParked(db, k) && Touches(db, db', k)
    ensures AllButParked(db', k) && db'.tasks.Keys == db.tasks.Keys
  {
    hide ParkedRow, Staffed;
  }

  lemma ParksOne(events: seq<Event>, db: DB, k: nat)
    requires Filled(events, db, 0) && ParkedUpTo(db, k) && db.uuids == 4 * k
    ensures var e := ParkOne(events, k);
      Run(CFG, EMPTY_DB, e) && var db' := End(CFG, EMPTY_DB, e);
      Filled(e, db', 0) && ParkedUpTo(db', k + 1) && db'.uuids == 4 * k + 4
  {
    hide Filled, End, Run, After, Possible, Staffed, HeldRow, BuiltRow, ParkedRow, WaitingRow;
    assert k !in db.tasks;
    EnqueueStep(db, k);
    FillOn(events, db, 0, Enqueue(k));
    var e1, d1 := events + [Event(0, Enqueue(k))], After(CFG, db, 0, Enqueue(k));
    assert AllButParked(d1, k);
    var e5, d5 := ParkHalf(e1, d1, k);
    var e, d7 := ParkRest(e5, d5, k);
    FilledEnd(e, d7, 0);
    assert d7.tasks.Keys == db.tasks.Keys + {k};
    forall tid: nat ensures tid in d7.tasks <==> tid < k + 1 {
      assert tid in d7.tasks.Keys <==> tid in db.tasks.Keys + {k};
    }
  }

  /** The second claim and the block. */
  lemma ParkRest(events: seq<Event>, db: DB, k: nat) returns (e: seq<Event>, db': DB)
    requires Filled(events, db, 0) && AllButParked(db, k) && BuiltRow(db.tasks[k]) && db.uuids == 4 * k + 2
    ensures e == events + [Event(0, ClaimExact(Validator, k))] +
      [Event(0, BlockOp(Quote(k, Validator, 4 * k + 2), Some(OtherReason(0))))]
    ensures Filled(e, db', 0) && AllButParked(db', k) && ParkedRow(db'.tasks[k]) && db'.uuids == 4 * k + 4 &&
      db'.tasks.Keys == db.tasks.Keys
  {
    hide Filled, After, Possible, Staffed, HeldRow, BuiltRow, ParkedRow, WaitingRow;
    OthersArePassive(db, k);
    ValidatorClaimStep(db, k);
    FillOn(events, db, 0, ClaimExact(Validator, k));
    var d6 := After(CFG, db, 0, ClaimExact(Validator, k));
    StillAllButParked(db, d6, k);
    var block := BlockOp(Quote(k, Validator, 4 * k + 2), Some(OtherReason(0)));
    BlockStep(d6, k, 4 * k + 2);
    FillOn(events + [Event(0, ClaimExact(Validator, k))], d6, 0, block);
    db' := After(CFG, d6, 0, block);
    StillAllButParked(d6, db', k);
    e := events + [Event(0, ClaimExact(Validator, k))] + [Event(0, block)];
  }

  /** Claim, start and submission. */
  lemma ParkHalf(events: seq<Event>, db: DB, k: nat) returns (e: seq<Event>, db': DB)
    requires Filled(events, db, 0) && AllButParked(db, k) && WaitingRow(db.tasks[k]) && db.uuids == 4 * k
    ensures e == events + [Event(0, ClaimExact(Builder, k))] + [Event(0, StartOp(Quote(k, Builder, 4 * k)))] +
      [Event(0, SubmitOp(Quote(k, Builder, 4 * k), 7))]
    ensures Filled(e, db', 0) && AllButParked(db', k) && BuiltRow(db'.tasks[k]) && db'.uuids == 4 * k + 2 &&
      db'.tasks.Keys == db.tasks.Keys
  {
    hide Filled, After, Possible, Staffed, HeldRow, BuiltRow, ParkedRow, WaitingRow;
    OthersArePassive(db, k);
    BuilderClaimStep(db, k);
    FillOn(events, db, 0, ClaimExact(Builder, k));
    var d2 := After(CFG, db, 0, ClaimExact(Builder, k));
    StillAllButParked(db, d2, k);
    var start := StartOp(Quote(k, Builder, 4 * k));
    StartStep(d2, k, 4 * k);
    FillOn(events + [Event(0, ClaimExact(Builder, k))], d2, 0, start);
    var d3 := After(CFG, d2, 0, start);
    StillAllButParked(d2, d3, k);
    var submit := SubmitOp(Quote(k, Builder, 4 * k), 7);
    SubmitStep(d3, k, 4 * k);
    FillOn(events + [Event(0, ClaimExact(Builder, k))] + [Event(0, start)], d3, 0, submit);
    db' := After(CFG, d3, 0, submit);
    StillAllButParked(d3, db', k);
    e := events + [Event(0, ClaimExact(Builder, k))] + [Event(0, start)] + [Event(0, submit)];
  }

  lemma FilledEnd(events: seq<Event>, db: DB, n: nat)
    requires Filled(events, db, n)
    ensures Run(CFG, EMPTY_DB, events) && End(CFG, EMPTY_DB, events) == db
  {
  }

  lemma OpeningFills()
    ensures Filled(OPENING, OPEN_DB, 0) && ParkedUpTo(OPEN_DB, 0)
  {
    hide Run, End, After, Filled;
    Opens();
    FilledEmpty();
    var e1, e2 := [Event(0, RegisterReady(Builder))], [Event(0, RegisterReady(Validator))];
    assert [] + e1 == e1;
    FillOn([], EMPTY_DB, 0, RegisterReady(Builder));
    var d1 := After(CFG, EMPTY_DB, 0, RegisterReady(Builder));
    FillOn(e1, d1, 0, RegisterReady(Validator));
    var d2 := After(CFG, d1, 0, RegisterReady(Validator));
    NoLaneYet(d1, d2);
    FillMore(e1 + e2, d2, 0, ConfigureOp(LANE, true, 1));
    FilledEnd(OPENING, After(CFG, d2, 0, ConfigureOp(LANE, true, 1)), 0);
    assert OPEN_DB.tasks == map[];
  }

  lemma NoLaneYet(d1: DB, d2: DB)
    requires d1 == After(CFG, EMPTY_DB, 0, RegisterReady(Builder)) && d2 == After(CFG, d1, 0, RegisterReady(Validator))
    ensures d2.lanes == map[]
  {
  }

  lemma FilledEmpty()
    ensures Filled([], EMPTY_DB, 0)
  {
  }

  lemma {:induction false} Parks(n: nat)
    ensures Run(CFG, EMPTY_DB, ParkMany(n))
    ensures var db := End(CFG, EMPTY_DB, ParkMany(n)); Filled(ParkMany(n), db, 0) && ParkedUpTo(db, n) && db.uuids == 4 * n
    decreases n
  {
    hide Filled, End, Run, ParkedUpTo;
    if n == 0 {
      Opens();
      OpeningFills();
    } else {
      Parks(n - 1);
      ParksOne(ParkMany(n - 1), End(CFG, EMPTY_DB, ParkMany(n - 1)), n - 1);
    }
  }

  /** `n` parked tasks, then one more fills the lane, then `k` of the parked ones are requeued. */
  function OverCapacity(n: nat, k: nat): seq<Event> {
    if k == 0 then ParkMany(n) + [Event(0, Enqueue(n))] + [Event(0, ClaimExact(Builder, n))]
    else OverCapacity(n, k - 1) + [Event(0, RequeueOp(k - 1))]
  }

  /** Task `n` is at work, tasks below `k` wait for validation, the rest is parked. */
  ghost predicate Crowded(db: DB, n: nat, k: nat) {
    Staffed(db) && (forall tid: nat :: tid in db.tasks <==> tid <= n) && Plain(db.tasks[n]) && Active(db.tasks[n]) &&
    (forall tid: nat :: tid < k ==> tid in db.tasks && BuiltRow(db.tasks[tid])) &&
    (forall tid: nat :: k <= tid < n ==> ParkedRow(db.tasks[tid]))
  }

  lemma {:induction false} Crowds(n: nat, k: nat)
    requires k <= n
    ensures Run(CFG, EMPTY_DB, OverCapacity(n, k))
    ensures var db := End(CFG, EMPTY_DB, OverCapacity(n, k)); Filled(OverCapacity(n, k), db, k) && Crowded(db, n, k)
    decreases k
  {
    hide Filled, End, Run, After, Possible, Staffed, BuiltRow, ParkedRow, RequeueBlocked, Readmitted, NeverLowers;
    if k == 0 {
      FillsLane(n);
    } else {
      Crowds(n, k - 1);
      var e, db := OverCapacity(n, k - 1), End(CFG, EMPTY_DB, OverCapacity(n, k - 1));
      RequeueStep(db, k - 1);
      ReadmitsParked(db, k - 1);
      FillMore(e, db, k - 1, RequeueOp(k - 1));
      FilledEnd(OverCapacity(n, k), After(CFG, db, 0, RequeueOp(k - 1)), k);
    }
  }

  lemma ReadmitsParked(db: DB, tid: TaskId)
    requires tid in db.tasks && ParkedRow(db.tasks[tid])
    ensures Readmitted(db, RequeueOp(tid), LANE) == 1 && NeverLowers(db, RequeueOp(tid), LANE)
  {
  }

  lemma FillsLane(n: nat)
    ensures Run(CFG, EMPTY_DB, OverCapacity(n, 0))
    ensures var db := End(CFG, EMPTY_DB, OverCapacity(n, 0)); Filled(OverCapacity(n, 0), db, 0) && Crowded(db, n, 0)
  {
    hide Filled, End, Run, After, Possible, Staffed, ParkedRow, WaitingRow, HeldRow;
    Parks(n);
    var e0, d0 := ParkMany(n), End(CFG, EMPTY_DB, ParkMany(n));
    EnqueueStep(d0, n);
    FillOn(e0, d0, 0, Enqueue(n));
    var d1 := After(CFG, d0, 0, Enqueue(n));
    assert AllButParked(d1, n);
    OthersArePassive(d1, n);
    BuilderClaimStep(d1, n);
    FillOn(e0 + [Event(0, Enqueue(n))], d1, 0, ClaimExact(Builder, n));
    var d2 := After(CFG, d1, 0, ClaimExact(Builder, n));
    FilledEnd(OverCapacity(n, 0), d2, 0);
    HeldIsActive(d2.tasks[n], d1.uuids);
  }

  lemma HeldIsActive(t: Task, token: nat)
    requires HeldRow(t, Builder, token) && t.state == Leased
    ensures Plain(t) && Active(t)
  {
  }

  ghost function UpTo(k: nat): set<TaskId> {
    if k == 0 then {} else UpTo(k - 1) + {k - 1}
  }

  lemma {:induction false} UpToIs(k: nat)
    ensures (forall tid: nat :: tid in UpTo(k) <==> tid < k) && |UpTo(k)| == k
    decreases k
  {
    if k > 0 { UpToIs(k - 1); }
  }

  lemma CrowdedActive(db: DB, n: nat)
    requires Crowded(db, n, n)
    ensures |ActiveIn(db, LANE)| == n + 1
  {
    UpToIs(n + 1);
    forall tid: nat ensures tid in ActiveIn(db, LANE) <==> tid in UpTo(n + 1) {
      assert tid in db.tasks <==> tid <= n;
      if tid < n { assert BuiltRow(db.tasks[tid]); }
    }
    assert ActiveIn(db, LANE) == UpTo(n + 1);
  }

  /** The bound on active tasks is reached, whatever the number of re-admissions; one is enough to have
      two active tasks in a lane for one. */
  lemma CapacityIsTight(n: nat)
    ensures Run(CFG, EMPTY_DB, OverCapacity(n, n)) && CapacityOnlyRises(CFG, EMPTY_DB, OverCapacity(n, n), LANE)
    ensures Readmissions(CFG, EMPTY_DB, OverCapacity(n, n), LANE) == n
    ensures var db := End(CFG, EMPTY_DB, OverCapacity(n, n));
      LANE in db.lanes && db.lanes[LANE].maxInFlight == 1 && |ActiveIn(db, LANE)| == db.lanes[LANE].maxInFlight + n
  {
    hide Run, End, Readmissions, CapacityOnlyRises;
    Crowds(n, n);
    CrowdedActive(End(CFG, EMPTY_DB, OverCapacity(n, n)), n);
  }
}
