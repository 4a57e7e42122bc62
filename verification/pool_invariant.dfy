/** The invariant of the whole database, kept by every operation, and runs of operations. */
module PoolInvariant {
  import opened Wrappers
  import opened PoolTypes
  import opened PoolRows
  import opened PoolSpec
  import opened PoolSteps
  import opened Ledger
  import opened Totals

  // ---- claims counted per lane

  function CountRole(attempts: seq<Attempt>, role: Role): nat {
    if attempts == [] then 0
    else CountRole(attempts[..|attempts| - 1], role) + (if attempts[|attempts| - 1].role == role then 1 else 0)
  }

  ghost predicate SameRoles(a: seq<Attempt>, b: seq<Attempt>) {
    |a| == |b| && forall i :: 0 <= i < |a| ==> a[i].role == b[i].role
  }

  lemma {:induction false} CountSame(a: seq<Attempt>, b: seq<Attempt>, role: Role)
    requires SameRoles(a, b)
    ensures CountRole(a, role) == CountRole(b, role)
    decreases |a|
  {
    if a != [] { CountSame(a[..|a| - 1], b[..|b| - 1], role); }
  }

  lemma CountBoth(attempts: seq<Attempt>)
    ensures CountRole(attempts, Builder) + CountRole(attempts, Validator) == |attempts|
    decreases |attempts|
  {
    if attempts != [] { CountBoth(attempts[..|attempts| - 1]); }
  }

  /** Attempt rows of one role that the task contributes to the lane. */
  ghost function LaneShare(tasks: map<TaskId, Task>, repository: Repository, role: Role): nat -> int {
    tid => if tid in tasks && tasks[tid].meta.repository == repository then CountRole(tasks[tid].attempts, role) else 0
  }

  ghost function LaneAttempts(tasks: map<TaskId, Task>, repository: Repository, role: Role): int {
    Total(tasks.Keys, LaneShare(tasks, repository, role))
  }

  ghost predicate LaneLedger(db: DB) {
    forall r, role :: r in db.lanes ==> ClaimsOf(db.lanes[r], role) == LaneAttempts(db.tasks, r, role)
  }

  // ---- the invariant

  ghost predicate RowsInv(db: DB) {
    forall tid :: tid in db.tasks ==> RowInv(db.tasks[tid], db.uuids) && db.tasks[tid].meta.repository in db.lanes
  }

  /** A worker holds at most one task (the unique index idx_worker_active). */
  ghost predicate OneTaskPerWorker(db: DB) {
    forall a, b :: a in db.tasks && b in db.tasks && a != b && db.tasks[a].lease.holder.Some? ==>
      db.tasks[a].lease.holder != db.tasks[b].lease.holder
  }

  ghost predicate Inv(db: DB) {
    RowsInv(db) && OneTaskPerWorker(db) && LaneLedger(db)
  }

  // ---- rows

  ghost predicate RowStep(t: Task, t': Task, uuids: nat) {
    RowInv(t', uuids) && t'.meta == t.meta && SameRoles(t.attempts, t'.attempts) &&
    (t'.lease.holder == t.lease.holder || t'.lease.holder.None?)
  }

  lemma QuietRowStep(cfg: Config, op: Op, tid: TaskId, t: Task, t': Task, now: int, uuids: nat)
    requires RowInv(t, uuids) && QuietRow(cfg, op, tid, t, t', now)
    ensures RowStep(t, t', uuids)
  {
    if t' != t {
      var move :| QuietMove(cfg, op, tid, t, t', now, move);
      RowKept(cfg, t, now, move, uuids, uuids);
      QuietMoveShape(t, now, move);
    }
  }

  lemma QuietMoveShape(t: Task, now: int, move: Move)
    requires !move.Acquire?
    ensures var t' := Apply(t, now, move);
      t'.meta == t.meta && SameRoles(t.attempts, t'.attempts) &&
      (t'.lease.holder == t.lease.holder || t'.lease.holder.None?)
  {
  }

  lemma NewRowInv(t: Task, now: int, uuids: nat)
    requires NewRow(t, now)
    ensures RowInv(t, uuids)
  {
  }

  // ---- quiet stages

  lemma QuietStepsRows(cfg: Config, op: Op, db: DB, db': DB, now: int)
    requires Inv(db) && Quiet(cfg, op, db, db', now)
    ensures forall tid :: tid in db.tasks ==> tid in db'.tasks && RowStep(db.tasks[tid], db'.tasks[tid], db.uuids)
  {
    hide RowInv, RowStep, QuietRow, LaneLedger, OneTaskPerWorker, QuietLanes;
    forall tid | tid in db.tasks ensures RowStep(db.tasks[tid], db'.tasks[tid], db.uuids) {
      QuietRowStep(cfg, op, tid, db.tasks[tid], db'.tasks[tid], now, db.uuids);
    }
  }

  lemma QuietKeepsRows(cfg: Config, op: Op, db: DB, db': DB, now: int)
    requires Inv(db) && Quiet(cfg, op, db, db', now)
    ensures RowsInv(db') && OneTaskPerWorker(db')
    ensures forall tid :: tid in db.tasks ==> RowStep(db.tasks[tid], db'.tasks[tid], db.uuids)
  {
    hide RowInv, QuietRow, LaneLedger;
    QuietStepsRows(cfg, op, db, db', now);
    forall tid | tid in db.tasks ensures db'.tasks[tid].meta.repository in db'.lanes {
      assert db.tasks[tid].meta.repository in db.lanes;
    }
    forall tid | tid in db'.tasks && tid !in db.tasks ensures RowInv(db'.tasks[tid], db'.uuids) {
      NewRowInv(db'.tasks[tid], now, db'.uuids);
    }
  }

  lemma QuietKeepsLaneAttempts(cfg: Config, op: Op, db: DB, db': DB, now: int, r: Repository, role: Role)
    requires Inv(db) && Quiet(cfg, op, db, db', now)
    requires forall tid :: tid in db.tasks ==> RowStep(db.tasks[tid], db'.tasks[tid], db.uuids)
    ensures LaneAttempts(db'.tasks, r, role) == LaneAttempts(db.tasks, r, role)
  {
    hide RowInv, LaneLedger, OneTaskPerWorker, QuietRow, QuietLanes;
    var f, g := LaneShare(db.tasks, r, role), LaneShare(db'.tasks, r, role);
    forall tid | tid in db.tasks ensures f(tid) == g(tid) {
      CountSame(db.tasks[tid].attempts, db'.tasks[tid].attempts, role);
    }
    TotalCongruent(db.tasks.Keys, f, g);
    forall tid | tid in db'.tasks.Keys && tid !in db.tasks.Keys ensures g(tid) == 0 {
      assert NewRow(db'.tasks[tid], now);
    }
    TotalExtend(db.tasks.Keys, db'.tasks.Keys, g);
  }

  lemma NoAttemptsElsewhere(db: DB, r: Repository, role: Role)
    requires Inv(db) && r !in db.lanes
    ensures LaneAttempts(db.tasks, r, role) == 0
  {
    TotalZero(db.tasks.Keys, LaneShare(db.tasks, r, role));
  }

  lemma QuietKeepsInv(cfg: Config, op: Op, db: DB, db': DB, now: int)
    requires Inv(db) && Quiet(cfg, op, db, db', now)
    ensures Inv(db')
  {
    hide RowInv, RowStep;
    QuietKeepsRows(cfg, op, db, db', now);
    forall r, role | r in db'.lanes ensures ClaimsOf(db'.lanes[r], role) == LaneAttempts(db'.tasks, r, role) {
      QuietKeepsLaneAttempts(cfg, op, db, db', now, r, role);
      if r !in db.lanes { NoAttemptsElsewhere(db, r, role); }
    }
  }

  // ---- grants

  ghost function GrantMove(db: DB, now: int, c: Claim): Move {
    Acquire(c.worker, c.role, db.uuids, db.uuids + 1, now + c.ttl)
  }

  lemma GrantShape(cfg: Config, db: DB, db': DB, now: int, c: Claim)
    requires Granted(cfg, db, db', now, c)
    ensures c.task in db.tasks && Enabled(cfg, db.tasks[c.task], now, GrantMove(db, now, c))
    ensures db'.tasks == db.tasks[c.task := Apply(db.tasks[c.task], now, GrantMove(db, now, c))]
    ensures db'.uuids == db.uuids + 2 && db'.lanes.Keys == db.lanes.Keys
  {
    hide IsFirst, NotReady, Apply;
  }

  lemma GrantedIsIdle(cfg: Config, db: DB, db': DB, now: int, c: Claim)
    requires RowsInv(db) && Granted(cfg, db, db', now, c)
    ensures forall tid :: tid in db.tasks ==> db.tasks[tid].lease.holder != Some(c.worker)
  {
    hide RowInv, IsFirst, Candidates, Grant;
    forall tid | tid in db.tasks ensures db.tasks[tid].lease.holder != Some(c.worker) {
      LeasedIsActive(db.tasks[tid], db.uuids);
    }
  }

  lemma GrantEnabled(cfg: Config, db: DB, db': DB, now: int, c: Claim)
    requires Inv(db) && Granted(cfg, db, db', now, c)
    ensures c.task in db.tasks && Enabled(cfg, db.tasks[c.task], now, GrantMove(db, now, c))
    ensures db'.tasks == db.tasks[c.task := Apply(db.tasks[c.task], now, GrantMove(db, now, c))]
    ensures db'.uuids == db.uuids + 2 && db'.lanes.Keys == db.lanes.Keys
    ensures RowInv(db'.tasks[c.task], db'.uuids)
    ensures forall tid :: tid in db.tasks ==> db.tasks[tid].lease.holder != Some(c.worker)
  {
    hide RowInv, Granted, LaneLedger, OneTaskPerWorker, Apply, Enabled;
    GrantShape(cfg, db, db', now, c);
    GrantedIsIdle(cfg, db, db', now, c);
    RowKept(cfg, db.tasks[c.task], now, GrantMove(db, now, c), db.uuids, db'.uuids);
  }

  lemma LeasedIsActive(t: Task, uuids: nat)
    requires RowInv(t, uuids)
    ensures t.lease.holder.Some? ==> Active(t)
  {
  }

  lemma RowInvLater(t: Task, uuids: nat, uuids': nat)
    requires RowInv(t, uuids) && uuids <= uuids'
    ensures RowInv(t, uuids')
  {
    LaterUuids(t, uuids, uuids');
  }

  lemma GrantKeepsRows(cfg: Config, db: DB, db': DB, now: int, c: Claim)
    requires Inv(db) && Granted(cfg, db, db', now, c)
    ensures RowsInv(db') && OneTaskPerWorker(db')
  {
    hide RowInv, Granted;
    GrantEnabled(cfg, db, db', now, c);
    forall tid | tid in db'.tasks ensures RowInv(db'.tasks[tid], db'.uuids) {
      if tid != c.task { RowInvLater(db.tasks[tid], db.uuids, db'.uuids); }
    }
  }

  lemma GrantCounts(cfg: Config, db: DB, db': DB, now: int, c: Claim, r: Repository, role: Role)
    requires Inv(db) && Granted(cfg, db, db', now, c)
    ensures LaneAttempts(db'.tasks, r, role) == LaneAttempts(db.tasks, r, role) +
      if r == db.tasks[c.task].meta.repository && role == c.role then 1 else 0
  {
    hide RowInv, Granted;
    GrantEnabled(cfg, db, db', now, c);
    var t, t' := db.tasks[c.task], db'.tasks[c.task];
    assert t'.attempts[..|t'.attempts| - 1] == t.attempts;
    assert db'.tasks.Keys == db.tasks.Keys;
    TotalChange(db.tasks.Keys, LaneShare(db.tasks, r, role), LaneShare(db'.tasks, r, role), c.task);
  }

  lemma GrantKeepsInv(cfg: Config, db: DB, db': DB, now: int, c: Claim)
    requires Inv(db) && Granted(cfg, db, db', now, c)
    ensures Inv(db')
  {
    hide RowInv;
    GrantKeepsRows(cfg, db, db', now, c);
    forall r, role | r in db'.lanes ensures ClaimsOf(db'.lanes[r], role) == LaneAttempts(db'.tasks, r, role) {
      GrantCounts(cfg, db, db', now, c, r, role);
    }
  }

  // ---- steps and runs

  /** Every operation keeps the invariant, whatever its parameters. */
  lemma StepKeepsInv(cfg: Config, db: DB, now: int, op: Op)
    requires Inv(db) && Possible(cfg, db, now, op)
    ensures Inv(After(cfg, db, now, op))
    ensures Inv(Recovered(cfg, db, now, op)) && Inv(Swept(cfg, db, now, op))
  {
    StepStages(cfg, db, now, op);
    var mid := Swept(cfg, db, now, op);
    QuietKeepsInv(cfg, op, db, Recovered(cfg, db, now, op), now);
    QuietKeepsInv(cfg, op, Recovered(cfg, db, now, op), mid, now);
    if Quiet(cfg, op, mid, After(cfg, db, now, op), now) {
      QuietKeepsInv(cfg, op, mid, After(cfg, db, now, op), now);
    } else {
      var c :| GrantedTo(cfg, mid, After(cfg, db, now, op), now, op, c);
      GrantKeepsInv(cfg, mid, After(cfg, db, now, op), now, c);
    }
  }

  datatype Event = Event(now: int, op: Op)

  /** The events can happen one after the other, starting from `db`. */
  ghost predicate Run(cfg: Config, db: DB, events: seq<Event>)
    decreases |events|
  {
    events == [] ||
    (Possible(cfg, db, events[0].now, events[0].op) &&
     Run(cfg, After(cfg, db, events[0].now, events[0].op), events[1..]))
  }

  ghost function End(cfg: Config, db: DB, events: seq<Event>): DB
    requires Run(cfg, db, events)
    decreases |events|
  {
    if events == [] then db else End(cfg, After(cfg, db, events[0].now, events[0].op), events[1..])
  }

  ghost predicate Reachable(cfg: Config, db: DB) {
    exists events :: Run(cfg, EMPTY_DB, events) && End(cfg, EMPTY_DB, events) == db
  }

  lemma {:induction false} RunKeepsInv(cfg: Config, db: DB, events: seq<Event>)
    requires Inv(db) && Run(cfg, db, events)
    ensures Inv(End(cfg, db, events))
    decreases |events|
  {
    if events != [] {
      StepKeepsInv(cfg, db, events[0].now, events[0].op);
      RunKeepsInv(cfg, After(cfg, db, events[0].now, events[0].op), events[1..]);
    }
  }

  lemma EmptyInv()
    ensures Inv(EMPTY_DB)
  {
  }

  /** The invariant holds in every state reachable from a fresh schema. */
  lemma ReachableInv(cfg: Config, db: DB)
    requires Reachable(cfg, db)
    ensures Inv(db)
  {
    var events :| Run(cfg, EMPTY_DB, events) && End(cfg, EMPTY_DB, events) == db;
    EmptyInv();
    RunKeepsInv(cfg, EMPTY_DB, events);
  }

  // ---- conservation

  ghost function GenerationShare(tasks: map<TaskId, Task>, repository: Repository): nat -> int {
    tid => if tid in tasks && tasks[tid].meta.repository == repository then tasks[tid].generation else 0
  }

  ghost function RowShare(tasks: map<TaskId, Task>, repository: Repository): nat -> int {
    tid => if tid in tasks && tasks[tid].meta.repository == repository then |tasks[tid].attempts| else 0
  }

  lemma SharesAddUp(db: DB, r: Repository)
    requires RowsInv(db)
    ensures LaneAttempts(db.tasks, r, Builder) + LaneAttempts(db.tasks, r, Validator) ==
      Total(db.tasks.Keys, GenerationShare(db.tasks, r)) == Total(db.tasks.Keys, RowShare(db.tasks, r))
  {
    hide RowInv;
    var f, g := LaneShare(db.tasks, r, Builder), LaneShare(db.tasks, r, Validator);
    var h, rows := GenerationShare(db.tasks, r), RowShare(db.tasks, r);
    forall tid | tid in db.tasks.Keys ensures h(tid) == f(tid) + g(tid) && rows(tid) == h(tid) {
      CountBoth(db.tasks[tid].attempts);
      OneRowPerGeneration(db.tasks[tid], db.uuids);
    }
    TotalAdd(db.tasks.Keys, f, g, h);
    TotalCongruent(db.tasks.Keys, rows, h);
  }

  lemma OneRowPerGeneration(t: Task, uuids: nat)
    requires RowInv(t, uuids)
    ensures |t.attempts| == t.generation
  {
  }

  /** Conservation: in every reachable state the Builder and Validator claims of a lane are the sum of
      the lease generations of its tasks, and the number of their attempt rows. */
  lemma LaneConservation(cfg: Config, db: DB, r: Repository)
    requires Reachable(cfg, db) && r in db.lanes
    ensures db.lanes[r].builderClaims + db.lanes[r].validatorClaims ==
      Total(db.tasks.Keys, GenerationShare(db.tasks, r)) == Total(db.tasks.Keys, RowShare(db.tasks, r))
  {
    hide RowInv, LaneAttempts, GenerationShare, RowShare;
    ReachableInv(cfg, db);
    SharesAddUp(db, r);
    assert ClaimsOf(db.lanes[r], Builder) == LaneAttempts(db.tasks, r, Builder);
    assert ClaimsOf(db.lanes[r], Validator) == LaneAttempts(db.tasks, r, Validator);
  }
}
