/** Budgets: which steps go past max_attempts and past max_in_flight, exactly, and how far runs can. */
module Budgets {
  import opened Wrappers
  import opened PoolTypes
  import opened PoolRows
  import opened PoolSpec
  import opened PoolSteps
  import opened Ledger
  import opened PoolInvariant
  import opened Fencing
  import Evolution

  // ---- attempts of a task

  /** How many attempts a task may have used in its state after `n` requeues. */
  ghost predicate WithinAttempts(t: Task, n: nat) {
    match t.state
    case Queued => t.attemptCount + 1 <= t.meta.maxAttempts + n
    case Leased => t.attemptCount <= t.meta.maxAttempts + n
    case Running => t.attemptCount <= t.meta.maxAttempts + n
    case Validating => t.attemptCount <= t.meta.maxAttempts + n + if t.lease.holder.Some? then 1 else 0
    case Blocked => t.attemptCount <= t.meta.maxAttempts + n + if t.producedSha.Some? then 1 else 0
    case _ => t.attemptCount <= t.meta.maxAttempts + 1 + n
  }

  ghost function Cost(move: Move): nat {
    if move.Requeue? then 1 else 0
  }

  lemma MoveKeepsAttempts(cfg: Config, t: Task, now: int, move: Move, n: nat)
    requires ResultColumns(t) && LeaseTogether(t) && WithinAttempts(t, n) && Enabled(cfg, t, now, move)
    ensures WithinAttempts(Apply(t, now, move), n + Cost(move))
  {
  }

  ghost predicate TaskWithin(db: DB, tid: TaskId, n: nat) {
    tid in db.tasks ==> WithinAttempts(db.tasks[tid], n)
  }

  ghost function CostOf(op: Op, tid: TaskId): nat {
    if op.RequeueOp? && op.tid == tid then 1 else 0
  }

  lemma RowKeepsAttempts(cfg: Config, op: Op, tid: TaskId, t: Task, t': Task, now: int, uuids: nat, n: nat)
    requires RowInv(t, uuids) && WithinAttempts(t, n) && QuietRow(cfg, op, tid, t, t', now)
    ensures WithinAttempts(t', n + CostOf(op, tid))
  {
    hide WithinAttempts, Enabled, Apply, RowInv;
    MoreRequeuesAllowed(t, n, n + CostOf(op, tid));
    if t' != t {
      var move :| QuietMove(cfg, op, tid, t, t', now, move);
      RowParts(t, uuids);
      MoveKeepsAttempts(cfg, t, now, move, n);
      MoreRequeuesAllowed(t', n + Cost(move), n + CostOf(op, tid));
    }
  }

  lemma QuietKeepsAttempts(cfg: Config, op: Op, db: DB, db': DB, now: int, tid: TaskId, n: nat)
    requires Inv(db) && Quiet(cfg, op, db, db', now) && TaskWithin(db, tid, n)
    ensures TaskWithin(db', tid, n + CostOf(op, tid))
  {
    hide WithinAttempts, RowInv, QuietRow, QuietLanes, LaneLedger, OneTaskPerWorker;
    if tid in db.tasks {
      RowKeepsAttempts(cfg, op, tid, db.tasks[tid], db'.tasks[tid], now, db.uuids, n);
    } else if tid in db'.tasks {
      NewWithin(db'.tasks[tid], now, n + CostOf(op, tid));
    }
  }

  lemma RowParts(t: Task, uuids: nat)
    requires RowInv(t, uuids)
    ensures ResultColumns(t) && LeaseTogether(t)
  {
  }

  lemma MoreRequeuesAllowed(t: Task, n: nat, m: nat)
    requires WithinAttempts(t, n) && n <= m
    ensures WithinAttempts(t, m)
  {
  }

  lemma NewWithin(t: Task, now: int, n: nat)
    requires NewRow(t, now)
    ensures WithinAttempts(t, n)
  {
  }

  lemma GrantKeepsAttempts(cfg: Config, db: DB, db': DB, now: int, c: Claim, tid: TaskId, n: nat)
    requires Inv(db) && Granted(cfg, db, db', now, c) && TaskWithin(db, tid, n)
    ensures TaskWithin(db', tid, n)
  {
    hide RowInv, Granted, Apply, WithinAttempts;
    GrantEnabled(cfg, db, db', now, c);
    if tid == c.task {
      RowParts(db.tasks[tid], db.uuids);
      MoveKeepsAttempts(cfg, db.tasks[tid], now, GrantMove(db, now, c), n);
    }
  }

  /** `requeue_blocked` calls for the task that succeed during the run. */
  ghost function Requeues(cfg: Config, db: DB, events: seq<Event>, tid: TaskId): nat
    requires Run(cfg, db, events)
    decreases |events|
  {
    if events == [] then 0
    else
      var e := events[0];
      (if e.op == RequeueOp(tid) && RequeueBlocked(db, e.now, tid).Commit? then 1 else 0) +
      Requeues(cfg, After(cfg, db, e.now, e.op), events[1..], tid)
  }

  lemma StepKeepsAttempts(cfg: Config, db: DB, now: int, op: Op, tid: TaskId, n: nat)
    requires Inv(db) && Possible(cfg, db, now, op) && TaskWithin(db, tid, n)
    ensures TaskWithin(After(cfg, db, now, op), tid,
      n + if op == RequeueOp(tid) && RequeueBlocked(db, now, tid).Commit? then 1 else 0)
  {
    hide Inv, TaskWithin, Quiet, Granted;
    if op.RequeueOp? {
      if RequeueBlocked(db, now, op.tid).Commit? {
        StepStages(cfg, db, now, op);
        QuietKeepsAttempts(cfg, op, db, After(cfg, db, now, op), now, tid, n);
      }
    } else {
      hide After;
      StepStages(cfg, db, now, op);
      StepKeepsInv(cfg, db, now, op);
      var first, mid, last := Recovered(cfg, db, now, op), Swept(cfg, db, now, op), After(cfg, db, now, op);
      QuietKeepsAttempts(cfg, op, db, first, now, tid, n);
      QuietKeepsAttempts(cfg, op, first, mid, now, tid, n);
      if Quiet(cfg, op, mid, last, now) {
        QuietKeepsAttempts(cfg, op, mid, last, now, tid, n);
      } else {
        var c :| GrantedTo(cfg, mid, last, now, op, c);
        GrantKeepsAttempts(cfg, mid, last, now, c, tid, n);
      }
    }
  }

  lemma {:induction false} RunKeepsAttempts(cfg: Config, db: DB, events: seq<Event>, tid: TaskId, n: nat)
    requires Inv(db) && Run(cfg, db, events) && TaskWithin(db, tid, n)
    ensures TaskWithin(End(cfg, db, events), tid, n + Requeues(cfg, db, events, tid))
    decreases |events|
  {
    hide Inv, TaskWithin, After, RequeueBlocked;
    if events != [] {
      var e := events[0];
      var spent := if e.op == RequeueOp(tid) && RequeueBlocked(db, e.now, tid).Commit? then 1 else 0;
      StepKeepsAttempts(cfg, db, e.now, e.op, tid, n);
      StepKeepsInv(cfg, db, e.now, e.op);
      RunKeepsAttempts(cfg, After(cfg, db, e.now, e.op), events[1..], tid, n + spent);
    }
  }

  /** `claim_task` never looks at max_attempts, and yet a task never has more than
      max_attempts + 1 attempts, plus one for each time it was requeued by hand. */
  lemma AttemptsAreBounded(cfg: Config, events: seq<Event>, tid: TaskId)
    requires Run(cfg, EMPTY_DB, events) && tid in End(cfg, EMPTY_DB, events).tasks
    ensures var t := End(cfg, EMPTY_DB, events).tasks[tid];
      t.attemptCount <= t.meta.maxAttempts + 1 + Requeues(cfg, EMPTY_DB, events, tid)
  {
    hide Inv;
    EmptyInv();
    RunKeepsAttempts(cfg, EMPTY_DB, events, tid, 0);
  }

  // ---- which steps go past max_attempts

  /** The operation is a claim that is handed this task. */
  ghost predicate GrantsTask(cfg: Config, db: DB, now: int, op: Op, tid: TaskId)
    requires Possible(cfg, db, now, op)
  {
    exists g :: Hands(cfg, db, now, op, g) && g.task == tid
  }

  ghost predicate SameBudget(t: Task, t': Task) {
    t'.attemptCount == t.attemptCount && t'.meta == t.meta
  }

  lemma QuietMoveKeepsBudget(t: Task, now: int, move: Move)
    requires !move.Acquire?
    ensures SameBudget(t, Apply(t, now, move))
  {
  }

  lemma QuietKeepsBudget(cfg: Config, op: Op, db: DB, db': DB, now: int, tid: TaskId)
    requires Quiet(cfg, op, db, db', now) && tid in db.tasks
    ensures tid in db'.tasks && SameBudget(db.tasks[tid], db'.tasks[tid])
  {
    hide Apply, Enabled, MoveOf, QuietLanes, SameBudget;
    assert QuietRow(cfg, op, tid, db.tasks[tid], db'.tasks[tid], now);
    if db'.tasks[tid] != db.tasks[tid] {
      var move :| QuietMove(cfg, op, tid, db.tasks[tid], db'.tasks[tid], now, move);
      QuietMoveKeepsBudget(db.tasks[tid], now, move);
    } else {
      SameBudgetRefl(db.tasks[tid]);
    }
  }

  lemma SameBudgetRefl(t: Task)
    ensures SameBudget(t, t)
  {
  }

  lemma GrantSpends(cfg: Config, db: DB, db': DB, now: int, c: Claim, tid: TaskId)
    requires Granted(cfg, db, db', now, c) && tid in db.tasks
    ensures tid in db'.tasks && db'.tasks[tid].meta == db.tasks[tid].meta
    ensures db'.tasks[tid].attemptCount == db.tasks[tid].attemptCount + if c.task == tid then 1 else 0
  {
    hide IsFirst, NotReady;
  }

  /** What a claim is handed is the one grant of its step. */
  lemma ClaimSpends(cfg: Config, db: DB, now: int, op: Op, tid: TaskId)
    requires op.ClaimOp? && Possible(cfg, db, now, op) && tid in db.tasks
    ensures var db' := After(cfg, db, now, op);
      tid in db'.tasks && db'.tasks[tid].meta == db.tasks[tid].meta &&
      db'.tasks[tid].attemptCount == db.tasks[tid].attemptCount + if GrantsTask(cfg, db, now, op, tid) then 1 else 0
  {
    hide ClaimTask, ClaimBase, Quiet, Granted;
    var tx := ClaimTask(cfg, db, now, op.id, op.role, op.seconds, op.only, op.fenced, op.order);
    ClaimOutcome(cfg, db, now, op.id, op.role, op.seconds, op.only, op.fenced, op.order);
    ClaimBaseIsQuiet(cfg, op, db, now, op.only, op.order);
    var base := ClaimBase(cfg, db, now, op.only, op.order);
    if op.only.None? {
      QuietKeepsBudget(cfg, op, db, RecoverExpired(db, now), now, tid);
      QuietKeepsBudget(cfg, op, RecoverExpired(db, now), base, now, tid);
    }
    if tx.Commit? && tx.value.Some? {
      var c := Claim(tx.value.value.task, op.id, op.role, OrDefault(op.seconds, cfg.leaseSeconds), op.only, op.fenced);
      GrantSpends(cfg, base, tx.db, now, c, tid);
      assert Hands(cfg, db, now, op, tx.value.value);
    }
  }

  /** A step spends an attempt of a task exactly by granting it. */
  lemma StepSpends(cfg: Config, db: DB, now: int, op: Op, tid: TaskId)
    requires Possible(cfg, db, now, op) && tid in db.tasks
    ensures var db' := After(cfg, db, now, op);
      tid in db'.tasks && db'.tasks[tid].meta == db.tasks[tid].meta &&
      db'.tasks[tid].attemptCount == db.tasks[tid].attemptCount + if GrantsTask(cfg, db, now, op, tid) then 1 else 0
  {
    hide After, Quiet, Recovered, Swept;
    if op.ClaimOp? {
      ClaimSpends(cfg, db, now, op, tid);
    } else {
      StepStages(cfg, db, now, op);
      QuietKeepsBudget(cfg, op, db, Recovered(cfg, db, now, op), now, tid);
      QuietKeepsBudget(cfg, op, Recovered(cfg, db, now, op), Swept(cfg, db, now, op), now, tid);
      QuietKeepsBudget(cfg, op, Swept(cfg, db, now, op), After(cfg, db, now, op), now, tid);
    }
  }

  /** The one way past max_attempts: the task is granted although its attempts are used up. */
  ghost predicate GrantsUsedUp(cfg: Config, db: DB, now: int, op: Op, tid: TaskId)
    requires Possible(cfg, db, now, op)
  {
    tid in db.tasks && db.tasks[tid].attemptCount >= db.tasks[tid].meta.maxAttempts && GrantsTask(cfg, db, now, op, tid)
  }

  /** `attempt_count <= max_attempts` survives a step exactly unless the step grants a task whose
      attempts are used up. */
  lemma StepPassesLimitExactly(cfg: Config, db: DB, now: int, op: Op, tid: TaskId)
    requires Possible(cfg, db, now, op) && tid in db.tasks && db.tasks[tid].attemptCount <= db.tasks[tid].meta.maxAttempts
    ensures var db' := After(cfg, db, now, op);
      tid in db'.tasks &&
      (db'.tasks[tid].attemptCount > db'.tasks[tid].meta.maxAttempts <==> GrantsUsedUp(cfg, db, now, op, tid))
  {
    hide After, GrantsTask;
    StepSpends(cfg, db, now, op, tid);
  }

  /** Some step of the run grants the task although its attempts are used up. */
  ghost predicate EverGrantsUsedUp(cfg: Config, db: DB, events: seq<Event>, tid: TaskId)
    requires Run(cfg, db, events)
    decreases |events|
  {
    events != [] &&
    (GrantsUsedUp(cfg, db, events[0].now, events[0].op, tid) ||
     EverGrantsUsedUp(cfg, After(cfg, db, events[0].now, events[0].op), events[1..], tid))
  }

  ghost predicate PastLimit(db: DB, tid: TaskId) {
    tid in db.tasks && db.tasks[tid].attemptCount > db.tasks[tid].meta.maxAttempts
  }

  lemma StepPastLimit(cfg: Config, db: DB, now: int, op: Op, tid: TaskId)
    requires Inv(db) && Possible(cfg, db, now, op)
    ensures PastLimit(After(cfg, db, now, op), tid) <==> PastLimit(db, tid) || GrantsUsedUp(cfg, db, now, op, tid)
  {
    hide After, GrantsTask, Inv;
    if tid in db.tasks {
      StepSpends(cfg, db, now, op, tid);
    } else {
      StepKeepsAttempts(cfg, db, now, op, tid, 0);
      NewTaskWithin(cfg, db, now, op, tid);
    }
  }

  /** A task enters with no attempt and at least one allowed. */
  lemma NewTaskWithin(cfg: Config, db: DB, now: int, op: Op, tid: TaskId)
    requires Inv(db) && Possible(cfg, db, now, op) && tid !in db.tasks
    ensures !PastLimit(After(cfg, db, now, op), tid)
  {
    hide After, Inv, Quiet, Granted, Recovered, Swept;
    StepStages(cfg, db, now, op);
    StepKeepsInv(cfg, db, now, op);
    var first, mid, last := Recovered(cfg, db, now, op), Swept(cfg, db, now, op), After(cfg, db, now, op);
    QuietPastLimit(cfg, op, db, first, now, tid);
    QuietPastLimit(cfg, op, first, mid, now, tid);
    if Quiet(cfg, op, mid, last, now) {
      QuietPastLimit(cfg, op, mid, last, now, tid);
    } else {
      var c :| GrantedTo(cfg, mid, last, now, op, c);
      NoNewTasks(cfg, db, now, op);
      GrantEnabled(cfg, mid, last, now, c);
    }
  }

  lemma QuietPastLimit(cfg: Config, op: Op, db: DB, db': DB, now: int, tid: TaskId)
    requires Quiet(cfg, op, db, db', now) && !PastLimit(db, tid)
    ensures !PastLimit(db', tid)
  {
    hide QuietRow, QuietLanes, NewRow;
    if tid in db.tasks {
      QuietKeepsBudget(cfg, op, db, db', now, tid);
    } else if tid in db'.tasks {
      NewHasBudget(db'.tasks[tid], now);
    }
  }

  lemma NewHasBudget(t: Task, now: int)
    requires NewRow(t, now)
    ensures t.attemptCount <= t.meta.maxAttempts
  {
  }

  lemma NoNewTasks(cfg: Config, db: DB, now: int, op: Op)
    requires op.ClaimOp? && Possible(cfg, db, now, op)
    ensures Swept(cfg, db, now, op).tasks.Keys == db.tasks.Keys
  {
    hide ClaimTask, Apply, SweepRows, Stalled, Scan;
    if op.only.None? { SweepRowsKeys(cfg, RecoverExpired(db, now), now, op.order); }
  }

  lemma {:induction false} RunPastLimit(cfg: Config, db: DB, events: seq<Event>, tid: TaskId)
    requires Inv(db) && Run(cfg, db, events)
    ensures PastLimit(End(cfg, db, events), tid) <==> PastLimit(db, tid) || EverGrantsUsedUp(cfg, db, events, tid)
    decreases |events|
  {
    hide Inv, After, PastLimit, GrantsUsedUp;
    if events != [] {
      StepPastLimit(cfg, db, events[0].now, events[0].op, tid);
      StepKeepsInv(cfg, db, events[0].now, events[0].op);
      RunPastLimit(cfg, After(cfg, db, events[0].now, events[0].op), events[1..], tid);
    }
  }

  /** Over whole runs: a task is past max_attempts exactly if it was ever granted with its attempts used up. */
  lemma PassesLimitExactly(cfg: Config, events: seq<Event>, tid: TaskId)
    requires Run(cfg, EMPTY_DB, events) && tid in End(cfg, EMPTY_DB, events).tasks
    ensures var t := End(cfg, EMPTY_DB, events).tasks[tid];
      t.attemptCount > t.meta.maxAttempts <==> EverGrantsUsedUp(cfg, EMPTY_DB, events, tid)
  {
    hide Inv, EverGrantsUsedUp;
    EmptyInv();
    RunPastLimit(cfg, EMPTY_DB, events, tid);
  }

  // ---- active tasks of a lane

  ghost predicate LaneWithin(db: DB, r: Repository, n: nat) {
    if r in db.lanes then |ActiveIn(db, r)| <= db.lanes[r].maxInFlight + n else true
  }

  /** A requeue that puts a task with a result straight back among the active ones. */
  ghost predicate Readmits(db: DB, op: Op, r: Repository) {
    op.RequeueOp? && op.tid in db.tasks && db.tasks[op.tid].meta.repository == r &&
    db.tasks[op.tid].state == Blocked && db.tasks[op.tid].producedSha.Some? && Clear(db.tasks[op.tid])
  }

  lemma MoveKeepsInactive(cfg: Config, op: Op, tid: TaskId, t: Task, now: int, move: Move)
    requires !move.Acquire? && MoveOf(cfg, op, now, tid, move) && Enabled(cfg, t, now, move)
    requires !Active(t) && Active(Apply(t, now, move))
    ensures op == RequeueOp(tid) && t.state == Blocked && t.producedSha.Some? && Clear(t)
  {
    hide Clear;
  }

  lemma {:induction false} SubsetSize(a: set<TaskId>, b: set<TaskId>)
    requires a <= b
    ensures |a| <= |b|
    decreases b
  {
    if a != {} {
      var x :| x in a;
      SubsetSize(a - {x}, b - {x});
    }
  }

  lemma RowActivated(cfg: Config, op: Op, tid: TaskId, t: Task, t': Task, now: int, r: Repository)
    requires QuietRow(cfg, op, tid, t, t', now) && t'.meta.repository == r && Active(t')
    ensures t.meta.repository == r
    ensures Active(t) || (op == RequeueOp(tid) && t.state == Blocked && t.producedSha.Some? && Clear(t))
  {
    hide Apply, Enabled, MoveOf, Clear;
    if t' != t {
      var move :| QuietMove(cfg, op, tid, t, t', now, move);
      QuietMoveShape(t, now, move);
      if !Active(t) { MoveKeepsInactive(cfg, op, tid, t, now, move); }
    }
  }

  lemma QuietActive(cfg: Config, op: Op, db: DB, db': DB, now: int, r: Repository)
    requires Quiet(cfg, op, db, db', now)
    ensures Readmits(db, op, r) ==> ActiveIn(db', r) <= ActiveIn(db, r) + {op.tid}
    ensures !Readmits(db, op, r) ==> ActiveIn(db', r) <= ActiveIn(db, r)
  {
    hide QuietRow, Clear, QuietLanes;
    forall tid | tid in ActiveIn(db', r) && tid !in ActiveIn(db, r)
      ensures Readmits(db, op, r) && tid == op.tid
    {
      if tid in db.tasks { RowActivated(cfg, op, tid, db.tasks[tid], db'.tasks[tid], now, r); }
    }
  }

  ghost predicate NeverLowers(db: DB, op: Op, r: Repository) {
    op.ConfigureOp? && op.repository == r && r in db.lanes ==> db.lanes[r].maxInFlight <= op.maxInFlight
  }

  lemma NothingActiveElsewhere(db: DB, r: Repository)
    requires Inv(db) && r !in db.lanes
    ensures ActiveIn(db, r) == {}
  {
  }

  lemma QuietKeepsLane(cfg: Config, op: Op, db: DB, db': DB, now: int, r: Repository, n: nat)
    requires Inv(db) && Quiet(cfg, op, db, db', now) && LaneWithin(db, r, n) && NeverLowers(db, op, r)
    ensures LaneWithin(db', r, n + if Readmits(db, op, r) then 1 else 0)
  {
    hide Inv, QuietTasks, Clear;
    QuietActive(cfg, op, db, db', now, r);
    if Readmits(db, op, r) {
      SubsetSize(ActiveIn(db', r), ActiveIn(db, r) + {op.tid});
    } else {
      SubsetSize(ActiveIn(db', r), ActiveIn(db, r));
    }
    if r !in db.lanes { NothingActiveElsewhere(db, r); }
  }

  lemma GrantKeepsLane(cfg: Config, db: DB, db': DB, now: int, c: Claim, r: Repository, n: nat)
    requires Inv(db) && Granted(cfg, db, db', now, c) && LaneWithin(db, r, n)
    ensures LaneWithin(db', r, n)
  {
    hide RowInv, IsFirst, NotReady, LaneLedger, OneTaskPerWorker;
    GrantEnabled(cfg, db, db', now, c);
    if c.role == Builder && db.tasks[c.task].meta.repository == r {
      SubsetSize(ActiveIn(db', r), ActiveIn(db, r) + {c.task});
    } else {
      SubsetSize(ActiveIn(db', r), ActiveIn(db, r));
    }
  }

  ghost function Readmissions(cfg: Config, db: DB, events: seq<Event>, r: Repository): nat
    requires Run(cfg, db, events)
    decreases |events|
  {
    if events == [] then 0
    else
      var e := events[0];
      (if Readmits(db, e.op, r) then 1 else 0) +
      Readmissions(cfg, After(cfg, db, e.now, e.op), events[1..], r)
  }

  ghost predicate CapacityOnlyRises(cfg: Config, db: DB, events: seq<Event>, r: Repository)
    requires Run(cfg, db, events)
    decreases |events|
  {
    events == [] ||
    (NeverLowers(db, events[0].op, r) &&
     CapacityOnlyRises(cfg, After(cfg, db, events[0].now, events[0].op), events[1..], r))
  }

  lemma StepKeepsLane(cfg: Config, db: DB, now: int, op: Op, r: Repository, n: nat)
    requires Inv(db) && Possible(cfg, db, now, op) && LaneWithin(db, r, n) && NeverLowers(db, op, r)
    ensures LaneWithin(After(cfg, db, now, op), r, n + if Readmits(db, op, r) then 1 else 0)
  {
    hide Inv, LaneWithin, Quiet, Granted, After;
    StepStages(cfg, db, now, op);
    StepKeepsInv(cfg, db, now, op);
    var first, mid, last := Recovered(cfg, db, now, op), Swept(cfg, db, now, op), After(cfg, db, now, op);
    if op.RequeueOp? || op.ConfigureOp? {
      QuietKeepsLane(cfg, op, db, last, now, r, n);
    } else {
      QuietKeepsLane(cfg, op, db, first, now, r, n);
      QuietKeepsLane(cfg, op, first, mid, now, r, n);
      if Quiet(cfg, op, mid, last, now) {
        QuietKeepsLane(cfg, op, mid, last, now, r, n);
      } else {
        var c :| GrantedTo(cfg, mid, last, now, op, c);
        GrantKeepsLane(cfg, mid, last, now, c, r, n);
      }
    }
  }

  lemma {:induction false} RunKeepsLane(cfg: Config, db: DB, events: seq<Event>, r: Repository, n: nat)
    requires Inv(db) && Run(cfg, db, events) && LaneWithin(db, r, n) && CapacityOnlyRises(cfg, db, events, r)
    ensures LaneWithin(End(cfg, db, events), r, n + Readmissions(cfg, db, events, r))
    decreases |events|
  {
    hide Inv, LaneWithin, After, Readmits, NeverLowers;
    if events != [] {
      var e := events[0];
      StepKeepsLane(cfg, db, e.now, e.op, r, n);
      StepKeepsInv(cfg, db, e.now, e.op);
      RunKeepsLane(cfg, After(cfg, db, e.now, e.op), events[1..], r, n + if Readmits(db, e.op, r) then 1 else 0);
    }
  }

  /** With max_in_flight never lowered, a lane's active tasks exceed it by at most the number of
      requeues of tasks that already had a result: those re-enter validation unchecked. */
  lemma ActiveTasksAreBounded(cfg: Config, events: seq<Event>, r: Repository)
    requires Run(cfg, EMPTY_DB, events) && CapacityOnlyRises(cfg, EMPTY_DB, events, r)
    requires r in End(cfg, EMPTY_DB, events).lanes
    ensures var db := End(cfg, EMPTY_DB, events);
      |ActiveIn(db, r)| <= db.lanes[r].maxInFlight + Readmissions(cfg, EMPTY_DB, events, r)
  {
    hide Inv;
    EmptyInv();
    RunKeepsLane(cfg, EMPTY_DB, events, r, 0);
  }

  // ---- which steps go past max_in_flight

  /** An accepted configuration that sets the capacity of the lane below what is active in it. */
  ghost predicate ConfiguresBelow(db: DB, op: Op, r: Repository) {
    op.ConfigureOp? && op.repository == r && 1 <= op.maxInFlight <= 100 && op.maxInFlight < |ActiveIn(db, r)|
  }

  ghost predicate ReadmitsIntoFull(db: DB, op: Op, r: Repository)
    requires r in db.lanes
  {
    Readmits(db, op, r) && |ActiveIn(db, r)| == db.lanes[r].maxInFlight
  }

  lemma ReadmitsRow(cfg: Config, db: DB, now: int, op: Op, r: Repository)
    requires Readmits(db, op, r)
    ensures var db' := After(cfg, db, now, op);
      db'.lanes == db.lanes && op.tid in db'.tasks && db'.tasks == db.tasks[op.tid := db'.tasks[op.tid]] &&
      Active(db'.tasks[op.tid]) && db'.tasks[op.tid].meta == db.tasks[op.tid].meta && !Active(db.tasks[op.tid])
  {
    hide Clear;
  }

  lemma ReadmitsOne(cfg: Config, db: DB, now: int, op: Op, r: Repository)
    requires Readmits(db, op, r) && r in db.lanes
    ensures var db' := After(cfg, db, now, op);
      r in db'.lanes && db'.lanes[r] == db.lanes[r] && |ActiveIn(db', r)| == |ActiveIn(db, r)| + 1
  {
    hide Clear, After, Active;
    ReadmitsRow(cfg, db, now, op, r);
    assert ActiveIn(After(cfg, db, now, op), r) == ActiveIn(db, r) + {op.tid};
  }

  lemma ConfigureSetsCapacity(cfg: Config, db: DB, now: int, op: Op, r: Repository)
    requires op.ConfigureOp? && r in db.lanes
    ensures var db' := After(cfg, db, now, op);
      r in db'.lanes && ActiveIn(db', r) == ActiveIn(db, r) &&
      db'.lanes[r].maxInFlight ==
        if op.repository == r && 1 <= op.maxInFlight <= 100 then op.maxInFlight else db.lanes[r].maxInFlight
  {
  }

  lemma LanesRemain(cfg: Config, db: DB, now: int, op: Op, r: Repository)
    requires Inv(db) && Possible(cfg, db, now, op) && r in db.lanes
    ensures r in After(cfg, db, now, op).lanes
  {
    hide Inv, After, Possible;
    Evolution.StepEvolves(cfg, db, now, op);
  }

  /** `active <= max_in_flight` survives a step exactly unless the step re-admits a task with a result
      into a full lane, or configures the lane below what is active in it. */
  lemma StepPassesCapacityExactly(cfg: Config, db: DB, now: int, op: Op, r: Repository)
    requires Inv(db) && Possible(cfg, db, now, op) && r in db.lanes && |ActiveIn(db, r)| <= db.lanes[r].maxInFlight
    ensures var db' := After(cfg, db, now, op);
      r in db'.lanes &&
      (|ActiveIn(db', r)| > db'.lanes[r].maxInFlight <==> ReadmitsIntoFull(db, op, r) || ConfiguresBelow(db, op, r))
  {
    hide Inv, After, Readmits, ActiveIn;
    LanesRemain(cfg, db, now, op, r);
    if op.ConfigureOp? {
      ConfigureSetsCapacity(cfg, db, now, op, r);
      ConfigureReadmitsNothing(db, op, r);
    } else if Readmits(db, op, r) {
      ReadmitsOne(cfg, db, now, op, r);
    } else {
      StepKeepsLane(cfg, db, now, op, r, 0);
    }
  }

  lemma ConfigureReadmitsNothing(db: DB, op: Op, r: Repository)
    requires op.ConfigureOp?
    ensures !Readmits(db, op, r)
  {
  }
}
