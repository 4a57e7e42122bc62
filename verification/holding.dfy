/** How long a task can be held: bounds on a lease between reconciliations. */
module Holding {
  import opened Wrappers
  import opened PoolTypes
  import opened PoolRows
  import opened PoolSpec
  import opened PoolSteps
  import opened Ledger
  import opened PoolInvariant
  import opened Reconciling
  import opened Scenarios

  /** A leased task has progressed within the limit, counted from time `r`. */
  ghost predicate ProgressSince(cfg: Config, t: Task, r: int) {
    t.lease.holder.Some? ==> r < t.lastProgress + cfg.stallSeconds
  }

  /** The lease of a leased task ends after time `r`. */
  ghost predicate LeaseSince(t: Task, r: int) {
    t.lease.holder.Some? ==> t.lease.expires.Some? && r < t.lease.expires.value
  }

  ghost predicate AllProgressSince(cfg: Config, db: DB, r: int) {
    forall tid :: tid in db.tasks ==> ProgressSince(cfg, db.tasks[tid], r)
  }

  ghost predicate AllLeasesSince(db: DB, r: int) {
    forall tid :: tid in db.tasks ==> LeaseSince(db.tasks[tid], r)
  }

  // ---- progress

  lemma MoveKeepsProgress(cfg: Config, t: Task, now: int, move: Move, r: int)
    requires ValidConfig(cfg) && ProgressSince(cfg, t, r) && r <= now && Enabled(cfg, t, now, move)
    ensures ProgressSince(cfg, Apply(t, now, move), r)
  {
    if GivesBack(move) { GivingBackReturns(t, now, move); }
  }

  lemma QuietKeepsProgress(cfg: Config, op: Op, db: DB, db': DB, now: int, r: int)
    requires ValidConfig(cfg) && AllProgressSince(cfg, db, r) && r <= now && Quiet(cfg, op, db, db', now)
    ensures AllProgressSince(cfg, db', r)
  {
    hide ProgressSince, QuietRow, NewRow, QuietLanes;
    forall tid | tid in db'.tasks ensures ProgressSince(cfg, db'.tasks[tid], r) {
      if tid in db.tasks {
        RowKeepsProgress(cfg, op, tid, db.tasks[tid], db'.tasks[tid], now, r);
      } else {
        NewIsHeld(cfg, db'.tasks[tid], now, r);
      }
    }
  }

  lemma RowKeepsProgress(cfg: Config, op: Op, tid: TaskId, t: Task, t': Task, now: int, r: int)
    requires ValidConfig(cfg) && ProgressSince(cfg, t, r) && r <= now && QuietRow(cfg, op, tid, t, t', now)
    ensures ProgressSince(cfg, t', r)
  {
    hide ProgressSince, MoveOf, Enabled, Apply;
    if t' != t {
      var move :| QuietMove(cfg, op, tid, t, t', now, move);
      MoveKeepsProgress(cfg, t, now, move, r);
    }
  }

  lemma NewIsHeld(cfg: Config, t: Task, now: int, r: int)
    requires NewRow(t, now)
    ensures ProgressSince(cfg, t, r) && LeaseSince(t, r)
  {
  }

  lemma GrantKeepsHeld(cfg: Config, db: DB, db': DB, now: int, c: Claim, r: int)
    requires ValidConfig(cfg) && r <= now && Granted(cfg, db, db', now, c)
    ensures AllProgressSince(cfg, db, r) ==> AllProgressSince(cfg, db', r)
    ensures AllLeasesSince(db, r) ==> AllLeasesSince(db', r)
  {
    hide IsFirst, NotReady;
  }

  /** Nothing any caller can do lets a leased task fall behind: whatever refreshes a lease has progressed
      or leaves the time of the last progress alone. */
  lemma StepKeepsProgress(cfg: Config, db: DB, now: int, op: Op, r: int)
    requires ValidConfig(cfg) && AllProgressSince(cfg, db, r) && r <= now && Possible(cfg, db, now, op)
    ensures AllProgressSince(cfg, After(cfg, db, now, op), r)
  {
    hide AllProgressSince, Quiet, Granted, After;
    StepStages(cfg, db, now, op);
    var first, mid, last := Recovered(cfg, db, now, op), Swept(cfg, db, now, op), After(cfg, db, now, op);
    QuietKeepsProgress(cfg, op, db, first, now, r);
    QuietKeepsProgress(cfg, op, first, mid, now, r);
    if Quiet(cfg, op, mid, last, now) {
      QuietKeepsProgress(cfg, op, mid, last, now, r);
    } else {
      var c :| GrantedTo(cfg, mid, last, now, op, c);
      GrantKeepsHeld(cfg, mid, last, now, c, r);
    }
  }

  // ---- leases

  /** A renewal that succeeds and sets an expiry not later than `r`.  The HTTP contract admits only
      positive durations; the store takes any. */
  ghost predicate RenewsShort(cfg: Config, db: DB, now: int, op: Op, r: int) {
    op.RenewOp? && RenewLease(cfg, db, now, op.cred, op.seconds).Commit? &&
    now + OrDefault(op.seconds, cfg.leaseSeconds) <= r
  }

  lemma MoveKeepsLease(cfg: Config, t: Task, now: int, move: Move, r: int)
    requires LeaseSince(t, r) && !move.Acquire? && (move.Renew? ==> r < move.expires) && Enabled(cfg, t, now, move)
    ensures LeaseSince(Apply(t, now, move), r)
  {
    if GivesBack(move) { GivingBackReturns(t, now, move); }
  }

  lemma RowKeepsLease(cfg: Config, op: Op, tid: TaskId, t: Task, t': Task, now: int, r: int)
    requires LeaseSince(t, r) && QuietRow(cfg, op, tid, t, t', now)
    requires op.RenewOp? ==> r < now + OrDefault(op.seconds, cfg.leaseSeconds)
    ensures LeaseSince(t', r)
  {
    hide LeaseSince, Enabled, Apply;
    if t' != t {
      var move :| QuietMove(cfg, op, tid, t, t', now, move);
      MoveKeepsLease(cfg, t, now, move, r);
    }
  }

  lemma QuietKeepsLeases(cfg: Config, op: Op, db: DB, db': DB, now: int, r: int)
    requires AllLeasesSince(db, r) && Quiet(cfg, op, db, db', now)
    requires op.RenewOp? ==> r < now + OrDefault(op.seconds, cfg.leaseSeconds)
    ensures AllLeasesSince(db', r)
  {
    hide LeaseSince, QuietRow, NewRow, QuietLanes;
    forall tid | tid in db'.tasks ensures LeaseSince(db'.tasks[tid], r) {
      if tid in db.tasks {
        RowKeepsLease(cfg, op, tid, db.tasks[tid], db'.tasks[tid], now, r);
      } else {
        NewIsHeld(cfg, db'.tasks[tid], now, r);
      }
    }
  }

  lemma StepKeepsLeases(cfg: Config, db: DB, now: int, op: Op, r: int)
    requires ValidConfig(cfg) && AllLeasesSince(db, r) && r <= now && Possible(cfg, db, now, op)
    requires op.RenewOp? ==> r < now + OrDefault(op.seconds, cfg.leaseSeconds)
    ensures AllLeasesSince(After(cfg, db, now, op), r)
  {
    hide AllLeasesSince, Quiet, Granted, After;
    StepStages(cfg, db, now, op);
    var first, mid, last := Recovered(cfg, db, now, op), Swept(cfg, db, now, op), After(cfg, db, now, op);
    QuietKeepsLeases(cfg, op, db, first, now, r);
    QuietKeepsLeases(cfg, op, first, mid, now, r);
    if Quiet(cfg, op, mid, last, now) {
      QuietKeepsLeases(cfg, op, mid, last, now, r);
    } else {
      var c :| GrantedTo(cfg, mid, last, now, op, c);
      GrantKeepsHeld(cfg, mid, last, now, c, r);
    }
  }

  lemma RenewalWrites(cfg: Config, db: DB, now: int, cred: Credentials, seconds: Option<int>)
    requires RenewLease(cfg, db, now, cred, seconds).Commit?
    ensures var db' := RenewLease(cfg, db, now, cred, seconds).db;
      cred.task in db'.tasks && db'.tasks[cred.task].lease.holder.Some? &&
      db'.tasks[cred.task].lease.expires == Some(now + OrDefault(seconds, cfg.leaseSeconds))
  {
    LeaseHeld(db, now, cred, AnyActive);
  }

  /** The leases outlast `r` after a step exactly unless the step is a renewal that ends by `r`. */
  lemma StepKeepsLeasesExactly(cfg: Config, db: DB, now: int, op: Op, r: int)
    requires ValidConfig(cfg) && AllLeasesSince(db, r) && r <= now && Possible(cfg, db, now, op)
    ensures AllLeasesSince(After(cfg, db, now, op), r) <==> !RenewsShort(cfg, db, now, op, r)
  {
    hide LeaseRefusal, Update;
    if op.RenewOp? && now + OrDefault(op.seconds, cfg.leaseSeconds) <= r {
      if RenewLease(cfg, db, now, op.cred, op.seconds).Commit? { RenewalWrites(cfg, db, now, op.cred, op.seconds); }
    } else {
      StepKeepsLeases(cfg, db, now, op, r);
    }
  }

  /** A reconciliation moves both bounds forward to its own time. */
  lemma ReconcileRenewsHeld(cfg: Config, db: DB, now: int, order: seq<TaskId>)
    requires Inv(db) && Possible(cfg, db, now, ReconcileOp(order))
    ensures AllProgressSince(cfg, After(cfg, db, now, ReconcileOp(order)), now)
    ensures AllLeasesSince(After(cfg, db, now, ReconcileOp(order)), now)
  {
    hide Inv, ReconcileRows, HandedBack, HasAlternative;
    ReconcileCloses(cfg, db, now, order);
  }

  // ---- runs

  /** Between two reconciliations, and before the first after `r`, at most `d` passes. */
  ghost predicate Prompt(events: seq<Event>, r: int, d: int)
    decreases |events|
  {
    events == [] ||
    (r <= events[0].now <= r + d && Prompt(events[1..], if events[0].op.ReconcileOp? then events[0].now else r, d))
  }

  /** The time of the last reconciliation of a run that starts after one at `r`. */
  ghost function LastReconcile(events: seq<Event>, r: int): int
    decreases |events|
  {
    if events == [] then r
    else LastReconcile(events[1..], if events[0].op.ReconcileOp? then events[0].now else r)
  }

  /** No renewal sets an expiry that the last reconciliation before it has already passed. */
  ghost predicate NeverRenewsShort(cfg: Config, db: DB, events: seq<Event>, r: int)
    requires Run(cfg, db, events)
    decreases |events|
  {
    events == [] ||
    (!RenewsShort(cfg, db, events[0].now, events[0].op, r) &&
     NeverRenewsShort(cfg, After(cfg, db, events[0].now, events[0].op), events[1..],
                      if events[0].op.ReconcileOp? then events[0].now else r))
  }

  lemma {:induction false} RunKeepsProgress(cfg: Config, db: DB, events: seq<Event>, r: int, d: int)
    requires ValidConfig(cfg) && Inv(db) && AllProgressSince(cfg, db, r) && Run(cfg, db, events) && Prompt(events, r, d)
    ensures AllProgressSince(cfg, End(cfg, db, events), LastReconcile(events, r))
    decreases |events|
  {
    hide Inv, AllProgressSince, AllLeasesSince, After;
    if events != [] {
      var e := events[0];
      var next := After(cfg, db, e.now, e.op);
      StepKeepsInv(cfg, db, e.now, e.op);
      if e.op.ReconcileOp? {
        ReconcileRenewsHeld(cfg, db, e.now, e.op.order);
        RunKeepsProgress(cfg, next, events[1..], e.now, d);
      } else {
        StepKeepsProgress(cfg, db, e.now, e.op, r);
        RunKeepsProgress(cfg, next, events[1..], r, d);
      }
    }
  }

  lemma {:induction false} RunKeepsLeases(cfg: Config, db: DB, events: seq<Event>, r: int, d: int)
    requires ValidConfig(cfg) && Inv(db) && AllLeasesSince(db, r) && Run(cfg, db, events) && Prompt(events, r, d)
    requires NeverRenewsShort(cfg, db, events, r)
    ensures AllLeasesSince(End(cfg, db, events), LastReconcile(events, r))
    decreases |events|
  {
    hide Inv, AllProgressSince, AllLeasesSince, After, RenewsShort;
    if events != [] {
      var e := events[0];
      var next := After(cfg, db, e.now, e.op);
      StepKeepsInv(cfg, db, e.now, e.op);
      if e.op.ReconcileOp? {
        ReconcileRenewsHeld(cfg, db, e.now, e.op.order);
        RunKeepsLeases(cfg, next, events[1..], e.now, d);
      } else {
        StepKeepsLeasesExactly(cfg, db, e.now, e.op, r);
        RunKeepsLeases(cfg, next, events[1..], r, d);
      }
    }
  }

  /** Bounded holding time.  When reconciliations are at most `d` apart, at any time `now` within `d` of
      the last one every leased task is less than the limit and `d` without progress: no renewal, of
      whatever duration, no heartbeat and no replayed checkpoint lets a worker keep it longer. */
  lemma HoldingIsBounded(cfg: Config, events: seq<Event>, start: int, d: int, now: int, tid: TaskId)
    requires ValidConfig(cfg) && Run(cfg, EMPTY_DB, events) && Prompt(events, start, d)
    requires LastReconcile(events, start) <= now <= LastReconcile(events, start) + d
    requires var db := End(cfg, EMPTY_DB, events); tid in db.tasks && db.tasks[tid].lease.holder.Some?
    ensures now < End(cfg, EMPTY_DB, events).tasks[tid].lastProgress + cfg.stallSeconds + d
  {
    hide Inv;
    EmptyInv();
    RunKeepsProgress(cfg, EMPTY_DB, events, start, d);
  }

  /** ... and its lease is less than `d` past its end, unless a renewal cut it short. */
  lemma LeaseIsBounded(cfg: Config, events: seq<Event>, start: int, d: int, now: int, tid: TaskId)
    requires ValidConfig(cfg) && Run(cfg, EMPTY_DB, events) && Prompt(events, start, d)
    requires NeverRenewsShort(cfg, EMPTY_DB, events, start)
    requires LastReconcile(events, start) <= now <= LastReconcile(events, start) + d
    requires var db := End(cfg, EMPTY_DB, events); tid in db.tasks && db.tasks[tid].lease.holder.Some?
    ensures var t := End(cfg, EMPTY_DB, events).tasks[tid];
      t.lease.expires.Some? && now < t.lease.expires.value + d
  {
    hide Inv, NeverRenewsShort;
    EmptyInv();
    RunKeepsLeases(cfg, EMPTY_DB, events, start, d);
  }

  /** Positive durations, as the HTTP contract demands them, never cut a lease short. */
  lemma {:induction false} PositiveNeverRenewsShort(cfg: Config, db: DB, events: seq<Event>, r: int, d: int)
    requires ValidConfig(cfg) && Run(cfg, db, events) && Prompt(events, r, d)
    requires forall i :: 0 <= i < |events| && events[i].op.RenewOp? ==>
      events[i].op.seconds.None? || events[i].op.seconds.value >= 1
    ensures NeverRenewsShort(cfg, db, events, r)
    decreases |events|
  {
    hide After, Possible, RenewLease;
    if events != [] {
      PositiveNeverRenewsShort(cfg, After(cfg, db, events[0].now, events[0].op), events[1..],
                               if events[0].op.ReconcileOp? then events[0].now else r, d);
    }
  }

  // ---- a renewal that cuts its lease short

  const SHORTENING := OPENING + [Event(0, Enqueue(0))] + [Event(0, ClaimExact(Builder, 0))] +
                      [Event(0, RenewOp(Quote(0, Builder, 0), Some(-100)))]

  lemma RenewsInThePast(db: DB)
    requires Staffed(db) && 0 in db.tasks && HeldRow(db.tasks[0], Builder, 0) && db.tasks[0].state == Leased
    ensures var op := RenewOp(Quote(0, Builder, 0), Some(-100));
      Possible(CFG, db, 0, op) && RenewLease(CFG, db, 0, op.cred, op.seconds).Commit? &&
      var db' := After(CFG, db, 0, op);
      0 in db'.tasks && db'.tasks[0].lease.holder.Some? && db'.tasks[0].lease.expires == Some(-100)
  {
  }

  lemma {:induction false} PromptAtOnce(events: seq<Event>, d: int)
    requires d >= 0 && forall i :: 0 <= i < |events| ==> events[i].now == 0
    ensures Prompt(events, 0, d) && LastReconcile(events, 0) == 0
    decreases |events|
  {
    if events != [] { PromptAtOnce(events[1..], d); }
  }

  /** The bound on leases does fail: a renewal by -100 seconds, which the store accepts, leaves a held
      lease long past its end although no time has passed since the start. */
  lemma LeaseCanBeCutShort()
    ensures Run(CFG, EMPTY_DB, SHORTENING) && Prompt(SHORTENING, 0, 20) && LastReconcile(SHORTENING, 0) == 0
    ensures var db := End(CFG, EMPTY_DB, SHORTENING);
      0 in db.tasks && db.tasks[0].lease.holder.Some? && db.tasks[0].lease.expires.Some? &&
      !(0 < db.tasks[0].lease.expires.value + 20)
  {
    hide Run, End, After, Possible, Staffed, WaitingRow, HeldRow, Prompt, LastReconcile, RenewLease;
    PromptAtOnce(SHORTENING, 20);
    Opens();
    EnqueueStep(OPEN_DB, 0);
    RunLonger(CFG, EMPTY_DB, OPENING, 0, Enqueue(0));
    var e1 := OPENING + [Event(0, Enqueue(0))];
    var d1 := End(CFG, EMPTY_DB, e1);
    WaitingIsIdle(d1, 0);
    BuilderClaimStep(d1, 0);
    RunLonger(CFG, EMPTY_DB, e1, 0, ClaimExact(Builder, 0));
    var e2 := e1 + [Event(0, ClaimExact(Builder, 0))];
    var d2 := End(CFG, EMPTY_DB, e2);
    RenewsInThePast(d2);
    RunLonger(CFG, EMPTY_DB, e2, 0, RenewOp(Quote(0, Builder, 0), Some(-100)));
  }
}
