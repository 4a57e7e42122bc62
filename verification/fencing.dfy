/** Stale leases: a grant that has been superseded or given up can never mutate its task again. */
module Fencing {
  import opened Wrappers
  import opened PoolTypes
  import opened PoolRows
  import opened PoolSpec
  import opened PoolSteps
  import opened Ledger
  import opened PoolInvariant
  import opened Evolution

  /** The operation quotes this task and this token, with whatever generation and attempt. */
  ghost predicate Quotes(op: Op, task: TaskId, token: nat) {
    match op
    case RenewOp(cred, _) => cred.task == task && cred.token == token
    case StartOp(cred) => cred.task == task && cred.token == token
    case SubmitOp(cred, _) => cred.task == task && cred.token == token
    case CompleteOp(cred) => cred.task == task && cred.token == token
    case FailOp(cred, _) => cred.task == task && cred.token == token
    case BlockOp(cred, _) => cred.task == task && cred.token == token
    case RecordOp(cred, _, _) => cred.task == task && cred.token == token
    case _ => false
  }

  ghost predicate HeldUnder(db: DB, task: TaskId, token: nat) {
    task in db.tasks && db.tasks[task].lease.token == Some(token)
  }

  lemma NotHeldIsRefused(cfg: Config, db: DB, now: int, op: Op, task: TaskId, token: nat)
    requires Quotes(op, task, token) && !HeldUnder(db, task, token)
    ensures Possible(cfg, db, now, op) && After(cfg, db, now, op) == db
  {
  }

  /** The claim that handed out `g`. */
  ghost predicate Hands(cfg: Config, db: DB, now: int, op: Op, g: LeaseGrant)
    requires Possible(cfg, db, now, op)
  {
    op.ClaimOp? &&
    var tx := ClaimTask(cfg, db, now, op.id, op.role, op.seconds, op.only, op.fenced, op.order);
    tx.Commit? && tx.value == Some(g)
  }

  /** What a grant writes: a new generation, a new open attempt and a token never drawn before. */
  lemma GrantWrites(cfg: Config, db: DB, now: int, op: Op, g: LeaseGrant)
    requires Inv(db) && Possible(cfg, db, now, op) && Hands(cfg, db, now, op, g)
    ensures var db' := After(cfg, db, now, op);
      g.task in db.tasks && g.task in db'.tasks && g.worker == op.id && g.role == op.role &&
      var t := db'.tasks[g.task];
      t.lease == LeaseColumns(Some(g.worker), Some(g.token), Some(g.expires), Some(g.attempt)) &&
      t.generation == g.generation == db.tasks[g.task].generation + 1 &&
      t.state == (if g.role == Builder then Leased else Validating) &&
      t.checkpoints == db.tasks[g.task].checkpoints &&
      now < g.expires && db.uuids <= g.token < db'.uuids && db.uuids <= g.attempt < db'.uuids
  {
    hide Inv, ClaimTask, ClaimBase, Granted;
    StepKeepsInv(cfg, db, now, op);
    ClaimOutcome(cfg, db, now, op.id, op.role, op.seconds, op.only, op.fenced, op.order);
    var base := ClaimBase(cfg, db, now, op.only, op.order);
    ClaimBaseSame(cfg, db, now, op.only, op.order, g.task);
    var c := Claim(g.task, op.id, op.role, OrDefault(op.seconds, cfg.leaseSeconds), op.only, op.fenced);
    GrantEnabled(cfg, base, After(cfg, db, now, op), now, c);
    PositiveTtl(cfg, base, After(cfg, db, now, op), now, c);
  }

  lemma PositiveTtl(cfg: Config, db: DB, db': DB, now: int, c: Claim)
    requires Granted(cfg, db, db', now, c)
    ensures c.ttl >= 1
  {
  }

  /** The sweeps before a general claim draw no tokens and move no generation or checkpoint. */
  lemma ClaimBaseSame(cfg: Config, db: DB, now: int, only: Option<TaskId>, order: seq<TaskId>, tid: TaskId)
    requires only.None? ==> Scan(order, StalledRows(cfg, RecoverExpired(db, now), now))
    ensures var base := ClaimBase(cfg, db, now, only, order);
      base.uuids == db.uuids && base.tasks.Keys == db.tasks.Keys &&
      (tid in db.tasks ==>
        base.tasks[tid].generation == db.tasks[tid].generation && base.tasks[tid].checkpoints == db.tasks[tid].checkpoints)
  {
    hide Apply;
    if only.None? {
      var db1 := RecoverExpired(db, now);
      SweepRowsShape(cfg, db1, now, order);
      if tid in db.tasks {
        SweptRowSame(db.tasks[tid], now, SweepExpired);
        SweptRowSame(db1.tasks[tid], now, SweepStalled(true));
        SweptRowSame(db1.tasks[tid], now, SweepStalled(false));
      }
    }
  }

  lemma SweptRowSame(t: Task, now: int, move: Move)
    requires move.SweepExpired? || move.SweepStalled?
    ensures Apply(t, now, move).generation == t.generation && Apply(t, now, move).checkpoints == t.checkpoints
  {
  }

  /** A lease, once not held, never comes back, and a mutation quoting it changes nothing. */
  lemma LeaseNeverRevives(cfg: Config, db: DB, events: seq<Event>, task: TaskId, token: nat, now: int, op: Op)
    requires Inv(db) && Run(cfg, db, events) && task in db.tasks
    requires token < db.uuids && !HeldUnder(db, task, token)
    requires Quotes(op, task, token)
    ensures !HeldUnder(End(cfg, db, events), task, token)
    ensures Possible(cfg, End(cfg, db, events), now, op)
    ensures After(cfg, End(cfg, db, events), now, op) == End(cfg, db, events)
  {
    hide Inv, After;
    RunEvolves(cfg, db, events);
    NotHeldIsRefused(cfg, End(cfg, db, events), now, op, task, token);
  }

  /** Fencing: once the generation of the task has moved on from a grant, every mutation quoting
      that grant's token fails and leaves the database as it was. */
  lemma StaleGrantIsRefused(cfg: Config, db: DB, now: int, claim: Op, g: LeaseGrant, events: seq<Event>, later: int, op: Op)
    requires Inv(db) && Possible(cfg, db, now, claim) && Hands(cfg, db, now, claim, g)
    requires Run(cfg, After(cfg, db, now, claim), events)
    requires var last := End(cfg, After(cfg, db, now, claim), events);
      g.task in last.tasks && last.tasks[g.task].generation != g.generation
    requires Quotes(op, g.task, g.token)
    ensures var last := End(cfg, After(cfg, db, now, claim), events);
      Possible(cfg, last, later, op) && After(cfg, last, later, op) == last
  {
    hide Inv, ClaimTask;
    GrantWrites(cfg, db, now, claim, g);
    StepKeepsInv(cfg, db, now, claim);
    var granted := After(cfg, db, now, claim);
    RunEvolves(cfg, granted, events);
    NotHeldIsRefused(cfg, End(cfg, granted, events), later, op, g.task, g.token);
  }

  /** No two grants of one run share a token, and those of one task have rising generations. */
  lemma GrantsDiffer(cfg: Config, db: DB, now: int, claim: Op, g: LeaseGrant, events: seq<Event>,
                     later: int, again: Op, h: LeaseGrant)
    requires Inv(db) && Possible(cfg, db, now, claim) && Hands(cfg, db, now, claim, g)
    requires Run(cfg, After(cfg, db, now, claim), events)
    requires var last := End(cfg, After(cfg, db, now, claim), events);
      Possible(cfg, last, later, again) && Hands(cfg, last, later, again, h)
    ensures g.token < h.token && g.attempt < h.attempt
    ensures g.task == h.task ==> g.generation < h.generation
  {
    hide Inv, ClaimTask;
    GrantWrites(cfg, db, now, claim, g);
    StepKeepsInv(cfg, db, now, claim);
    var granted := After(cfg, db, now, claim);
    RunEvolves(cfg, granted, events);
    RunKeepsInv(cfg, granted, events);
    GrantWrites(cfg, End(cfg, granted, events), later, again, h);
  }
}
