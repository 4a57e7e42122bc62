/** Fair sharing between lanes: how long a lane with work can wait. */
module Fairness {
  import opened Wrappers
  import opened PoolTypes
  import opened PoolRows
  import opened PoolSpec
  import opened Lexicographic
  import opened PoolSteps
  import opened PoolInvariant
  import opened Evolution
  import opened Totals

  /** How often lane `r` can still be served before lane `a` comes first. */
  ghost function Ahead(lanes: map<Repository, Lane>, a: Repository): nat -> int {
    r => if a in lanes && r in lanes && lanes[r].builderClaims <= lanes[a].builderClaims
         then lanes[a].builderClaims + 1 - lanes[r].builderClaims else 0
  }

  ghost function Wait(db: DB, a: Repository): int {
    Total(db.lanes.Keys - {a}, Ahead(db.lanes, a))
  }

  ghost predicate SameCounts(db: DB, db': DB) {
    db'.lanes.Keys == db.lanes.Keys &&
    forall r :: r in db.lanes ==> db'.lanes[r].builderClaims == db.lanes[r].builderClaims
  }

  lemma SameCountsSameWait(db: DB, db': DB, a: Repository)
    requires SameCounts(db, db')
    ensures Wait(db', a) == Wait(db, a)
  {
    TotalCongruent(db.lanes.Keys - {a}, Ahead(db.lanes, a), Ahead(db'.lanes, a));
  }

  lemma GrantCountsOnce(cfg: Config, db: DB, db': DB, now: int, c: Claim)
    requires Granted(cfg, db, db', now, c)
    ensures c.task in db.tasks && db.tasks[c.task].meta.repository in db.lanes && db'.lanes.Keys == db.lanes.Keys
    ensures forall r :: r in db.lanes ==>
      db'.lanes[r].builderClaims ==
        db.lanes[r].builderClaims + if r == db.tasks[c.task].meta.repository && c.role == Builder then 1 else 0
  {
    hide IsFirst, NotReady, Apply;
  }

  ghost predicate HasWork(db: DB, a: Repository, worker: WorkerId, fenced: bool) {
    exists tid :: tid in Candidates(db, worker, Builder, fenced, None) && db.tasks[tid].meta.repository == a
  }

  /** The lane a general Builder claim serves has been served no more often than any lane with work for it. */
  lemma ServedIsLeast(cfg: Config, db: DB, db': DB, now: int, c: Claim, a: Repository)
    requires Granted(cfg, db, db', now, c) && c.role == Builder && c.only.None? && HasWork(db, a, c.worker, c.fenced)
    ensures a in db.lanes && c.task in db.tasks && db.tasks[c.task].meta.repository in db.lanes
    ensures db.lanes[db.tasks[c.task].meta.repository].builderClaims <= db.lanes[a].builderClaims
  {
    hide NotReady, Grant;
    var rows := Candidates(db, c.worker, Builder, c.fenced, None);
    var tid :| tid in rows && db.tasks[tid].meta.repository == a;
    assert LexLeq(SortKey(db, Builder, c.task), SortKey(db, Builder, tid));
  }

  /** A grant to another lane never lengthens the wait, and shortens it if that lane was ahead. */
  lemma GrantShortensWait(cfg: Config, db: DB, db': DB, now: int, c: Claim, a: Repository)
    requires Granted(cfg, db, db', now, c) && a in db.lanes
    requires !(c.role == Builder && c.task in db.tasks && db.tasks[c.task].meta.repository == a)
    ensures Wait(db', a) <= Wait(db, a)
    ensures c.role == Builder && c.only.None? && HasWork(db, a, c.worker, c.fenced) ==> Wait(db', a) + 1 <= Wait(db, a)
  {
    hide Granted, HasWork;
    GrantCountsOnce(cfg, db, db', now, c);
    if c.role == Validator {
      SameCountsSameWait(db, db', a);
    } else {
      var served := db.tasks[c.task].meta.repository;
      if c.only.None? && HasWork(db, a, c.worker, c.fenced) { ServedIsLeast(cfg, db, db', now, c, a); }
      assert served in db.lanes.Keys - {a} && db'.lanes.Keys - {a} == db.lanes.Keys - {a};
      TotalChange(db.lanes.Keys - {a}, Ahead(db.lanes, a), Ahead(db'.lanes, a), served);
    }
  }

  // ---- runs

  /** The operation is a general Builder claim that acquires a task. */
  ghost predicate Serves(cfg: Config, db: DB, now: int, op: Op)
    requires Possible(cfg, db, now, op)
  {
    op.ClaimOp? && op.role == Builder && op.only.None? &&
    var tx := ClaimTask(cfg, db, now, op.id, op.role, op.seconds, op.only, op.fenced, op.order);
    tx.Commit? && tx.value.Some?
  }

  ghost function Served(cfg: Config, db: DB, events: seq<Event>): nat
    requires Run(cfg, db, events)
    decreases |events|
  {
    if events == [] then 0
    else (if Serves(cfg, db, events[0].now, events[0].op) then 1 else 0) +
         Served(cfg, After(cfg, db, events[0].now, events[0].op), events[1..])
  }

  /** Lane `a` has a task for the claiming worker at every general Builder claim of the run. */
  ghost predicate AlwaysHasWork(cfg: Config, db: DB, events: seq<Event>, a: Repository)
    requires Run(cfg, db, events)
    decreases |events|
  {
    events == [] ||
    ((Serves(cfg, db, events[0].now, events[0].op) ==>
      HasWork(Swept(cfg, db, events[0].now, events[0].op), a, events[0].op.id, events[0].op.fenced)) &&
     AlwaysHasWork(cfg, After(cfg, db, events[0].now, events[0].op), events[1..], a))
  }

  /** Lane counters only rise and lanes are only added during a step. */
  lemma StageCounts(cfg: Config, op: Op, db: DB, db': DB, now: int)
    requires Quiet(cfg, op, db, db', now)
    ensures db.lanes.Keys <= db'.lanes.Keys
    ensures db.lanes.Keys == db'.lanes.Keys ==> SameCounts(db, db')
    ensures forall r :: r in db.lanes ==> db'.lanes[r].builderClaims == db.lanes[r].builderClaims
  {
  }

  lemma ServingIsGranting(cfg: Config, db: DB, now: int, op: Op)
    requires Possible(cfg, db, now, op) && op.ClaimOp?
    ensures var mid, last := Swept(cfg, db, now, op), After(cfg, db, now, op);
      last == mid || exists c :: GrantedTo(cfg, mid, last, now, op, c)
    ensures Serves(cfg, db, now, op) ==>
      exists c :: GrantedTo(cfg, Swept(cfg, db, now, op), After(cfg, db, now, op), now, op, c)
  {
    hide IsFirst, NotReady, Granted;
    ClaimStages(cfg, db, now, op);
    if Serves(cfg, db, now, op) {
      ClaimOutcome(cfg, db, now, op.id, op.role, op.seconds, op.only, op.fenced, op.order);
      var tx := ClaimTask(cfg, db, now, op.id, op.role, op.seconds, op.only, op.fenced, op.order);
      var c := Claim(tx.value.value.task, op.id, op.role, OrDefault(op.seconds, cfg.leaseSeconds), op.only, op.fenced);
      assert GrantedTo(cfg, Swept(cfg, db, now, op), After(cfg, db, now, op), now, op, c);
    }
  }

  lemma StepShortensWait(cfg: Config, db: DB, now: int, op: Op, a: Repository)
    requires Possible(cfg, db, now, op) && a in db.lanes
    requires var last := After(cfg, db, now, op);
      last.lanes.Keys == db.lanes.Keys && last.lanes[a].builderClaims == db.lanes[a].builderClaims
    requires Serves(cfg, db, now, op) ==> HasWork(Swept(cfg, db, now, op), a, op.id, op.fenced)
    ensures Wait(After(cfg, db, now, op), a) + (if Serves(cfg, db, now, op) then 1 else 0) <= Wait(db, a)
  {
    hide Quiet, Granted, After, Serves, HasWork, Wait;
    var first, mid, last := Recovered(cfg, db, now, op), Swept(cfg, db, now, op), After(cfg, db, now, op);
    StepStages(cfg, db, now, op);
    StageCounts(cfg, op, db, first, now);
    StageCounts(cfg, op, first, mid, now);
    if op.ClaimOp? { ServingIsGranting(cfg, db, now, op); }
    if exists c :: op.ClaimOp? && GrantedTo(cfg, mid, last, now, op, c) {
      var c :| GrantedTo(cfg, mid, last, now, op, c);
      GrantCountsOnce(cfg, mid, last, now, c);
      SameCountsSameWait(db, first, a);
      SameCountsSameWait(first, mid, a);
      GrantShortensWait(cfg, mid, last, now, c, a);
      ServesIsGeneralBuilder(cfg, db, now, op);
    } else {
      StageCounts(cfg, op, mid, last, now);
      SameCountsSameWait(db, first, a);
      SameCountsSameWait(first, mid, a);
      SameCountsSameWait(mid, last, a);
      ServesIsGeneralBuilder(cfg, db, now, op);
    }
  }

  lemma ServesIsGeneralBuilder(cfg: Config, db: DB, now: int, op: Op)
    requires Possible(cfg, db, now, op)
    ensures Serves(cfg, db, now, op) ==> op.ClaimOp? && op.role == Builder && op.only.None?
  {
  }

  lemma WaitIsNonNegative(db: DB, a: Repository)
    ensures Wait(db, a) >= 0
  {
    TotalNonNegative(db.lanes.Keys - {a}, Ahead(db.lanes, a));
  }

  /** Bounded wait: over a fixed set of lanes, while lane `a` has work at every general Builder claim
      and is not served, at most `Wait` such claims are served, whatever else happens in between. */
  lemma {:induction false} WaitIsBounded(cfg: Config, db: DB, events: seq<Event>, a: Repository)
    requires Inv(db) && a in db.lanes && Run(cfg, db, events) && AlwaysHasWork(cfg, db, events, a)
    requires var last := End(cfg, db, events);
      last.lanes.Keys == db.lanes.Keys && last.lanes[a].builderClaims == db.lanes[a].builderClaims
    ensures Served(cfg, db, events) <= Wait(db, a)
    decreases |events|
  {
    hide Inv, After, Serves, HasWork, Wait;
    WaitIsNonNegative(db, a);
    if events != [] {
      var e := events[0];
      var next := After(cfg, db, e.now, e.op);
      StepEvolves(cfg, db, e.now, e.op);
      StepKeepsInv(cfg, db, e.now, e.op);
      RunEvolves(cfg, next, events[1..]);
      assert next.lanes.Keys == db.lanes.Keys;
      StepShortensWait(cfg, db, e.now, e.op, a);
      WaitIsBounded(cfg, next, events[1..], a);
    }
  }
}
