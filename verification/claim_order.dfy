/** Which task a claim hands out, said on the columns of tasks and lanes, and what a general claim has to do
    with the exact claims it could have been. */
module ClaimOrder {
  import opened Wrappers
  import opened PoolTypes
  import opened PoolRows
  import opened PoolSpec
  import opened Lexicographic
  import opened PoolSteps
  import opened Ledger
  import opened PoolInvariant
  import opened Reconciling

  // ---- the order of lanes and tasks

  /** Served less often; or as often, and never; or as often, and longer ago. */
  predicate InTurn(claims: nat, last: Option<int>, others: nat, othersLast: Option<int>) {
    claims < others ||
    (claims == others && (last.None? || (othersLast.Some? && last.value <= othersLast.value)))
  }

  predicate SameTurn(claims: nat, last: Option<int>, others: nat, othersLast: Option<int>) {
    claims == others && last == othersLast
  }

  /** Lane `a` may be served before lane `b` by a claim of this role. */
  predicate LaneInTurn(a: Lane, b: Lane, role: Role) {
    match role
    case Builder => InTurn(a.builderClaims, a.lastBuilderClaim, b.builderClaims, b.lastBuilderClaim)
    case Validator => InTurn(a.validatorClaims, a.lastValidatorClaim, b.validatorClaims, b.lastValidatorClaim)
  }

  predicate LanesTie(a: Lane, b: Lane, role: Role) {
    match role
    case Builder => SameTurn(a.builderClaims, a.lastBuilderClaim, b.builderClaims, b.lastBuilderClaim)
    case Validator => SameTurn(a.validatorClaims, a.lastValidatorClaim, b.validatorClaims, b.lastValidatorClaim)
  }

  /** When a task began to wait for this role. */
  function WaitsSince(t: Task, role: Role): int {
    match role
    case Builder => t.meta.createdAt
    case Validator => t.updatedAt
  }

  /** Of one lane, the lower priority number goes first, then the longer wait, then the older row. */
  predicate TaskInTurn(a: Task, b: Task, role: Role) {
    a.meta.priority < b.meta.priority ||
    (a.meta.priority == b.meta.priority &&
     (WaitsSince(a, role) < WaitsSince(b, role) ||
      (WaitsSince(a, role) == WaitsSince(b, role) && a.meta.rowid <= b.meta.rowid)))
  }

  ghost predicate ServedInTurn(db: DB, role: Role, tid: TaskId, other: TaskId) {
    tid in db.tasks && other in db.tasks &&
    var t, u := db.tasks[tid], db.tasks[other];
    var r, q := t.meta.repository, u.meta.repository;
    r in db.lanes && q in db.lanes &&
    LaneInTurn(db.lanes[r], db.lanes[q], role) &&
    (LanesTie(db.lanes[r], db.lanes[q], role) ==> r <= q) &&
    (r == q ==> TaskInTurn(t, u, role))
  }

  lemma LexStep(a: seq<int>, b: seq<int>)
    requires LexLeq(a, b) && a != [] && b != []
    ensures a[0] <= b[0] && (a[0] == b[0] ==> LexLeq(a[1..], b[1..]))
  {
  }

  /** The first three columns, and the fourth if they tie. */
  lemma LeastLane(db: DB, role: Role, tid: TaskId, other: TaskId)
    requires tid in db.tasks && other in db.tasks
    requires db.tasks[tid].meta.repository in db.lanes && db.tasks[other].meta.repository in db.lanes
    requires LexLeq(SortKey(db, role, tid), SortKey(db, role, other))
    ensures var a, b := db.lanes[db.tasks[tid].meta.repository], db.lanes[db.tasks[other].meta.repository];
      LaneInTurn(a, b, role) &&
      (LanesTie(a, b, role) ==> db.tasks[tid].meta.repository <= db.tasks[other].meta.repository)
  {
    hide LexLeq;
    var a, b := SortKey(db, role, tid), SortKey(db, role, other);
    LexStep(a, b);
    if a[0] == b[0] {
      LexStep(a[1..], b[1..]);
      if a[1] == b[1] {
        LexStep(a[1..][1..], b[1..][1..]);
        if a[2] == b[2] { LexStep(a[1..][1..][1..], b[1..][1..][1..]); }
      }
    }
  }

  /** The columns of the task decide within a lane. */
  lemma LeastTask(db: DB, role: Role, tid: TaskId, other: TaskId)
    requires tid in db.tasks && other in db.tasks
    requires db.tasks[tid].meta.repository in db.lanes && db.tasks[other].meta.repository == db.tasks[tid].meta.repository
    requires LexLeq(SortKey(db, role, tid), SortKey(db, role, other))
    ensures TaskInTurn(db.tasks[tid], db.tasks[other], role)
  {
    hide LexLeq;
    var a, b := SortKey(db, role, tid), SortKey(db, role, other);
    LexStep(a, b);
    LexStep(a[1..], b[1..]);
    LexStep(a[1..][1..], b[1..][1..]);
    LexStep(a[1..][1..][1..], b[1..][1..][1..]);
    LexStep(a[1..][1..][1..][1..], b[1..][1..][1..][1..]);
    if a[4] == b[4] {
      LexStep(a[1..][1..][1..][1..][1..], b[1..][1..][1..][1..][1..]);
      if a[5] == b[5] { LexStep(a[1..][1..][1..][1..][1..][1..], b[1..][1..][1..][1..][1..][1..]); }
    }
  }

  lemma FirstInTurn(db: DB, role: Role, tid: TaskId, other: TaskId, rows: set<TaskId>)
    requires forall u :: u in rows ==> u in db.tasks && db.tasks[u].meta.repository in db.lanes
    requires IsFirst(db, role, tid, rows) && other in rows
    ensures ServedInTurn(db, role, tid, other)
  {
    hide LexLeq, SortKey, LaneInTurn, LanesTie, TaskInTurn;
    LeastLane(db, role, tid, other);
    if db.tasks[tid].meta.repository == db.tasks[other].meta.repository { LeastTask(db, role, tid, other); }
  }

  /** Of all tasks that its claim could have been given, the granted one is first in turn. */
  lemma GrantedInTurn(cfg: Config, db: DB, db': DB, now: int, c: Claim, other: TaskId)
    requires Granted(cfg, db, db', now, c) && Candidate(db, other, c.worker, c.role, c.fenced, c.only)
    ensures ServedInTurn(db, c.role, c.task, other)
  {
    hide NotReady, Grant, IsFirst, ServedInTurn;
    FirstInTurn(db, c.role, c.task, other, Candidates(db, c.worker, c.role, c.fenced, c.only));
  }

  /** What a grant writes, column by column: the lane is served by this role now, and only by it; the row is leased
      under the next number, which a new open attempt carries. */
  lemma GrantWritesColumns(cfg: Config, db: DB, db': DB, now: int, c: Claim)
    requires Inv(db) && Granted(cfg, db, db', now, c)
    ensures c.task in db.tasks && c.task in db'.tasks && db.tasks[c.task].meta.repository in db.lanes
    ensures var t, t', r := db.tasks[c.task], db'.tasks[c.task], db.tasks[c.task].meta.repository;
      var lane := db.lanes[r];
      var token, attempt, n := db.uuids, db.uuids + 1, |t.attempts| + 1;
      db' == db.(tasks := db.tasks[c.task := t'], lanes := db'.lanes, uuids := db.uuids + 2) &&
      db'.lanes == db.lanes[r := match c.role
        case Builder => Lane(lane.enabled, lane.maxInFlight, lane.builderClaims + 1, lane.validatorClaims,
                             Some(now), lane.lastValidatorClaim)
        case Validator => Lane(lane.enabled, lane.maxInFlight, lane.builderClaims, lane.validatorClaims + 1,
                               lane.lastBuilderClaim, Some(now))] &&
      t'.state == (if t.producedSha.None? then Leased else Validating) &&
      t'.lease == LeaseColumns(Some(c.worker), Some(token), Some(now + c.ttl), Some(attempt)) &&
      t'.attempts == t.attempts + [Attempt(attempt, n, c.worker, c.role, now, now + c.ttl, None, None)] &&
      t'.validator == (if t.producedSha.None? then t.validator else Some(c.worker)) &&
      t' == t.(state := t'.state, lease := t'.lease, generation := n, attemptCount := n, validator := t'.validator,
               updatedAt := now, lastProgress := now, attempts := t'.attempts)
  {
    hide RowInv, LaneLedger, OneTaskPerWorker, NotReady, IsFirst;
    AttemptsAreNumbered(db.tasks[c.task], db.uuids);
  }

  lemma AttemptsAreNumbered(t: Task, uuids: nat)
    requires RowInv(t, uuids)
    ensures t.generation == t.attemptCount == |t.attempts|
    ensures t.state == Queued ==> t.producedSha.None?
    ensures t.state == Validating ==> t.producedSha.Some?
  {
  }

  // ---- general claims and exact claims

  /** An exact claim of this task by the same worker, in the same role and with the same fencing flag, gets it. */
  ghost predicate CouldGet(cfg: Config, db: DB, now: int, op: Op, tid: TaskId)
    requires op.ClaimOp?
  {
    var tx := ClaimTask(cfg, db, now, op.id, op.role, op.seconds, Some(tid), op.fenced, []);
    tx.Commit? && tx.value.Some? && tx.value.value.task == tid
  }

  lemma SameGrant(cfg: Config, db: DB, now: int, op: Op, tid: TaskId)
    requires op.ClaimOp? && OrDefault(op.seconds, cfg.leaseSeconds) >= 1 && NotReady(cfg, db, now, op.id, op.role).None?
    requires Candidates(db, op.id, op.role, op.fenced, Some(tid)) == {tid} && tid in db.tasks
    requires db.tasks[tid].lease.holder.None? && db.tasks[tid].meta.repository in db.lanes
    ensures var ttl := OrDefault(op.seconds, cfg.leaseSeconds);
      ClaimTask(cfg, db, now, op.id, op.role, op.seconds, Some(tid), op.fenced, []) ==
        Commit(Grant(db, now, tid, op.id, op.role, ttl),
               Some(LeaseGrant(tid, db.uuids, op.id, op.role, now + ttl, db.tasks[tid].generation + 1, db.uuids + 1)))
  {
    hide NotReady, Grant, SortKey, LexLeq;
    assert First(db, op.role, {tid}) in {tid};
  }

  lemma CouldGetWhen(cfg: Config, db: DB, now: int, op: Op, tid: TaskId)
    requires Inv(db) && op.ClaimOp?
    ensures CouldGet(cfg, db, now, op, tid) <==>
      OrDefault(op.seconds, cfg.leaseSeconds) >= 1 && NotReady(cfg, db, now, op.id, op.role).None? &&
      Candidate(db, tid, op.id, op.role, op.fenced, None)
  {
    hide NotReady, Inv, Grant, IsFirst, Candidate;
    ExactlyOne(db, op.id, op.role, op.fenced, tid);
    if OrDefault(op.seconds, cfg.leaseSeconds) >= 1 && NotReady(cfg, db, now, op.id, op.role).None? &&
       Candidate(db, tid, op.id, op.role, op.fenced, None) {
      CandidateIsFree(db, tid, op.id, op.role, op.fenced);
      SameGrant(cfg, db, now, op, tid);
    }
  }

  lemma ExactlyOne(db: DB, id: WorkerId, role: Role, fenced: bool, tid: TaskId)
    ensures Candidates(db, id, role, fenced, Some(tid)) ==
      if Candidate(db, tid, id, role, fenced, None) then {tid} else {}
  {
  }

  lemma CandidateIsFree(db: DB, tid: TaskId, id: WorkerId, role: Role, fenced: bool)
    requires Inv(db) && Candidate(db, tid, id, role, fenced, None)
    ensures tid in db.tasks && db.tasks[tid].lease.holder.None? && db.tasks[tid].meta.repository in db.lanes
  {
    hide RowInv, LaneLedger, OneTaskPerWorker;
    QueuedIsUnleased(db.tasks[tid], db.uuids);
  }

  lemma QueuedIsUnleased(t: Task, uuids: nat)
    requires RowInv(t, uuids)
    ensures t.state == Queued ==> t.lease.holder.None?
  {
  }

  lemma CandidatesAre(db: DB, id: WorkerId, role: Role, fenced: bool, tid: TaskId)
    ensures Candidate(db, tid, id, role, fenced, None) <==> tid in Candidates(db, id, role, fenced, None)
  {
  }

  lemma GrantedIsCandidate(cfg: Config, db: DB, db': DB, now: int, c: Claim)
    requires Granted(cfg, db, db', now, c)
    ensures Candidate(db, c.task, c.worker, c.role, c.fenced, c.only) && db' == Grant(db, now, c.task, c.worker, c.role, c.ttl)
  {
    hide NotReady, Grant, IsFirst;
  }

  lemma CommittedClaim(cfg: Config, db: DB, now: int, op: Op)
    requires op.ClaimOp? && op.only.None? && Possible(cfg, db, now, op)
    ensures var tx := ClaimTask(cfg, db, now, op.id, op.role, op.seconds, op.only, op.fenced, op.order);
      var base := ReconcileRows(cfg, db, now, op.order);
      tx.Commit? ==>
        OrDefault(op.seconds, cfg.leaseSeconds) >= 1 && NotReady(cfg, base, now, op.id, op.role).None? &&
        (tx.value.None? ==> tx.db == base && Candidates(base, op.id, op.role, op.fenced, None) == {})
  {
    hide NotReady, Grant, ReconcileRows, IsFirst, Candidate;
  }

  /** A general claim by a ready worker comes back with nothing exactly if, on the database its sweeps left,
      no exact claim of any task would get that task; otherwise it is one of these exact claims, the one
      whose task is first in turn. */
  lemma GeneralClaimIsBestExactClaim(cfg: Config, db: DB, now: int, op: Op, other: TaskId)
    requires Inv(db) && op.ClaimOp? && op.only.None? && Possible(cfg, db, now, op)
    ensures var tx := ClaimTask(cfg, db, now, op.id, op.role, op.seconds, op.only, op.fenced, op.order);
      var base := ReconcileRows(cfg, db, now, op.order);
      tx.Commit? ==>
        if tx.value.None? then tx.db == base && !CouldGet(cfg, base, now, op, other)
        else
          var tid := tx.value.value.task;
          CouldGet(cfg, base, now, op, tid) &&
          tx == ClaimTask(cfg, base, now, op.id, op.role, op.seconds, Some(tid), op.fenced, []) &&
          (CouldGet(cfg, base, now, op, other) ==> ServedInTurn(base, op.role, tid, other))
  {
    hide Inv, NotReady, Grant, ReconcileRows, ServedInTurn, IsFirst, Candidate, CouldGet;
    var tx := ClaimTask(cfg, db, now, op.id, op.role, op.seconds, op.only, op.fenced, op.order);
    var base := ReconcileRows(cfg, db, now, op.order);
    ReconcileCloses(cfg, db, now, op.order);
    CouldGetWhen(cfg, base, now, op, other);
    CommittedClaim(cfg, db, now, op);
    if tx.Commit? {
      if tx.value.None? {
        CandidatesAre(base, op.id, op.role, op.fenced, other);
      } else {
        var tid := tx.value.value.task;
        ClaimOutcome(cfg, db, now, op.id, op.role, op.seconds, op.only, op.fenced, op.order);
        var c := Claim(tid, op.id, op.role, OrDefault(op.seconds, cfg.leaseSeconds), None, op.fenced);
        GrantedIsCandidate(cfg, base, tx.db, now, c);
        CouldGetWhen(cfg, base, now, op, tid);
        CandidateIsFree(base, tid, op.id, op.role, op.fenced);
        ExactlyOne(base, op.id, op.role, op.fenced, tid);
        SameGrant(cfg, base, now, op, tid);
        if CouldGet(cfg, base, now, op, other) { GrantedInTurn(cfg, base, tx.db, now, c, other); }
      }
    }
  }
}
