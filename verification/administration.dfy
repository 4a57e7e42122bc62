/** What administration means for everybody else: who may claim, where, and what a repeated request finds. */
module Administration {
  import opened Wrappers
  import opened PoolTypes
  import opened PoolRows
  import opened PoolSpec
  import opened PoolSteps
  import opened Ledger
  import opened PoolInvariant
  import Budgets
  import Evolution

  // ---- workers

  /** A worker just registered is ready, in the role it registered for and in no other, exactly while its
      registration is recent, if it is governed and holds no task; other workers are as ready as before. */
  lemma RegisteringMakesReady(cfg: Config, db: DB, now: int, id: WorkerId, role: Role, profile: Profile,
                              rulesSha: Option<Sha>, gatewayOk: bool, stateValidated: bool, later: int, other: WorkerId)
    ensures var tx := RegisterWorker(db, now, id, role, profile, rulesSha, gatewayOk, stateValidated);
      tx.Commit? && tx.db.tasks == db.tasks && tx.db.lanes == db.lanes && tx.db.affinities == db.affinities &&
      (forall r :: NotReady(cfg, tx.db, later, id, r).None? <==>
        r == role && profile == Normal && gatewayOk && stateValidated && (cfg.rulesSha.None? || rulesSha == cfg.rulesSha) &&
        later <= now + cfg.heartbeatTtl && !Busy(db, id)) &&
      (other != id ==> forall r :: NotReady(cfg, tx.db, later, other, r) == NotReady(cfg, db, later, other, r))
  {
    var db' := RegisterWorker(db, now, id, role, profile, rulesSha, gatewayOk, stateValidated).db;
    assert Busy(db', id) == Busy(db, id) && Busy(db', other) == Busy(db, other);
  }

  /** A heartbeat keeps a worker ready exactly if, its silence aside, it was ready in the role it has, counting
      what the heartbeat itself reports. */
  lemma HeartbeatKeepsReady(cfg: Config, db: DB, now: int, id: WorkerId, profile: Option<Profile>,
                            gatewayOk: Option<bool>, stateValidated: Option<bool>, later: int)
    ensures var tx := HeartbeatWorker(db, now, id, profile, gatewayOk, stateValidated);
      (tx.Commit? <==> id in db.workers) &&
      (tx.Commit? ==>
        tx.db.tasks == db.tasks && tx.db.lanes == db.lanes && tx.db.affinities == db.affinities &&
        tx.db.workers.Keys == db.workers.Keys && (forall w :: w in db.workers && w != id ==> tx.db.workers[w] == db.workers[w]) &&
        forall r :: NotReady(cfg, tx.db, later, id, r).None? <==>
          var w := db.workers[id];
          r == w.role && (if profile.Some? then profile.value == Normal else w.profile == Normal) &&
          (if gatewayOk.Some? then gatewayOk.value else w.gatewayOk) &&
          (if stateValidated.Some? then stateValidated.value else w.stateValidated) &&
          (cfg.rulesSha.None? || w.rulesSha == cfg.rulesSha) && later <= now + cfg.heartbeatTtl && !Busy(db, id))
  {
    if id in db.workers {
      var db' := HeartbeatWorker(db, now, id, profile, gatewayOk, stateValidated).db;
      assert Busy(db', id) == Busy(db, id);
    }
  }

  // ---- affinities and lanes

  /** After its affinities are replaced, a worker may work exactly in the given repositories, and anywhere if none
      is given; all others may work where they could. */
  lemma AffinitiesDecideWhere(db: DB, id: WorkerId, repositories: set<Repository>, other: WorkerId, r: Repository)
    ensures var tx := ReplaceAffinities(db, id, repositories);
      (tx.Commit? <==> id in db.workers) &&
      (tx.Commit? ==>
        (Affine(tx.db, id, r) <==> repositories == {} || r in repositories) &&
        (other != id ==> (Affine(tx.db, other, r) <==> Affine(db, other, r))) &&
        tx.db == db.(lanes := tx.db.lanes, affinities := tx.db.affinities) &&
        (r in tx.db.lanes <==> r in db.lanes || r in repositories) && (r in db.lanes ==> tx.db.lanes[r] == db.lanes[r]))
  {
    if id in db.workers {
      var rows := ReplaceAffinities(db, id, repositories).db.affinities;
      forall p ensures p in rows <==> if p.0 == id then p.1 in repositories else p in db.affinities {
      }
      assert repositories != {} ==> exists x :: x in repositories && (id, x) in rows;
    }
  }

  /** A configuration is taken exactly within bounds; it decides opening and capacity of its lane and nothing else. */
  lemma ConfiguringDecidesCapacity(db: DB, repository: Repository, enabled: bool, maxInFlight: int, r: Repository)
    ensures var tx := ConfigureRepository(db, repository, enabled, maxInFlight);
      (tx.Commit? <==> 1 <= maxInFlight <= 100) &&
      (tx.Commit? ==>
        tx.db == db.(lanes := tx.db.lanes) && repository in tx.db.lanes &&
        var lane := tx.db.lanes[repository];
        lane.enabled == enabled && lane.maxInFlight == maxInFlight &&
        (repository in db.lanes ==> lane == db.lanes[repository].(enabled := enabled, maxInFlight := maxInFlight)) &&
        (repository !in db.lanes ==> lane == Lane(enabled, maxInFlight, 0, 0, None, None)) &&
        (r != repository ==> (r in tx.db.lanes <==> r in db.lanes) && (r in db.lanes ==> tx.db.lanes[r] == db.lanes[r])))
  {
  }

  // ---- admission

  /** The row an admitted request has: its own, waiting for a Builder, with nothing done yet. */
  ghost predicate Admitted(t: Task, now: int, repository: Repository, priority: int, attempts: int, branch: Text, fenced: bool) {
    t.meta.repository == repository && t.meta.priority == priority && t.meta.maxAttempts == attempts &&
    t.meta.branch == branch && t.meta.fenced == fenced && t.meta.createdAt == now && NewRow(t, now) && t.updatedAt == now
  }

  /** A request is admitted exactly once, under an identity nobody has used, with at least one attempt, and fenced
      only after the cutover; it opens its lane if need be, for one task at a time. */
  lemma AdmittedExactly(cfg: Config, db: DB, now: int, tid: TaskId, repository: Repository, priority: int,
                        maxAttempts: Option<int>, targetBranch: Option<Text>, defaultBranch: Text, fenced: bool)
    ensures var tx := EnqueueTask(cfg, db, now, tid, repository, priority, maxAttempts, targetBranch, defaultBranch, fenced);
      var attempts := if maxAttempts.Some? && maxAttempts.value != 0 then maxAttempts.value else cfg.maxAttempts;
      (tx.Commit? && tx.value <==> tid !in db.tasks && attempts >= 1 && (fenced ==> db.cutover)) &&
      (tx.Commit? && tx.value ==>
        tid in tx.db.tasks && tx.db.tasks == db.tasks[tid := tx.db.tasks[tid]] &&
        Admitted(tx.db.tasks[tid], now, repository, priority, attempts,
                 if targetBranch.Some? then targetBranch.value else defaultBranch, fenced)) &&
      (tx.Commit? ==>
        tx.db.workers == db.workers && tx.db.affinities == db.affinities && tx.db.cutover == db.cutover &&
        repository in tx.db.lanes &&
        (repository in db.lanes ==> tx.db.lanes == db.lanes) &&
        (repository !in db.lanes ==> tx.db.lanes == db.lanes[repository := Lane(true, 1, 0, 0, None, None)]))
  {
  }

  lemma CutoverStays(cfg: Config, db: DB, now: int, op: Op)
    requires Possible(cfg, db, now, op) && db.cutover
    ensures After(cfg, db, now, op).cutover
  {
    hide Apply, Scan, Stalled, NotReady, Candidates, IsFirst, Clear, LeaseRefusal, HasCheckpoint, HasUnknown, MaxSequence,
         AwaitsReconciliation, EffectPending, SweepRows;
    match op
    case RecoverStalledOp(order) => ScanOfTasks(cfg, db, now, order); SweepRowsShape(cfg, db, now, order);
    case ReconcileOp(order) => ReconcileKeepsCutover(cfg, db, now, order);
    case ClaimOp(_, _, _, only, _, order) => if only.None? { ReconcileKeepsCutover(cfg, db, now, order); }
    case _ =>
  }

  lemma ReconcileKeepsCutover(cfg: Config, db: DB, now: int, order: seq<TaskId>)
    requires Scan(order, StalledRows(cfg, RecoverExpired(db, now), now))
    ensures forall tid :: tid in order ==> tid in RecoverExpired(db, now).tasks
    ensures ReconcileRows(cfg, db, now, order).cutover == db.cutover
  {
    hide Apply;
    ScanOfTasks(cfg, RecoverExpired(db, now), now, order);
    SweepRowsShape(cfg, RecoverExpired(db, now), now, order);
  }

  lemma {:induction false} CutoverStaysForever(cfg: Config, db: DB, events: seq<Event>)
    requires Run(cfg, db, events) && db.cutover
    ensures End(cfg, db, events).cutover
    decreases |events|
  {
    hide After, Possible;
    if events != [] {
      CutoverStays(cfg, db, events[0].now, events[0].op);
      CutoverStaysForever(cfg, After(cfg, db, events[0].now, events[0].op), events[1..]);
    }
  }

  ghost predicate Enqueues(cfg: Config, db: DB, now: int, op: Op)
    requires op.EnqueueOp?
  {
    EnqueueTask(cfg, db, now, op.tid, op.repository, op.priority, op.maxAttempts, op.targetBranch, op.defaultBranch,
                op.fenced).Commit?
  }

  /** The row that an accepted request has found or made. */
  ghost predicate RowOf(cfg: Config, db: DB, op: Op)
    requires op.EnqueueOp?
  {
    OrDefault(op.maxAttempts, cfg.maxAttempts) >= 1 && (op.fenced ==> db.cutover) && op.tid in db.tasks &&
    db.tasks[op.tid].meta.fenced == op.fenced &&
    (op.targetBranch.Some? ==> db.tasks[op.tid].meta.branch == op.targetBranch.value)
  }

  lemma EnqueuedRow(cfg: Config, db: DB, now: int, op: Op)
    requires op.EnqueueOp? && Enqueues(cfg, db, now, op)
    ensures RowOf(cfg, After(cfg, db, now, op), op)
  {
  }

  lemma RowIsRecognised(cfg: Config, db: DB, now: int, op: Op)
    requires op.EnqueueOp? && RowOf(cfg, db, op)
    ensures var again := EnqueueTask(cfg, db, now, op.tid, op.repository, op.priority, op.maxAttempts, op.targetBranch,
                                     op.defaultBranch, op.fenced);
      again.Commit? && !again.value && again.db.tasks == db.tasks &&
      EnqueueTask(cfg, db, now, op.tid, op.repository, op.priority, op.maxAttempts, op.targetBranch,
                  op.defaultBranch, !op.fenced).Rollback? &&
      forall other :: op.targetBranch.Some? && other != op.targetBranch.value ==>
        EnqueueTask(cfg, db, now, op.tid, op.repository, op.priority, op.maxAttempts, Some(other),
                    op.defaultBranch, op.fenced) == Rollback(ReplayDiverges)
  {
    hide FreshTask;
  }

  /** The same request again, whatever has happened since, finds its row and creates nothing; a request with its
      identity that asks for other fencing, or for another branch, is refused. */
  lemma RequestIsRecognisedForever(cfg: Config, db: DB, now: int, op: Op, events: seq<Event>, later: int)
    requires Inv(db) && op.EnqueueOp? && Enqueues(cfg, db, now, op)
    requires Possible(cfg, db, now, op) && Run(cfg, After(cfg, db, now, op), events)
    ensures var end := End(cfg, After(cfg, db, now, op), events);
      var again := EnqueueTask(cfg, end, later, op.tid, op.repository, op.priority, op.maxAttempts, op.targetBranch,
                               op.defaultBranch, op.fenced);
      again.Commit? && !again.value && again.db.tasks == end.tasks &&
      EnqueueTask(cfg, end, later, op.tid, op.repository, op.priority, op.maxAttempts, op.targetBranch,
                  op.defaultBranch, !op.fenced).Rollback? &&
      forall other :: op.targetBranch.Some? && other != op.targetBranch.value ==>
        EnqueueTask(cfg, end, later, op.tid, op.repository, op.priority, op.maxAttempts, Some(other),
                    op.defaultBranch, op.fenced) == Rollback(ReplayDiverges)
  {
    hide Inv, Possible, After, Enqueues, EnqueueTask, Run, End;
    var db' := After(cfg, db, now, op);
    EnqueuedRow(cfg, db, now, op);
    StepKeepsInv(cfg, db, now, op);
    Evolution.RunEvolves(cfg, db', events);
    if op.fenced { CutoverStaysForever(cfg, db', events); }
    SameMetaForever(db', End(cfg, db', events), op.tid);
    RowIsRecognised(cfg, End(cfg, db', events), later, op);
  }

  lemma SameMetaForever(db: DB, db': DB, tid: TaskId)
    requires Evolution.Evolves(db, db') && tid in db.tasks
    ensures tid in db'.tasks && db'.tasks[tid].meta == db.tasks[tid].meta
  {
    assert Evolution.RowEvolves(db.tasks[tid], db'.tasks[tid], db.uuids);
  }

  lemma OnlyRequestsCreate(cfg: Config, db: DB, now: int, op: Op)
    requires Possible(cfg, db, now, op) && !op.EnqueueOp?
    ensures After(cfg, db, now, op).tasks.Keys == db.tasks.Keys
  {
    hide Apply, Scan, Stalled, NotReady, Candidates, IsFirst, Clear, HasCheckpoint, HasUnknown, MaxSequence,
         AwaitsReconciliation, EffectPending, SweepRows;
    match op
    case RecoverStalledOp(order) => ScanOfTasks(cfg, db, now, order); SweepRowsShape(cfg, db, now, order);
    case ReconcileOp(order) => ReconcileKeepsKeys(cfg, db, now, order);
    case ClaimOp(_, _, _, _, _, _) => ClaimsCreateNothing(cfg, db, now, op);
    case _ =>
  }

  lemma ClaimsCreateNothing(cfg: Config, db: DB, now: int, op: Op)
    requires Possible(cfg, db, now, op) && op.ClaimOp?
    ensures After(cfg, db, now, op).tasks.Keys == db.tasks.Keys
  {
    hide After, Swept, Granted, Quiet, Possible;
    Budgets.NoNewTasks(cfg, db, now, op);
    ClaimStages(cfg, db, now, op);
    var mid, last := Swept(cfg, db, now, op), After(cfg, db, now, op);
    if last != mid {
      var c :| GrantedTo(cfg, mid, last, now, op, c);
      GrantKeepsKeys(cfg, mid, last, now, c);
    }
  }

  lemma GrantKeepsKeys(cfg: Config, db: DB, db': DB, now: int, c: Claim)
    requires Granted(cfg, db, db', now, c)
    ensures db'.tasks.Keys == db.tasks.Keys
  {
    hide NotReady, IsFirst, Apply;
  }

  lemma ReconcileKeepsKeys(cfg: Config, db: DB, now: int, order: seq<TaskId>)
    requires Scan(order, StalledRows(cfg, RecoverExpired(db, now), now))
    ensures forall tid :: tid in order ==> tid in RecoverExpired(db, now).tasks
    ensures ReconcileRows(cfg, db, now, order).tasks.Keys == db.tasks.Keys
  {
    hide Apply;
    ScanOfTasks(cfg, RecoverExpired(db, now), now, order);
    SweepRowsShape(cfg, RecoverExpired(db, now), now, order);
  }

  ghost predicate FencedAfterCutover(db: DB) {
    forall tid :: tid in db.tasks && db.tasks[tid].meta.fenced ==> db.cutover
  }

  lemma StepFencesAfterCutover(cfg: Config, db: DB, now: int, op: Op)
    requires Inv(db) && FencedAfterCutover(db) && Possible(cfg, db, now, op)
    ensures FencedAfterCutover(After(cfg, db, now, op))
  {
    hide Inv, After, Possible, FreshTask;
    var db' := After(cfg, db, now, op);
    Evolution.StepEvolves(cfg, db, now, op);
    forall tid | tid in db.tasks ensures tid in db'.tasks && db'.tasks[tid].meta == db.tasks[tid].meta {
      SameMetaForever(db, db', tid);
    }
    if db.cutover {
      CutoverStays(cfg, db, now, op);
    } else if op.EnqueueOp? {
      EnqueueFencesAfterCutover(cfg, db, now, op);
    } else {
      OnlyRequestsCreate(cfg, db, now, op);
    }
  }

  lemma EnqueueFencesAfterCutover(cfg: Config, db: DB, now: int, op: Op)
    requires op.EnqueueOp? && FencedAfterCutover(db)
    ensures FencedAfterCutover(After(cfg, db, now, op))
  {
  }

  lemma {:induction false} RunFencesAfterCutover(cfg: Config, db: DB, events: seq<Event>)
    requires Inv(db) && FencedAfterCutover(db) && Run(cfg, db, events)
    ensures FencedAfterCutover(End(cfg, db, events))
    decreases |events|
  {
    hide Inv, After, Possible, FencedAfterCutover;
    if events != [] {
      StepFencesAfterCutover(cfg, db, events[0].now, events[0].op);
      StepKeepsInv(cfg, db, events[0].now, events[0].op);
      RunFencesAfterCutover(cfg, After(cfg, db, events[0].now, events[0].op), events[1..]);
    }
  }

  /** In every reachable state a fenced task exists only if the cutover was enabled. */
  lemma FencedOnlyAfterCutover(cfg: Config, events: seq<Event>)
    requires Run(cfg, EMPTY_DB, events)
    ensures FencedAfterCutover(End(cfg, EMPTY_DB, events))
  {
    hide Inv, Run, End;
    EmptyInv();
    RunFencesAfterCutover(cfg, EMPTY_DB, events);
  }
}
