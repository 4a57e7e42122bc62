/** A run from the empty pool that leaves a publication behind: its Builder vanishes after announcing
    it, the authority answers that it was not applied, and the task is requeued and claimed again. */
module ExecutorAbandonment {
  import opened Wrappers
  import opened PoolTypes
  import opened PoolRows
  import opened PoolSpec
  import opened PoolSteps
  import opened Ledger
  import opened PoolInvariant
  import opened NativeExecutor
  import opened ExecutorSafety
  import opened ExecutorCalls
  import opened ExecutorTheorems
  import opened ExecutorProgress
  import Effects
  import Scenarios

  const CFG := Scenarios.CFG
  const BUILDER := Scenarios.BUILDER
  const LANE := Scenarios.LANE
  const ARTIFACT := Artifact(0, 0, 0)

  /** One fenced task in an open lane for one, a Builder, and nothing reserved. */
  ghost predicate Tended(db: DB) {
    db.tasks.Keys == {0} && db.tasks[0].meta.fenced && db.tasks[0].meta.repository == LANE &&
    db.tasks[0].meta.maxAttempts == 3 && db.affinities == {} && LANE in db.lanes && db.lanes[LANE].enabled &&
    db.lanes[LANE].maxInFlight == 1
  }

  ghost predicate ReadySince(db: DB, role: Role, now: int) {
    Scenarios.WorkerOf(role) in db.workers &&
    db.workers[Scenarios.WorkerOf(role)] == Worker(role, Normal, None, true, true, now)
  }

  /** Everything but the columns of the one row that its lease holder writes is the same. */
  ghost predicate Leaves(db: DB, db': DB) {
    db' == db.(tasks := db'.tasks) && db'.tasks.Keys == db.tasks.Keys
  }

  ghost predicate SameLease(t: Task, t': Task) {
    t'.lease == t.lease && t'.meta == t.meta && t'.attemptCount == t.attemptCount
  }

  ghost predicate LeavesLeases(db: DB, db': DB) {
    Leaves(db, db') && forall tid :: tid in db.tasks ==> SameLease(db.tasks[tid], db'.tasks[tid])
  }

  lemma StartLeaves(cfg: Config, db: DB, now: int, cred: Credentials)
    ensures LeavesLeases(db, After(cfg, db, now, StartOp(cred)))
  {
    if StartTask(db, now, cred).Commit? { LeaseHeld(db, now, cred, Only(Leased)); }
  }

  lemma RecordLeaves(cfg: Config, db: DB, now: int, cred: Credentials, id: CheckpointId, content: Content)
    ensures LeavesLeases(db, After(cfg, db, now, RecordOp(cred, id, content)))
  {
    hide LeaseRefusal, HasCheckpoint, HasUnknown, MaxSequence, ContentValid;
    if RecordCheckpoint(db, now, cred, id, content).Commit? { LeaseHeld(db, now, cred, AnyActive); }
  }

  lemma TendedStays(db: DB, db': DB)
    requires LeavesLeases(db, db') && Tended(db)
    ensures Tended(db') && db'.workers == db.workers && SameLease(db.tasks[0], db'.tasks[0])
  {
  }

  // ---- the pool before

  /** A run from the empty pool. */
  ghost predicate Happens(events: seq<ExecEvent>) {
    ExecRun(CFG, EMPTY_POOL, events) && ExecInv(ExecEnd(CFG, EMPTY_POOL, events))
  }

  ghost function EndOf(events: seq<ExecEvent>): Pool
    requires Happens(events)
  {
    ExecEnd(CFG, EMPTY_POOL, events)
  }

  /** Fenced claims are on, and both workers are there. */
  const OPENED := EMPTY_DB.(cutover := true,
    workers := map[BUILDER := Scenarios.Ready(Builder), Scenarios.VALIDATOR := Scenarios.Ready(Validator)])

  lemma Opens() returns (events: seq<ExecEvent>)
    ensures Happens(events) && EndOf(events) == EMPTY_POOL.(db := OPENED)
  {
    hide ExecInv, ExecRun, ExecEnd;
    EmptyExecInv();
    NoEvents();
    events := Then(CFG, EMPTY_POOL, [], 0, EnvironmentStep(EnableCutoverOp(true, true)));
    events := Then(CFG, EMPTY_POOL, events, 0, EnvironmentStep(Scenarios.RegisterReady(Builder)));
    events := Then(CFG, EMPTY_POOL, events, 0, EnvironmentStep(Scenarios.RegisterReady(Validator)));
  }

  /** The task waits, and nobody works. */
  ghost predicate Waiting(s: Pool) {
    s.processes == map[] && Tended(s.db) && ReadySince(s.db, Builder, 0) && ReadySince(s.db, Validator, 0) &&
    var t := s.db.tasks[0];
    t.state == Queued && t.lease == NO_LEASE && t.attemptCount == 0 && t.checkpoints == []
  }

  lemma SetsUp() returns (events: seq<ExecEvent>)
    ensures Happens(events) && Waiting(EndOf(events))
  {
    hide ExecInv, ExecRun, ExecEnd;
    events := Opens();
    events := Then(CFG, EMPTY_POOL, events, 0, EnvironmentStep(ConfigureOp(LANE, true, 1)));
    events := Then(CFG, EMPTY_POOL, events, 0, EnvironmentStep(EnqueueOp(0, LANE, 0, Some(3), None, 0, true)));
  }

  lemma NoEvents()
    ensures ExecRun(CFG, EMPTY_POOL, []) && ExecEnd(CFG, EMPTY_POOL, []) == EMPTY_POOL
  {
  }

  // ---- claims of the one task

  /** The task waits for a worker of this role. */
  ghost predicate WaitsFor(t: Task, role: Role) {
    t.lease == NO_LEASE &&
    match role
    case Builder => t.state == Queued
    case Validator => t.state == Validating && t.producedSha.Some? && t.builder == Some(BUILDER)
  }

  /** A ready worker and a free task in an idle lane: the fenced exact claim is granted. */
  lemma FencedClaimGrants(db: DB, role: Role, now: int)
    requires Tended(db) && ReadySince(db, role, now) && WaitsFor(db.tasks[0], role)
    ensures FencedClaim(CFG, db, now, Scenarios.WorkerOf(role), role, None, 0) ==
      Commit(Grant(db, now, 0, Scenarios.WorkerOf(role), role, 120),
             Some(LeaseGrant(0, db.uuids, Scenarios.WorkerOf(role), role, now + 120, db.tasks[0].generation + 1, db.uuids + 1)))
    ensures var db' := Grant(db, now, 0, Scenarios.WorkerOf(role), role, 120);
      Tended(db') && db'.workers == db.workers && db'.tasks[0].lease.expires == Some(now + 120) &&
      db'.tasks[0].attemptCount == db.tasks[0].attemptCount + 1 && db'.tasks[0].checkpoints == db.tasks[0].checkpoints &&
      db'.tasks[0].generation == db.tasks[0].generation + 1 && db'.tasks[0].builder == db.tasks[0].builder &&
      db'.tasks[0].producedSha == db.tasks[0].producedSha && db'.tasks[0].state == (if role == Builder then Leased else Validating)
  {
    TaskIsFree(db, role, now);
    Scenarios.ExactClaimGrants(CFG, db, now, Scenarios.WorkerOf(role), role, 0, true);
  }

  lemma TaskIsFree(db: DB, role: Role, now: int)
    requires Tended(db) && ReadySince(db, role, now) && WaitsFor(db.tasks[0], role)
    ensures NotReady(CFG, db, now, Scenarios.WorkerOf(role), role).None?
    ensures Candidate(db, 0, Scenarios.WorkerOf(role), role, true, Some(0))
  {
    if role == Builder { assert ActiveIn(db, LANE) == {}; }
  }

  // ---- the Builder announces its publication and vanishes

  /** A process works on the one task, and both workers stay ready. */
  ghost predicate Attended(s: Pool, id: nat) {
    s.processes.Keys == {id} && Tended(s.db) && ReadySince(s.db, Builder, 0) && ReadySince(s.db, Validator, 0) &&
    Holding(s, id, 0) && s.processes[id].task == 0
  }

  /** The Builder, under its first lease, before it has recorded anything. */
  ghost predicate FirstBuild(p: Process, t: Task) {
    p.role == Builder && p.worker == BUILDER && p.latest.None? && t.lease.expires == Some(120) && t.attemptCount == 1 &&
    t.checkpoints == []
  }

  ghost predicate Beginning(s: Pool) {
    Attended(s, 0) && FirstBuild(s.processes[0], s.db.tasks[0]) && s.processes[0].pc == Starting && s.db.tasks[0].state == Leased
  }

  lemma ToBeginning(before: seq<ExecEvent>) returns (events: seq<ExecEvent>)
    requires Happens(before) && Waiting(EndOf(before))
    ensures Happens(events) && Beginning(EndOf(events))
  {
    hide ExecInv, ExecRun, ExecEnd, CanStep, FencedClaim, ContextIsSafe, EffectsOf, Inv;
    var s0 := EndOf(before);
    FencedClaimGrants(s0.db, Builder, 0);
    InvOf(s0, 0);
    Claims(CFG, s0, 0, 0, BUILDER, Builder, None, 0);
    events := Then(CFG, EMPTY_POOL, before, 0, ClaimStep(0, BUILDER, Builder, None, 0));
    var s1 := EndOf(events);
    Reads(CFG, s1, 0, 0);
    events := Then(CFG, EMPTY_POOL, events, 0, ReadLatestStep(0));
    var s2 := EndOf(events);
    NothingIsSafe(s2.db.tasks[0], s2.processes[0].generation);
    ReadsEffects(CFG, s2, 0, 0);
    events := Then(CFG, EMPTY_POOL, events, 0, ReadEffectsStep(0, true));
  }

  ghost predicate Constructing(s: Pool) {
    Attended(s, 0) && FirstBuild(s.processes[0], s.db.tasks[0]) && s.processes[0].pc == Building &&
    s.db.tasks[0].state == Running && s.db.tasks[0].builder == Some(BUILDER)
  }

  lemma ToConstructing(before: seq<ExecEvent>) returns (events: seq<ExecEvent>)
    requires Happens(before) && Beginning(EndOf(before))
    ensures Happens(events) && Constructing(EndOf(events))
  {
    hide ExecInv, ExecRun, ExecEnd, CanStep, After, Tended, LeavesLeases;
    var s := EndOf(before);
    ExecutorProgress.Starts(CFG, s, 0, 0);
    StartLeaves(CFG, s.db, 0, Cred(s.processes[0]));
    TendedStays(s.db, After(CFG, s.db, 0, StartOp(Cred(s.processes[0]))));
    events := Then(CFG, EMPTY_POOL, before, 0, CallStep(0, true, true));
  }

  /** What a Builder about to publish has announced. */
  ghost predicate HasAnnounced(p: Process, t: Task) {
    |t.checkpoints| == 1 && t.checkpoints[0].id == NativeCheckpoint(p.attempt, Builder, ArtifactPending) &&
    t.checkpoints[0].generation == t.generation == p.generation &&
    t.checkpoints[0].content == PendingContent(ArtifactEffect(0, 7))
  }

  ghost predicate BuildsFirst(p: Process, t: Task) {
    p.role == Builder && p.worker == BUILDER && p.latest.None? && p.sha == 7 && t.state == Running &&
    t.builder == Some(BUILDER) && t.lease.expires == Some(120) && t.attemptCount == 1
  }

  ghost predicate Announcing(s: Pool) {
    Attended(s, 0) && s.processes[0].pc == Publishing && BuildsFirst(s.processes[0], s.db.tasks[0]) &&
    HasAnnounced(s.processes[0], s.db.tasks[0])
  }

  lemma ToAnnouncing(before: seq<ExecEvent>) returns (events: seq<ExecEvent>)
    requires Happens(before) && Constructing(EndOf(before))
    ensures Happens(events) && Announcing(EndOf(events))
  {
    hide ExecInv, ExecRun, ExecEnd, CanStep, MayRecord, After, Tended, LeavesLeases;
    var s := EndOf(before);
    Acts(CFG, s, 0, 0, 7, ARTIFACT);
    events := Then(CFG, EMPTY_POOL, before, 0, ActStep(0, true, 7, ARTIFACT));
    var s1 := EndOf(events);
    MayRecordPending(s1, 0);
    Records(CFG, s1, 0, 0);
    RecordingStays(s1, 0);
    events := Then(CFG, EMPTY_POOL, events, 0, CallStep(0, true, true));
  }

  /** Recording a checkpoint changes neither leases nor anything but the row. */
  lemma RecordingStays(s: Pool, id: nat)
    requires id in s.processes && Callable(s.processes[id]) && Recording(s.processes[id].pc) && Tended(s.db)
    ensures var db' := After(CFG, s.db, 0, CallOf(s.processes[id]));
      Tended(db') && db'.workers == s.db.workers && SameLease(s.db.tasks[0], db'.tasks[0])
  {
    hide After, Tended, LeavesLeases;
    var p := s.processes[id];
    RecordLeaves(CFG, s.db, 0, Cred(p), NativeCheckpoint(p.attempt, p.role, NoteOf(p.pc)), NoteContent(p));
    TendedStays(s.db, After(CFG, s.db, 0, CallOf(p)));
  }

  /** The publication is announced under a lease until 120, and nobody is left to make it. */
  ghost predicate Announced(s: Pool) {
    s.processes == map[] && Tended(s.db) && ReadySince(s.db, Builder, 0) && IsAnnounced(s.db.tasks[0])
  }

  ghost predicate IsAnnounced(t: Task) {
    t.state == Running && t.lease.holder.Some? && t.lease.expires == Some(120) && t.attemptCount == 1 &&
    |t.checkpoints| == 1 && t.checkpoints[0].generation == t.generation &&
    t.checkpoints[0].content == PendingContent(ArtifactEffect(0, 7))
  }

  lemma ToAnnounced(before: seq<ExecEvent>) returns (events: seq<ExecEvent>)
    requires Happens(before) && Announcing(EndOf(before))
    ensures Happens(events) && Announced(EndOf(events))
  {
    hide ExecInv, ExecRun, ExecEnd, CanStep, Tended;
    var s := EndOf(before);
    CrashIsPossible(s, 0);
    events := Then(CFG, EMPTY_POOL, before, 0, CrashStep(0));
  }

  lemma CrashIsPossible(s: Pool, id: nat)
    requires id in s.processes
    ensures CanStep(CFG, s, 0, CrashStep(id))
  {
  }

  // ---- the lease runs out, the authority answers, the task is claimed again

  lemma AnnouncementIsOpen(t: Task, uuids: nat)
    requires RowInv(t, uuids) && t.lease.holder.Some? && t.meta.fenced && |t.checkpoints| == 1
    requires t.checkpoints[0].generation == t.generation && t.checkpoints[0].content == PendingContent(ArtifactEffect(0, 7))
    ensures Unresolved(t, t.checkpoints[0]) && !Clear(t)
  {
    assert ReconciliationKeys(t);
  }

  lemma RecoversAnnounced(db: DB)
    requires Tended(db) && ReadySince(db, Builder, 0) && db.tasks[0].state == Running && db.tasks[0].lease.expires == Some(120)
    requires !Clear(db.tasks[0])
    ensures var db' := After(CFG, db, 120, RecoverOp);
      Tended(db') && db'.workers == db.workers && AwaitingAuthority(db'.tasks[0]) && db'.tasks[0].lease == NO_LEASE &&
      db'.tasks[0].checkpoints == db.tasks[0].checkpoints && db'.tasks[0].generation == db.tasks[0].generation &&
      db'.tasks[0].reconciliations == db.tasks[0].reconciliations && db'.tasks[0].attemptCount == db.tasks[0].attemptCount &&
      db'.tasks[0].producedSha == db.tasks[0].producedSha
  {
    hide Clear, EndAttempt;
  }

  /** The publication awaits the authority. */
  ghost predicate Stopped(s: Pool) {
    s.processes == map[] && Tended(s.db) && AwaitingAuthority(s.db.tasks[0]) &&
    s.db.tasks[0].lease == NO_LEASE && s.db.tasks[0].producedSha.None? &&
    s.db.tasks[0].attemptCount == 1 && |s.db.tasks[0].checkpoints| == 1 &&
    s.db.tasks[0].checkpoints[0].generation == s.db.tasks[0].generation &&
    s.db.tasks[0].checkpoints[0].content == PendingContent(ArtifactEffect(0, 7)) &&
    Unresolved(s.db.tasks[0], s.db.tasks[0].checkpoints[0])
  }

  lemma SameUnresolved(t: Task, t': Task, i: int)
    requires 0 <= i < |t.checkpoints| && t'.checkpoints == t.checkpoints && t'.reconciliations == t.reconciliations
    ensures Unresolved(t', t'.checkpoints[i]) <==> Unresolved(t, t.checkpoints[i])
  {
  }

  lemma ToStopped(before: seq<ExecEvent>) returns (events: seq<ExecEvent>)
    requires Happens(before) && Announced(EndOf(before))
    ensures Happens(events) && Stopped(EndOf(events))
  {
    hide ExecInv, ExecRun, ExecEnd, After, Tended, ReadySince, RowInv, FencedRow, Unresolved, Clear;
    var s := EndOf(before);
    TendedIsFenced(s.db);
    InvOf(s, 0);
    AnnouncementIsOpen(s.db.tasks[0], s.db.uuids);
    RunningIsUnbuilt(s.db.tasks[0], s.db.uuids);
    RecoversAnnounced(s.db);
    events := Then(CFG, EMPTY_POOL, before, 120, EnvironmentStep(RecoverOp));
    TendedIsFenced(EndOf(events).db);
    SameUnresolved(s.db.tasks[0], EndOf(events).db.tasks[0], 0);
  }

  lemma TendedIsFenced(db: DB)
    requires Tended(db)
    ensures 0 in db.tasks && db.tasks[0].meta.fenced
  {
  }

  lemma RunningIsUnbuilt(t: Task, uuids: nat)
    requires RowInv(t, uuids)
    ensures t.state == Running ==> t.producedSha.None?
  {
  }

  /** The answer: not applied. */
  const ANSWER: Op := ReconcileEffectOp(0, ArtifactEffect(0, 7), 1, NotApplied, 0)

  lemma Answers(db: DB)
    requires Inv(db) && Tended(db) && AwaitingAuthority(db.tasks[0]) && db.tasks[0].lease == NO_LEASE
    requires db.tasks[0].producedSha.None? && |db.tasks[0].checkpoints| == 1 && db.tasks[0].generation == 1
    requires db.tasks[0].checkpoints[0].content.effect == Some(ArtifactEffect(0, 7))
    requires Unresolved(db.tasks[0], db.tasks[0].checkpoints[0])
    ensures var db' := After(CFG, db, 120, ANSWER);
      Tended(db') && AwaitingAuthority(db'.tasks[0]) && db'.tasks[0].lease == NO_LEASE && db'.tasks[0].producedSha.None? &&
      db'.tasks[0].checkpoints == db.tasks[0].checkpoints && db'.tasks[0].generation == 1 && Clear(db'.tasks[0])
  {
    hide Inv, Unresolved, Effects.OpenEffects, Clear;
    var t := db.tasks[0];
    OneOpenEffect(t);
    Effects.OpenEffectCloses(db, 120, 0, ArtifactEffect(0, 7), NotApplied, 0);
    var db' := After(CFG, db, 120, ANSWER);
    Effects.NoOpenEffectsIsClear(db'.tasks[0]);
    ClearWithout(db'.tasks[0]);
  }

  lemma OneOpenEffect(t: Task)
    requires |t.checkpoints| == 1 && t.checkpoints[0].content.effect == Some(ArtifactEffect(0, 7))
    requires Unresolved(t, t.checkpoints[0])
    ensures Effects.OpenEffects(t) == {ArtifactEffect(0, 7)}
  {
    hide Unresolved;
  }

  lemma ClearWithout(t: Task)
    requires !HasUnresolved(t)
    ensures Clear(t)
  {
  }

  lemma RequeuesAnswered(db: DB)
    requires Tended(db) && db.tasks[0].state == Blocked && db.tasks[0].lease == NO_LEASE && db.tasks[0].producedSha.None?
    requires Clear(db.tasks[0])
    ensures var db' := After(CFG, db, 120, RequeueOp(0));
      Tended(db') && db'.tasks[0].state == Queued && db'.tasks[0].lease == NO_LEASE &&
      db'.tasks[0].checkpoints == db.tasks[0].checkpoints && db'.tasks[0].generation == db.tasks[0].generation
  {
    hide Clear;
  }

  lemma ReturnsToWork(db: DB, role: Role)
    requires Tended(db)
    ensures var db' := After(CFG, db, 120, Scenarios.RegisterReady(role));
      Tended(db') && ReadySince(db', role, 120) && db'.tasks == db.tasks
  {
  }

  lemma FirstGeneration(s: Pool)
    requires ExecInv(s) && Tended(s.db)
    ensures s.db.tasks[0].attemptCount == s.db.tasks[0].generation
  {
    hide RowInv, FencedRow;
    InvOf(s, 0);
    CountIsGeneration(s.db.tasks[0], s.db.uuids);
  }

  lemma CountIsGeneration(t: Task, uuids: nat)
    requires RowInv(t, uuids)
    ensures t.attemptCount == t.generation
  {
  }

  lemma ToAbandoned(before: seq<ExecEvent>) returns (events: seq<ExecEvent>)
    requires Happens(before) && Stopped(EndOf(before))
    ensures Happens(events) && 0 in EndOf(events).db.tasks && Abandoned(EndOf(events).db.tasks[0])
  {
    hide ExecInv, ExecRun, ExecEnd, After, Tended, ReadySince, Inv, Unresolved, Clear, FencedClaim, Grant;
    var s := EndOf(before);
    TendedIsFenced(s.db);
    InvOf(s, 0);
    FirstGeneration(s);
    Answers(s.db);
    events := Then(CFG, EMPTY_POOL, before, 120, EnvironmentStep(ANSWER));
    var s1 := EndOf(events);
    TendedIsFenced(s1.db);
    RequeuesAnswered(s1.db);
    events := Then(CFG, EMPTY_POOL, events, 120, EnvironmentStep(RequeueOp(0)));
    var s2 := EndOf(events);
    TendedIsFenced(s2.db);
    ReturnsToWork(s2.db, Builder);
    events := Then(CFG, EMPTY_POOL, events, 120, EnvironmentStep(Scenarios.RegisterReady(Builder)));
    var s3 := EndOf(events);
    FencedClaimGrants(s3.db, Builder, 120);
    TendedIsFenced(Grant(s3.db, 120, 0, BUILDER, Builder, 120));
    events := Then(CFG, EMPTY_POOL, events, 120, ClaimStep(1, BUILDER, Builder, None, 0));
  }

  /** From the empty pool on: an abandoned publication, which no continuation gives a result. */
  lemma AbandonmentHappens() returns (events: seq<ExecEvent>)
    ensures ExecRun(CFG, EMPTY_POOL, events)
    ensures var s := ExecEnd(CFG, EMPTY_POOL, events); ExecInv(s) && 0 in s.db.tasks && Abandoned(s.db.tasks[0])
  {
    hide ExecInv, ExecRun, ExecEnd, Abandoned, Tended, ReadySince, Holding;
    events := SetsUp();
    events := ToBeginning(events);
    events := ToConstructing(events);
    events := ToAnnouncing(events);
    events := ToAnnounced(events);
    events := ToStopped(events);
    events := ToAbandoned(events);
  }
}
