/** A run from the empty pool that loses a completion: the Validator vanishes between its verdict and the
    completion, its lease is recovered, and the task is claimed again. */
module ExecutorStranding {
  import opened Wrappers
  import opened PoolTypes
  import opened PoolRows
  import opened PoolSpec
  import opened PoolSteps
  import opened Ledger
  import opened PoolInvariant
  import opened NativeExecutor
  import opened ExecutorSafety
  import opened ExecutorCalls
  import opened ExecutorTheorems
  import opened ExecutorProgress
  import opened ExecutorAbandonment
  import Scenarios

  const VALIDATOR := Scenarios.VALIDATOR

  // ---- the Builder publishes and hands over

  /** The Builder has recorded the result and is about to submit it. */
  ghost predicate Delivering(s: Pool) {
    Attended(s, 0) && s.processes[0].pc == Submitting && BuildsFirst(s.processes[0], s.db.tasks[0]) &&
    |s.db.tasks[0].checkpoints| == 2 && EndsInResult(s.db.tasks[0])
  }

  lemma FirstResultEnds(p: Process, t: Task, t': Task, c: Checkpoint)
    requires HasAnnounced(p, t) && t'.checkpoints == t.checkpoints + [c]
    requires c.content == ResultContent(2, ArtifactEffect(0, 7), ARTIFACT)
    ensures |t'.checkpoints| == 2 && EndsInResult(t')
  {
  }

  /** The publication is made and verified. */
  ghost predicate Published(s: Pool) {
    Attended(s, 0) && s.processes[0].pc == RecordingResult && s.processes[0].artifact == Some(ARTIFACT) &&
    BuildsFirst(s.processes[0], s.db.tasks[0]) && HasAnnounced(s.processes[0], s.db.tasks[0])
  }

  lemma ToPublished(before: seq<ExecEvent>) returns (events: seq<ExecEvent>)
    requires Happens(before) && Announcing(EndOf(before))
    ensures Happens(events) && Published(EndOf(events))
  {
    hide ExecInv, ExecRun, ExecEnd, CanStep, Tended;
    Acts(CFG, EndOf(before), 0, 0, 0, ARTIFACT);
    events := Then(CFG, EMPTY_POOL, before, 0, ActStep(0, true, 0, ARTIFACT));
    Acts(CFG, EndOf(events), 0, 0, 0, ARTIFACT);
    events := Then(CFG, EMPTY_POOL, events, 0, ActStep(0, true, 0, ARTIFACT));
  }

  lemma ToDelivering(before: seq<ExecEvent>) returns (events: seq<ExecEvent>)
    requires Happens(before) && Published(EndOf(before))
    ensures Happens(events) && Delivering(EndOf(events))
  {
    hide ExecInv, ExecRun, ExecEnd, CanStep, MayRecord, After, Tended, LeavesLeases, EndsInResult;
    var s := EndOf(before);
    MayRecordFirstResult(s, 0);
    Records(CFG, s, 0, 0);
    RecordingStays(s, 0);
    events := Then(CFG, EMPTY_POOL, before, 0, CallStep(0, true, true));
    var t := EndOf(events).db.tasks[0];
    FirstResultEnds(s.processes[0], s.db.tasks[0], t, t.checkpoints[1]);
  }

  lemma SubmitLeaves(db: DB, cred: Credentials, sha: Sha)
    requires Tended(db)
    ensures var db' := After(CFG, db, 0, SubmitOp(cred, sha));
      Tended(db') && db'.workers == db.workers && db'.tasks[0].attemptCount == db.tasks[0].attemptCount
  {
    hide Clear, EndAttempt;
    if SubmitForValidation(db, 0, cred, sha).Commit? { LeaseHeld(db, 0, cred, Only(Running)); }
  }

  /** The build awaits its validation. */
  ghost predicate HandedOver(s: Pool) {
    s.processes == map[] && Tended(s.db) && ReadySince(s.db, Builder, 0) && ReadySince(s.db, Validator, 0) &&
    WaitsFor(s.db.tasks[0], Validator) && s.db.tasks[0].attemptCount == 1 && |s.db.tasks[0].checkpoints| == 2 &&
    EndsInResult(s.db.tasks[0])
  }

  ghost function TheTask(s: Pool): Task
    requires HandedOver(s)
  {
    s.db.tasks[0]
  }

  lemma ToHandedOver(before: seq<ExecEvent>) returns (events: seq<ExecEvent>)
    requires Happens(before) && Delivering(EndOf(before))
    ensures Happens(events) && HandedOver(EndOf(events))
  {
    hide ExecInv, ExecRun, ExecEnd, CanStep, After, Tended, EndsInResult, Clear;
    var s := EndOf(before);
    ClearAtSubmit(s, 0, 0, 0);
    Submits(CFG, s, 0, 0);
    SubmitLeaves(s.db, Cred(s.processes[0]), s.processes[0].sha);
    events := Then(CFG, EMPTY_POOL, before, 0, CallStep(0, true, true));
    SameEndsInResult(s.db.tasks[0], EndOf(events).db.tasks[0]);
  }

  // ---- the Validator judges and vanishes

  /** The Validator, under the second lease, has the Builder's result before it. */
  ghost predicate Inspected(s: Pool, before: Task) {
    Attended(s, 1) && AtJudgement(s, 1, 0, 0, Inspecting, before) && CanInspect(s.processes[1]) && EndsInResult(before) &&
    before.checkpoints == s.db.tasks[0].checkpoints && |before.checkpoints| == 2 &&
    LatestOf(before).value.generation < s.db.tasks[0].generation &&
    s.db.tasks[0].builder == Some(BUILDER) && s.db.tasks[0].lease.expires == Some(120) && s.db.tasks[0].attemptCount == 2
  }

  lemma ToInspected(before: seq<ExecEvent>) returns (events: seq<ExecEvent>)
    requires Happens(before) && HandedOver(EndOf(before))
    ensures Happens(events) && Inspected(EndOf(events), TheTask(EndOf(before)))
  {
    hide ExecInv, ExecRun, ExecEnd, CanStep, FencedClaim, EndsInResult, RowInv, FencedRow, Resumable, Built, Inv, Grant;
    var s := EndOf(before);
    var t := s.db.tasks[0];
    FencedClaimGrants(s.db, Validator, 0);
    var more := ReachesInspecting(CFG, s, 0, 1, VALIDATOR, None, 0);
    RunConcat(CFG, EMPTY_POOL, before, more);
    events := before + more;
    EndsSomewhere(t);
    InvOf(s, 0);
    HistoryOf(s.log, 0, t);
    ResultHasArtifact(0, t);
    CheckpointsAreOlder(t, s.db.uuids, EndOf(events).db.tasks[0].generation);
  }

  /** The verdict is recorded, and nobody is left to complete the task. */
  ghost predicate VerdictGiven(t: Task) {
    Built(t.checkpoints) && t.state == Validating && t.producedSha.Some? && t.builder == Some(BUILDER) &&
    t.attemptCount == 2 && t.lease.holder.Some? && t.lease.expires == Some(120) &&
    var last := t.checkpoints[|t.checkpoints| - 1];
    last.content.stage == ValidatorResult && last.generation == t.generation
  }

  lemma ThreeAreBuilt(tid: TaskId, t: Task)
    requires History(tid, t.checkpoints) && |t.checkpoints| == 3
    ensures Built(t.checkpoints)
  {
  }

  /** The Validator is about to record its verdict. */
  ghost predicate Deciding(s: Pool, before: Task) {
    Attended(s, 1) && AtJudgement(s, 1, 0, 0, RecordingVerdict, before) && s.processes[1].artifact.Some? &&
    EndsInResult(before) && before.checkpoints == s.db.tasks[0].checkpoints && |before.checkpoints| == 2 &&
    LatestOf(before).value.generation < s.db.tasks[0].generation &&
    s.db.tasks[0].builder == Some(BUILDER) && s.db.tasks[0].lease.expires == Some(120) && s.db.tasks[0].attemptCount == 2
  }

  lemma ToDeciding(before: seq<ExecEvent>, found: Task) returns (events: seq<ExecEvent>)
    requires Happens(before) && Inspected(EndOf(before), found)
    ensures Happens(events) && Deciding(EndOf(events), found)
  {
    hide ExecInv, ExecRun, ExecEnd, CanStep, Tended, EndsInResult, Resumable;
    Acts(CFG, EndOf(before), 0, 1, 0, ARTIFACT);
    events := Then(CFG, EMPTY_POOL, before, 0, ActStep(1, true, 0, ARTIFACT));
    Acts(CFG, EndOf(events), 0, 1, 0, ARTIFACT);
    events := Then(CFG, EMPTY_POOL, events, 0, ActStep(1, true, 0, ARTIFACT));
  }

  lemma ToVerdict(before: seq<ExecEvent>, found: Task) returns (events: seq<ExecEvent>)
    requires Happens(before) && Deciding(EndOf(before), found)
    ensures Happens(events) && Attended(EndOf(events), 1) && VerdictGiven(EndOf(events).db.tasks[0])
  {
    hide ExecInv, ExecRun, ExecEnd, CanStep, MayRecord, After, Tended, EndsInResult, RowInv, FencedRow, Built;
    var s := EndOf(before);
    MayRecordVerdict(s, 1, 0, 0, found);
    Records(CFG, s, 0, 1);
    RecordingStays(s, 1);
    events := Then(CFG, EMPTY_POOL, before, 0, CallStep(1, true, true));
    var s' := EndOf(events);
    InvOf(s', 0);
    HistoryOf(s'.log, 0, s'.db.tasks[0]);
    ThreeAreBuilt(0, s'.db.tasks[0]);
  }

  ghost predicate Lost(s: Pool) {
    s.processes == map[] && Tended(s.db) && VerdictGiven(s.db.tasks[0])
  }

  lemma ToLost(before: seq<ExecEvent>) returns (events: seq<ExecEvent>)
    requires Happens(before) && Attended(EndOf(before), 1) && VerdictGiven(EndOf(before).db.tasks[0])
    ensures Happens(events) && Lost(EndOf(events))
  {
    hide ExecInv, ExecRun, ExecEnd, CanStep, Tended, VerdictGiven;
    CrashIsPossible(EndOf(before), 1);
    events := Then(CFG, EMPTY_POOL, before, 0, CrashStep(1));
  }

  // ---- the lease runs out, and the task is claimed again

  ghost predicate Waits(t: Task) {
    WaitsFor(t, Validator) && Built(t.checkpoints) &&
    var last := t.checkpoints[|t.checkpoints| - 1];
    last.content.stage == ValidatorResult && last.generation == t.generation
  }

  lemma RecoversVerdict(db: DB)
    requires Tended(db) && VerdictGiven(db.tasks[0]) && Clear(db.tasks[0])
    ensures var db' := After(CFG, db, 120, RecoverOp); Tended(db') && Waits(db'.tasks[0])
  {
    hide Clear, EndAttempt, Built;
  }

  lemma ToStranded(before: seq<ExecEvent>) returns (events: seq<ExecEvent>)
    requires Happens(before) && Lost(EndOf(before))
    ensures Happens(events) && 0 in EndOf(events).db.tasks && Stranded(EndOf(events).db.tasks[0])
  {
    hide ExecInv, ExecRun, ExecEnd, After, Tended, ReadySince, Clear, Built, RowInv, FencedRow, FencedClaim, Grant;
    var s := EndOf(before);
    TendedIsFenced(s.db);
    InvOf(s, 0);
    HistoryOf(s.log, 0, s.db.tasks[0]);
    BuiltIsClear(0, s.db.tasks[0], s.db.uuids);
    RecoversVerdict(s.db);
    events := Then(CFG, EMPTY_POOL, before, 120, EnvironmentStep(RecoverOp));
    var s1 := EndOf(events);
    TendedIsFenced(s1.db);
    ReturnsToWork(s1.db, Validator);
    events := Then(CFG, EMPTY_POOL, events, 120, EnvironmentStep(Scenarios.RegisterReady(Validator)));
    var s2 := EndOf(events);
    FencedClaimGrants(s2.db, Validator, 120);
    TendedIsFenced(Grant(s2.db, 120, 0, VALIDATOR, Validator, 120));
    events := Then(CFG, EMPTY_POOL, events, 120, ClaimStep(2, VALIDATOR, Validator, None, 0));
  }

  /** From the empty pool on: a verdict whose task no continuation completes. */
  lemma StrandingHappens() returns (events: seq<ExecEvent>)
    ensures ExecRun(CFG, EMPTY_POOL, events)
    ensures var s := ExecEnd(CFG, EMPTY_POOL, events); ExecInv(s) && 0 in s.db.tasks && Stranded(s.db.tasks[0])
  {
    hide ExecInv, ExecRun, ExecEnd, Stranded, Tended, ReadySince, Holding, EndsInResult, VerdictGiven;
    events := SetsUp();
    events := ToBeginning(events);
    events := ToConstructing(events);
    events := ToAnnouncing(events);
    events := ToPublished(events);
    events := ToDelivering(events);
    events := ToHandedOver(events);
    var found := TheTask(EndOf(events));
    events := ToInspected(events);
    events := ToDeciding(events, found);
    events := ToVerdict(events, found);
    events := ToLost(events);
    events := ToStranded(events);
  }
}
