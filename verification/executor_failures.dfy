/** What native executors do when something goes wrong: which failures are reported as failures, which
    block the task for the authority, and how each ends. */
module ExecutorFailures {
  import opened Wrappers
  import opened PoolTypes
  import opened PoolRows
  import opened PoolSpec
  import opened PoolSteps
  import opened Ledger
  import opened PoolInvariant
  import opened Outcomes
  import opened NativeExecutor
  import opened ExecutorSafety
  import opened ExecutorCalls
  import opened ExecutorTheorems
  import opened ExecutorProgress

  // ---- the two ways a process ends badly

  /** A reported failure is taken exactly under the open attempt and without an open effect: the work goes back,
      or is quarantined with its attempts used up. */
  ghost predicate TakesFailure(db: DB, db': DB, now: int, cred: Credentials) {
    if HoldsOpenAttempt(db, now, cred) && !HasOpenEffect(db.tasks[cred.task]) then
      ChangesRow(db, db', cred.task) &&
      var t, t' := db.tasks[cred.task], db'.tasks[cred.task];
      Ends(t, t', now, FailedAttempt) && t'.blockedReason == t.blockedReason &&
      (if |t.attempts| < t.meta.maxAttempts then GoesBack(t, t') else t'.state == Failed && |t'.quarantine| == |t.quarantine| + 1)
    else db' == db
  }

  /** A block is taken exactly under the open attempt: the task is parked, for the authority if an effect is open. */
  ghost predicate TakesBlock(db: DB, db': DB, now: int, cred: Credentials) {
    if HoldsOpenAttempt(db, now, cred) then
      ChangesRow(db, db', cred.task) &&
      var t, t' := db.tasks[cred.task], db'.tasks[cred.task];
      Leads(t, t', now, BlockedReason) && t'.state == Blocked && t'.producedSha == t.producedSha && t'.blockedReason.Some? &&
      (HasOpenEffect(t) ==> t'.blockedReason == Some(EffectReconciliationRequired))
    else db' == db
  }

  lemma FailureIsTaken(cfg: Config, db: DB, now: int, cred: Credentials, reason: Option<Reason>)
    requires Inv(db)
    ensures TakesFailure(db, After(cfg, db, now, FailOp(cred, reason)), now, cred)
  {
    hide Inv, HasOpenEffect, FailTask, Ends, GoesBack;
    FailReturnsWork(db, now, cred, reason);
  }

  lemma BlockIsTaken(cfg: Config, db: DB, now: int, cred: Credentials, reason: Reason)
    requires Inv(db)
    ensures TakesBlock(db, After(cfg, db, now, BlockOp(cred, Some(reason))), now, cred)
  {
    hide Inv, HoldsOpenAttempt, HasOpenEffect, BlockTask, Leads;
    BlockParks(db, now, cred, Some(reason));
  }

  lemma FailingEnds(cfg: Config, s: Pool, now: int, id: nat, heard: bool)
    requires Inv(s.db) && id in s.processes && s.processes[id].pc == Failing
    ensures CanStep(cfg, s, now, CallStep(id, true, heard))
    ensures var s' := Next(cfg, s, now, CallStep(id, true, heard));
      s'.processes == s.processes - {id} && s'.log == s.log && TakesFailure(s.db, s'.db, now, Cred(s.processes[id]))
  {
    hide Inv, TakesFailure, After, Accepts;
    FailureIsTaken(cfg, s.db, now, Cred(s.processes[id]), Some(OtherReason(0)));
  }

  lemma BlockingEnds(cfg: Config, s: Pool, now: int, id: nat, heard: bool)
    requires Inv(s.db) && id in s.processes && s.processes[id].pc == Blocking
    ensures CanStep(cfg, s, now, CallStep(id, true, heard))
    ensures var s' := Next(cfg, s, now, CallStep(id, true, heard));
      s'.processes == s.processes - {id} && s'.log == s.log && TakesBlock(s.db, s'.db, now, Cred(s.processes[id]))
  {
    hide Inv, TakesBlock, After, Accepts;
    BlockIsTaken(cfg, s.db, now, Cred(s.processes[id]), OtherReason(0));
  }

  // ---- what leads there, from any state of any interleaving

  /** A build, an inspection or a judgement that raises is reported as a failure. */
  lemma RaisedWorkIsReported(cfg: Config, s: Pool, now: int, id: nat, sha: Sha, any: Artifact, heard: bool)
    requires ExecInv(s) && id in s.processes && s.processes[id].pc in {Building, VerifyingOld, Inspecting, Judging}
    ensures CanStep(cfg, s, now, ActStep(id, false, sha, any))
    ensures var s1 := Next(cfg, s, now, ActStep(id, false, sha, any));
      CanStep(cfg, s1, now, CallStep(id, true, heard)) &&
      var s2 := Next(cfg, s1, now, CallStep(id, true, heard));
      s2.processes == s.processes - {id} && s2.log == s.log && TakesFailure(s.db, s2.db, now, Cred(s.processes[id]))
  {
    hide Inv, TakesFailure, After, Accepts, ExecInv, CallOf;
    InvIn(s);
    FailingEnds(cfg, Next(cfg, s, now, ActStep(id, false, sha, any)), now, id, heard);
  }

  /** So is a call that was lost, refused, or not answered: start, announcement, result, handover, verdict,
      completion. */
  lemma UnconfirmedCallIsReported(cfg: Config, s: Pool, now: int, id: nat, delivered: bool, heard: bool)
    requires ExecInv(s) && id in s.processes && Callable(s.processes[id])
    requires s.processes[id].pc in {Starting, RecordingPending, RecordingResult, Submitting, RecordingVerdict, Completing}
    requires !(delivered && heard && Accepts(s.db, now, CallOf(s.processes[id])))
    ensures CanStep(cfg, s, now, CallStep(id, delivered, heard))
    ensures var s1 := Next(cfg, s, now, CallStep(id, delivered, heard));
      (!delivered ==> s1.db == s.db) && CanStep(cfg, s1, now, CallStep(id, true, true)) &&
      var s2 := Next(cfg, s1, now, CallStep(id, true, true));
      s2.processes == s.processes - {id} && s2.log == s.log && TakesFailure(s1.db, s2.db, now, Cred(s.processes[id]))
  {
    hide Inv, TakesFailure, After, Accepts, ExecInv, CallOf;
    ExecStepKeeps(cfg, s, now, CallStep(id, delivered, heard));
    var s1 := Next(cfg, s, now, CallStep(id, delivered, heard));
    InvIn(s1);
    FailingEnds(cfg, s1, now, id, true);
  }

  lemma InvIn(s: Pool)
    requires ExecInv(s)
    ensures Inv(s.db)
  {
    hide Inv, LogIn, LogOnce, ProcessesIn, Apart;
  }

  /** A publication that raises, or whose verification does, is never reported as a failure and never repeated:
      the process notes the doubt, whatever becomes of that call, and blocks the task. */
  lemma RaisedPublicationBlocks(cfg: Config, s: Pool, now: int, id: nat, sha: Sha, any: Artifact, delivered: bool, heard: bool)
    requires ExecInv(s) && id in s.processes && s.processes[id].pc in {Publishing, VerifyingNew}
    ensures CanStep(cfg, s, now, ActStep(id, false, sha, any))
    ensures var s1 := Next(cfg, s, now, ActStep(id, false, sha, any));
      s1.db == s.db && CanStep(cfg, s1, now, CallStep(id, delivered, heard)) &&
      var s2 := Next(cfg, s1, now, CallStep(id, delivered, heard));
      CanStep(cfg, s2, now, CallStep(id, true, heard)) &&
      var s3 := Next(cfg, s2, now, CallStep(id, true, heard));
      s3.processes == s.processes - {id} && TakesBlock(s2.db, s3.db, now, Cred(s.processes[id])) &&
      |s3.log| == |s.log| + if s.processes[id].pc == Publishing then 1 else 0
  {
    hide Inv, TakesBlock, After, Accepts, ExecInv, CallOf;
    var s1 := Next(cfg, s, now, ActStep(id, false, sha, any));
    ExecStepKeeps(cfg, s, now, ActStep(id, false, sha, any));
    ExecStepKeeps(cfg, s1, now, CallStep(id, delivered, heard));
    var s2 := Next(cfg, s1, now, CallStep(id, delivered, heard));
    InvIn(s2);
    BlockingEnds(cfg, s2, now, id, heard);
  }

  // ---- an undisturbed Builder whose publication raised

  lemma ActsRaise(cfg: Config, s: Pool, now: int, id: nat, sha: Sha, any: Artifact)
    requires Holding(s, id, now) && s.processes[id].pc in {Publishing, VerifyingNew}
    ensures CanStep(cfg, s, now, ActStep(id, false, sha, any))
    ensures var s' := Next(cfg, s, now, ActStep(id, false, sha, any));
      Holding(s', id, now) && s'.db == s.db && s'.processes[id] == s.processes[id].(pc := RecordingUnknown)
  {
  }

  lemma LosesNote(cfg: Config, s: Pool, now: int, id: nat)
    requires Holding(s, id, now) && s.processes[id].pc == RecordingUnknown
    ensures CanStep(cfg, s, now, CallStep(id, false, false))
    ensures var s' := Next(cfg, s, now, CallStep(id, false, false));
      Holding(s', id, now) && s'.db == s.db && s'.processes[id] == s.processes[id].(pc := Blocking)
  {
    hide After, Accepts;
  }

  lemma MayRecordUnknown(s: Pool, id: nat, now: int, task: TaskId)
    requires AtPublication(s, id, now, task, RecordingUnknown)
    ensures MayRecord(s.processes[id], RowAt(s, id))
  {
    hide ExecInv;
    var t := RowAt(s, id);
    assert t.checkpoints[..0] == [];
    assert MaxSequence(t.checkpoints, t.generation) == 1;
  }

  lemma HoldingHolds(s: Pool, id: nat, now: int)
    requires ExecInv(s) && Holding(s, id, now)
    ensures HoldsOpenAttempt(s.db, now, Cred(s.processes[id]))
  {
    hide ExecInv, RowInv, FencedRow, AllSigned;
    InvOf(s, s.processes[id].task);
    LeaseIsOpenAttempt(RowAt(s, id), s.db.uuids);
  }

  /** The announcement, and perhaps the doubt. */
  ghost predicate InDoubtOf(t: Task, effect: EffectId) {
    1 <= |t.checkpoints| <= 2 && t.checkpoints[0].content.effect == Some(effect) &&
    t.checkpoints[0].content.effectState == Pending && t.checkpoints[|t.checkpoints| - 1].generation == |t.attempts| &&
    (|t.checkpoints| == 2 ==>
      t.checkpoints[1].content.effect == Some(effect) && t.checkpoints[1].content.effectState == Unknown &&
      t.checkpoints[1].content.stage == ArtifactPublish && t.checkpoints[1].content.nextAction == ReconcileArtifact)
  }

  lemma DoubtIsOpen(t: Task, uuids: nat, effect: EffectId)
    requires RowInv(t, uuids) && t.lease.holder.Some? && InDoubtOf(t, effect)
    ensures HasOpenEffect(t)
  {
    hide ResultColumns, QuarantineLedger, CheckpointLedger, EffectsContained, AnsweredOpen;
    assert ReconciliationKeys(t);
    assert LeftOpen(t, |t.checkpoints| - 1);
  }

  /** Blocking while in doubt. */
  lemma BlocksInDoubt(cfg: Config, s: Pool, events: seq<ExecEvent>, now: int, id: nat, effect: EffectId)
    returns (more: seq<ExecEvent>)
    requires ExecRun(cfg, s, events)
    requires var e := ExecEnd(cfg, s, events);
      ExecInv(e) && Holding(e, id, now) && e.processes[id].pc == Blocking && InDoubtOf(RowAt(e, id), effect)
    ensures ExecRun(cfg, s, more)
    ensures var e, e' := ExecEnd(cfg, s, events), ExecEnd(cfg, s, more);
      var tid := e.processes[id].task;
      e'.processes == e.processes - {id} && e'.log == e.log && tid in e'.db.tasks &&
      var t, t' := RowAt(e, id), e'.db.tasks[tid];
      t'.state == Blocked && t'.blockedReason == Some(EffectReconciliationRequired) && t'.lease == NO_LEASE &&
      t'.checkpoints == t.checkpoints && t'.producedSha == t.producedSha
  {
    hide ExecInv, CanStep, Next, HoldsOpenAttempt, HasOpenEffect, RowInv, FencedRow, AllSigned, InDoubtOf;
    var e := ExecEnd(cfg, s, events);
    InvOf(e, e.processes[id].task);
    HoldingHolds(e, id, now);
    DoubtIsOpen(RowAt(e, id), e.db.uuids, effect);
    BlockingEnds(cfg, e, now, id, true);
    more := Then(cfg, s, events, now, CallStep(id, true, true));
  }

  /** From the raised publication on; `noted` says whether the note of the doubt arrives. */
  lemma DoubtsAndBlocks(cfg: Config, s: Pool, before: seq<ExecEvent>, now: int, id: nat, task: TaskId, pc: Pc, any: Artifact,
                        noted: bool)
    returns (events: seq<ExecEvent>)
    requires ExecRun(cfg, s, before) && pc in {Publishing, VerifyingNew}
    requires AtPublication(ExecEnd(cfg, s, before), id, now, task, pc)
    ensures ExecRun(cfg, s, events)
    ensures var e, e' := ExecEnd(cfg, s, before), ExecEnd(cfg, s, events);
      id !in e'.processes && task in e'.db.tasks &&
      BlockedInDoubt(e'.db.tasks[task], ArtifactEffect(task, e.processes[id].sha), noted)
  {
    hide ExecInv, CanStep, Next, MayRecord;
    var e := ExecEnd(cfg, s, before);
    var effect := ArtifactEffect(task, e.processes[id].sha);
    ActsRaise(cfg, e, now, id, 0, any);
    events := Then(cfg, s, before, now, ActStep(id, false, 0, any));
    var s1 := ExecEnd(cfg, s, events);
    if noted {
      MayRecordUnknown(s1, id, now, task);
      Records(cfg, s1, now, id);
      events := Then(cfg, s, events, now, CallStep(id, true, true));
    } else {
      LosesNote(cfg, s1, now, id);
      events := Then(cfg, s, events, now, CallStep(id, false, false));
    }
    var s2 := ExecEnd(cfg, s, events);
    GenerationIsLast(s2, task);
    NothingProduced(s2, task);
    events := BlocksInDoubt(cfg, s, events, now, id, effect);
  }

  lemma GenerationIsLast(s: Pool, tid: TaskId)
    requires ExecInv(s) && tid in s.db.tasks && s.db.tasks[tid].meta.fenced
    ensures s.db.tasks[tid].generation == |s.db.tasks[tid].attempts|
  {
    hide ExecInv, RowInv, FencedRow, AllSigned;
    InvOf(s, tid);
    LeaseIsOpenAttempt(s.db.tasks[tid], s.db.uuids);
  }

  lemma NothingProduced(s: Pool, tid: TaskId)
    requires ExecInv(s) && tid in s.db.tasks && s.db.tasks[tid].meta.fenced && s.db.tasks[tid].state == Running
    ensures s.db.tasks[tid].producedSha.None?
  {
    hide ExecInv, RowInv, FencedRow, AllSigned;
    InvOf(s, tid);
    StateTellsResult(s.db.tasks[tid], s.db.uuids);
  }

  /** Blocked for the authority, about one effect, with what was announced and, if noted, the doubt. */
  ghost predicate BlockedInDoubt(t: Task, effect: EffectId, noted: bool) {
    t.state == Blocked && t.blockedReason == Some(EffectReconciliationRequired) && t.lease == NO_LEASE &&
    t.producedSha.None? && |t.checkpoints| == (if noted then 2 else 1) &&
    t.checkpoints[0].content.effect == Some(effect) && t.checkpoints[0].content.effectState == Pending &&
    (noted ==>
      t.checkpoints[1].content.effect == Some(effect) && t.checkpoints[1].content.effectState == Unknown &&
      t.checkpoints[1].content.stage == ArtifactPublish && t.checkpoints[1].content.nextAction == ReconcileArtifact)
  }

  /** An undisturbed Builder of an untouched task whose publication raised, or was made but could not be verified:
      the task ends blocked for the authority, with the effect announced and in doubt.  Even if the note of the
      doubt is lost it is neither failed nor retried. */
  lemma AmbiguousPublicationBlocks(cfg: Config, s: Pool, now: int, id: nat, worker: WorkerId, seconds: Option<int>,
                                   task: TaskId, sha: Sha, artifact: Artifact, published: bool, noted: bool)
    returns (events: seq<ExecEvent>)
    requires ExecInv(s) && id !in s.processes && task in s.db.tasks && s.db.tasks[task].meta.fenced
    requires Untouched(s.db.tasks[task])
    requires var tx := FencedClaim(cfg, s.db, now, worker, Builder, seconds, task); tx.Commit? && tx.value.Some?
    ensures ExecRun(cfg, s, events)
    ensures var e := ExecEnd(cfg, s, events);
      id !in e.processes && task in e.db.tasks && BlockedInDoubt(e.db.tasks[task], ArtifactEffect(task, sha), noted)
  {
    hide ExecInv, CanStep, Next, FencedClaim, BlockedInDoubt;
    events := ReachesPublishing(cfg, s, now, id, worker, seconds, task, sha, artifact);
    if published {
      Acts(cfg, ExecEnd(cfg, s, events), now, id, 0, artifact);
      events := Then(cfg, s, events, now, ActStep(id, true, 0, artifact));
      events := DoubtsAndBlocks(cfg, s, events, now, id, task, VerifyingNew, artifact, noted);
    } else {
      events := DoubtsAndBlocks(cfg, s, events, now, id, task, Publishing, artifact, noted);
    }
  }

  // ---- a recovery context that is not safe

  lemma ReadsUnsafe(cfg: Config, s: Pool, now: int, id: nat, wellFormed: bool)
    requires Holding(s, id, now) && s.processes[id].pc == ReadingEffects
    requires !wellFormed || !ContextIsSafe(s.processes[id].latest, EffectsOf(RowAt(s, id)), s.processes[id].generation)
    ensures CanStep(cfg, s, now, ReadEffectsStep(id, wellFormed))
    ensures var s' := Next(cfg, s, now, ReadEffectsStep(id, wellFormed));
      Holding(s', id, now) && s'.db == s.db && s'.log == s.log && s'.processes[id] == s.processes[id].(pc := Blocking) &&
      s'.processes.Keys == s.processes.Keys
  {
    hide ContextIsSafe, EffectsOf;
  }

  /** A history that no executor goes on from: it has begun and does not end in a Builder's result. */
  ghost predicate DeadEnd(t: Task) {
    t.checkpoints != [] && t.checkpoints[|t.checkpoints| - 1].content.stage != BuilderResult
  }

  lemma DeadEndIsUnsafe(s: Pool, id: nat, task: TaskId, before: Task, uuids: nat)
    requires ExecInv(s) && task in s.db.tasks && s.db.tasks[task].meta.fenced
    requires s.db.tasks[task].checkpoints == before.checkpoints && DeadEnd(before)
    requires RowInv(before, uuids) && before.generation < s.db.tasks[task].generation
    ensures !ContextIsSafe(LatestOf(s.db.tasks[task]), EffectsOf(s.db.tasks[task]), s.db.tasks[task].generation)
  {
    hide ExecInv, RowInv, FencedRow, ContextIsSafe, EffectsOf, AllSigned, Built;
    InvOf(s, task);
    CheckpointsAreOlder(before, uuids, s.db.tasks[task].generation);
    SafeExactly(s.log, task, s.db.tasks[task], s.db.uuids, s.db.tasks[task].generation);
  }

  /** The one process is gone and its task blocked, with everything it had. */
  ghost predicate BlockedAsFound(t: Task, t': Task) {
    t'.state == Blocked && t'.blockedReason.Some? && t'.lease == NO_LEASE && t'.checkpoints == t.checkpoints &&
    t'.producedSha == t.producedSha && t'.generation == t.generation + 1
  }

  lemma BlockKeepsFound(db: DB, db': DB, now: int, cred: Credentials, t: Task)
    requires TakesBlock(db, db', now, cred) && HoldsOpenAttempt(db, now, cred)
    requires var u := db.tasks[cred.task];
      u.checkpoints == t.checkpoints && u.producedSha == t.producedSha && u.generation == t.generation + 1
    ensures cred.task in db'.tasks && BlockedAsFound(t, db'.tasks[cred.task])
  {
    hide HasOpenEffect;
  }

  /** An executor of either role that finds its recovery context malformed, or a history it cannot go on from,
      blocks the task and touches nothing else of it: the task is neither returned to a queue nor failed. */
  lemma UnsafeContextBlocks(cfg: Config, s: Pool, now: int, id: nat, worker: WorkerId, role: Role, seconds: Option<int>,
                            task: TaskId, wellFormed: bool)
    returns (events: seq<ExecEvent>)
    requires ExecInv(s) && id !in s.processes && task in s.db.tasks && s.db.tasks[task].meta.fenced
    requires !wellFormed || DeadEnd(s.db.tasks[task])
    requires var tx := FencedClaim(cfg, s.db, now, worker, role, seconds, task); tx.Commit? && tx.value.Some?
    ensures ExecRun(cfg, s, events)
    ensures var e := ExecEnd(cfg, s, events);
      e.processes.Keys == s.processes.Keys && e.log == s.log && task in e.db.tasks &&
      BlockedAsFound(s.db.tasks[task], e.db.tasks[task])
  {
    hide ExecInv, CanStep, Next, Inv, RowInv, FencedRow, FencedClaim, ContextIsSafe, EffectsOf, AllSigned, DeadEnd,
         TakesBlock, HoldsOpenAttempt, BlockedAsFound;
    var t := s.db.tasks[task];
    InvOf(s, task);
    Claims(cfg, s, now, id, worker, role, seconds, task);
    RunOne(cfg, s, now, ClaimStep(id, worker, role, seconds, task));
    events := [ExecEvent(now, ClaimStep(id, worker, role, seconds, task))];
    var s1 := ExecEnd(cfg, s, events);
    Reads(cfg, s1, now, id);
    events := Then(cfg, s, events, now, ReadLatestStep(id));
    var s2 := ExecEnd(cfg, s, events);
    if wellFormed { DeadEndIsUnsafe(s2, id, task, t, s.db.uuids); }
    ReadsUnsafe(cfg, s2, now, id, wellFormed);
    events := Then(cfg, s, events, now, ReadEffectsStep(id, wellFormed));
    var s3 := ExecEnd(cfg, s, events);
    InvOf(s3, task);
    HoldingHolds(s3, id, now);
    BlockingEnds(cfg, s3, now, id, true);
    events := Then(cfg, s, events, now, CallStep(id, true, true));
    BlockKeepsFound(s3.db, ExecEnd(cfg, s, events).db, now, Cred(s3.processes[id]), t);
  }
}
