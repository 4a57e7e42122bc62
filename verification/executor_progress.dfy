/** What an undisturbed executor achieves: a Builder that is granted an untouched task, or one that
    ends in a Builder's result, hands it over to validation; a Validator completes it. */
module ExecutorProgress {
  import opened Wrappers
  import opened PoolTypes
  import opened PoolRows
  import opened PoolSpec
  import opened PoolSteps
  import opened Ledger
  import opened PoolInvariant
  import opened Fencing
  import opened NativeExecutor
  import opened ExecutorSafety
  import opened ExecutorCalls
  import opened ExecutorTheorems

  /** The process still holds the lease it was granted. */
  ghost predicate Holding(s: Pool, id: nat, now: int) {
    id in s.processes &&
    var p := s.processes[id];
    p.task in s.db.tasks &&
    var t := s.db.tasks[p.task];
    t.meta.fenced && t.generation == p.generation && Live(t, now) && t.lease.holder == Some(p.worker) &&
    t.lease.token == Some(p.token) && t.lease.attempt == Some(p.attempt) &&
    p.worker in s.db.workers && s.db.workers[p.worker].role == p.role
  }

  ghost function RowAt(s: Pool, id: nat): Task
    requires id in s.processes && s.processes[id].task in s.db.tasks
  {
    s.db.tasks[s.processes[id].task]
  }

  // ---- single steps

  /** What the reply of a successful exact claim and the row it names agree on. */
  ghost predicate Granting(db: DB, db': DB, g: LeaseGrant, role: Role, now: int) {
    g.task in db.tasks && g.task in db'.tasks && g.role == role &&
    var t := db'.tasks[g.task];
    t.meta.fenced && t.lease == LeaseColumns(Some(g.worker), Some(g.token), Some(g.expires), Some(g.attempt)) &&
    now < g.expires && t.generation == g.generation == db.tasks[g.task].generation + 1 &&
    t.state == (if role == Builder then Leased else Validating) &&
    (role == Validator ==> t.producedSha.Some? && t.builder != Some(g.worker)) &&
    t.producedSha == db.tasks[g.task].producedSha &&
    t.checkpoints == db.tasks[g.task].checkpoints && g.worker in db'.workers && db'.workers[g.worker].role == role
  }

  lemma ClaimGrants(cfg: Config, db: DB, now: int, worker: WorkerId, role: Role, seconds: Option<int>, task: TaskId)
    requires Inv(db)
    requires var tx := FencedClaim(cfg, db, now, worker, role, seconds, task); tx.Commit? && tx.value.Some?
    ensures var tx := FencedClaim(cfg, db, now, worker, role, seconds, task);
      tx.value.value.task == task && Granting(db, tx.db, tx.value.value, role, now)
  {
    hide Inv, ClaimTask, Granted;
    var tx := FencedClaim(cfg, db, now, worker, role, seconds, task);
    var op := ClaimOp(worker, role, seconds, Some(task), true, []);
    ClaimOutcome(cfg, db, now, worker, role, seconds, Some(task), true, []);
    GrantWrites(cfg, db, now, op, tx.value.value);
    var c := Claim(tx.value.value.task, worker, role, OrDefault(seconds, cfg.leaseSeconds), Some(task), true);
    GrantedIsFenced(cfg, db, tx.db, now, c);
    GrantKeepsWorkers(cfg, db, tx.db, now, c);
    GrantKeepsResult(cfg, db, tx.db, now, c);
  }

  /** A Validator is granted only what another worker built. */
  lemma GrantKeepsResult(cfg: Config, db: DB, db': DB, now: int, c: Claim)
    requires Granted(cfg, db, db', now, c)
    ensures c.task in db.tasks && c.task in db'.tasks && db'.tasks[c.task].producedSha == db.tasks[c.task].producedSha &&
      (c.role == Validator ==> db'.tasks[c.task].producedSha.Some? && db'.tasks[c.task].builder != Some(c.worker))
  {
    hide IsFirst, NotReady;
  }

  lemma Claims(cfg: Config, s: Pool, now: int, id: nat, worker: WorkerId, role: Role, seconds: Option<int>, task: TaskId)
    requires Inv(s.db) && id !in s.processes && task in s.db.tasks
    requires var tx := FencedClaim(cfg, s.db, now, worker, role, seconds, task); tx.Commit? && tx.value.Some?
    ensures var step := ClaimStep(id, worker, role, seconds, task);
      CanStep(cfg, s, now, step) &&
      var s' := Next(cfg, s, now, step);
      Holding(s', id, now) && s'.processes[id].pc == ReadingLatest && s'.processes[id].task == task &&
      s'.processes[id].role == role && s'.log == s.log &&
      s'.processes[id].produced == RowAt(s', id).producedSha &&
      RowAt(s', id).state == (if role == Builder then Leased else Validating) &&
      (role == Validator ==> RowAt(s', id).producedSha.Some? && RowAt(s', id).builder != Some(s'.processes[id].worker)) &&
      RowAt(s', id).producedSha == s.db.tasks[task].producedSha &&
      RowAt(s', id).checkpoints == s.db.tasks[task].checkpoints &&
      RowAt(s', id).generation == s.db.tasks[task].generation + 1 &&
      s'.db == FencedClaim(cfg, s.db, now, worker, role, seconds, task).db && s'.processes.Keys == s.processes.Keys + {id}
  {
    hide Inv, FencedClaim;
    ClaimGrants(cfg, s.db, now, worker, role, seconds, task);
  }

  lemma GrantKeepsWorkers(cfg: Config, db: DB, db': DB, now: int, c: Claim)
    requires Granted(cfg, db, db', now, c)
    ensures c.worker in db'.workers && db'.workers[c.worker].role == c.role
    ensures c.only.Some? ==> c.task == c.only.value
    ensures c.task in db.tasks && c.task in db'.tasks && db'.tasks[c.task].meta == db.tasks[c.task].meta
  {
    hide IsFirst;
  }

  /** The process went on to `pc` and is otherwise the one that was granted the lease. */
  ghost predicate Moved(s: Pool, s': Pool, id: nat, pc: Pc)
    requires id in s.processes
  {
    id in s'.processes && s'.processes[id].task == s.processes[id].task && s'.processes[id].worker == s.processes[id].worker &&
    s'.processes[id].role == s.processes[id].role && s'.processes[id].generation == s.processes[id].generation &&
    s'.processes[id].attempt == s.processes[id].attempt && s'.processes[id].produced == s.processes[id].produced &&
    s'.processes[id].pc == pc && s'.processes.Keys == s.processes.Keys
  }

  lemma Reads(cfg: Config, s: Pool, now: int, id: nat)
    requires Holding(s, id, now) && s.processes[id].pc == ReadingLatest
    ensures CanStep(cfg, s, now, ReadLatestStep(id))
    ensures var s' := Next(cfg, s, now, ReadLatestStep(id));
      Holding(s', id, now) && Moved(s, s', id, ReadingEffects) && s'.db == s.db && s'.log == s.log &&
      s'.processes[id].latest == LatestOf(RowAt(s, id))
  {
  }

  lemma ReadsEffects(cfg: Config, s: Pool, now: int, id: nat)
    requires Holding(s, id, now) && s.processes[id].pc == ReadingEffects
    requires ContextIsSafe(s.processes[id].latest, EffectsOf(RowAt(s, id)), s.processes[id].generation)
    ensures CanStep(cfg, s, now, ReadEffectsStep(id, true))
    ensures var s' := Next(cfg, s, now, ReadEffectsStep(id, true));
      Holding(s', id, now) && Moved(s, s', id, if s.processes[id].role == Builder then Starting else Inspecting) &&
      s'.db == s.db && s'.log == s.log &&
      s'.processes[id].latest == s.processes[id].latest
  {
    hide ContextIsSafe, EffectsOf;
  }

  lemma Starts(cfg: Config, s: Pool, now: int, id: nat)
    requires Holding(s, id, now) && s.processes[id].pc == Starting && s.processes[id].role == Builder
    requires RowAt(s, id).state == Leased
    ensures CanStep(cfg, s, now, CallStep(id, true, true))
    ensures var s' := Next(cfg, s, now, CallStep(id, true, true));
      Holding(s', id, now) && Moved(s, s', id, Building) && s'.log == s.log &&
      s'.processes[id].latest == s.processes[id].latest && RowAt(s', id).state == Running &&
      RowAt(s', id).builder == Some(s.processes[id].worker) && RowAt(s', id).checkpoints == RowAt(s, id).checkpoints
  {
  }

  lemma Acts(cfg: Config, s: Pool, now: int, id: nat, sha: Sha, artifact: Artifact)
    requires Holding(s, id, now) && Acting(s.processes[id].pc)
    ensures CanStep(cfg, s, now, ActStep(id, true, sha, artifact))
    ensures var s' := Next(cfg, s, now, ActStep(id, true, sha, artifact));
      Holding(s', id, now) && s'.db == s.db && s'.processes[id] == AfterAction(s.processes[id], true, sha, artifact) &&
      s'.log == if s.processes[id].pc == Publishing
        then s.log + [Publication(s.processes[id].task, s.processes[id].generation, EffectOf(s.processes[id]), Some(artifact))]
        else s.log
  {
  }

  /** The checkpoint a process is about to record is acceptable. */
  ghost predicate MayRecord(p: Process, t: Task)
    requires Callable(p)
  {
    Recording(p.pc) && Active(t) && ContentValid(NoteContent(p)) &&
    !HasCheckpoint(t, NativeCheckpoint(p.attempt, p.role, NoteOf(p.pc))) &&
    (NoteContent(p).effect.Some? ==> !HasUnknown(t, NoteContent(p).effect.value)) &&
    NoteContent(p).sequence == MaxSequence(t.checkpoints, t.generation) + 1
  }

  lemma Records(cfg: Config, s: Pool, now: int, id: nat)
    requires Holding(s, id, now) && Callable(s.processes[id]) && MayRecord(s.processes[id], RowAt(s, id))
    requires AfterCall(s.processes[id].pc, true).Some?
    ensures CanStep(cfg, s, now, CallStep(id, true, true))
    ensures var p := s.processes[id];
      var s' := Next(cfg, s, now, CallStep(id, true, true));
      Holding(s', id, now) && s'.processes[id] == p.(pc := AfterCall(p.pc, true).value) && s'.log == s.log &&
      RowAt(s', id).state == RowAt(s, id).state && RowAt(s', id).builder == RowAt(s, id).builder &&
      RowAt(s', id).producedSha == RowAt(s, id).producedSha &&
      RowAt(s', id).checkpoints == RowAt(s, id).checkpoints +
        [Checkpoint(NativeCheckpoint(p.attempt, p.role, NoteOf(p.pc)), p.generation, p.attempt, NoteContent(p), now)]
  {
    hide HasUnknown, MaxSequence, HasCheckpoint, ContentValid, NoteContent;
  }

  lemma Submits(cfg: Config, s: Pool, now: int, id: nat)
    requires Holding(s, id, now) && s.processes[id].pc == Submitting
    requires RowAt(s, id).state == Running && RowAt(s, id).builder == Some(s.processes[id].worker) && Clear(RowAt(s, id))
    ensures CanStep(cfg, s, now, CallStep(id, true, true))
    ensures var p := s.processes[id];
      var s' := Next(cfg, s, now, CallStep(id, true, true));
      s'.processes == s.processes - {id} && p.task in s'.db.tasks && s'.log == s.log &&
      s'.db.tasks[p.task].state == Validating && s'.db.tasks[p.task].producedSha == Some(p.sha) &&
      s'.db.tasks[p.task].lease == NO_LEASE && s'.db.tasks[p.task].builder == RowAt(s, id).builder &&
      s'.db.tasks[p.task].checkpoints == RowAt(s, id).checkpoints
  {
    hide Clear, EndAttempt;
  }

  lemma Completes(cfg: Config, s: Pool, now: int, id: nat)
    requires Holding(s, id, now) && s.processes[id].pc == Completing && s.processes[id].role == Validator
    requires RowAt(s, id).state == Validating && RowAt(s, id).producedSha.Some? && Clear(RowAt(s, id))
    requires RowAt(s, id).builder != Some(s.processes[id].worker)
    ensures CanStep(cfg, s, now, CallStep(id, true, true))
    ensures var p := s.processes[id];
      var s' := Next(cfg, s, now, CallStep(id, true, true));
      id !in s'.processes && p.task in s'.db.tasks && s'.log == s.log && s'.db.tasks[p.task].state == Completed &&
      s'.db.tasks[p.task].producedSha == RowAt(s, id).producedSha
  {
    hide Clear, EndAttempt;
  }

  // ---- what the steps need to know about histories

  lemma FreshId(t: Task, uuids: nat, attempt: nat, role: Role, tag: CheckpointTag)
    requires RowInv(t, uuids) && AllSigned(t.checkpoints) && t.lease.attempt == Some(attempt)
    requires forall i :: 0 <= i < |t.checkpoints| ==> t.checkpoints[i].generation < t.generation
    ensures !HasCheckpoint(t, NativeCheckpoint(attempt, role, tag))
  {
    hide ResultColumns, QuarantineLedger, ReconciliationRows, EffectsContained;
    assert CheckpointAttempts(t.checkpoints, t.attempts) && AttemptRows(t.attempts, t.lease.holder.Some?, uuids);
    forall i | 0 <= i < |t.checkpoints| ensures t.checkpoints[i].id != NativeCheckpoint(attempt, role, tag) {
      assert Signed(t.checkpoints[i]);
      assert t.attempts[t.checkpoints[i].generation - 1].id < t.attempts[|t.attempts| - 1].id;
    }
  }

  lemma OlderCheckpoints(t: Task, uuids: nat)
    requires RowInv(t, uuids) && LatestOf(t).Some? && LatestOf(t).value.generation < t.generation
    ensures forall i :: 0 <= i < |t.checkpoints| ==> t.checkpoints[i].generation < t.generation
    ensures MaxSequence(t.checkpoints, t.generation) == 0
  {
    hide AttemptLedger, ResultColumns, QuarantineLedger, ReconciliationRows, EffectsContained;
    assert CheckpointRows(t.checkpoints, t.generation);
    MaxSequenceIsLast(t.checkpoints, t.generation);
    var n := |t.checkpoints| - 1;
    assert forall i :: 0 <= i < n ==> Later(t.checkpoints[n], t.checkpoints[i]);
  }

  lemma BuiltIsClear(tid: TaskId, t: Task, uuids: nat)
    requires History(tid, t.checkpoints) && Built(t.checkpoints) && RowInv(t, uuids)
    ensures Clear(t) && forall e :: !HasUnknown(t, e)
  {
    hide AttemptLedger, ResultColumns, QuarantineLedger, ReconciliationRows, EffectsContained;
    assert CheckpointRows(t.checkpoints, t.generation);
    assert Later(t.checkpoints[1], t.checkpoints[0]);
    assert HasLaterOfSameEffect(t, t.checkpoints[0]);
  }

  lemma {:induction false} RunConcat(cfg: Config, s: Pool, a: seq<ExecEvent>, b: seq<ExecEvent>)
    requires ExecRun(cfg, s, a) && ExecRun(cfg, ExecEnd(cfg, s, a), b)
    ensures ExecRun(cfg, s, a + b) && ExecEnd(cfg, s, a + b) == ExecEnd(cfg, ExecEnd(cfg, s, a), b)
    decreases |a|
  {
    hide CanStep, Next;
    if a == [] {
      assert [] + b == b;
    } else {
      RunConcat(cfg, Next(cfg, s, a[0].now, a[0].step), a[1..], b);
      assert (a + b)[0] == a[0] && (a + b)[1..] == a[1..] + b;
    }
  }

  lemma RunOne(cfg: Config, s: Pool, now: int, step: ExecStep)
    requires ExecInv(s) && CanStep(cfg, s, now, step)
    ensures ExecRun(cfg, s, [ExecEvent(now, step)])
    ensures ExecEnd(cfg, s, [ExecEvent(now, step)]) == Next(cfg, s, now, step)
    ensures ExecInv(Next(cfg, s, now, step))
  {
    hide CanStep, Next, ExecInv;
    ExecStepKeeps(cfg, s, now, step);
    assert [ExecEvent(now, step)][1..] == [];
    assert ExecRun(cfg, Next(cfg, s, now, step), []);
  }

  /** One more step at the end of a run. */
  lemma Then(cfg: Config, s: Pool, events: seq<ExecEvent>, now: int, step: ExecStep) returns (more: seq<ExecEvent>)
    requires ExecRun(cfg, s, events) && ExecInv(ExecEnd(cfg, s, events)) && CanStep(cfg, ExecEnd(cfg, s, events), now, step)
    ensures ExecRun(cfg, s, more) && ExecEnd(cfg, s, more) == Next(cfg, ExecEnd(cfg, s, events), now, step)
    ensures ExecInv(ExecEnd(cfg, s, more))
  {
    hide CanStep, Next, ExecInv;
    RunOne(cfg, ExecEnd(cfg, s, events), now, step);
    RunConcat(cfg, s, events, [ExecEvent(now, step)]);
    more := events + [ExecEvent(now, step)];
  }

  // ---- whole undisturbed builds

  /** A Builder at work on its task, which it found in the state `before`. */
  ghost predicate AtWork(s: Pool, id: nat, now: int, task: TaskId, pc: Pc, before: Task) {
    ExecInv(s) && Holding(s, id, now) && s.processes[id].pc == pc && s.processes[id].task == task &&
    s.processes[id].role == Builder && s.processes[id].latest == LatestOf(before) &&
    RowAt(s, id).state == Running && RowAt(s, id).builder == Some(s.processes[id].worker)
  }

  lemma InvOf(s: Pool, tid: TaskId)
    requires ExecInv(s) && tid in s.db.tasks && s.db.tasks[tid].meta.fenced
    ensures Inv(s.db) && RowInv(s.db.tasks[tid], s.db.uuids) && FencedRow(s.log, tid, s.db.tasks[tid])
    ensures AllSigned(s.db.tasks[tid].checkpoints)
  {
    hide RowInv, FencedRow, AllSigned, LaneLedger, OneTaskPerWorker, LogIn, LogOnce, ProcessesIn, Apart;
  }

  lemma CheckpointsAreOlder(t: Task, uuids: nat, generation: nat)
    requires RowInv(t, uuids) && t.generation < generation
    ensures forall i :: 0 <= i < |t.checkpoints| ==> t.checkpoints[i].generation < generation
  {
    assert CheckpointRows(t.checkpoints, t.generation);
  }

  /** Claiming, reading the recovery context and starting. */
  lemma ReachesBuilding(cfg: Config, s: Pool, now: int, id: nat, worker: WorkerId, seconds: Option<int>, task: TaskId)
    returns (events: seq<ExecEvent>)
    requires ExecInv(s) && id !in s.processes && task in s.db.tasks && s.db.tasks[task].meta.fenced
    requires Untouched(s.db.tasks[task]) || EndsInResult(s.db.tasks[task])
    requires var tx := FencedClaim(cfg, s.db, now, worker, Builder, seconds, task); tx.Commit? && tx.value.Some?
    ensures ExecRun(cfg, s, events)
    ensures var e := ExecEnd(cfg, s, events);
      AtWork(e, id, now, task, Building, s.db.tasks[task]) && e.log == s.log &&
      RowAt(e, id).checkpoints == s.db.tasks[task].checkpoints && RowAt(e, id).generation == s.db.tasks[task].generation + 1
  {
    hide ExecInv, CanStep, Next, Inv, RowInv, FencedRow, EndsInResult, FencedClaim, ContextIsSafe, EffectsOf, AllSigned;
    var t := s.db.tasks[task];
    InvOf(s, task);
    Claims(cfg, s, now, id, worker, Builder, seconds, task);
    RunOne(cfg, s, now, ClaimStep(id, worker, Builder, seconds, task));
    events := [ExecEvent(now, ClaimStep(id, worker, Builder, seconds, task))];
    var s1 := ExecEnd(cfg, s, events);
    Reads(cfg, s1, now, id);
    events := Then(cfg, s, events, now, ReadLatestStep(id));
    var s2 := ExecEnd(cfg, s, events);
    InvOf(s2, task);
    CheckpointsAreOlder(t, s.db.uuids, RowAt(s2, id).generation);
    SameEndsInResult(t, RowAt(s2, id));
    SafeExactly(s2.log, task, RowAt(s2, id), s2.db.uuids, s2.processes[id].generation);
    ReadsEffects(cfg, s2, now, id);
    events := Then(cfg, s, events, now, ReadEffectsStep(id, true));
    var s3 := ExecEnd(cfg, s, events);
    Starts(cfg, s3, now, id);
    events := Then(cfg, s, events, now, CallStep(id, true, true));
  }

  lemma SameEndsInResult(t: Task, t': Task)
    requires t'.checkpoints == t.checkpoints
    ensures (EndsInResult(t) <==> EndsInResult(t')) && (Untouched(t) <==> Untouched(t')) && LatestOf(t) == LatestOf(t')
  {
  }

  /** Before the result of a resumed build is recorded. */
  lemma MayRecordResumed(s: Pool, id: nat, now: int, task: TaskId, before: Task)
    requires AtWork(s, id, now, task, RecordingResult, before) && before.checkpoints == RowAt(s, id).checkpoints
    requires EndsInResult(before) && s.processes[id].artifact.Some?
    requires LatestOf(before).value.generation < RowAt(s, id).generation
    ensures MayRecord(s.processes[id], RowAt(s, id))
  {
    hide ExecInv, RowInv, FencedRow, Built, HasCheckpoint, HasUnknown, MaxSequence, Resumable, AllSigned;
    InvOf(s, task);
    var t := RowAt(s, id);
    EndsSomewhere(before);
    OlderCheckpoints(t, s.db.uuids);
    FreshId(t, s.db.uuids, s.processes[id].attempt, Builder, StageResult);
    HistoryOf(s.log, task, t);
    BuiltIsClear(task, t, s.db.uuids);
  }

  lemma EndsSomewhere(t: Task)
    requires EndsInResult(t)
    ensures LatestOf(t).Some? && Resumable(LatestOf(t).value) && Built(t.checkpoints)
  {
  }

  lemma ResultHasArtifact(tid: TaskId, t: Task)
    requires History(tid, t.checkpoints) && EndsInResult(t)
    ensures ArtifactOf(LatestOf(t).value.content).Some?
  {
    ResumableIsBuilt(tid, t.checkpoints);
  }

  lemma HistoryOf(log: seq<Publication>, tid: TaskId, t: Task)
    requires FencedRow(log, tid, t)
    ensures History(tid, t.checkpoints)
  {
  }

  lemma ClearAtSubmit(s: Pool, id: nat, now: int, task: TaskId)
    requires ExecInv(s) && Holding(s, id, now) && s.processes[id].task == task && s.processes[id].pc == Submitting
    ensures Clear(RowAt(s, id)) && Produced(task, RowAt(s, id).checkpoints, s.processes[id].sha)
  {
    hide RowInv, FencedRow, LaneLedger, OneTaskPerWorker, LogIn, LogOnce, Apart, Built, Delivered, Clear, SignedRows;
    InvOf(s, task);
    assert ProcessIn(s.db, s.log, s.processes[id]);
    HistoryOf(s.log, task, RowAt(s, id));
    BuiltIsClear(task, RowAt(s, id), s.db.uuids);
  }

  /** A process about to submit does so. */
  lemma SubmitsAtLast(cfg: Config, s: Pool, events: seq<ExecEvent>, now: int, id: nat, task: TaskId)
    returns (more: seq<ExecEvent>)
    requires ExecRun(cfg, s, events)
    requires var e := ExecEnd(cfg, s, events);
      ExecInv(e) && Holding(e, id, now) && e.processes[id].task == task && e.processes[id].pc == Submitting &&
      RowAt(e, id).state == Running && RowAt(e, id).builder == Some(e.processes[id].worker)
    ensures ExecRun(cfg, s, more)
    ensures var e, e' := ExecEnd(cfg, s, events), ExecEnd(cfg, s, more);
      task in e'.db.tasks && e'.db.tasks[task].state == Validating &&
      e'.db.tasks[task].producedSha == Some(e.processes[id].sha) &&
      e'.db.tasks[task].checkpoints == RowAt(e, id).checkpoints && e'.log == e.log
  {
    hide ExecInv, CanStep, Next, Clear;
    var e := ExecEnd(cfg, s, events);
    ClearAtSubmit(e, id, now, task);
    Submits(cfg, e, now, id);
    more := Then(cfg, s, events, now, CallStep(id, true, true));
  }

  /** After a Builder has recorded its result and vanished, an undisturbed Builder hands over the same
      commit: it materializes instead of publishing again. */
  lemma ResumedBuildSubmits(cfg: Config, s: Pool, now: int, id: nat, worker: WorkerId, seconds: Option<int>,
                            task: TaskId, sha: Sha, any: Artifact)
    returns (events: seq<ExecEvent>)
    requires ExecInv(s) && id !in s.processes && task in s.db.tasks && s.db.tasks[task].meta.fenced
    requires EndsInResult(s.db.tasks[task]) && LatestOf(s.db.tasks[task]).value.content.effect == Some(ArtifactEffect(task, sha))
    requires var tx := FencedClaim(cfg, s.db, now, worker, Builder, seconds, task); tx.Commit? && tx.value.Some?
    ensures ExecRun(cfg, s, events)
    ensures var e := ExecEnd(cfg, s, events);
      task in e.db.tasks && e.db.tasks[task].state == Validating && e.db.tasks[task].producedSha == Some(sha) && e.log == s.log
  {
    hide ExecInv, CanStep, Next, Inv, RowInv, FencedClaim, Built, EndsInResult, Resumable;
    var t := s.db.tasks[task];
    events := ReachesBuilding(cfg, s, now, id, worker, seconds, task);
    EndsSomewhere(t);
    InvOf(s, task);
    HistoryOf(s.log, task, t);
    ResultHasArtifact(task, t);
    CheckpointsAreOlder(t, s.db.uuids, RowAt(ExecEnd(cfg, s, events), id).generation);
    events := MaterializesAndSubmits(cfg, s, events, now, id, task, sha, any, t);
  }

  /** From the start of a resumed build on. */
  lemma MaterializesAndSubmits(cfg: Config, s: Pool, start: seq<ExecEvent>, now: int, id: nat, task: TaskId, sha: Sha,
                               any: Artifact, before: Task)
    returns (events: seq<ExecEvent>)
    requires ExecRun(cfg, s, start) && AtWork(ExecEnd(cfg, s, start), id, now, task, Building, before)
    requires EndsInResult(before) && RowAt(ExecEnd(cfg, s, start), id).checkpoints == before.checkpoints
    requires CanResume(ExecEnd(cfg, s, start).processes[id], sha)
    requires LatestOf(before).Some? && LatestOf(before).value.generation < RowAt(ExecEnd(cfg, s, start), id).generation
    ensures ExecRun(cfg, s, events)
    ensures var e := ExecEnd(cfg, s, events);
      task in e.db.tasks && e.db.tasks[task].state == Validating && e.db.tasks[task].producedSha == Some(sha) &&
      e.log == ExecEnd(cfg, s, start).log
  {
    hide ExecInv, CanStep, Next, EndsInResult, Resumable, MayRecord;
    var s1 := ExecEnd(cfg, s, start);
    Acts(cfg, s1, now, id, sha, any);
    events := Then(cfg, s, start, now, ActStep(id, true, sha, any));
    var s2 := ExecEnd(cfg, s, events);
    Acts(cfg, s2, now, id, sha, any);
    events := Then(cfg, s, events, now, ActStep(id, true, sha, any));
    var s3 := ExecEnd(cfg, s, events);
    MayRecordResumed(s3, id, now, task, before);
    Records(cfg, s3, now, id);
    events := Then(cfg, s, events, now, CallStep(id, true, true));
    events := SubmitsAtLast(cfg, s, events, now, id, task);
  }

  lemma MayRecordPending(s: Pool, id: nat)
    requires id in s.processes && s.processes[id].task in s.db.tasks && s.processes[id].pc == RecordingPending
    requires RowAt(s, id).checkpoints == [] && RowAt(s, id).state == Running
    ensures MayRecord(s.processes[id], RowAt(s, id))
  {
  }

  lemma MayRecordFirstResult(s: Pool, id: nat)
    requires id in s.processes && s.processes[id].task in s.db.tasks && s.processes[id].pc == RecordingResult
    requires s.processes[id].latest.None? && s.processes[id].artifact.Some? && RowAt(s, id).state == Running
    requires RowAt(s, id).generation == s.processes[id].generation
    requires |RowAt(s, id).checkpoints| == 1
    requires var c := RowAt(s, id).checkpoints[0];
      c.id == NativeCheckpoint(s.processes[id].attempt, s.processes[id].role, ArtifactPending) &&
      c.generation == s.processes[id].generation && c.content == PendingContent(EffectOf(s.processes[id]))
    ensures MayRecord(s.processes[id], RowAt(s, id))
  {
    var t := RowAt(s, id);
    assert t.checkpoints[..0] == [];
    assert MaxSequence(t.checkpoints, t.generation) == 1;
  }

  /** A Builder that has announced its publication. */
  ghost predicate AtPublication(s: Pool, id: nat, now: int, task: TaskId, pc: Pc) {
    ExecInv(s) && Holding(s, id, now) && s.processes[id].task == task && s.processes[id].pc == pc &&
    s.processes[id].role == Builder && s.processes[id].latest.None? && RowAt(s, id).state == Running &&
    RowAt(s, id).builder == Some(s.processes[id].worker) && |RowAt(s, id).checkpoints| == 1 &&
    var c := RowAt(s, id).checkpoints[0];
    c.id == NativeCheckpoint(s.processes[id].attempt, Builder, ArtifactPending) &&
    c.generation == s.processes[id].generation && c.content == PendingContent(EffectOf(s.processes[id]))
  }

  /** An undisturbed Builder of an untouched task comes to publish what it built. */
  lemma ReachesPublishing(cfg: Config, s: Pool, now: int, id: nat, worker: WorkerId, seconds: Option<int>,
                          task: TaskId, sha: Sha, any: Artifact)
    returns (events: seq<ExecEvent>)
    requires ExecInv(s) && id !in s.processes && task in s.db.tasks && s.db.tasks[task].meta.fenced
    requires Untouched(s.db.tasks[task])
    requires var tx := FencedClaim(cfg, s.db, now, worker, Builder, seconds, task); tx.Commit? && tx.value.Some?
    ensures ExecRun(cfg, s, events)
    ensures var e := ExecEnd(cfg, s, events);
      AtPublication(e, id, now, task, Publishing) && e.processes[id].sha == sha && e.log == s.log
  {
    hide ExecInv, CanStep, Next, Inv, RowInv, FencedClaim, Built, MayRecord, EndsInResult;
    events := ReachesBuilding(cfg, s, now, id, worker, seconds, task);
    var s1 := ExecEnd(cfg, s, events);
    Acts(cfg, s1, now, id, sha, any);
    events := Then(cfg, s, events, now, ActStep(id, true, sha, any));
    var s2 := ExecEnd(cfg, s, events);
    MayRecordPending(s2, id);
    Records(cfg, s2, now, id);
    events := Then(cfg, s, events, now, CallStep(id, true, true));
  }

  /** An undisturbed Builder of an untouched task publishes once and hands over what it built, under
      the artifact that was published. */
  lemma FreshBuildSubmits(cfg: Config, s: Pool, now: int, id: nat, worker: WorkerId, seconds: Option<int>,
                          task: TaskId, sha: Sha, artifact: Artifact)
    returns (events: seq<ExecEvent>)
    requires ExecInv(s) && id !in s.processes && task in s.db.tasks && s.db.tasks[task].meta.fenced
    requires Untouched(s.db.tasks[task])
    requires var tx := FencedClaim(cfg, s.db, now, worker, Builder, seconds, task); tx.Commit? && tx.value.Some?
    ensures ExecRun(cfg, s, events)
    ensures var e := ExecEnd(cfg, s, events);
      task in e.db.tasks && e.db.tasks[task].state == Validating && e.db.tasks[task].producedSha == Some(sha) &&
      |e.log| == |s.log| + 1 && e.log[|s.log|].task == task && e.log[|s.log|].artifact == Some(artifact) &&
      |e.db.tasks[task].checkpoints| == 2 && ArtifactOf(e.db.tasks[task].checkpoints[1].content) == Some(artifact)
  {
    hide ExecInv, CanStep, Next, FencedClaim, AtPublication;
    events := ReachesPublishing(cfg, s, now, id, worker, seconds, task, sha, artifact);
    events := PublishesAndSubmits(cfg, s, events, now, id, task, artifact);
  }

  /** From the recorded pending publication on. */
  lemma PublishesAndSubmits(cfg: Config, s: Pool, before: seq<ExecEvent>, now: int, id: nat, task: TaskId, artifact: Artifact)
    returns (events: seq<ExecEvent>)
    requires ExecRun(cfg, s, before)
    requires AtPublication(ExecEnd(cfg, s, before), id, now, task, Publishing)
    ensures ExecRun(cfg, s, events)
    ensures var e, e' := ExecEnd(cfg, s, before), ExecEnd(cfg, s, events);
      task in e'.db.tasks && e'.db.tasks[task].state == Validating &&
      e'.db.tasks[task].producedSha == Some(e.processes[id].sha) &&
      e'.log == e.log + [Publication(task, e.processes[id].generation, EffectOf(e.processes[id]), Some(artifact))] &&
      |e'.db.tasks[task].checkpoints| == 2 && ArtifactOf(e'.db.tasks[task].checkpoints[1].content) == Some(artifact)
  {
    hide ExecInv, CanStep, Next, MayRecord;
    var s0 := ExecEnd(cfg, s, before);
    Acts(cfg, s0, now, id, 0, artifact);
    events := Then(cfg, s, before, now, ActStep(id, true, 0, artifact));
    var s1 := ExecEnd(cfg, s, events);
    Acts(cfg, s1, now, id, 0, artifact);
    events := Then(cfg, s, events, now, ActStep(id, true, 0, artifact));
    var s2 := ExecEnd(cfg, s, events);
    MayRecordFirstResult(s2, id);
    Records(cfg, s2, now, id);
    events := Then(cfg, s, events, now, CallStep(id, true, true));
    events := SubmitsAtLast(cfg, s, events, now, id, task);
  }

  // ---- an undisturbed validation

  /** A Validator at work on what it found in the state `before`. */
  ghost predicate AtJudgement(s: Pool, id: nat, now: int, task: TaskId, pc: Pc, before: Task) {
    ExecInv(s) && Holding(s, id, now) && s.processes[id].pc == pc && s.processes[id].task == task &&
    s.processes[id].role == Validator && s.processes[id].latest == LatestOf(before) && s.processes[id].produced.Some? &&
    RowAt(s, id).state == Validating && RowAt(s, id).producedSha.Some? && RowAt(s, id).builder != Some(s.processes[id].worker)
  }

  /** Claiming and reading the recovery context. */
  lemma ReachesInspecting(cfg: Config, s: Pool, now: int, id: nat, worker: WorkerId, seconds: Option<int>, task: TaskId)
    returns (events: seq<ExecEvent>)
    requires ExecInv(s) && id !in s.processes && task in s.db.tasks && s.db.tasks[task].meta.fenced
    requires EndsInResult(s.db.tasks[task])
    requires var tx := FencedClaim(cfg, s.db, now, worker, Validator, seconds, task); tx.Commit? && tx.value.Some?
    ensures ExecRun(cfg, s, events)
    ensures var e := ExecEnd(cfg, s, events);
      AtJudgement(e, id, now, task, Inspecting, s.db.tasks[task]) && e.log == s.log &&
      e.db == FencedClaim(cfg, s.db, now, worker, Validator, seconds, task).db && e.processes.Keys == s.processes.Keys + {id} &&
      RowAt(e, id).producedSha == s.db.tasks[task].producedSha &&
      RowAt(e, id).checkpoints == s.db.tasks[task].checkpoints && RowAt(e, id).generation == s.db.tasks[task].generation + 1
  {
    hide ExecInv, CanStep, Next, Inv, RowInv, FencedRow, EndsInResult, FencedClaim, ContextIsSafe, EffectsOf, AllSigned;
    var t := s.db.tasks[task];
    InvOf(s, task);
    Claims(cfg, s, now, id, worker, Validator, seconds, task);
    RunOne(cfg, s, now, ClaimStep(id, worker, Validator, seconds, task));
    events := [ExecEvent(now, ClaimStep(id, worker, Validator, seconds, task))];
    var s1 := ExecEnd(cfg, s, events);
    Reads(cfg, s1, now, id);
    events := Then(cfg, s, events, now, ReadLatestStep(id));
    var s2 := ExecEnd(cfg, s, events);
    InvOf(s2, task);
    CheckpointsAreOlder(t, s.db.uuids, RowAt(s2, id).generation);
    SameEndsInResult(t, RowAt(s2, id));
    SafeExactly(s2.log, task, RowAt(s2, id), s2.db.uuids, s2.processes[id].generation);
    ReadsEffects(cfg, s2, now, id);
    events := Then(cfg, s, events, now, ReadEffectsStep(id, true));
  }

  /** Before the verdict is recorded. */
  lemma MayRecordVerdict(s: Pool, id: nat, now: int, task: TaskId, before: Task)
    requires AtJudgement(s, id, now, task, RecordingVerdict, before) && before.checkpoints == RowAt(s, id).checkpoints
    requires EndsInResult(before) && s.processes[id].artifact.Some?
    requires LatestOf(before).value.generation < RowAt(s, id).generation
    ensures MayRecord(s.processes[id], RowAt(s, id))
  {
    hide ExecInv, RowInv, FencedRow, Built, HasCheckpoint, HasUnknown, MaxSequence, Resumable, AllSigned;
    InvOf(s, task);
    EndsSomewhere(before);
    OlderCheckpoints(RowAt(s, id), s.db.uuids);
    FreshId(RowAt(s, id), s.db.uuids, s.processes[id].attempt, Validator, StageResult);
  }

  lemma ClearAtCompletion(s: Pool, id: nat, now: int, task: TaskId)
    requires ExecInv(s) && Holding(s, id, now) && s.processes[id].task == task && s.processes[id].pc == Completing
    ensures Clear(RowAt(s, id))
  {
    hide RowInv, FencedRow, LaneLedger, OneTaskPerWorker, LogIn, LogOnce, Apart, Built, Delivered, Clear, SignedRows;
    InvOf(s, task);
    assert ProcessIn(s.db, s.log, s.processes[id]);
    HistoryOf(s.log, task, RowAt(s, id));
    BuiltIsClear(task, RowAt(s, id), s.db.uuids);
  }

  /** An undisturbed Validator completes a task that ends in a Builder's result, on the same commit and
      without publishing. */
  lemma ValidationCompletes(cfg: Config, s: Pool, now: int, id: nat, worker: WorkerId, seconds: Option<int>,
                            task: TaskId, any: Artifact)
    returns (events: seq<ExecEvent>)
    requires ExecInv(s) && id !in s.processes && task in s.db.tasks && s.db.tasks[task].meta.fenced
    requires EndsInResult(s.db.tasks[task])
    requires var tx := FencedClaim(cfg, s.db, now, worker, Validator, seconds, task); tx.Commit? && tx.value.Some?
    ensures ExecRun(cfg, s, events)
    ensures var e := ExecEnd(cfg, s, events);
      task in e.db.tasks && e.db.tasks[task].state == Completed && e.log == s.log &&
      e.db.tasks[task].producedSha == s.db.tasks[task].producedSha
  {
    hide ExecInv, CanStep, Next, Inv, RowInv, FencedClaim, Built, EndsInResult, Resumable;
    var t := s.db.tasks[task];
    events := ReachesInspecting(cfg, s, now, id, worker, seconds, task);
    EndsSomewhere(t);
    InvOf(s, task);
    HistoryOf(s.log, task, t);
    ResultHasArtifact(task, t);
    CheckpointsAreOlder(t, s.db.uuids, RowAt(ExecEnd(cfg, s, events), id).generation);
    events := JudgesAndCompletes(cfg, s, events, now, id, task, any, t);
  }

  /** From the inspection of the artifact on. */
  lemma JudgesAndCompletes(cfg: Config, s: Pool, start: seq<ExecEvent>, now: int, id: nat, task: TaskId, any: Artifact,
                           before: Task)
    returns (events: seq<ExecEvent>)
    requires ExecRun(cfg, s, start) && AtJudgement(ExecEnd(cfg, s, start), id, now, task, Inspecting, before)
    requires EndsInResult(before) && RowAt(ExecEnd(cfg, s, start), id).checkpoints == before.checkpoints
    requires CanInspect(ExecEnd(cfg, s, start).processes[id])
    requires LatestOf(before).Some? && LatestOf(before).value.generation < RowAt(ExecEnd(cfg, s, start), id).generation
    ensures ExecRun(cfg, s, events)
    ensures var e := ExecEnd(cfg, s, events);
      task in e.db.tasks && e.db.tasks[task].state == Completed && e.log == ExecEnd(cfg, s, start).log &&
      e.db.tasks[task].producedSha == RowAt(ExecEnd(cfg, s, start), id).producedSha
  {
    hide ExecInv, CanStep, Next, EndsInResult, Resumable, MayRecord, Clear;
    var s1 := ExecEnd(cfg, s, start);
    Acts(cfg, s1, now, id, 0, any);
    events := Then(cfg, s, start, now, ActStep(id, true, 0, any));
    var s2 := ExecEnd(cfg, s, events);
    Acts(cfg, s2, now, id, 0, any);
    events := Then(cfg, s, events, now, ActStep(id, true, 0, any));
    var s3 := ExecEnd(cfg, s, events);
    MayRecordVerdict(s3, id, now, task, before);
    Records(cfg, s3, now, id);
    events := Then(cfg, s, events, now, CallStep(id, true, true));
    var s4 := ExecEnd(cfg, s, events);
    ClearAtCompletion(s4, id, now, task);
    Completes(cfg, s4, now, id);
    events := Then(cfg, s, events, now, CallStep(id, true, true));
  }
}
