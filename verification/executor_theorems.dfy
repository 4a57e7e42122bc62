/** The guarantees of the native executors over whole runs from an empty pool, with any number of
    processes, crashes, lost calls and replies, expiries, sweeps, reconciliations and requeues. */
module ExecutorTheorems {
  import opened Wrappers
  import opened PoolTypes
  import opened PoolRows
  import opened PoolSpec
  import opened PoolSteps
  import opened Ledger
  import opened PoolInvariant
  import opened NativeExecutor
  import opened ExecutorSafety
  import opened ExecutorCalls

  /** Publish at most once: two publications of one run are of different tasks, and each was announced
      by the first checkpoint of its task, pending under the publisher's generation. */
  lemma PublishAtMostOnce(cfg: Config, events: seq<ExecEvent>, i: int, j: int)
    requires ExecRun(cfg, EMPTY_POOL, events)
    requires 0 <= i < j < |ExecEnd(cfg, EMPTY_POOL, events).log|
    ensures var s := ExecEnd(cfg, EMPTY_POOL, events);
      s.log[i].task != s.log[j].task && s.log[i].task in s.db.tasks &&
      var cs := s.db.tasks[s.log[i].task].checkpoints;
      cs != [] && cs[0].generation == s.log[i].generation && cs[0].content == PendingContent(s.log[i].effect)
  {
    hide Inv, FencedRow, ProcessesIn, Apart, CanStep, Next;
    EmptyExecInv();
    ExecRunKeeps(cfg, EMPTY_POOL, events);
    var s := ExecEnd(cfg, EMPTY_POOL, events);
    assert LoggedRow(s.log[i], s.db.tasks[s.log[i].task]);
    assert FencedRow(s.log, s.log[i].task, s.db.tasks[s.log[i].task]);
    FirstOpens(s.log, s.log[i].task, s.db.tasks[s.log[i].task]);
  }

  lemma FirstOpens(log: seq<Publication>, tid: TaskId, t: Task)
    requires FencedRow(log, tid, t) && t.checkpoints != []
    ensures Opens(tid, t.checkpoints[0].content)
  {
  }

  /** What every fenced task satisfies in every reachable state. */
  lemma FencedRowReached(cfg: Config, events: seq<ExecEvent>, tid: TaskId)
    requires ExecRun(cfg, EMPTY_POOL, events)
    requires tid in ExecEnd(cfg, EMPTY_POOL, events).db.tasks && ExecEnd(cfg, EMPTY_POOL, events).db.tasks[tid].meta.fenced
    ensures var s := ExecEnd(cfg, EMPTY_POOL, events); FencedRow(s.log, tid, s.db.tasks[tid])
  {
    hide Inv, FencedRow, ProcessesIn, Apart, CanStep, Next, LogIn, LogOnce;
    EmptyExecInv();
    ExecRunKeeps(cfg, EMPTY_POOL, events);
  }

  ghost predicate Reached(cfg: Config, events: seq<ExecEvent>, tid: TaskId) {
    ExecRun(cfg, EMPTY_POOL, events) &&
    var s := ExecEnd(cfg, EMPTY_POOL, events);
    tid in s.db.tasks && s.db.tasks[tid].meta.fenced
  }

  /** One effect: all checkpoints of a fenced task that name an effect name the same one. */
  lemma OneEffect(cfg: Config, events: seq<ExecEvent>, tid: TaskId, i: int, j: int)
    requires Reached(cfg, events, tid)
    requires var cs := ExecEnd(cfg, EMPTY_POOL, events).db.tasks[tid].checkpoints;
      0 <= i < |cs| && 0 <= j < |cs| && cs[i].content.effect.Some? && cs[j].content.effect.Some?
    ensures var cs := ExecEnd(cfg, EMPTY_POOL, events).db.tasks[tid].checkpoints;
      cs[i].content.effect == cs[j].content.effect && cs[i].content.effect.value.ArtifactEffect? &&
      cs[i].content.effect.value.task == tid
  {
    FencedRowReached(cfg, events, tid);
    var s := ExecEnd(cfg, EMPTY_POOL, events);
    EffectIsFirst(s.log, tid, s.db.tasks[tid], i);
    EffectIsFirst(s.log, tid, s.db.tasks[tid], j);
  }

  lemma EffectIsFirst(log: seq<Publication>, tid: TaskId, t: Task, i: int)
    requires FencedRow(log, tid, t) && 0 <= i < |t.checkpoints| && t.checkpoints[i].content.effect.Some?
    ensures t.checkpoints[i].content.effect == t.checkpoints[0].content.effect
    ensures t.checkpoints[i].content.effect.value.ArtifactEffect? && t.checkpoints[i].content.effect.value.task == tid
  {
  }

  /** One artifact: every checkpoint that carries an artifact carries the one the publication returned,
      whether it was recorded by the publisher, by a Builder that resumed after it, or by the Validator. */
  lemma OneArtifact(cfg: Config, events: seq<ExecEvent>, tid: TaskId, i: int)
    requires Reached(cfg, events, tid)
    requires var cs := ExecEnd(cfg, EMPTY_POOL, events).db.tasks[tid].checkpoints;
      0 <= i < |cs| && ArtifactOf(cs[i].content).Some?
    ensures var s := ExecEnd(cfg, EMPTY_POOL, events);
      var cs := s.db.tasks[tid].checkpoints;
      exists k :: 0 <= k < |s.log| && s.log[k].task == tid && s.log[k].artifact == ArtifactOf(cs[i].content)
  {
    FencedRowReached(cfg, events, tid);
    var s := ExecEnd(cfg, EMPTY_POOL, events);
    ArtifactIsPublished(s.log, tid, s.db.tasks[tid], i);
  }

  lemma ArtifactIsPublished(log: seq<Publication>, tid: TaskId, t: Task, i: int)
    requires FencedRow(log, tid, t) && 0 <= i < |t.checkpoints| && ArtifactOf(t.checkpoints[i].content).Some?
    ensures Delivered(log, tid, ArtifactOf(t.checkpoints[i].content))
  {
  }

  /** The submitted commit is the one whose effect was confirmed, and no other effect of the task exists. */
  lemma ProducedIsConfirmed(cfg: Config, events: seq<ExecEvent>, tid: TaskId)
    requires Reached(cfg, events, tid) && ExecEnd(cfg, EMPTY_POOL, events).db.tasks[tid].producedSha.Some?
    ensures var t := ExecEnd(cfg, EMPTY_POOL, events).db.tasks[tid];
      |t.checkpoints| >= 2 && t.checkpoints[1].content.effectState == Confirmed &&
      t.checkpoints[1].content.effect == Some(ArtifactEffect(tid, t.producedSha.value)) &&
      forall i :: 0 <= i < |t.checkpoints| && t.checkpoints[i].content.effect.Some? ==>
        t.checkpoints[i].content.effect == Some(ArtifactEffect(tid, t.producedSha.value))
  {
    FencedRowReached(cfg, events, tid);
    var s := ExecEnd(cfg, EMPTY_POOL, events);
    forall i | 0 <= i < |s.db.tasks[tid].checkpoints| && s.db.tasks[tid].checkpoints[i].content.effect.Some?
      ensures s.db.tasks[tid].checkpoints[i].content.effect == Some(ArtifactEffect(tid, s.db.tasks[tid].producedSha.value))
    {
      EffectIsFirst(s.log, tid, s.db.tasks[tid], i);
    }
  }

  /** A completed task was validated last: its history ends in the Validator's checkpoint of the final
      generation, on the artifact of the Builder's. */
  lemma CompletedIsJudged(cfg: Config, events: seq<ExecEvent>, tid: TaskId)
    requires Reached(cfg, events, tid) && ExecEnd(cfg, EMPTY_POOL, events).db.tasks[tid].state == Completed
    ensures var t := ExecEnd(cfg, EMPTY_POOL, events).db.tasks[tid];
      var n := |t.checkpoints|;
      n >= 3 && t.checkpoints[n - 1].generation == t.generation &&
      ArtifactOf(t.checkpoints[1].content).Some? &&
      t.checkpoints[n - 1].content == VerdictContent(ArtifactOf(t.checkpoints[1].content).value) &&
      forall i :: 1 <= i < n - 1 ==> ArtifactOf(t.checkpoints[i].content) == ArtifactOf(t.checkpoints[1].content)
  {
    hide FencedRow;
    FencedRowReached(cfg, events, tid);
    var s := ExecEnd(cfg, EMPTY_POOL, events);
    CompletedRowIsJudged(s.log, tid, s.db.tasks[tid]);
  }

  lemma CompletedRowIsJudged(log: seq<Publication>, tid: TaskId, t: Task)
    requires FencedRow(log, tid, t) && t.state == Completed
    ensures var n := |t.checkpoints|;
      n >= 3 && t.checkpoints[n - 1].generation == t.generation && ArtifactOf(t.checkpoints[1].content).Some? &&
      t.checkpoints[n - 1].content == VerdictContent(ArtifactOf(t.checkpoints[1].content).value) &&
      forall i :: 1 <= i < n - 1 ==> ArtifactOf(t.checkpoints[i].content) == ArtifactOf(t.checkpoints[1].content)
  {
  }

  // ---- what can be resumed

  ghost predicate Untouched(t: Task) {
    t.checkpoints == []
  }

  ghost predicate EndsInResult(t: Task) {
    Built(t.checkpoints) && Resumable(t.checkpoints[|t.checkpoints| - 1])
  }

  lemma LastIsLatest(t: Task, uuids: nat)
    requires RowInv(t, uuids) && t.checkpoints != [] && t.checkpoints[|t.checkpoints| - 1].content.effect.Some?
    ensures IsLatestFor(t, t.checkpoints[|t.checkpoints| - 1].content.effect.value, |t.checkpoints| - 1)
  {
    var n := |t.checkpoints| - 1;
    assert CheckpointRows(t.checkpoints, t.generation);
    assert forall j :: 0 <= j < n ==> Later(t.checkpoints[n], t.checkpoints[j]);
  }

  lemma LastEffectRow(t: Task, uuids: nat)
    requires RowInv(t, uuids) && t.checkpoints != [] && t.checkpoints[|t.checkpoints| - 1].content.effect.Some?
    ensures var last := t.checkpoints[|t.checkpoints| - 1]; EffectRow(last, OutcomeOf(t, last)) in EffectsOf(t)
  {
    hide RowInv, IsLatestFor;
    LastIsLatest(t, uuids);
  }

  /** With a single effect, the recovery context lists the latest checkpoint of that effect and no more. */
  lemma OneEffectRow(t: Task, uuids: nat, row: EffectRow)
    requires RowInv(t, uuids) && t.checkpoints != [] && t.checkpoints[|t.checkpoints| - 1].content.effect.Some?
    requires forall i :: 0 <= i < |t.checkpoints| ==>
      t.checkpoints[i].content.effect == t.checkpoints[|t.checkpoints| - 1].content.effect
    requires row in EffectsOf(t)
    ensures row == EffectRow(t.checkpoints[|t.checkpoints| - 1], OutcomeOf(t, t.checkpoints[|t.checkpoints| - 1]))
  {
    var n := |t.checkpoints| - 1;
    assert CheckpointRows(t.checkpoints, t.generation);
    var i :| 0 <= i < |t.checkpoints| && t.checkpoints[i].content.effect.Some? &&
      IsLatestFor(t, t.checkpoints[i].content.effect.value, i) &&
      row == EffectRow(t.checkpoints[i], OutcomeOf(t, t.checkpoints[i]));
  }

  lemma OpenEndIsUnsafe(t: Task, uuids: nat, generation: nat)
    requires RowInv(t, uuids) && t.checkpoints != []
    requires t.checkpoints[|t.checkpoints| - 1].content.effect.Some? &&
      t.checkpoints[|t.checkpoints| - 1].content.effectState != Confirmed
    ensures !ContextIsSafe(LatestOf(t), EffectsOf(t), generation)
  {
    hide RowInv, EffectsOf;
    LastEffectRow(t, uuids);
  }

  lemma ConfirmedIsUnanswered(t: Task, uuids: nat)
    requires RowInv(t, uuids) && t.checkpoints != []
    requires t.checkpoints[|t.checkpoints| - 1].content.effectState == Confirmed
    ensures OutcomeOf(t, t.checkpoints[|t.checkpoints| - 1]).None?
  {
    var n := |t.checkpoints| - 1;
    assert LastOfGeneration(t.checkpoints, n);
    assert AnsweredOpen(t);
  }

  lemma ResultIsSafe(log: seq<Publication>, tid: TaskId, t: Task, uuids: nat, generation: nat)
    requires RowInv(t, uuids) && FencedRow(log, tid, t) && EndsInResult(t)
    requires t.checkpoints[|t.checkpoints| - 1].generation < generation
    ensures ContextIsSafe(LatestOf(t), EffectsOf(t), generation)
  {
    hide RowInv, EffectsOf, Delivered;
    var last := t.checkpoints[|t.checkpoints| - 1];
    ResumableIsBuilt(tid, t.checkpoints);
    ConfirmedIsUnanswered(t, uuids);
    LastEffectRow(t, uuids);
    forall row | row in EffectsOf(t) ensures row == EffectRow(last, None) { OneEffectRow(t, uuids, row); }
    assert EffectsOf(t) == {EffectRow(last, None)};
  }

  /** Behind a verdict stands the confirmed result it judged. */
  lemma VerdictFollowsResult(tid: TaskId, t: Task)
    requires History(tid, t.checkpoints) && Built(t.checkpoints) && !EndsInResult(t)
    ensures var n := |t.checkpoints| - 1;
      n >= 2 && t.checkpoints[n].content.effect.None? && t.checkpoints[n - 1].content.effect == t.checkpoints[0].content.effect &&
      t.checkpoints[0].content.effect.Some? && t.checkpoints[n - 1].content.effectState == Confirmed
  {
  }

  lemma ResultBehindVerdict(t: Task, uuids: nat, n: nat)
    requires RowInv(t, uuids) && 1 <= n == |t.checkpoints| - 1
    requires t.checkpoints[n].content.effect.None? && t.checkpoints[n - 1].content.effect.Some?
    ensures EffectRow(t.checkpoints[n - 1], OutcomeOf(t, t.checkpoints[n - 1])) in EffectsOf(t)
  {
    hide AttemptLedger, ResultColumns, EffectsContained, AnsweredOpen, QuarantineLedger;
    assert CheckpointRows(t.checkpoints, t.generation);
    assert forall j :: 0 <= j < n - 1 ==> Later(t.checkpoints[n - 1], t.checkpoints[j]);
    assert IsLatestFor(t, t.checkpoints[n - 1].content.effect.value, n - 1);
  }

  lemma ResultIsUnanswered(t: Task, uuids: nat, n: nat)
    requires RowInv(t, uuids) && 1 <= n == |t.checkpoints| - 1
    requires t.checkpoints[n].content.effect.None? && t.checkpoints[n - 1].content.effectState == Confirmed
    ensures OutcomeOf(t, t.checkpoints[n - 1]).None?
  {
    hide AttemptLedger, ResultColumns, EffectsContained, QuarantineLedger;
    assert CheckpointRows(t.checkpoints, t.generation);
    assert ContentValid(t.checkpoints[n - 1].content);
    assert LastOfGeneration(t.checkpoints, n - 1);
    assert AnsweredOpen(t);
  }

  lemma VerdictIsUnsafe(log: seq<Publication>, tid: TaskId, t: Task, uuids: nat, generation: nat)
    requires RowInv(t, uuids) && FencedRow(log, tid, t) && Built(t.checkpoints) && !EndsInResult(t)
    ensures !ContextIsSafe(LatestOf(t), EffectsOf(t), generation)
  {
    hide Delivered, RowInv, Built, History, EffectsOf, EndsInResult, OutcomeOf;
    var n := |t.checkpoints| - 1;
    VerdictFollowsResult(tid, t);
    ResultBehindVerdict(t, uuids, n);
    ResultIsUnanswered(t, uuids, n);
    assert !EffectIsSafe(EffectRow(t.checkpoints[n - 1], OutcomeOf(t, t.checkpoints[n - 1])), LatestOf(t));
  }

  /** What an executor accepts to start from, exactly: an empty history, or one that ends in a Builder's
      result.  A publication left pending or unknown is never resumed, however it was reconciled, and
      neither is a verdict whose completion was lost. */
  lemma ContextIsSafeExactly(cfg: Config, events: seq<ExecEvent>, tid: TaskId, generation: nat)
    requires Reached(cfg, events, tid)
    ensures var t := ExecEnd(cfg, EMPTY_POOL, events).db.tasks[tid];
      ContextIsSafe(LatestOf(t), EffectsOf(t), generation) <==>
        Untouched(t) || (EndsInResult(t) && t.checkpoints[|t.checkpoints| - 1].generation < generation)
  {
    hide ContextIsSafe, EffectsOf, EndsInResult, RowInv, FencedRow;
    FencedRowReached(cfg, events, tid);
    EmptyExecInv();
    ExecRunKeeps(cfg, EMPTY_POOL, events);
    var s := ExecEnd(cfg, EMPTY_POOL, events);
    SafeAtGeneration(s.log, tid, s.db.tasks[tid], s.db.uuids, generation);
  }

  lemma SafeAtGeneration(log: seq<Publication>, tid: TaskId, t: Task, uuids: nat, generation: nat)
    requires RowInv(t, uuids) && FencedRow(log, tid, t)
    ensures ContextIsSafe(LatestOf(t), EffectsOf(t), generation) <==>
      Untouched(t) || (EndsInResult(t) && t.checkpoints[|t.checkpoints| - 1].generation < generation)
  {
    hide ContextIsSafe, EffectsOf, RowInv, FencedRow, Built, Resumable;
    if t.checkpoints == [] || t.checkpoints[|t.checkpoints| - 1].generation < generation {
      LastIsHighest(t, uuids);
      SafeExactly(log, tid, t, uuids, generation);
    } else {
      FutureIsUnsafe(LatestOf(t), EffectsOf(t), generation);
    }
  }

  lemma LastIsHighest(t: Task, uuids: nat)
    requires RowInv(t, uuids)
    ensures forall i :: 0 <= i < |t.checkpoints| ==>
      t.checkpoints[i].generation <= t.checkpoints[|t.checkpoints| - 1].generation
  {
    hide AttemptLedger, ResultColumns, QuarantineLedger, ReconciliationRows, EffectsContained;
    assert CheckpointRows(t.checkpoints, t.generation);
    var n := |t.checkpoints| - 1;
    assert forall j :: 0 <= j < n ==> Later(t.checkpoints[n], t.checkpoints[j]);
  }

  /** Nothing that claims to be of the running generation, or of a later one, is ever resumed from. */
  lemma FutureIsUnsafe(latest: Option<Checkpoint>, effects: set<EffectRow>, generation: nat)
    requires (latest.Some? && latest.value.generation >= generation) ||
      exists row :: row in effects && row.checkpoint.generation >= generation
    ensures !ContextIsSafe(latest, effects, generation)
  {
    hide EffectIsSafe;
  }

  lemma SafeExactly(log: seq<Publication>, tid: TaskId, t: Task, uuids: nat, generation: nat)
    requires RowInv(t, uuids) && FencedRow(log, tid, t)
    requires forall i :: 0 <= i < |t.checkpoints| ==> t.checkpoints[i].generation < generation
    ensures ContextIsSafe(LatestOf(t), EffectsOf(t), generation) <==> Untouched(t) || EndsInResult(t)
  {
    hide RowInv, ContextIsSafe, Delivered;
    if t.checkpoints == [] {
      NothingIsSafe(t, generation);
    } else if EndsInResult(t) {
      ResultIsSafe(log, tid, t, uuids, generation);
    } else if Built(t.checkpoints) {
      VerdictIsUnsafe(log, tid, t, uuids, generation);
    } else {
      OpenEndIsUnsafe(t, uuids, generation);
    }
  }

  lemma NothingIsSafe(t: Task, generation: nat)
    requires t.checkpoints == []
    ensures ContextIsSafe(LatestOf(t), EffectsOf(t), generation)
  {
    assert EffectsOf(t) == {};
  }

  // ---- what can never be resumed

  /** Claimed again after a publication that recorded no result. */
  ghost predicate Abandoned(t: Task) {
    t.meta.fenced && t.checkpoints != [] && t.checkpoints[0].generation < t.generation && !Built(t.checkpoints)
  }

  lemma AbandonedMakesNothing(log: seq<Publication>, tid: TaskId, t: Task)
    requires FencedRow(log, tid, t) && Abandoned(t)
    ensures t.producedSha.None? && t.state != Completed
  {
    hide Built;
  }

  /** A process that still has the lease of such a task can neither record nor hand over nor complete. */
  lemma AbandonedIsLeftAlone(log: seq<Publication>, p: Process, t: Task, t': Task)
    requires Callable(p) && p.pc != Blocking && p.pc != Failing
    requires Knows(log, p, t) && Abandoned(t) && Effected(p, t, t')
    ensures Calm(t, t')
  {
    hide Delivered, Built, NoteContent;
    AbandonedHasNoResult(p.task, t);
  }

  lemma AbandonedHasNoResult(tid: TaskId, t: Task)
    requires History(tid, t.checkpoints) && Abandoned(t)
    ensures !Resumable(t.checkpoints[|t.checkpoints| - 1])
  {
  }

  lemma AbandonedThroughCall(cfg: Config, s: Pool, now: int, step: ExecStep, tid: TaskId)
    requires ExecInv(s) && step.CallStep? && CanStep(cfg, s, now, step)
    requires tid in s.db.tasks && Abandoned(s.db.tasks[tid])
    ensures var s' := Next(cfg, s, now, step); tid in s'.db.tasks && Calm(s.db.tasks[tid], s'.db.tasks[tid])
  {
    hide Inv, FencedRow, LogOnce, LogIn, Abandoned, Effected, After, Accepts, CallOf, Knows;
    var p := s.processes[step.id];
    assert ProcessIn(s.db, s.log, p);
    CallWrites(cfg, s.db, now, p);
    if step.delivered && p.task == tid && Accepts(s.db, now, CallOf(p)) {
      var db' := After(cfg, s.db, now, CallOf(p));
      AcceptsIsProper(s.db, now, p);
      UnderCurrent(p, s.db.tasks[tid], db'.tasks[tid]);
      CallerKnows(s, step.id);
      AbandonedIsLeftAlone(s.log, p, s.db.tasks[tid], db'.tasks[tid]);
    }
  }

  ghost predicate StillAbandoned(t: Task, t': Task) {
    Abandoned(t') && t'.checkpoints == t.checkpoints
  }

  lemma AbandonedThroughStep(cfg: Config, s: Pool, now: int, step: ExecStep, tid: TaskId)
    requires ExecInv(s) && CanStep(cfg, s, now, step)
    requires tid in s.db.tasks && Abandoned(s.db.tasks[tid])
    ensures var s' := Next(cfg, s, now, step); tid in s'.db.tasks && StillAbandoned(s.db.tasks[tid], s'.db.tasks[tid])
  {
    hide Inv, FencedRows, LogOnce, LogIn, ProcessesIn, Apart, After, Built, Outside, FencedClaim;
    match step
    case EnvironmentStep(op) =>
      EnvironmentIsCalm(cfg, s.db, now, op);
      assert CalmIfFenced(s.db.tasks[tid], Next(cfg, s, now, step).db.tasks[tid]);
    case ClaimStep(_, worker, role, seconds, task) => ExactClaimWrites(cfg, s.db, now, worker, role, seconds, task);
    case CallStep(_, _, _) => AbandonedThroughCall(cfg, s, now, step, tid);
    case _ =>
  }

  /** No second chance: once a task whose publication recorded no result has been claimed again, its
      history never grows and it never gets a result, whatever the authority answers. */
  lemma {:induction false} AbandonedForever(cfg: Config, s: Pool, events: seq<ExecEvent>, tid: TaskId)
    requires ExecInv(s) && ExecRun(cfg, s, events) && tid in s.db.tasks && Abandoned(s.db.tasks[tid])
    ensures var s' := ExecEnd(cfg, s, events);
      tid in s'.db.tasks && s'.db.tasks[tid].checkpoints == s.db.tasks[tid].checkpoints &&
      s'.db.tasks[tid].producedSha.None? && s'.db.tasks[tid].state != Completed
    decreases |events|
  {
    hide Inv, LogOnce, LogIn, ProcessesIn, Apart, Next, CanStep, FencedRow, Abandoned;
    if events == [] {
      FencedOnly(s.db.tasks[tid]);
      AbandonedMakesNothing(s.log, tid, s.db.tasks[tid]);
    } else {
      AbandonedThroughStep(cfg, s, events[0].now, events[0].step, tid);
      ExecStepKeeps(cfg, s, events[0].now, events[0].step);
      AbandonedForever(cfg, Next(cfg, s, events[0].now, events[0].step), events[1..], tid);
    }
  }

  lemma FencedOnly(t: Task)
    requires Abandoned(t)
    ensures t.meta.fenced
  {
  }

  // ---- a verdict whose completion was lost

  /** Claimed again after a Validator's verdict that was not followed by the completion. */
  ghost predicate Stranded(t: Task) {
    t.meta.fenced && Built(t.checkpoints) && t.state != Completed &&
    var last := t.checkpoints[|t.checkpoints| - 1];
    last.content.stage == ValidatorResult && last.generation < t.generation
  }

  ghost predicate StillStranded(t: Task, t': Task) {
    Stranded(t') && t'.checkpoints == t.checkpoints
  }

  /** Its history is closed, and no process has the verdict of the current generation that completing needs. */
  lemma StrandedIsNotCompleted(log: seq<Publication>, p: Process, t: Task, t': Task)
    requires Callable(p) && p.pc != Blocking && p.pc != Failing
    requires Knows(log, p, t) && Stranded(t) && Effected(p, t, t')
    ensures StillStranded(t, t')
  {
    hide Delivered, NoteContent;
    StrandedEndsInVerdict(p.task, t);
  }

  lemma StrandedEndsInVerdict(tid: TaskId, t: Task)
    requires History(tid, t.checkpoints) && Stranded(t)
    ensures |t.checkpoints| >= 2 && !Resumable(t.checkpoints[|t.checkpoints| - 1])
  {
  }

  lemma CalmStaysStranded(t: Task, t': Task)
    requires Stranded(t) && Calm(t, t')
    ensures StillStranded(t, t')
  {
    hide Built;
  }

  lemma StrandedThroughCall(cfg: Config, s: Pool, now: int, step: ExecStep, tid: TaskId)
    requires ExecInv(s) && step.CallStep? && CanStep(cfg, s, now, step)
    requires tid in s.db.tasks && Stranded(s.db.tasks[tid])
    ensures var s' := Next(cfg, s, now, step); tid in s'.db.tasks && StillStranded(s.db.tasks[tid], s'.db.tasks[tid])
  {
    hide Inv, SignedRows, FencedRow, LogOnce, LogIn, Stranded, StillStranded, Effected, After, Accepts, CallOf, Knows, Calm;
    var p := s.processes[step.id];
    assert ProcessIn(s.db, s.log, p);
    CallWrites(cfg, s.db, now, p);
    CalmRefl(s.db.tasks[tid]);
    CalmStaysStranded(s.db.tasks[tid], s.db.tasks[tid]);
    if step.delivered && p.task == tid {
      var db' := After(cfg, s.db, now, CallOf(p));
      if Accepts(s.db, now, CallOf(p)) {
        AcceptsIsProper(s.db, now, p);
        UnderCurrent(p, s.db.tasks[tid], db'.tasks[tid]);
        CallerKnows(s, step.id);
        StrandedIsNotCompleted(s.log, p, s.db.tasks[tid], db'.tasks[tid]);
      } else {
        CalmStaysStranded(s.db.tasks[tid], db'.tasks[tid]);
      }
    }
  }

  lemma StrandedThroughStep(cfg: Config, s: Pool, now: int, step: ExecStep, tid: TaskId)
    requires ExecInv(s) && CanStep(cfg, s, now, step)
    requires tid in s.db.tasks && Stranded(s.db.tasks[tid])
    ensures var s' := Next(cfg, s, now, step); tid in s'.db.tasks && StillStranded(s.db.tasks[tid], s'.db.tasks[tid])
  {
    hide Inv, SignedRows, FencedRows, LogOnce, LogIn, ProcessesIn, Apart, After, Built, Outside, FencedClaim;
    match step
    case EnvironmentStep(op) =>
      EnvironmentIsCalm(cfg, s.db, now, op);
      assert CalmIfFenced(s.db.tasks[tid], Next(cfg, s, now, step).db.tasks[tid]);
    case ClaimStep(_, worker, role, seconds, task) => ExactClaimWrites(cfg, s.db, now, worker, role, seconds, task);
    case CallStep(_, _, _) => StrandedThroughCall(cfg, s, now, step, tid);
    case _ =>
  }

  /** A verdict is not resumable either: once the task has been claimed again, it is never completed. */
  lemma {:induction false} StrandedForever(cfg: Config, s: Pool, events: seq<ExecEvent>, tid: TaskId)
    requires ExecInv(s) && ExecRun(cfg, s, events) && tid in s.db.tasks && Stranded(s.db.tasks[tid])
    ensures var s' := ExecEnd(cfg, s, events);
      tid in s'.db.tasks && s'.db.tasks[tid].checkpoints == s.db.tasks[tid].checkpoints && s'.db.tasks[tid].state != Completed
    decreases |events|
  {
    hide ExecInv, Next, CanStep, Built;
    if events != [] {
      StrandedThroughStep(cfg, s, events[0].now, events[0].step, tid);
      ExecStepKeeps(cfg, s, events[0].now, events[0].step);
      StrandedForever(cfg, Next(cfg, s, events[0].now, events[0].step), events[1..], tid);
    }
  }
}
