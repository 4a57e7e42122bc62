/** Runs of the pool and the work records together, with calls interleaved between their reads and
    their writes: each call reads its row, then its task, and writes in a later transaction. */
module WorkRuns {
  import opened Wrappers
  import opened PoolTypes
  import opened PoolRows
  import opened PoolSpec
  import opened PoolSteps
  import opened Ledger
  import opened PoolInvariant
  import opened Evolution
  import opened WorkRecords

  datatype Request = EvidenceRequest(evidence: Evidence) | MergeRequest(report: MergeReport)

  /** A call in progress: the row as it read it, and whether its checks have let it through to its write. */
  datatype Call = Call(work: WorkId, request: Request, row: Work, cleared: bool)

  datatype System = System(db: DB, works: map<WorkId, Work>, calls: map<nat, Call>)

  const EMPTY_SYSTEM := System(EMPTY_DB, map[], map[])

  datatype Step =
    | PoolStep(op: Op)
    | OpenStep(tid: TaskId, policy: MergePolicy)
    | ReadStep(id: nat, work: WorkId, request: Request)
    | CheckStep(id: nat)
    | WriteStep(id: nat)
    | GiveUpStep(id: nat)

  predicate Accepted(request: Request) {
    match request
    case EvidenceRequest(e) => EvidenceRefusal(e).None?
    case MergeRequest(m) => ReportRefusal(m).None?
  }

  function Judged(row: Work, task: Option<Task>, request: Request): Decision {
    match request
    case EvidenceRequest(e) => JudgeEvidence(row, task, e)
    case MergeRequest(m) => JudgeMerge(row, task, m)
  }

  function Written(row: Work, request: Request, now: int): Work {
    match request
    case EvidenceRequest(e) => WriteEvidence(row, e, now)
    case MergeRequest(m) => WriteMerge(row, m, now)
  }

  ghost predicate CanStep(cfg: Config, s: System, now: int, step: Step) {
    match step
    case PoolStep(op) => Possible(cfg, s.db, now, op)
    case OpenStep(tid, policy) => tid in s.db.tasks && policy == Governed
    case ReadStep(id, w, request) => id !in s.calls && w in s.works && Accepted(request)
    case CheckStep(id) => id in s.calls && !s.calls[id].cleared
    case WriteStep(id) => id in s.calls && s.calls[id].cleared && s.calls[id].work in s.works
    case GiveUpStep(id) => id in s.calls
  }

  ghost function Next(cfg: Config, workId: TaskId -> WorkId, s: System, now: int, step: Step): System
    requires CanStep(cfg, s, now, step)
  {
    match step
    case PoolStep(op) => s.(db := After(cfg, s.db, now, op))
    case OpenStep(tid, policy) =>
      if JudgeOpen(s.works, workId(tid), tid, policy).Write?
      then s.(works := s.works[workId(tid) := FreshWork(tid, policy, now)]) else s
    case ReadStep(id, w, request) => s.(calls := s.calls[id := Call(w, request, s.works[w], false)])
    case CheckStep(id) =>
      var call := s.calls[id];
      if Judged(call.row, TaskOf(s.db, call.row.task), call.request).Write?
      then s.(calls := s.calls[id := call.(cleared := true)]) else s.(calls := s.calls - {id})
    case WriteStep(id) =>
      var call := s.calls[id];
      s.(works := s.works[call.work := Written(s.works[call.work], call.request, now)], calls := s.calls - {id})
    case GiveUpStep(id) => s.(calls := s.calls - {id})
  }

  // ---- the invariant

  ghost predicate VerifiedChain(t: Task, row: Work) {
    t.state == Completed && t.producedSha.Some? &&
    row.validationSha == t.producedSha && row.expectedHead == t.producedSha &&
    row.runId.Some? && row.reference.Some? && row.readback && row.positive && row.negative
  }

  ghost predicate Chain(db: DB, row: Work) {
    row.task in db.tasks &&
    (row.mergeState != MergePending <==> row.verified) &&
    (row.verified ==> VerifiedChain(db.tasks[row.task], row)) &&
    (row.mergeState == Merged <==> row.mergedAt.Some?) &&
    (row.mergeState == Merged <==> row.mergeCommit.Some?) &&
    (row.mergeState == MergeBlocked ==> row.mergeReason.Some?)
  }

  /** What evidence fixed stays; what a row was opened with stays. */
  ghost predicate RowGrows(a: Work, b: Work) {
    b.task == a.task && b.policy == a.policy && b.createdAt == a.createdAt &&
    (a.verified ==> b == a.(mergeState := b.mergeState, mergeCommit := b.mergeCommit, mergeReason := b.mergeReason,
                            updatedAt := b.updatedAt, mergedAt := b.mergedAt))
  }

  /** A cleared call has seen, of the task and of the row, what its write relies on. */
  ghost predicate CallSound(db: DB, works: map<WorkId, Work>, call: Call) {
    call.work in works && RowGrows(call.row, works[call.work]) && Accepted(call.request) &&
    (call.cleared ==>
      call.row.task in db.tasks &&
      match call.request
      case EvidenceRequest(e) =>
        db.tasks[call.row.task].state == Completed && db.tasks[call.row.task].producedSha == e.sha
      case MergeRequest(m) =>
        call.row.verified && call.row.mergeState != Merged && m.merged == m.commit.Commit40? && (m.merged || (m.commit.Blank? && m.reason.Some?)) &&
        m.head.Some? && m.head == call.row.expectedHead == db.tasks[call.row.task].producedSha)
  }

  ghost predicate SystemInv(workId: TaskId -> WorkId, s: System) {
    Inv(s.db) &&
    (forall w :: w in s.works ==> Chain(s.db, s.works[w]) && workId(s.works[w].task) == w) &&
    (forall id :: id in s.calls ==> CallSound(s.db, s.works, s.calls[id]))
  }

  /** No task has two records (the UNIQUE constraint on work_runs.task_id never fires). */
  lemma OneWorkPerTask(workId: TaskId -> WorkId, s: System, a: WorkId, b: WorkId)
    requires SystemInv(workId, s) && a in s.works && b in s.works && s.works[a].task == s.works[b].task
    ensures a == b
  {
  }

  // ---- preservation

  lemma ChainKeptByPool(db: DB, db': DB, row: Work)
    requires Chain(db, row) && Evolves(db, db')
    ensures Chain(db', row)
  {
    assert RowEvolves(db.tasks[row.task], db'.tasks[row.task], db.uuids);
  }

  lemma CallKeptByPool(db: DB, db': DB, works: map<WorkId, Work>, call: Call)
    requires CallSound(db, works, call) && Evolves(db, db')
    ensures CallSound(db', works, call)
  {
    if call.row.task in db.tasks { assert RowEvolves(db.tasks[call.row.task], db'.tasks[call.row.task], db.uuids); }
  }

  lemma PoolStepKeeps(cfg: Config, workId: TaskId -> WorkId, s: System, now: int, op: Op)
    requires SystemInv(workId, s) && Possible(cfg, s.db, now, op)
    ensures SystemInv(workId, s.(db := After(cfg, s.db, now, op)))
    ensures Evolves(s.db, After(cfg, s.db, now, op))
  {
    hide Chain, CallSound, Evolves, Inv, After;
    StepKeepsInv(cfg, s.db, now, op);
    StepEvolves(cfg, s.db, now, op);
    var db' := After(cfg, s.db, now, op);
    forall w | w in s.works ensures Chain(db', s.works[w]) { ChainKeptByPool(s.db, db', s.works[w]); }
    forall id | id in s.calls ensures CallSound(db', s.works, s.calls[id]) { CallKeptByPool(s.db, db', s.works, s.calls[id]); }
  }

  lemma GrowsThenGrows(a: Work, b: Work, c: Work)
    requires RowGrows(a, b) && RowGrows(b, c)
    ensures RowGrows(a, c)
  {
  }

  /** A write, however late, keeps the chain of the row it finds. */
  lemma WriteKeepsChain(db: DB, works: map<WorkId, Work>, call: Call, now: int)
    requires CallSound(db, works, call) && call.cleared && Chain(db, works[call.work])
    ensures var row' := Written(works[call.work], call.request, now);
      Chain(db, row') && RowGrows(works[call.work], row')
  {
  }

  lemma WriteStepKeeps(cfg: Config, workId: TaskId -> WorkId, s: System, now: int, id: nat)
    requires SystemInv(workId, s) && CanStep(cfg, s, now, WriteStep(id))
    ensures SystemInv(workId, Next(cfg, workId, s, now, WriteStep(id)))
  {
    hide Chain, Written, RowGrows, Inv;
    var call := s.calls[id];
    WriteKeepsChain(s.db, s.works, call, now);
    var s' := Next(cfg, workId, s, now, WriteStep(id));
    SameTask(s.works[call.work], s'.works[call.work]);
    forall k | k in s'.calls ensures CallSound(s'.db, s'.works, s'.calls[k]) {
      if s.calls[k].work == call.work {
        GrowsThenGrows(s.calls[k].row, s.works[call.work], s'.works[call.work]);
      }
    }
  }

  lemma SameTask(a: Work, b: Work)
    requires RowGrows(a, b)
    ensures a.task == b.task
  {
  }

  lemma OpenStepKeeps(cfg: Config, workId: TaskId -> WorkId, s: System, now: int, tid: TaskId, policy: MergePolicy)
    requires SystemInv(workId, s) && CanStep(cfg, s, now, OpenStep(tid, policy))
    ensures SystemInv(workId, Next(cfg, workId, s, now, OpenStep(tid, policy)))
  {
    hide Inv, RowGrows;
  }

  lemma CallStepKeeps(cfg: Config, workId: TaskId -> WorkId, s: System, now: int, step: Step)
    requires SystemInv(workId, s) && CanStep(cfg, s, now, step)
    requires step.ReadStep? || step.CheckStep? || step.GiveUpStep?
    ensures SystemInv(workId, Next(cfg, workId, s, now, step))
  {
    hide Inv, Chain;
    if step.CheckStep? {
      var call := s.calls[step.id];
      if Judged(call.row, TaskOf(s.db, call.row.task), call.request).Write? { CheckedIsSound(s.db, s.works, call); }
    }
  }

  lemma CheckedIsSound(db: DB, works: map<WorkId, Work>, call: Call)
    requires CallSound(db, works, call) && Judged(call.row, TaskOf(db, call.row.task), call.request).Write?
    ensures CallSound(db, works, call.(cleared := true))
  {
    hide RowGrows;
  }

  lemma SystemStepKeeps(cfg: Config, workId: TaskId -> WorkId, s: System, now: int, step: Step)
    requires SystemInv(workId, s) && CanStep(cfg, s, now, step)
    ensures SystemInv(workId, Next(cfg, workId, s, now, step))
  {
    hide SystemInv, After;
    match step
    case PoolStep(op) => PoolStepKeeps(cfg, workId, s, now, op);
    case OpenStep(tid, policy) => OpenStepKeeps(cfg, workId, s, now, tid, policy);
    case WriteStep(id) => WriteStepKeeps(cfg, workId, s, now, id);
    case _ => CallStepKeeps(cfg, workId, s, now, step);
  }

  // ---- runs

  datatype SystemEvent = SystemEvent(now: int, step: Step)

  ghost predicate SystemRun(cfg: Config, workId: TaskId -> WorkId, s: System, events: seq<SystemEvent>)
    decreases |events|
  {
    events == [] ||
    (CanStep(cfg, s, events[0].now, events[0].step) &&
     SystemRun(cfg, workId, Next(cfg, workId, s, events[0].now, events[0].step), events[1..]))
  }

  ghost function SystemEnd(cfg: Config, workId: TaskId -> WorkId, s: System, events: seq<SystemEvent>): System
    requires SystemRun(cfg, workId, s, events)
    decreases |events|
  {
    if events == [] then s
    else SystemEnd(cfg, workId, Next(cfg, workId, s, events[0].now, events[0].step), events[1..])
  }

  lemma {:induction false} SystemRunKeeps(cfg: Config, workId: TaskId -> WorkId, s: System, events: seq<SystemEvent>)
    requires SystemInv(workId, s) && SystemRun(cfg, workId, s, events)
    ensures SystemInv(workId, SystemEnd(cfg, workId, s, events))
    decreases |events|
  {
    hide SystemInv, Next, CanStep;
    if events != [] {
      SystemStepKeeps(cfg, workId, s, events[0].now, events[0].step);
      SystemRunKeeps(cfg, workId, Next(cfg, workId, s, events[0].now, events[0].step), events[1..]);
    }
  }

  /** The merge chain: in every reachable state, with calls interleaved in any way, a record has left
      `pending` exactly when its evidence is verified, and then its task is completed with the
      validated commit, the expected head and the produced commit all equal. */
  lemma MergeChain(cfg: Config, workId: TaskId -> WorkId, events: seq<SystemEvent>, w: WorkId)
    requires SystemRun(cfg, workId, EMPTY_SYSTEM, events)
    requires w in SystemEnd(cfg, workId, EMPTY_SYSTEM, events).works
    ensures var s := SystemEnd(cfg, workId, EMPTY_SYSTEM, events);
      var row := s.works[w];
      row.task in s.db.tasks && (row.mergeState != MergePending <==> row.verified) &&
      (row.verified ==>
        var t := s.db.tasks[row.task];
        t.state == Completed && t.producedSha.Some? && row.validationSha == row.expectedHead == t.producedSha)
  {
    hide Inv, CanStep, Next;
    EmptyInv();
    SystemRunKeeps(cfg, workId, EMPTY_SYSTEM, events);
  }

  // ---- which reports are written

  /** A report that may be written at all: it names the validated commit, and says completely either that
      it was merged, and as which commit, or that it was not, and why. */
  ghost predicate Complete(row: Work, m: MergeReport) {
    m.head == row.validationSha &&
    match m.commit
    case Commit40(_) => m.merged
    case Blank => !m.merged && m.reason.Some?
    case Malformed => false
  }

  /** The step is the write of such a report, and the record says what the report says. */
  ghost predicate WritesReport(s: System, s': System, w: WorkId, step: Step) {
    step.WriteStep? && step.id in s.calls && s.calls[step.id].work == w && s.calls[step.id].request.MergeRequest? &&
    w in s.works && w in s'.works &&
    var m, row, row' := s.calls[step.id].request.report, s.works[w], s'.works[w];
    Complete(row, m) && row.task in s.db.tasks && m.head == s.db.tasks[row.task].producedSha &&
    row'.mergeState == (if m.merged then Merged else MergeBlocked) && row'.mergeReason == m.reason &&
    row'.mergeCommit == (if m.merged then Some(m.commit.sha) else None)
  }

  lemma WriteNamesValidatedHead(cfg: Config, workId: TaskId -> WorkId, s: System, now: int, id: nat)
    requires SystemInv(workId, s) && CanStep(cfg, s, now, WriteStep(id)) && s.calls[id].request.MergeRequest?
    ensures WritesReport(s, Next(cfg, workId, s, now, WriteStep(id)), s.calls[id].work, WriteStep(id))
  {
    hide Inv;
    assert CallSound(s.db, s.works, s.calls[id]) && Chain(s.db, s.works[s.calls[id].work]);
  }

  lemma OtherStepsKeepMergeState(cfg: Config, workId: TaskId -> WorkId, s: System, now: int, step: Step, w: WorkId)
    requires SystemInv(workId, s) && CanStep(cfg, s, now, step) && w in s.works
    requires !(step.WriteStep? && s.calls[step.id].request.MergeRequest? && s.calls[step.id].work == w)
    ensures var s' := Next(cfg, workId, s, now, step);
      w in s'.works && (s'.works[w].mergeState == s.works[w].mergeState || s'.works[w].mergeState == Ready)
  {
    hide Inv, After, Chain, CallSound, Judged;
  }

  /** In every reachable state, with reads and writes interleaved in any way: a record becomes merged or
      blocked only by the write of a report that names the commit its evidence validated, which is the
      commit its completed task produced. */
  lemma ReportNamesValidatedHead(cfg: Config, workId: TaskId -> WorkId, events: seq<SystemEvent>, now: int, step: Step, w: WorkId)
    requires SystemRun(cfg, workId, EMPTY_SYSTEM, events) && CanStep(cfg, SystemEnd(cfg, workId, EMPTY_SYSTEM, events), now, step)
    requires w in SystemEnd(cfg, workId, EMPTY_SYSTEM, events).works
    ensures var s := SystemEnd(cfg, workId, EMPTY_SYSTEM, events);
      var s' := Next(cfg, workId, s, now, step);
      w in s'.works &&
      (s'.works[w].mergeState != s.works[w].mergeState && s'.works[w].mergeState in {Merged, MergeBlocked} ==>
        WritesReport(s, s', w, step))
  {
    hide SystemInv, SystemRun, SystemEnd, After, Next, WritesReport;
    EmptySystemInv(workId);
    SystemRunKeeps(cfg, workId, EMPTY_SYSTEM, events);
    var s := SystemEnd(cfg, workId, EMPTY_SYSTEM, events);
    if step.WriteStep? && s.calls[step.id].request.MergeRequest? && s.calls[step.id].work == w {
      WriteNamesValidatedHead(cfg, workId, s, now, step.id);
      WrittenIsThere(s, Next(cfg, workId, s, now, step), w, step);
    } else {
      OtherStepsKeepMergeState(cfg, workId, s, now, step, w);
    }
  }

  lemma WrittenIsThere(s: System, s': System, w: WorkId, step: Step)
    requires WritesReport(s, s', w, step)
    ensures w in s'.works
  {
  }

  lemma EmptySystemInv(workId: TaskId -> WorkId)
    ensures SystemInv(workId, EMPTY_SYSTEM)
  {
    EmptyInv();
  }

  /** What a report does to a record of a reachable state, exactly: a ready record takes every complete
      report; a refused one repeats the same refusal and takes a merge; a merged one repeats the same
      merge and takes nothing. */
  lemma ReportIsAcceptedExactly(workId: TaskId -> WorkId, s: System, w: WorkId, m: MergeReport)
    requires SystemInv(workId, s) && w in s.works
    ensures var row := s.works[w];
      var decision := DecideMerge(s.db, s.works, w, m);
      match row.mergeState
      case MergePending => decision.Refuse?
      case Ready => !decision.Replay? && (decision.Write? <==> Complete(row, m))
      case MergeBlocked =>
        (decision.Write? <==> Complete(row, m) && m.merged) &&
        (decision.Replay? <==> Complete(row, m) && !m.merged && m.reason == row.mergeReason)
      case Merged =>
        !decision.Write? && (decision.Replay? <==> Complete(row, m) && m.commit == Commit40(row.mergeCommit.value))
  {
    hide Inv;
    assert Chain(s.db, s.works[w]);
  }

  /** Evidence: taken by a record without any, exactly if it is complete and of the commit that the
      completed task produced; recognised afterwards exactly if every part of it is the same. */
  lemma EvidenceIsAcceptedExactly(workId: TaskId -> WorkId, s: System, w: WorkId, e: Evidence)
    requires SystemInv(workId, s) && w in s.works
    ensures var row := s.works[w];
      var decision := DecideEvidence(s.db, s.works, w, e);
      row.task in s.db.tasks &&
      var t := s.db.tasks[row.task];
      (decision.Write? <==>
        row.mergeState == MergePending && t.state == Completed && e.sha.Some? && e.sha == t.producedSha &&
        e.runId.Some? && e.reference.Some? && e.readback && e.positive && e.negative) &&
      (decision.Replay? <==>
        row.mergeState != MergePending &&
        e == Evidence(row.validationSha, row.runId, row.reference, true, true, true))
  {
    hide Inv;
    assert Chain(s.db, s.works[w]);
  }

  // ---- two states of one run

  ghost predicate SystemGrows(s: System, s': System) {
    Evolves(s.db, s'.db) && forall w :: w in s.works ==> w in s'.works && RowGrows(s.works[w], s'.works[w])
  }

  lemma SystemStepGrows(cfg: Config, workId: TaskId -> WorkId, s: System, now: int, step: Step)
    requires SystemInv(workId, s) && CanStep(cfg, s, now, step)
    ensures SystemGrows(s, Next(cfg, workId, s, now, step))
  {
    hide Inv, Chain, Evolves, After;
    EvolvesRefl(s.db);
    match step
    case PoolStep(op) => PoolStepKeeps(cfg, workId, s, now, op);
    case WriteStep(id) => WriteKeepsChain(s.db, s.works, s.calls[id], now);
    case _ =>
  }

  lemma EvolvesRefl(db: DB)
    ensures Evolves(db, db)
  {
  }

  lemma SystemGrowsTransitive(a: System, b: System, c: System)
    requires SystemGrows(a, b) && SystemGrows(b, c)
    ensures SystemGrows(a, c)
  {
    hide Evolves, RowGrows;
    EvolvesTransitive(a.db, b.db, c.db);
    forall w | w in a.works ensures RowGrows(a.works[w], c.works[w]) {
      GrowsThenGrows(a.works[w], b.works[w], c.works[w]);
    }
  }

  lemma {:induction false} SystemRunGrows(cfg: Config, workId: TaskId -> WorkId, s: System, events: seq<SystemEvent>)
    requires SystemInv(workId, s) && SystemRun(cfg, workId, s, events)
    ensures SystemGrows(s, SystemEnd(cfg, workId, s, events))
    decreases |events|
  {
    hide SystemInv, Next, CanStep, SystemGrows;
    if events == [] {
      SystemGrowsRefl(s);
    } else {
      var s1 := Next(cfg, workId, s, events[0].now, events[0].step);
      SystemStepKeeps(cfg, workId, s, events[0].now, events[0].step);
      SystemStepGrows(cfg, workId, s, events[0].now, events[0].step);
      SystemRunGrows(cfg, workId, s1, events[1..]);
      SystemGrowsTransitive(s, s1, SystemEnd(cfg, workId, s1, events[1..]));
    }
  }

  lemma SystemGrowsRefl(s: System)
    ensures SystemGrows(s, s)
  {
    hide Evolves;
    EvolvesRefl(s.db);
  }

  /** The evidence of a record and the whole row of its task are what they were. */
  ghost predicate StaysVerified(s: System, s': System, w: WorkId) {
    w in s.works && w in s'.works &&
    var row, row' := s.works[w], s'.works[w];
    row'.verified && row'.validationSha == row.validationSha && row'.expectedHead == row.expectedHead &&
    row'.runId == row.runId && row'.reference == row.reference && row'.task == row.task &&
    row.task in s.db.tasks && row.task in s'.db.tasks && s'.db.tasks[row.task] == s.db.tasks[row.task]
  }

  /** Once evidence is verified, the task row never changes again and neither does the evidence. */
  lemma VerifiedForever(cfg: Config, workId: TaskId -> WorkId, s: System, events: seq<SystemEvent>, w: WorkId)
    requires SystemInv(workId, s) && SystemRun(cfg, workId, s, events)
    requires w in s.works && s.works[w].verified
    ensures StaysVerified(s, SystemEnd(cfg, workId, s, events), w)
  {
    hide Inv, CanStep, Next;
    SystemRunGrows(cfg, workId, s, events);
    assert Chain(s.db, s.works[w]);
    var s' := SystemEnd(cfg, workId, s, events);
    assert RowEvolves(s.db.tasks[s.works[w].task], s'.db.tasks[s.works[w].task], s.db.uuids);
  }

  // ---- is `merged` final?

  /** A call on this record that is already past its checks. */
  ghost predicate InFlight(s: System, w: WorkId, id: nat) {
    id in s.calls && s.calls[id].work == w
  }

  ghost predicate OverwritesMerge(s: System, w: WorkId, step: Step) {
    step.WriteStep? && InFlight(s, w, step.id) && s.calls[step.id].cleared &&
    s.calls[step.id].request.MergeRequest? && !s.calls[step.id].request.report.merged
  }

  /** Exactly one kind of step takes a record out of `merged`: the write of a refusal that had read
      the row before it was merged. */
  lemma MergedIsLostExactly(cfg: Config, workId: TaskId -> WorkId, s: System, now: int, step: Step, w: WorkId)
    requires SystemInv(workId, s) && CanStep(cfg, s, now, step) && w in s.works && s.works[w].mergeState == Merged
    ensures var s' := Next(cfg, workId, s, now, step);
      w in s'.works && (s'.works[w].mergeState != Merged <==> OverwritesMerge(s, w, step))
  {
    hide Inv, After;
    assert Chain(s.db, s.works[w]);
  }

  /** The write of a merge report that says anything else than the merged row, the time included. */
  ghost predicate RewritesMerge(s: System, now: int, w: WorkId, step: Step) {
    step.WriteStep? && InFlight(s, w, step.id) && s.calls[step.id].cleared && s.calls[step.id].request.MergeRequest? &&
    w in s.works &&
    var m, row := s.calls[step.id].request.report, s.works[w];
    !m.merged || CommitOf(m) != row.mergeCommit || m.reason != row.mergeReason || row.updatedAt != now || row.mergedAt != Some(now)
  }

  /** ... and exactly the writes of older reports that say something else change a merged row at all. */
  lemma MergedRowChangesExactly(cfg: Config, workId: TaskId -> WorkId, s: System, now: int, step: Step, w: WorkId)
    requires SystemInv(workId, s) && CanStep(cfg, s, now, step) && w in s.works && s.works[w].mergeState == Merged
    ensures var s' := Next(cfg, workId, s, now, step);
      w in s'.works && (s'.works[w] != s.works[w] <==> RewritesMerge(s, now, w, step))
  {
    hide Inv, After;
    assert Chain(s.db, s.works[w]);
  }

  ghost predicate ReportsAreWritten(s: System, w: WorkId, m: MergeReport) {
    w in s.works && s.works[w].mergeState == Ready && Accepted(MergeRequest(m)) &&
    JudgeMerge(s.works[w], TaskOf(s.db, s.works[w].task), m).Write?
  }

  lemma ReadThenCheck(cfg: Config, workId: TaskId -> WorkId, s: System, now: int, w: WorkId, m: MergeReport, id: nat)
    requires ReportsAreWritten(s, w, m) && id !in s.calls
    ensures CanStep(cfg, s, now, ReadStep(id, w, MergeRequest(m)))
    ensures var s1 := Next(cfg, workId, s, now, ReadStep(id, w, MergeRequest(m)));
      CanStep(cfg, s1, now, CheckStep(id)) &&
      Next(cfg, workId, s1, now, CheckStep(id)) == s.(calls := s.calls[id := Call(w, MergeRequest(m), s.works[w], true)])
  {
  }

  /** The system once the call has read its record and task and has passed its checks. */
  ghost function AfterReading(cfg: Config, workId: TaskId -> WorkId, s: System, now: int, w: WorkId, m: MergeReport, id: nat)
    : (s': System)
    requires ReportsAreWritten(s, w, m) && id !in s.calls
    ensures s' == s.(calls := s.calls[id := Call(w, MergeRequest(m), s.works[w], true)])
  {
    ReadThenCheck(cfg, workId, s, now, w, m, id);
    Next(cfg, workId, Next(cfg, workId, s, now, ReadStep(id, w, MergeRequest(m))), now, CheckStep(id))
  }

  /** It does happen: of two reports that both read a ready record, the refusal written last undoes the merge. */
  lemma RacingReportsUndoMerge(cfg: Config, workId: TaskId -> WorkId, s: System, now: int, w: WorkId,
                               merge: MergeReport, refusal: MergeReport, a: nat, b: nat)
    requires ReportsAreWritten(s, w, merge) && ReportsAreWritten(s, w, refusal) && merge.merged && !refusal.merged
    requires a !in s.calls && b !in s.calls && a != b
    ensures var read := AfterReading(cfg, workId, AfterReading(cfg, workId, s, now, w, merge, a), now, w, refusal, b);
      CanStep(cfg, read, now, WriteStep(a)) &&
      var merged := Next(cfg, workId, read, now, WriteStep(a));
      merged.works[w].mergeState == Merged && CanStep(cfg, merged, now, WriteStep(b)) &&
      Next(cfg, workId, merged, now, WriteStep(b)).works[w].mergeState == MergeBlocked
  {
  }

  ghost predicate NoOlderCall(s: System, w: WorkId) {
    w in s.works && forall id :: InFlight(s, w, id) ==> s.calls[id].row == s.works[w] && !s.calls[id].cleared
  }

  lemma MergedStaysOneStep(cfg: Config, workId: TaskId -> WorkId, s: System, now: int, step: Step, w: WorkId)
    requires SystemInv(workId, s) && CanStep(cfg, s, now, step)
    requires w in s.works && s.works[w].mergeState == Merged && NoOlderCall(s, w)
    ensures var s' := Next(cfg, workId, s, now, step);
      w in s'.works && s'.works[w] == s.works[w] && NoOlderCall(s', w)
  {
    hide Inv, After;
    assert Chain(s.db, s.works[w]);
    var s' := Next(cfg, workId, s, now, step);
    forall id | InFlight(s', w, id) ensures s'.calls[id].row == s.works[w] && !s'.calls[id].cleared {
      if id in s.calls { assert InFlight(s, w, id); }
    }
    if step.WriteStep? { assert InFlight(s, w, step.id) <==> s.calls[step.id].work == w; }
  }

  /** `merged` is absorbing, whole row included, once no call is in flight that read the record earlier;
      in particular whenever calls do not overlap. */
  lemma {:induction false} MergedIsFinal(cfg: Config, workId: TaskId -> WorkId, s: System, events: seq<SystemEvent>, w: WorkId)
    requires SystemInv(workId, s) && SystemRun(cfg, workId, s, events)
    requires w in s.works && s.works[w].mergeState == Merged && NoOlderCall(s, w)
    ensures w in SystemEnd(cfg, workId, s, events).works && SystemEnd(cfg, workId, s, events).works[w] == s.works[w]
    decreases |events|
  {
    hide SystemInv, Next, CanStep, NoOlderCall;
    if events != [] {
      SystemStepKeeps(cfg, workId, s, events[0].now, events[0].step);
      MergedStaysOneStep(cfg, workId, s, events[0].now, events[0].step, w);
      MergedIsFinal(cfg, workId, Next(cfg, workId, s, events[0].now, events[0].step), events[1..], w);
    }
  }

  // ---- replays

  /** The same request again, right after it was written, is recognised and writes nothing. */
  lemma EvidenceReplays(db: DB, works: map<WorkId, Work>, w: WorkId, e: Evidence, now: int)
    requires DecideEvidence(db, works, w, e).Write?
    ensures DecideEvidence(db, works[w := WriteEvidence(works[w], e, now)], w, e).Replay?
  {
  }

  lemma MergeReportReplays(db: DB, works: map<WorkId, Work>, w: WorkId, m: MergeReport, now: int)
    requires DecideMerge(db, works, w, m).Write?
    ensures DecideMerge(db, works[w := WriteMerge(works[w], m, now)], w, m).Replay?
  {
  }

  // ---- phases

  ghost predicate PastValidation(phase: Phase) {
    phase == AwaitsEvidence || phase == AwaitsMerge || phase == MergedPhase || phase == MergeBlockedPhase
  }

  /** A record past validation stays past it: no step leads back to the workers. */
  lemma PhaseNeverReturns(cfg: Config, workId: TaskId -> WorkId, s: System, events: seq<SystemEvent>, w: WorkId)
    requires SystemInv(workId, s) && SystemRun(cfg, workId, s, events) && w in s.works
    ensures var s' := SystemEnd(cfg, workId, s, events);
      var row := s.works[w];
      w in s'.works && row.task in s.db.tasks && row.task in s'.db.tasks &&
      (PastValidation(PhaseOf(s.db.tasks[row.task].state, row)) <==> s.db.tasks[row.task].state == Completed) &&
      (PastValidation(PhaseOf(s.db.tasks[row.task].state, row)) ==>
        PastValidation(PhaseOf(s'.db.tasks[row.task].state, s'.works[w])))
  {
    hide Inv, CanStep, Next;
    SystemRunGrows(cfg, workId, s, events);
    SystemRunKeeps(cfg, workId, s, events);
    var s' := SystemEnd(cfg, workId, s, events);
    assert Chain(s.db, s.works[w]) && Chain(s'.db, s'.works[w]);
    assert RowEvolves(s.db.tasks[s.works[w].task], s'.db.tasks[s.works[w].task], s.db.uuids);
  }

  /** The last attempt is still open, and of this role. */
  ghost predicate WorksOn(t: Task, role: Role) {
    t.attempts != [] && t.attempts[|t.attempts| - 1].endedAt.None? && t.attempts[|t.attempts| - 1].role == role
  }

  lemma StateTellsAttempt(t: Task, uuids: nat)
    requires RowInv(t, uuids)
    ensures t.state in {Leased, Running} <==> WorksOn(t, Builder)
    ensures t.state == Validating && t.lease.holder.Some? <==> WorksOn(t, Validator)
    ensures t.state == Failed <==> t.quarantine != []
    ensures t.state in {Queued, Leased, Running} ==> t.producedSha.None?
    ensures t.state in {Validating, Completed} ==> t.producedSha.Some?
  {
  }

  ghost predicate Tells(phase: Phase, t: Task, row: Work) {
    (phase == AtWorker <==> WorksOn(t, Builder)) && (WorksOn(t, Validator) ==> phase == AtValidator) &&
    (phase == AtValidator ==> t.producedSha.Some? && !WorksOn(t, Builder) && !row.verified) &&
    (phase == Queue ==> t.producedSha.None? && !WorksOn(t, Builder) && t.quarantine == []) &&
    (phase == FailedPhase <==> t.quarantine != []) && (phase == BlockedPhase <==> t.state == Blocked) &&
    (phase == AwaitsEvidence <==> t.state == Completed && !row.verified) &&
    (phase == AwaitsMerge <==> row.verified && row.mergeState == Ready) &&
    (phase == MergedPhase <==> row.mergedAt.Some?) && (phase == MergeBlockedPhase <==> row.mergeState == MergeBlocked)
  }

  lemma PhaseTellsOfRow(t: Task, row: Work, uuids: nat)
    requires RowInv(t, uuids) && (row.mergeState != MergePending <==> row.verified)
    requires (row.verified ==> t.state == Completed) && (row.mergeState == Merged <==> row.mergedAt.Some?)
    ensures Tells(PhaseOf(t.state, row), t, row)
  {
    hide RowInv, WorksOn;
    StateTellsAttempt(t, uuids);
  }

  /** What the phase of a record tells about its task, in every state of the system: who works on it, whether
      there is a result, whether it was given up, and how far evidence and merge have come. */
  lemma PhaseTells(workId: TaskId -> WorkId, s: System, w: WorkId)
    requires SystemInv(workId, s) && w in s.works
    ensures var row := s.works[w];
      row.task in s.db.tasks && Tells(PhaseOf(s.db.tasks[row.task].state, row), s.db.tasks[row.task], row)
  {
    hide RowInv, LaneLedger, OneTaskPerWorker, CallSound, Tells, PhaseOf;
    assert Chain(s.db, s.works[w]);
    PhaseTellsOfRow(s.db.tasks[s.works[w].task], s.works[w], s.db.uuids);
  }

  /** How a request to open a record is answered: as a replay exactly if the task has a record of this policy, and
      refused exactly if the identity is another task's or the policy differs; else a record without evidence is
      opened. */
  lemma OpeningIsAnsweredExactly(workId: TaskId -> WorkId, s: System, tid: TaskId, policy: MergePolicy, now: int)
    requires SystemInv(workId, s)
    ensures var decision := JudgeOpen(s.works, workId(tid), tid, policy);
      (decision.Replay? <==> exists w :: w in s.works && s.works[w].task == tid && s.works[w].policy == policy) &&
      (decision.Write? <==> forall w :: w in s.works ==> workId(s.works[w].task) != workId(tid))
    ensures var row := FreshWork(tid, policy, now);
      row.task == tid && row.policy == policy && !row.verified && row.mergeState == MergePending &&
      row.validationSha.None? && row.expectedHead.None? && row.mergedAt.None?
  {
    hide Inv, Chain, CallSound;
    if workId(tid) in s.works { assert workId(s.works[workId(tid)].task) == workId(tid); }
  }
}
