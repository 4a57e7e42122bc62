/** The evidence and merge records kept on top of pool tasks (app/work.py), the decisions of
    WorkOrchestrator as functions of what it has read, and the orchestrator itself. */
module WorkRecords {
  import opened Wrappers
  import opened PoolTypes
  import opened PoolRows
  import opened PoolSpec
  import opened PoolSteps
  import opened PoolStore

  type WorkId = nat

  datatype MergePolicy = Governed | OtherPolicy(name: Text)

  datatype MergeState = MergePending | Ready | MergeBlocked | Merged

  datatype Work = Work(
    task: TaskId, policy: MergePolicy, verified: bool, mergeState: MergeState,
    runId: Option<Text>, validationSha: Option<Sha>, reference: Option<Text>,
    readback: bool, positive: bool, negative: bool,
    expectedHead: Option<Sha>, mergeCommit: Option<Sha>, mergeReason: Option<Text>,
    createdAt: int, updatedAt: int, mergedAt: Option<int>)

  /** A commit is None when its text is not forty hexadecimal digits, other texts when they are blank. */
  datatype Evidence = Evidence(
    sha: Option<Sha>, runId: Option<Text>, reference: Option<Text>, readback: bool, positive: bool, negative: bool)

  datatype CommitText = Blank | Malformed | Commit40(sha: Sha)

  datatype MergeReport = MergeReport(head: Option<Sha>, merged: bool, commit: CommitText, reason: Option<Text>)

  datatype WorkError =
    | PoolRefused(error: PoolError)
    | PolicyInvalid
    | WorkNotFound
    | TaskNotFound
    | WorkDiverges
    | ShaInvalid
    | IdentityInvalid
    | ControlsIncomplete
    | NotValidated
    | ShaDiverges
    | EvidenceDiverges
    | EvidenceRequired
    | HeadDiverges
    | CommitRequired
    | CommitForbidden
    | ReasonRequired
    | MergeDiverges
    | BlockDiverges

  /** What a call does once it has read the row and its task. */
  datatype Decision = Refuse(error: WorkError) | Replay | Write

  function TaskOf(db: DB, tid: TaskId): Option<Task> {
    if tid in db.tasks then Some(db.tasks[tid]) else None
  }

  // ---- creating

  function FreshWork(tid: TaskId, policy: MergePolicy, now: int): Work {
    Work(tid, policy, false, MergePending, None, None, None, false, false, false, None, None, None, now, now, None)
  }

  function JudgeOpen(works: map<WorkId, Work>, w: WorkId, tid: TaskId, policy: MergePolicy): Decision {
    if w !in works then Write
    else if works[w].task != tid || works[w].policy != policy then Refuse(WorkDiverges)
    else Replay
  }

  // ---- evidence

  /** The checks that precede any read. */
  function EvidenceRefusal(e: Evidence): Option<WorkError> {
    if e.sha.None? then Some(ShaInvalid)
    else if e.runId.None? || e.reference.None? then Some(IdentityInvalid)
    else if !(e.readback && e.positive && e.negative) then Some(ControlsIncomplete)
    else None
  }

  predicate SameEvidence(row: Work, e: Evidence) {
    row.runId == e.runId && row.validationSha == e.sha && row.reference == e.reference &&
    row.readback == e.readback && row.positive == e.positive && row.negative == e.negative
  }

  function JudgeEvidence(row: Work, task: Option<Task>, e: Evidence): Decision {
    if task.None? then Refuse(TaskNotFound)
    else if task.value.state != Completed || task.value.producedSha.None? then Refuse(NotValidated)
    else if e.sha != task.value.producedSha then Refuse(ShaDiverges)
    else if !row.verified then Write
    else if SameEvidence(row, e) then Replay
    else Refuse(EvidenceDiverges)
  }

  /** The UPDATE finds the row only while its evidence is pending. */
  function WriteEvidence(row: Work, e: Evidence, now: int): Work {
    if row.verified then row
    else row.(verified := true, mergeState := Ready, runId := e.runId, validationSha := e.sha, reference := e.reference,
              readback := true, positive := true, negative := true, expectedHead := e.sha, updatedAt := now)
  }

  // ---- the merge report

  function ReportRefusal(m: MergeReport): Option<WorkError> {
    if m.head.None? then Some(ShaInvalid) else None
  }

  function CommitOf(m: MergeReport): Option<Sha> {
    if m.commit.Commit40? then Some(m.commit.sha) else None
  }

  function JudgeMerge(row: Work, task: Option<Task>, m: MergeReport): Decision {
    if task.None? then Refuse(TaskNotFound)
    else if !row.verified || row.mergeState == MergePending then Refuse(EvidenceRequired)
    else if m.head != task.value.producedSha || m.head != row.expectedHead then Refuse(HeadDiverges)
    else if m.merged && !m.commit.Commit40? then Refuse(CommitRequired)
    else if !m.merged && m.commit != Blank then Refuse(CommitForbidden)
    else if !m.merged && m.reason.None? then Refuse(ReasonRequired)
    else if row.mergeState == Merged then
      if !m.merged || row.mergeCommit != CommitOf(m) then Refuse(MergeDiverges) else Replay
    else if row.mergeState == MergeBlocked && !m.merged then
      if row.mergeReason != m.reason then Refuse(BlockDiverges) else Replay
    else Write
  }

  /** The UPDATE is unconditional: it does not look at the merge state it overwrites. */
  function WriteMerge(row: Work, m: MergeReport, now: int): Work {
    row.(mergeState := if m.merged then Merged else MergeBlocked, mergeCommit := CommitOf(m), mergeReason := m.reason,
         updatedAt := now, mergedAt := if m.merged then Some(now) else None)
  }

  // ---- phases

  datatype Phase = Queue | AtWorker | AtValidator | AwaitsEvidence | AwaitsMerge | MergedPhase | MergeBlockedPhase
                 | BlockedPhase | FailedPhase

  function PhaseOf(state: TaskState, row: Work): Phase {
    if row.mergeState == Merged then MergedPhase
    else if row.mergeState == MergeBlocked then MergeBlockedPhase
    else if row.verified then AwaitsMerge
    else
      match state
      case Queued => Queue
      case Leased => AtWorker
      case Running => AtWorker
      case Validating => AtValidator
      case Completed => AwaitsEvidence
      case Blocked => BlockedPhase
      case Failed => FailedPhase
  }

  // ---- whole calls, when nothing runs between their reads and their write

  function DecideEvidence(db: DB, works: map<WorkId, Work>, w: WorkId, e: Evidence): Decision {
    if EvidenceRefusal(e).Some? then Refuse(EvidenceRefusal(e).value)
    else if w !in works then Refuse(WorkNotFound)
    else JudgeEvidence(works[w], TaskOf(db, works[w].task), e)
  }

  function DecideMerge(db: DB, works: map<WorkId, Work>, w: WorkId, m: MergeReport): Decision {
    if ReportRefusal(m).Some? then Refuse(ReportRefusal(m).value)
    else if w !in works then Refuse(WorkNotFound)
    else JudgeMerge(works[w], TaskOf(db, works[w].task), m)
  }

  /** WorkOrchestrator: its own table beside the pool it enqueues into.  `workId` shortens the
      identity of a task to the identity of its record and need not be injective. */
  class WorkOrchestrator {
    const pool: WorkerPoolStore
    const workId: TaskId -> WorkId
    var works: map<WorkId, Work>

    constructor (pool: WorkerPoolStore, workId: TaskId -> WorkId)
      ensures this.pool == pool && this.workId == workId && works == map[]
    {
      this.pool, this.workId, works := pool, workId, map[];
    }

    method CreateWork(now: int, tid: TaskId, repository: Repository, priority: int, maxAttempts: Option<int>,
                      targetBranch: Option<Text>, defaultBranch: Text, fenced: bool, policy: MergePolicy)
      returns (r: Result<bool, WorkError>)
      modifies this`works, pool
      ensures policy != Governed ==> r == Err(PolicyInvalid) && works == old(works) && pool.Db() == old(pool.Db())
      ensures policy == Governed ==>
        var tx := PoolSpec.EnqueueTask(pool.cfg, old(pool.Db()), now, tid, repository, priority, maxAttempts,
                                       targetBranch, defaultBranch, fenced);
        var decision := JudgeOpen(old(works), workId(tid), tid, policy);
        pool.Db() == DbOf(old(pool.Db()), tx) &&
        r == (if tx.Rollback? then Err(PoolRefused(tx.error))
              else if decision.Refuse? then Err(decision.error)
              else Ok(decision.Write?)) &&
        works == if tx.Commit? && decision.Write? then old(works)[workId(tid) := FreshWork(tid, policy, now)] else old(works)
    {
      if policy != Governed { return Err(PolicyInvalid); }
      var enqueued := pool.EnqueueTask(now, tid, repository, priority, maxAttempts, targetBranch, defaultBranch, fenced);
      if enqueued.Err? { return Err(PoolRefused(enqueued.error)); }
      var w := workId(tid);
      if w !in works {
        works := works[w := FreshWork(tid, policy, now)];
        return Ok(true);
      }
      if works[w].task != tid || works[w].policy != policy { return Err(WorkDiverges); }
      r := Ok(false);
    }

    method RecordEvidence(now: int, w: WorkId, e: Evidence) returns (r: Result<Work, WorkError>)
      modifies this`works
      ensures var decision := DecideEvidence(pool.Db(), old(works), w, e);
        match decision
        case Refuse(error) => r == Err(error) && works == old(works)
        case Replay => w in old(works) && r == Ok(old(works)[w]) && works == old(works)
        case Write => w in old(works) && works == old(works)[w := WriteEvidence(old(works)[w], e, now)] && r == Ok(works[w])
    {
      if e.sha.None? { return Err(ShaInvalid); }
      if e.runId.None? || e.reference.None? { return Err(IdentityInvalid); }
      if !(e.readback && e.positive && e.negative) { return Err(ControlsIncomplete); }
      if w !in works { return Err(WorkNotFound); }
      var row := works[w];
      if row.task !in pool.tasks { return Err(TaskNotFound); }
      var task := pool.tasks[row.task];
      if task.state != Completed || task.producedSha.None? { return Err(NotValidated); }
      if e.sha != task.producedSha { return Err(ShaDiverges); }
      if row.verified {
        if !SameEvidence(row, e) { return Err(EvidenceDiverges); }
        return Ok(row);
      }
      works := works[w := WriteEvidence(works[w], e, now)];
      r := Ok(works[w]);
    }

    method RecordMergeResult(now: int, w: WorkId, m: MergeReport) returns (r: Result<Work, WorkError>)
      modifies this`works
      ensures var decision := DecideMerge(pool.Db(), old(works), w, m);
        match decision
        case Refuse(error) => r == Err(error) && works == old(works)
        case Replay => w in old(works) && r == Ok(old(works)[w]) && works == old(works)
        case Write => w in old(works) && works == old(works)[w := WriteMerge(old(works)[w], m, now)] && r == Ok(works[w])
    {
      if m.head.None? { return Err(ShaInvalid); }
      if w !in works { return Err(WorkNotFound); }
      var row := works[w];
      if row.task !in pool.tasks { return Err(TaskNotFound); }
      var task := pool.tasks[row.task];
      if !row.verified || row.mergeState == MergePending { return Err(EvidenceRequired); }
      if m.head != task.producedSha || m.head != row.expectedHead { return Err(HeadDiverges); }
      var next := MergeBlocked;
      if m.merged {
        if !m.commit.Commit40? { return Err(CommitRequired); }
        next := Merged;
      } else {
        if m.commit != Blank { return Err(CommitForbidden); }
        if m.reason.None? { return Err(ReasonRequired); }
      }
      if row.mergeState == Merged {
        if !m.merged || row.mergeCommit != CommitOf(m) { return Err(MergeDiverges); }
        return Ok(row);
      }
      if row.mergeState == MergeBlocked && !m.merged {
        if row.mergeReason != m.reason { return Err(BlockDiverges); }
        return Ok(row);
      }
      works := works[w := works[w].(mergeState := next, mergeCommit := CommitOf(m), mergeReason := m.reason,
                                    updatedAt := now, mergedAt := if m.merged then Some(now) else None)];
      r := Ok(works[w]);
    }
  }
}
