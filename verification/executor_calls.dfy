/** Calls of native executors: what each writes, and that it keeps the guarantees. */
module ExecutorCalls {
  import opened Wrappers
  import opened PoolTypes
  import opened PoolRows
  import opened PoolSpec
  import opened PoolSteps
  import opened Ledger
  import opened PoolInvariant
  import opened NativeExecutor
  import opened ExecutorSafety

  // ---- what a delivered call writes

  ghost predicate SameResult(t: Task, t': Task) {
    t'.meta == t.meta && t'.generation == t.generation && t'.producedSha == t.producedSha
  }

  ghost predicate Appended(t: Task, t': Task, content: Content) {
    SameResult(t, t') && t.state != Completed && t'.state != Completed &&
    |t'.checkpoints| == |t.checkpoints| + 1 && t'.checkpoints[..|t.checkpoints|] == t.checkpoints &&
    t'.checkpoints[|t.checkpoints|].content == content && t'.checkpoints[|t.checkpoints|].generation == t.generation &&
    Signed(t'.checkpoints[|t.checkpoints|])
  }

  ghost predicate AlreadyThere(t: Task, t': Task, content: Content) {
    t' == t && exists i :: 0 <= i < |t.checkpoints| && t.checkpoints[i].content == content
  }

  ghost predicate Handed(t: Task, t': Task, sha: Sha) {
    t'.meta == t.meta && t'.generation == t.generation && t'.checkpoints == t.checkpoints &&
    t'.producedSha == Some(sha) && t'.state != Completed
  }

  ghost predicate Closed(t: Task, t': Task) {
    SameResult(t, t') && t'.checkpoints == t.checkpoints && t'.state == Completed
  }

  ghost predicate Callable(p: Process) {
    Calling(p.pc) && (p.pc == RecordingResult || p.pc == RecordingVerdict ==> p.artifact.Some?)
  }

  /** What a call that the store accepts does to the row; it is accepted only under the current generation. */
  ghost predicate Effected(p: Process, t: Task, t': Task)
    requires Callable(p)
  {
    p.generation == t.generation &&
    (Recording(p.pc) ==> Appended(t, t', NoteContent(p)) || AlreadyThere(t, t', NoteContent(p))) &&
    (p.pc == Submitting ==> Handed(t, t', p.sha)) &&
    (p.pc == Completing ==> Closed(t, t')) &&
    (p.pc == Starting ==> Calm(t, t'))
  }

  ghost predicate OnlyRow(db: DB, db': DB, tid: TaskId)
    requires tid in db.tasks
  {
    tid in db'.tasks && db'.tasks == db.tasks[tid := db'.tasks[tid]]
  }

  lemma RecordWrites(cfg: Config, db: DB, now: int, p: Process)
    requires p.task in db.tasks && Callable(p) && Recording(p.pc)
    ensures Possible(cfg, db, now, CallOf(p))
    ensures var db' := After(cfg, db, now, CallOf(p));
      OnlyRow(db, db', p.task) &&
      if Accepts(db, now, CallOf(p)) then Effected(p, db.tasks[p.task], db'.tasks[p.task]) else db' == db
  {
    hide HasUnknown, MaxSequence, Clear;
    var t := db.tasks[p.task];
    var id := NativeCheckpoint(p.attempt, p.role, NoteOf(p.pc));
    var tx := RecordCheckpoint(db, now, Cred(p), id, NoteContent(p));
    if tx.Commit? {
      LeaseHeld(db, now, Cred(p), AnyActive);
      RecordCommits(db, now, Cred(p), id, NoteContent(p));
    }
  }

  lemma RecordCommits(db: DB, now: int, cred: Credentials, id: CheckpointId, content: Content)
    requires RecordCheckpoint(db, now, cred, id, content).Commit? && cred.task in db.tasks
    requires id.NativeCheckpoint? && cred.attempt == Some(id.attempt)
    ensures var db' := RecordCheckpoint(db, now, cred, id, content).db;
      OnlyRow(db, db', cred.task) &&
      (Appended(db.tasks[cred.task], db'.tasks[cred.task], content) ||
       AlreadyThere(db.tasks[cred.task], db'.tasks[cred.task], content))
    ensures LeaseRefusal(db, now, cred, AnyActive).None?
  {
    hide HasUnknown, MaxSequence;
  }

  ghost predicate OtherOutcome(cfg: Config, db: DB, now: int, p: Process)
    requires p.task in db.tasks && Callable(p) && Possible(cfg, db, now, CallOf(p))
  {
    var db' := After(cfg, db, now, CallOf(p));
    OnlyRow(db, db', p.task) &&
    if Accepts(db, now, CallOf(p)) then Effected(p, db.tasks[p.task], db'.tasks[p.task])
    else Calm(db.tasks[p.task], db'.tasks[p.task])
  }

  lemma StartWrites(cfg: Config, db: DB, now: int, p: Process)
    requires p.task in db.tasks && db.tasks[p.task].meta.fenced && p.pc == Starting
    ensures Possible(cfg, db, now, CallOf(p)) && OtherOutcome(cfg, db, now, p)
  {
    hide Clear, EndAttempt;
  }

  lemma SubmitWrites(cfg: Config, db: DB, now: int, p: Process)
    requires p.task in db.tasks && db.tasks[p.task].meta.fenced && p.pc == Submitting
    ensures Possible(cfg, db, now, CallOf(p)) && OtherOutcome(cfg, db, now, p)
  {
    hide Clear, EndAttempt;
  }

  lemma CompleteWrites(cfg: Config, db: DB, now: int, p: Process)
    requires p.task in db.tasks && db.tasks[p.task].meta.fenced && p.pc == Completing
    ensures Possible(cfg, db, now, CallOf(p)) && OtherOutcome(cfg, db, now, p)
  {
    hide Clear, EndAttempt;
  }

  lemma BlockWrites(cfg: Config, db: DB, now: int, p: Process)
    requires p.task in db.tasks && db.tasks[p.task].meta.fenced && p.pc == Blocking
    ensures Possible(cfg, db, now, CallOf(p)) && OtherOutcome(cfg, db, now, p)
  {
    hide Clear, EndAttempt;
  }

  lemma CalmRefl(t: Task)
    ensures Calm(t, t)
  {
  }

  lemma FailWrites(cfg: Config, db: DB, now: int, p: Process)
    requires p.task in db.tasks && db.tasks[p.task].meta.fenced && p.pc == Failing
    ensures Possible(cfg, db, now, CallOf(p)) && OtherOutcome(cfg, db, now, p)
  {
    hide Clear, Apply, Calm, LeaseRefusal;
    if FailTask(db, now, Cred(p), Some(OtherReason(0))).Commit? {
      LeaseHeld(db, now, Cred(p), AnyActive);
      SweepIsCalm(db.tasks[p.task], now, Fail(OtherReason(0)));
    } else {
      CalmRefl(db.tasks[p.task]);
    }
  }

  lemma OtherCallWrites(cfg: Config, db: DB, now: int, p: Process)
    requires p.task in db.tasks && db.tasks[p.task].meta.fenced && Callable(p) && !Recording(p.pc)
    ensures Possible(cfg, db, now, CallOf(p)) && OtherOutcome(cfg, db, now, p)
  {
    hide Clear, EndAttempt, Effected, After;
    match p.pc
    case Starting => StartWrites(cfg, db, now, p);
    case Submitting => SubmitWrites(cfg, db, now, p);
    case Completing => CompleteWrites(cfg, db, now, p);
    case Blocking => BlockWrites(cfg, db, now, p);
    case _ => FailWrites(cfg, db, now, p);
  }

  /** Every call of a process writes at most the row of its task. */
  lemma CallWrites(cfg: Config, db: DB, now: int, p: Process)
    requires p.task in db.tasks && db.tasks[p.task].meta.fenced && Callable(p)
    ensures Possible(cfg, db, now, CallOf(p))
    ensures var db' := After(cfg, db, now, CallOf(p));
      OnlyRow(db, db', p.task) &&
      if Accepts(db, now, CallOf(p)) then Effected(p, db.tasks[p.task], db'.tasks[p.task])
      else Calm(db.tasks[p.task], db'.tasks[p.task])
  {
    hide After, Accepts, Effected, CallOf;
    if Recording(p.pc) { RecordWrites(cfg, db, now, p); } else { OtherCallWrites(cfg, db, now, p); }
  }

  // ---- histories

  lemma OpeningHistory(p: Process, t: Task, t': Task)
    requires p.pc == RecordingPending && t.checkpoints == [] && Appended(t, t', NoteContent(p))
    ensures History(p.task, t'.checkpoints) && !Built(t'.checkpoints)
  {
  }

  lemma AmbiguousHistory(p: Process, t: Task, t': Task)
    requires p.pc == RecordingUnknown && |t.checkpoints| == 1 && OpenedBy(p, t.checkpoints)
    requires History(p.task, t.checkpoints) && Appended(t, t', NoteContent(p))
    ensures History(p.task, t'.checkpoints) && !Built(t'.checkpoints)
  {
    assert t'.checkpoints[0] == t'.checkpoints[..1][0] == t.checkpoints[0];
  }

  lemma BuiltHistory(p: Process, t: Task, t': Task)
    requires p.pc == RecordingResult && p.latest.None? && p.artifact.Some?
    requires |t.checkpoints| == 1 && OpenedBy(p, t.checkpoints)
    requires History(p.task, t.checkpoints) && Appended(t, t', NoteContent(p))
    ensures History(p.task, t'.checkpoints) && Produced(p.task, t'.checkpoints, p.sha)
    ensures ArtifactOf(t'.checkpoints[1].content) == p.artifact
  {
    assert t'.checkpoints[0] == t'.checkpoints[..1][0] == t.checkpoints[0];
  }

  /** A history that ends in a resumable checkpoint is a built one without a verdict. */
  lemma ResumableIsBuilt(tid: TaskId, cs: seq<Checkpoint>)
    requires History(tid, cs) && cs != [] && Resumable(cs[|cs| - 1])
    ensures Built(cs)
    ensures forall i :: 1 <= i < |cs| ==>
      Carries(cs[i].content, cs[0].content.effect.value, ArtifactOf(cs[1].content).value)
    ensures ArtifactOf(cs[|cs| - 1].content) == ArtifactOf(cs[1].content)
    ensures cs[|cs| - 1].content.effect == cs[0].content.effect
  {
  }

  lemma LongerBuilt(tid: TaskId, t: Task, t': Task, content: Content)
    requires History(tid, t.checkpoints) && t.checkpoints != [] && Resumable(t.checkpoints[|t.checkpoints| - 1])
    requires Appended(t, t', content)
    requires Built(t.checkpoints)
    requires var e, a := t.checkpoints[0].content.effect.value, ArtifactOf(t.checkpoints[1].content).value;
      Carries(content, e, a) || content == VerdictContent(a)
    ensures Built(t'.checkpoints) && History(tid, t'.checkpoints)
    ensures t'.checkpoints[0] == t.checkpoints[0] && t'.checkpoints[1] == t.checkpoints[1]
  {
    hide Resumable, Carries;
    ResumableIsBuilt(tid, t.checkpoints);
    var n := |t.checkpoints|;
    assert forall i :: 0 <= i < n ==> t'.checkpoints[i] == t'.checkpoints[..n][i] == t.checkpoints[i];
  }

  // ---- the row of the task after an accepted record

  /** What the caller knows about the history when its record is accepted. */
  ghost predicate Knows(log: seq<Publication>, p: Process, t: Task) {
    FencedRow(log, p.task, t) && Remembers(p) && SeesNow(p, t.checkpoints) &&
    (HasOpened(p) ==> OpenedBy(p, t.checkpoints)) && (HasPublished(p) ==> Delivered(log, p.task, p.artifact))
  }

  lemma PendingRecorded(log: seq<Publication>, p: Process, t: Task, t': Task)
    requires p.pc == RecordingPending && Knows(log, p, t) && Appended(t, t', NoteContent(p))
    ensures t.checkpoints == [] && FencedRow(log, p.task, t')
    ensures |t'.checkpoints| == 1 && (p.generation == t.generation ==> OpenedBy(p, t'.checkpoints))
  {
    OpeningHistory(p, t, t');
  }

  lemma UnknownRecorded(log: seq<Publication>, p: Process, t: Task, t': Task)
    requires p.pc == RecordingUnknown && Knows(log, p, t) && Appended(t, t', NoteContent(p))
    ensures FencedRow(log, p.task, t')
  {
    AmbiguousHistory(p, t, t');
  }

  lemma ResultRecorded(log: seq<Publication>, p: Process, t: Task, t': Task)
    requires p.pc == RecordingResult && Knows(log, p, t) && Appended(t, t', NoteContent(p))
    ensures FencedRow(log, p.task, t') && Produced(p.task, t'.checkpoints, p.sha)
  {
    hide Delivered, Judged;
    if p.latest.None? {
      BuiltHistory(p, t, t');
    } else {
      ResumableIsBuilt(p.task, t.checkpoints);
      LongerBuilt(p.task, t, t', NoteContent(p));
    }
  }

  lemma VerdictRecorded(log: seq<Publication>, p: Process, t: Task, t': Task)
    requires p.pc == RecordingVerdict && Knows(log, p, t) && Appended(t, t', NoteContent(p))
    ensures FencedRow(log, p.task, t') && Built(t'.checkpoints)
  {
    hide Delivered, Judged;
    ResumableIsBuilt(p.task, t.checkpoints);
    LongerBuilt(p.task, t, t', NoteContent(p));
  }

  lemma NoPendingBefore(p: Process, t: Task)
    requires p.pc == RecordingPending && Remembers(p) && SeesNow(p, t.checkpoints)
    ensures t.checkpoints == []
  {
  }

  lemma NoResultBefore(p: Process, t: Task)
    requires p.pc == RecordingResult && p.artifact.Some? && p.latest.None? && SeesNow(p, t.checkpoints)
    requires History(p.task, t.checkpoints)
    ensures forall i :: 0 <= i < |t.checkpoints| ==> t.checkpoints[i].content != NoteContent(p)
  {
  }

  /** The process has the latest checkpoint before it, and that is a Builder's result. */
  lemma ResumesBuilt(p: Process, t: Task)
    requires p.pc == RecordingVerdict || (p.pc == RecordingResult && p.latest.Some?)
    requires Remembers(p) && SeesNow(p, t.checkpoints) && History(p.task, t.checkpoints)
    ensures Built(t.checkpoints) && t.checkpoints[|t.checkpoints| - 1].content.stage == BuilderResult
    ensures p.pc == RecordingResult ==> Produced(p.task, t.checkpoints, p.sha)
    ensures forall i :: 0 <= i < |t.checkpoints| ==> t.checkpoints[i].content.stage != ValidatorResult
  {
    ResumableIsBuilt(p.task, t.checkpoints);
  }

  /** A record answered as a replay: only a result recorded again, by a resumed build, can be one. */
  lemma ReplayedRecord(log: seq<Publication>, p: Process, t: Task)
    requires Callable(p) && Recording(p.pc) && p.pc != RecordingUnknown && Knows(log, p, t)
    requires AlreadyThere(t, t, NoteContent(p))
    ensures p.pc == RecordingResult && Produced(p.task, t.checkpoints, p.sha)
  {
    hide Delivered, Built, SeesNow, Remembers, History, OpenedBy, Produced;
    var i :| 0 <= i < |t.checkpoints| && t.checkpoints[i].content == NoteContent(p);
    if p.pc == RecordingPending {
      NoPendingBefore(p, t);
    } else if p.pc == RecordingVerdict || p.latest.Some? {
      ResumesBuilt(p, t);
    } else {
      NoResultBefore(p, t);
    }
  }

  // ---- the step

  /** The row is still the one everybody knows: its first checkpoint and its generation have not moved. */
  ghost predicate Extends(t: Task, t': Task) {
    t'.meta == t.meta && t'.generation == t.generation &&
    (t.checkpoints != [] ==> t'.checkpoints != [] && t'.checkpoints[0] == t.checkpoints[0])
  }

  lemma EffectedExtends(p: Process, t: Task, t': Task)
    requires Callable(p) && p.pc != Blocking && p.pc != Failing && Effected(p, t, t')
    ensures Extends(t, t')
  {
    if t.checkpoints != [] && !Calm(t, t') && Recording(p.pc) && Appended(t, t', NoteContent(p)) {
      assert t'.checkpoints[0] == t'.checkpoints[..|t.checkpoints|][0];
    }
  }

  lemma AcceptedKeepsRow(log: seq<Publication>, p: Process, t: Task, t': Task)
    requires Callable(p) && p.pc != Blocking && p.pc != Failing && Knows(log, p, t) && Effected(p, t, t')
    ensures FencedRow(log, p.task, t')
  {
    hide FencedRow, NoteContent, Appended, Calm, SeesNow, Remembers;
    if Recording(p.pc) {
      if Appended(t, t', NoteContent(p)) { RecordKeepsRow(log, p, t, t'); }
    } else if p.pc == Starting {
      CalmKeepsRow(log, p.task, t, t');
    } else if p.pc == Submitting {
      SubmitKeepsRow(log, p, t, t');
    } else {
      CompleteKeepsRow(log, p, t, t');
    }
  }

  lemma SubmitKeepsRow(log: seq<Publication>, p: Process, t: Task, t': Task)
    requires p.pc == Submitting && Knows(log, p, t) && Handed(t, t', p.sha)
    ensures FencedRow(log, p.task, t')
  {
    hide Delivered, History, Built;
  }

  lemma CompleteKeepsRow(log: seq<Publication>, p: Process, t: Task, t': Task)
    requires p.pc == Completing && p.generation == t.generation && Knows(log, p, t) && Closed(t, t')
    ensures FencedRow(log, p.task, t')
  {
    hide Delivered, History, Built;
  }

  lemma RecordKeepsRow(log: seq<Publication>, p: Process, t: Task, t': Task)
    requires Callable(p) && Recording(p.pc) && Knows(log, p, t) && Appended(t, t', NoteContent(p))
    ensures FencedRow(log, p.task, t')
  {
    hide FencedRow, Knows;
    match p.pc
    case RecordingPending => PendingRecorded(log, p, t, t');
    case RecordingUnknown => UnknownRecorded(log, p, t, t');
    case RecordingResult => ResultRecorded(log, p, t, t');
    case _ => VerdictRecorded(log, p, t, t');
  }

  lemma SubmitterNext(p: Process, t: Task, t': Task)
    requires p.pc == RecordingResult && t.meta.fenced && 1 <= p.generation == t.generation == t'.generation
    requires t'.meta == t.meta && Produced(p.task, t'.checkpoints, p.sha)
    ensures var p' := p.(pc := Submitting); ProcessRow(p', t') && Remembers(p') && !HasPublished(p')
  {
    hide Produced;
  }

  lemma CompleterNext(p: Process, t: Task, t': Task)
    requires p.pc == RecordingVerdict && p.artifact.Some? && t.meta.fenced && 1 <= p.generation == t.generation
    requires Appended(t, t', NoteContent(p)) && Built(t'.checkpoints)
    ensures var p' := p.(pc := Completing); ProcessRow(p', t') && Remembers(p') && !HasPublished(p')
  {
    hide Built;
  }

  lemma PublisherNext(p: Process, t: Task, t': Task)
    requires p.pc == RecordingPending && Remembers(p) && t.meta.fenced && 1 <= p.generation == t.generation
    requires Appended(t, t', NoteContent(p)) && |t'.checkpoints| == 1 && OpenedBy(p, t'.checkpoints)
    ensures var p' := p.(pc := Publishing); ProcessRow(p', t') && Remembers(p') && !HasPublished(p')
  {
  }

  lemma BuilderNext(p: Process, t: Task, t': Task)
    requires p.pc == Starting && t.meta.fenced && 1 <= p.generation == t.generation
    requires SeesNow(p, t.checkpoints) && Calm(t, t')
    ensures var p' := p.(pc := Building); ProcessRow(p', t') && Remembers(p') && !HasPublished(p')
  {
  }

  /** The caller after its call was accepted and answered. */
  lemma AcceptedCaller(log: seq<Publication>, p: Process, t: Task, t': Task)
    requires Callable(p) && p.pc != Blocking && p.pc != Failing && p.pc != Submitting && p.pc != Completing
    requires t.meta.fenced && 1 <= p.generation && Knows(log, p, t) && Effected(p, t, t')
    ensures var p' := p.(pc := AfterCall(p.pc, true).value);
      ProcessRow(p', t') && Remembers(p') && !HasPublished(p') && (p'.pc == Publishing ==> t.checkpoints == [])
  {
    hide Delivered, FencedRow, SeesNow, Remembers, OpenedBy, Produced, Built, NoteContent;
    match p.pc
    case Starting => BuilderNext(p, t, t');
    case RecordingUnknown => BlockerNext(p, t, t');
    case RecordingPending =>
      if AlreadyThere(t, t', NoteContent(p)) {
        ReplayedRecord(log, p, t);
      } else {
        PendingRecorded(log, p, t, t');
        PublisherNext(p, t, t');
      }
    case RecordingResult =>
      if AlreadyThere(t, t', NoteContent(p)) { ReplayedRecord(log, p, t); } else { ResultRecorded(log, p, t, t'); }
      SubmitterNext(p, t, t');
    case RecordingVerdict =>
      if AlreadyThere(t, t', NoteContent(p)) {
        ReplayedRecord(log, p, t);
      } else {
        VerdictRecorded(log, p, t, t');
        CompleterNext(p, t, t');
      }
  }

  lemma BlockerNext(p: Process, t: Task, t': Task)
    requires p.pc == RecordingUnknown && t.meta.fenced && 1 <= p.generation == t.generation
    requires t'.meta == t.meta && t'.generation == t.generation
    ensures var p' := p.(pc := Blocking); ProcessRow(p', t') && Remembers(p') && !HasPublished(p')
  {
  }

  lemma BystanderKept(db: DB, db': DB, log: seq<Publication>, p: Process, q: Process)
    requires p.task in db.tasks && OnlyRow(db, db', p.task) && ProcessIn(db, log, q)
    requires Extends(db.tasks[p.task], db'.tasks[p.task])
    requires q.task == p.task && q.generation == db.tasks[p.task].generation ==>
      db'.tasks[p.task].checkpoints == db.tasks[p.task].checkpoints
    ensures ProcessIn(db', log, q)
  {
    hide SeesNow, Remembers, Delivered;
  }

  lemma LogKept(db: DB, db': DB, log: seq<Publication>, tid: TaskId)
    requires tid in db.tasks && OnlyRow(db, db', tid) && LogIn(db, log) && Extends(db.tasks[tid], db'.tasks[tid])
    ensures LogIn(db', log)
  {
  }

  /** A process that gives up keeps nothing it could break. */
  lemma GivenUp(db: DB, log: seq<Publication>, p: Process, pc: Pc)
    requires ProcessIn(db, log, p) && (pc == Failing || pc == Blocking)
    ensures ProcessIn(db, log, p.(pc := pc))
  {
    hide Delivered;
  }

  lemma GivingUpKeeps(s: Pool, id: nat, pc: Option<Pc>)
    requires ExecInv(s) && id in s.processes && (pc.None? || pc == Some(Failing) || pc == Some(Blocking))
    ensures ExecInv(s.(processes := if pc.Some? then s.processes[id := s.processes[id].(pc := pc.value)] else s.processes - {id}))
  {
    hide Inv, SignedRows, FencedRows, LogIn, LogOnce, ProcessIn;
    if pc.Some? { GivenUp(s.db, s.log, s.processes[id], pc.value); }
  }

  lemma CallerKnows(s: Pool, id: nat)
    requires ExecInv(s) && id in s.processes
    requires var p := s.processes[id]; p.task in s.db.tasks && p.generation == s.db.tasks[p.task].generation
    ensures var p := s.processes[id];
      Knows(s.log, p, s.db.tasks[p.task]) && s.db.tasks[p.task].meta.fenced && 1 <= p.generation
  {
    hide Inv, SignedRows, FencedRow, LogOnce, Delivered, SeesNow, Remembers, OpenedBy;
    assert ProcessIn(s.db, s.log, s.processes[id]);
  }

  lemma EffectedKeepsSigned(db: DB, db': DB, p: Process)
    requires SignedRows(db) && Callable(p) && p.pc != Blocking && p.pc != Failing && p.task in db.tasks
    requires OnlyRow(db, db', p.task) && Effected(p, db.tasks[p.task], db'.tasks[p.task])
    ensures SignedRows(db')
  {
    hide NoteContent, AllSigned, Signed;
    var t, t' := db.tasks[p.task], db'.tasks[p.task];
    if Recording(p.pc) && Appended(t, t', NoteContent(p)) { LongerSigned(t, t', NoteContent(p)); }
  }

  lemma LongerSigned(t: Task, t': Task, content: Content)
    requires Appended(t, t', content)
    ensures t'.meta == t.meta && (AllSigned(t.checkpoints) ==> AllSigned(t'.checkpoints))
  {
    assert forall i :: 0 <= i < |t.checkpoints| ==> t'.checkpoints[i] == t'.checkpoints[..|t.checkpoints|][i];
  }

  /** What everybody but the caller keeps when the store accepts a call. */
  lemma AcceptedKeepsOthers(s: Pool, id: nat, db': DB)
    requires ExecInv(s) && Inv(db') && id in s.processes
    requires var p := s.processes[id];
      Callable(p) && p.pc != Blocking && p.pc != Failing && p.task in s.db.tasks && OnlyRow(s.db, db', p.task) &&
      Effected(p, s.db.tasks[p.task], db'.tasks[p.task])
    ensures ExecInv(Pool(db', s.processes - {id}, s.log))
  {
    hide Inv, SignedRows, FencedRow, LogOnce, ProcessIn, Effected, LogIn;
    var p := s.processes[id];
    UnderCurrent(p, s.db.tasks[p.task], db'.tasks[p.task]);
    CallerKnows(s, id);
    AcceptedKeepsRow(s.log, p, s.db.tasks[p.task], db'.tasks[p.task]);
    EffectedExtends(p, s.db.tasks[p.task], db'.tasks[p.task]);
    LogKept(s.db, db', s.log, p.task);
    EffectedKeepsSigned(s.db, db', p);
    forall k | k in s.processes && k != id ensures ProcessIn(db', s.log, s.processes[k]) {
      BystanderKept(s.db, db', s.log, p, s.processes[k]);
    }
  }

  lemma UnderCurrent(p: Process, t: Task, t': Task)
    requires Callable(p) && Effected(p, t, t')
    ensures p.generation == t.generation
  {
  }

  lemma AcceptedCallKeeps(s: Pool, id: nat, db': DB, heard: bool)
    requires ExecInv(s) && Inv(db') && id in s.processes
    requires var p := s.processes[id];
      Callable(p) && p.pc != Blocking && p.pc != Failing && p.task in s.db.tasks && OnlyRow(s.db, db', p.task) &&
      Effected(p, s.db.tasks[p.task], db'.tasks[p.task])
    ensures var p := s.processes[id];
      var pc := AfterCall(p.pc, heard);
      ExecInv(Pool(db', if pc.Some? then s.processes[id := p.(pc := pc.value)] else s.processes - {id}, s.log))
  {
    hide Inv, SignedRows, FencedRow, LogOnce, LogIn, Effected, FencedRows, Knows;
    var p := s.processes[id];
    var pc := AfterCall(p.pc, heard);
    AcceptedKeepsOthers(s, id, db');
    if pc.Some? {
      CallerAfter(s, id, db', heard);
      BackIn(s, id, db', p.(pc := pc.value));
    }
  }

  lemma CallerAfter(s: Pool, id: nat, db': DB, heard: bool)
    requires ExecInv(s) && id in s.processes
    requires var p := s.processes[id];
      Callable(p) && p.pc != Blocking && p.pc != Failing && p.task in s.db.tasks && OnlyRow(s.db, db', p.task) &&
      Effected(p, s.db.tasks[p.task], db'.tasks[p.task]) && AfterCall(p.pc, heard).Some?
    ensures var p := s.processes[id];
      var p' := p.(pc := AfterCall(p.pc, heard).value);
      ProcessIn(db', s.log, p') && (p'.pc == Publishing ==> Unlogged(s.log, p'.task))
  {
    hide Inv, SignedRows, FencedRow, LogOnce, LogIn, Delivered, Effected, FencedRows, Knows, SeesNow, Unlogged, Apart;
    var p := s.processes[id];
    UnderCurrent(p, s.db.tasks[p.task], db'.tasks[p.task]);
    CallerKnows(s, id);
    EffectedExtends(p, s.db.tasks[p.task], db'.tasks[p.task]);
    if heard && p.pc != Submitting && p.pc != Completing {
      AcceptedCaller(s.log, p, s.db.tasks[p.task], db'.tasks[p.task]);
      NoHistoryNoLog(s.db, s.log, p.task);
    } else {
      GaveUpSees(p, heard, db'.tasks[p.task].checkpoints);
    }
  }

  lemma NoHistoryNoLog(db: DB, log: seq<Publication>, tid: TaskId)
    requires LogIn(db, log) && tid in db.tasks
    ensures db.tasks[tid].checkpoints == [] ==> Unlogged(log, tid)
  {
  }

  lemma GaveUpSees(p: Process, heard: bool, cs: seq<Checkpoint>)
    requires AfterCall(p.pc, heard).Some? && (!heard || p.pc == Submitting || p.pc == Completing)
    ensures SeesNow(p.(pc := AfterCall(p.pc, heard).value), cs)
  {
  }

  lemma BackIn(s: Pool, id: nat, db': DB, p': Process)
    requires ExecInv(s) && id in s.processes && ExecInv(Pool(db', s.processes - {id}, s.log))
    requires ProcessIn(db', s.log, p') && (p'.pc == Publishing ==> Unlogged(s.log, p'.task))
    requires p'.task == s.processes[id].task && p'.generation == s.processes[id].generation
    ensures ExecInv(Pool(db', s.processes[id := p'], s.log))
  {
    hide Inv, SignedRows, FencedRows, LogIn, LogOnce, ProcessIn;
    var rest := Pool(db', s.processes - {id}, s.log);
    assert forall k :: k in s.processes && k != id ==> k in rest.processes;
  }

  lemma CallKeeps(cfg: Config, s: Pool, now: int, step: ExecStep)
    requires ExecInv(s) && step.CallStep? && CanStep(cfg, s, now, step)
    ensures ExecInv(Next(cfg, s, now, step))
  {
    hide Inv, SignedRows, FencedRows, LogIn, LogOnce, Apart, After, Effected, Accepts, CallOf;
    var p := s.processes[step.id];
    assert ProcessIn(s.db, s.log, p);
    CallWrites(cfg, s.db, now, p);
    if !step.delivered {
      GivingUpKeeps(s, step.id, AfterCall(p.pc, false));
    } else {
      var db' := After(cfg, s.db, now, CallOf(p));
      StepKeepsInv(cfg, s.db, now, CallOf(p));
      if Accepts(s.db, now, CallOf(p)) {
        AcceptsIsProper(s.db, now, p);
        AcceptedCallKeeps(s, step.id, db', step.heard);
      } else {
        OneRowIsCalm(s.db, db', p.task);
        CalmKeeps(s, db');
        GivingUpKeeps(s.(db := db'), step.id, AfterCall(p.pc, false));
      }
    }
  }

  lemma AcceptsIsProper(db: DB, now: int, p: Process)
    requires Callable(p) && Accepts(db, now, CallOf(p))
    ensures p.pc != Blocking && p.pc != Failing
  {
  }

  lemma OneRowIsCalm(db: DB, db': DB, tid: TaskId)
    requires tid in db.tasks && OnlyRow(db, db', tid) && Calm(db.tasks[tid], db'.tasks[tid])
    ensures CalmTasks(db, db')
  {
  }

  // ---- runs

  lemma ExecStepKeeps(cfg: Config, s: Pool, now: int, step: ExecStep)
    requires ExecInv(s) && CanStep(cfg, s, now, step)
    ensures ExecInv(Next(cfg, s, now, step))
  {
    hide ExecInv, After, Possible, Outside;
    match step
    case EnvironmentStep(op) => EnvironmentKeeps(cfg, s, now, op);
    case ClaimStep(_, _, _, _, _) => ClaimKeeps(cfg, s, now, step);
    case CallStep(_, _, _) => CallKeeps(cfg, s, now, step);
    case ActStep(id, _, _, _) =>
      if s.processes[id].pc == Publishing { PublishKeeps(cfg, s, now, step); } else { ActKeeps(cfg, s, now, step); }
    case _ => ReadKeeps(cfg, s, now, step);
  }

  lemma EnvironmentKeeps(cfg: Config, s: Pool, now: int, op: Op)
    requires ExecInv(s) && Possible(cfg, s.db, now, op) && Outside(s.db, op)
    ensures ExecInv(s.(db := After(cfg, s.db, now, op)))
  {
    hide Inv, SignedRows, FencedRows, LogIn, LogOnce, Apart, ProcessesIn, After, CalmTasks, Outside;
    EnvironmentIsCalm(cfg, s.db, now, op);
    StepKeepsInv(cfg, s.db, now, op);
    CalmKeeps(s, After(cfg, s.db, now, op));
  }

  lemma {:induction false} ExecRunKeeps(cfg: Config, s: Pool, events: seq<ExecEvent>)
    requires ExecInv(s) && ExecRun(cfg, s, events)
    ensures ExecInv(ExecEnd(cfg, s, events))
    decreases |events|
  {
    hide ExecInv, Next, CanStep;
    if events != [] {
      ExecStepKeeps(cfg, s, events[0].now, events[0].step);
      ExecRunKeeps(cfg, Next(cfg, s, events[0].now, events[0].step), events[1..]);
    }
  }

  lemma EmptyExecInv()
    ensures ExecInv(EMPTY_POOL)
  {
    EmptyInv();
  }
}
