/** Any number of native one-shot executors (app/native_one_shot.py, `run`) as clients of the pool.
    Every API call is one transaction of the store that may be lost on the way or lose its reply;
    a process may vanish between any two steps.  Building, publishing, verifying, materializing and
    validating are actions of the outside world: the step carries what they returned. */
module NativeExecutor {
  import opened Wrappers
  import opened PoolTypes
  import opened PoolRows
  import opened PoolSpec
  import opened PoolSteps
  import opened PoolInvariant
  import Ledger

  datatype Artifact = Artifact(kind: Text, ref: Text, sha: Text)

  /** Where a process stands: what it is about to do next. */
  datatype Pc =
    | ReadingLatest | ReadingEffects
    | Starting | Building | RecordingPending | Publishing | VerifyingNew | VerifyingOld | RecordingResult | Submitting
    | Inspecting | Judging | RecordingVerdict | Completing
    | RecordingUnknown | Blocking | Failing

  datatype Process = Process(
    task: TaskId, worker: WorkerId, token: nat, generation: nat, attempt: nat, role: Role, produced: Option<Sha>,
    pc: Pc, latest: Option<Checkpoint>, sha: Sha, artifact: Option<Artifact>)

  /** One call of `artifact_transport.publish`, with the artifact it returned, if it did. */
  datatype Publication = Publication(task: TaskId, generation: nat, effect: EffectId, artifact: Option<Artifact>)

  datatype Pool = Pool(db: DB, processes: map<nat, Process>, log: seq<Publication>)

  const EMPTY_POOL := Pool(EMPTY_DB, map[], [])

  // ---- what the executor writes into checkpoints

  function PendingContent(effect: EffectId): Content {
    Content(1, ArtifactPublish, None, None, None, PublishArtifact, Some(effect), Pending, None)
  }

  function UnknownContent(effect: EffectId): Content {
    Content(2, ArtifactPublish, None, None, None, ReconcileArtifact, Some(effect), Unknown, None)
  }

  function ResultContent(sequence: int, effect: EffectId, a: Artifact): Content {
    Content(sequence, BuilderResult, Some(a.kind), Some(a.ref), Some(a.sha), SubmitValidation,
            Some(effect), Confirmed, Some(a.ref))
  }

  function VerdictContent(a: Artifact): Content {
    Content(1, ValidatorResult, Some(a.kind), Some(a.ref), Some(a.sha), FinishTask, None, NoEffect, None)
  }

  function ArtifactOf(c: Content): Option<Artifact> {
    if c.artifactKind.Some? && c.artifactRef.Some? && c.artifactSha.Some?
    then Some(Artifact(c.artifactKind.value, c.artifactRef.value, c.artifactSha.value)) else None
  }

  // ---- what it reads back

  /** The checkpoint last in (generation, sequence) order. */
  function LatestOf(t: Task): Option<Checkpoint> {
    if t.checkpoints == [] then None else Some(t.checkpoints[|t.checkpoints| - 1])
  }

  /** A row of the recovery context: the latest checkpoint of an effect and how it was reconciled. */
  datatype EffectRow = EffectRow(checkpoint: Checkpoint, outcome: Option<EffectState>)

  function OutcomeOf(t: Task, c: Checkpoint): Option<EffectState> {
    if Reconciled(t, c) then Some(t.reconciliations[(c.content.effect.value, c.generation)].outcome) else None
  }

  function EffectsOf(t: Task): set<EffectRow> {
    set i | 0 <= i < |t.checkpoints| && t.checkpoints[i].content.effect.Some? &&
            IsLatestFor(t, t.checkpoints[i].content.effect.value, i)
          :: EffectRow(t.checkpoints[i], OutcomeOf(t, t.checkpoints[i]))
  }

  predicate Resumable(c: Checkpoint) {
    c.content.stage == BuilderResult && c.content.nextAction == SubmitValidation
  }

  predicate SameLatestEffect(row: EffectRow, latest: Option<Checkpoint>) {
    latest.Some? && row.checkpoint.content.effect == latest.value.content.effect
  }

  function Effective(row: EffectRow): EffectState {
    if row.outcome.Some? then row.outcome.value else row.checkpoint.content.effectState
  }

  /** `_validate_recovery_effects`, one effect. */
  predicate EffectIsSafe(row: EffectRow, latest: Option<Checkpoint>) {
    if Effective(row) == NotApplied then !SameLatestEffect(row, latest)
    else
      Effective(row) == Confirmed && SameLatestEffect(row, latest) &&
      latest.value.content.effectState == Confirmed && Resumable(latest.value) && ArtifactOf(latest.value.content).Some?
  }

  const MAX_EFFECTS := 64

  /** `_recovery_context` and `_validate_recovery_effects`. */
  predicate ContextIsSafe(latest: Option<Checkpoint>, effects: set<EffectRow>, generation: nat) {
    |effects| <= MAX_EFFECTS &&
    (latest.Some? ==>
      latest.value.generation < generation &&
      (latest.value.content.effect.Some? ==> exists row :: row in effects && row.checkpoint == latest.value)) &&
    (forall row :: row in effects ==>
      row.checkpoint.generation < generation &&
      (row.outcome.Some? ==> OpenState(row.checkpoint.content.effectState)) && EffectIsSafe(row, latest))
  }

  // ---- calls

  function Cred(p: Process): Credentials {
    Credentials(p.task, p.worker, p.token, Some(p.generation), Some(p.attempt))
  }

  function EffectOf(p: Process): EffectId {
    ArtifactEffect(p.task, p.sha)
  }

  predicate Calling(pc: Pc) {
    pc == Starting || pc == RecordingPending || pc == RecordingResult || pc == Submitting || pc == RecordingVerdict ||
    pc == Completing || pc == RecordingUnknown || pc == Blocking || pc == Failing
  }

  function NoteOf(pc: Pc): CheckpointTag {
    if pc == RecordingPending then ArtifactPending else if pc == RecordingUnknown then ArtifactUnknown else StageResult
  }

  /** The content of the checkpoint a process is about to record. */
  function NoteContent(p: Process): Content
    requires p.pc == RecordingResult || p.pc == RecordingVerdict ==> p.artifact.Some?
  {
    if p.pc == RecordingPending then PendingContent(EffectOf(p))
    else if p.pc == RecordingUnknown then UnknownContent(EffectOf(p))
    else if p.pc == RecordingResult then ResultContent(if p.latest.None? then 2 else 1, EffectOf(p), p.artifact.value)
    else if p.pc == RecordingVerdict then VerdictContent(p.artifact.value)
    else PendingContent(EffectOf(p))
  }

  predicate Recording(pc: Pc) {
    pc == RecordingPending || pc == RecordingResult || pc == RecordingVerdict || pc == RecordingUnknown
  }

  function CallOf(p: Process): Op
    requires Calling(p.pc)
    requires p.pc == RecordingResult || p.pc == RecordingVerdict ==> p.artifact.Some?
  {
    if Recording(p.pc) then RecordOp(Cred(p), NativeCheckpoint(p.attempt, p.role, NoteOf(p.pc)), NoteContent(p))
    else if p.pc == Starting then StartOp(Cred(p))
    else if p.pc == Submitting then SubmitOp(Cred(p), p.sha)
    else if p.pc == Completing then CompleteOp(Cred(p))
    else if p.pc == Blocking then BlockOp(Cred(p), Some(OtherReason(0)))
    else FailOp(Cred(p), Some(OtherReason(0)))
  }

  /** The store did not raise. */
  predicate Accepts(db: DB, now: int, op: Op) {
    match op
    case StartOp(cred) => StartTask(db, now, cred).Commit?
    case SubmitOp(cred, sha) => SubmitForValidation(db, now, cred, sha).Commit?
    case CompleteOp(cred) => CompleteTask(db, now, cred).Commit?
    case RecordOp(cred, id, content) => RecordCheckpoint(db, now, cred, id, content).Commit?
    case _ => false
  }

  /** Where a call leads; None ends the process. */
  function AfterCall(pc: Pc, ok: bool): Option<Pc> {
    match pc
    case Starting => Some(if ok then Building else Failing)
    case RecordingPending => Some(if ok then Publishing else Failing)
    case RecordingResult => Some(if ok then Submitting else Failing)
    case RecordingVerdict => Some(if ok then Completing else Failing)
    case Submitting => if ok then None else Some(Failing)
    case Completing => if ok then None else Some(Failing)
    case RecordingUnknown => Some(Blocking)
    case _ => None
  }

  // ---- local actions

  predicate Acting(pc: Pc) {
    pc == Building || pc == Publishing || pc == VerifyingNew || pc == VerifyingOld || pc == Inspecting || pc == Judging
  }

  /** A Builder goes on from the checkpoint it found only if that is a finished build of this very commit. */
  predicate CanResume(p: Process, sha: Sha) {
    p.latest.Some? && Resumable(p.latest.value) && ArtifactOf(p.latest.value.content).Some? &&
    p.latest.value.content.effect == Some(ArtifactEffect(p.task, sha))
  }

  predicate CanInspect(p: Process) {
    p.produced.Some? && p.latest.Some? && Resumable(p.latest.value) && ArtifactOf(p.latest.value.content).Some?
  }

  /** The action succeeded (`ok`) or raised; `sha` and `artifact` are what it returned. */
  function AfterAction(p: Process, ok: bool, sha: Sha, artifact: Artifact): Process
  {
    match p.pc
    case Building =>
      if !ok then p.(pc := Failing)
      else if p.latest.None? then p.(sha := sha, pc := RecordingPending)
      else if CanResume(p, sha) then p.(sha := sha, artifact := ArtifactOf(p.latest.value.content), pc := VerifyingOld)
      else p.(pc := Failing)
    case Publishing => if ok then p.(artifact := Some(artifact), pc := VerifyingNew) else p.(pc := RecordingUnknown)
    case VerifyingNew => p.(pc := if ok then RecordingResult else RecordingUnknown)
    case VerifyingOld => p.(pc := if ok then RecordingResult else Failing)
    case Inspecting =>
      if ok && CanInspect(p) then p.(artifact := ArtifactOf(p.latest.value.content), pc := Judging) else p.(pc := Failing)
    case Judging => p.(pc := if ok then RecordingVerdict else Failing)
    case _ => p
  }

  // ---- steps

  datatype ExecStep =
    | EnvironmentStep(op: Op)
    | ClaimStep(id: nat, worker: WorkerId, role: Role, seconds: Option<int>, task: TaskId)
    | ReadLatestStep(id: nat)
    | ReadEffectsStep(id: nat, wellFormed: bool)
    | ActStep(id: nat, ok: bool, sha: Sha, artifact: Artifact)
    | CallStep(id: nat, delivered: bool, heard: bool)
    | CrashStep(id: nat)

  /** Everything but native executors may do anything except take, or act under, leases of fenced tasks. */
  ghost predicate Outside(db: DB, op: Op) {
    match op
    case ClaimOp(_, _, _, _, fenced, _) => !fenced
    case StartOp(cred) => cred.task in db.tasks ==> !db.tasks[cred.task].meta.fenced
    case SubmitOp(cred, _) => cred.task in db.tasks ==> !db.tasks[cred.task].meta.fenced
    case CompleteOp(cred) => cred.task in db.tasks ==> !db.tasks[cred.task].meta.fenced
    case FailOp(cred, _) => cred.task in db.tasks ==> !db.tasks[cred.task].meta.fenced
    case BlockOp(cred, _) => cred.task in db.tasks ==> !db.tasks[cred.task].meta.fenced
    case RecordOp(cred, _, _) => cred.task in db.tasks ==> !db.tasks[cred.task].meta.fenced
    case _ => true
  }

  ghost predicate CanStep(cfg: Config, s: Pool, now: int, step: ExecStep) {
    match step
    case EnvironmentStep(op) => Possible(cfg, s.db, now, op) && Outside(s.db, op)
    case ClaimStep(id, _, _, _, _) => id !in s.processes
    case ReadLatestStep(id) => id in s.processes && s.processes[id].pc == ReadingLatest && s.processes[id].task in s.db.tasks
    case ReadEffectsStep(id, _) =>
      id in s.processes && s.processes[id].pc == ReadingEffects && s.processes[id].task in s.db.tasks
    case ActStep(id, _, _, _) => id in s.processes && Acting(s.processes[id].pc)
    case CallStep(id, _, _) =>
      id in s.processes && Calling(s.processes[id].pc) &&
      (s.processes[id].pc == RecordingResult || s.processes[id].pc == RecordingVerdict ==> s.processes[id].artifact.Some?)
    case CrashStep(id) => id in s.processes
  }

  /** The process a successful claim starts: the reply carries the task row as the claim left it. */
  function Started(g: LeaseGrant, produced: Option<Sha>): Process {
    Process(g.task, g.worker, g.token, g.generation, g.attempt, g.role, produced, ReadingLatest, None, 0, None)
  }

  /** `claim_fenced_exact`. */
  ghost function FencedClaim(cfg: Config, db: DB, now: int, worker: WorkerId, role: Role, seconds: Option<int>, task: TaskId)
    : Tx<Option<LeaseGrant>>
  {
    ClaimTask(cfg, db, now, worker, role, seconds, Some(task), true, [])
  }

  ghost function Next(cfg: Config, s: Pool, now: int, step: ExecStep): Pool
    requires CanStep(cfg, s, now, step)
  {
    match step
    case EnvironmentStep(op) => s.(db := After(cfg, s.db, now, op))
    case ClaimStep(id, worker, role, seconds, task) => ClaimNext(s, id, FencedClaim(cfg, s.db, now, worker, role, seconds, task))
    case ReadLatestStep(id) =>
      var p := s.processes[id];
      s.(processes := s.processes[id := p.(latest := LatestOf(s.db.tasks[p.task]), pc := ReadingEffects)])
    case ReadEffectsStep(id, wellFormed) =>
      var p := s.processes[id];
      var safe := wellFormed && ContextIsSafe(p.latest, EffectsOf(s.db.tasks[p.task]), p.generation);
      s.(processes := s.processes[id := p.(pc := if !safe then Blocking else if p.role == Builder then Starting else Inspecting)])
    case ActStep(id, ok, sha, artifact) =>
      var p := s.processes[id];
      s.(processes := s.processes[id := AfterAction(p, ok, sha, artifact)],
         log := if p.pc == Publishing
                then s.log + [Publication(p.task, p.generation, EffectOf(p), if ok then Some(artifact) else None)] else s.log)
    case CallStep(id, delivered, heard) =>
      var p := s.processes[id];
      var pc := AfterCall(p.pc, delivered && heard && Accepts(s.db, now, CallOf(p)));
      Pool(if delivered then After(cfg, s.db, now, CallOf(p)) else s.db,
           if pc.Some? then s.processes[id := p.(pc := pc.value)] else s.processes - {id}, s.log)
    case CrashStep(id) => s.(processes := s.processes - {id})
  }

  ghost function ClaimNext(s: Pool, id: nat, tx: Tx<Option<LeaseGrant>>): Pool {
    if tx.Rollback? then s
    else if tx.value.None? || tx.value.value.task !in tx.db.tasks then s.(db := tx.db)
    else s.(db := tx.db, processes := s.processes[id := Started(tx.value.value, tx.db.tasks[tx.value.value.task].producedSha)])
  }

  datatype ExecEvent = ExecEvent(now: int, step: ExecStep)

  ghost predicate ExecRun(cfg: Config, s: Pool, events: seq<ExecEvent>)
    decreases |events|
  {
    events == [] ||
    (CanStep(cfg, s, events[0].now, events[0].step) &&
     ExecRun(cfg, Next(cfg, s, events[0].now, events[0].step), events[1..]))
  }

  ghost function ExecEnd(cfg: Config, s: Pool, events: seq<ExecEvent>): Pool
    requires ExecRun(cfg, s, events)
    decreases |events|
  {
    if events == [] then s else ExecEnd(cfg, Next(cfg, s, events[0].now, events[0].step), events[1..])
  }

  /** In the order the ledger keeps, the last row is the one ORDER BY generation DESC, sequence DESC finds. */
  lemma LatestIsLast(t: Task, uuids: nat, i: int)
    requires Ledger.RowInv(t, uuids) && 0 <= i < |t.checkpoints|
    ensures LatestOf(t) == Some(t.checkpoints[i]) <==>
      forall j :: 0 <= j < |t.checkpoints| && j != i ==> Later(t.checkpoints[i], t.checkpoints[j])
  {
    assert Ledger.CheckpointRows(t.checkpoints, t.generation);
    var n := |t.checkpoints| - 1;
    assert forall j :: 0 <= j < n ==> Later(t.checkpoints[n], t.checkpoints[j]);
  }
}
