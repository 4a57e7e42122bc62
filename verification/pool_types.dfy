/** The tables of the worker pool (app/store.py, `_init`).  Identifiers, commit hashes
    and free text are opaque: only equality (and, for the scheduler, an order) matters.
    Tables whose key starts with the task id are kept inside their task. */
module PoolTypes {
  import opened Wrappers

  type TaskId = nat
  type WorkerId = nat
  type Repository = nat
  type Sha = nat
  type Text = nat

  datatype Role = Builder | Validator

  datatype Profile = Normal | Estudo

  datatype TaskState = Queued | Leased | Running | Validating | Blocked | Completed | Failed

  /** Texts stored as blocked_reason, last_error and end_reason.  A caller may pass any of them. */
  datatype Reason =
    | EffectReconciliationRequired
    | LeaseExpiredMaxAttempts
    | LeaseExpiredRecovered
    | ProgressTimeoutMaxAttempts
    | ProgressTimeoutRerouted
    | ProgressTimeoutNoAlternative
    | ValidationHandoff
    | CompletedReason
    | FailedAttempt
    | BlockedReason
    | WorkerFailure
    | OtherReason(code: Text)

  datatype EffectState = NoEffect | Pending | Confirmed | NotApplied | Unknown

  /** Effect ids are opaque text; the native executor derives its own from the task and the commit. */
  datatype EffectId = ArtifactEffect(task: TaskId, sha: Sha) | OtherEffect(code: Text)

  datatype Stage = ArtifactPublish | BuilderResult | ValidatorResult | OtherStage(code: Text)

  datatype NextAction = PublishArtifact | ReconcileArtifact | SubmitValidation | FinishTask | OtherAction(code: Text)

  datatype CheckpointTag = ArtifactPending | ArtifactUnknown | StageResult

  /** Checkpoint ids are opaque text; the native executor hashes attempt, role and tag into one. */
  datatype CheckpointId = NativeCheckpoint(attempt: nat, role: Role, tag: CheckpointTag) | OtherCheckpoint(code: Text)

  datatype Attempt = Attempt(
    id: nat, generation: nat, worker: WorkerId, role: Role,
    startedAt: int, expires: int, endedAt: Option<int>, endReason: Option<Reason>)

  /** What the content digest of a checkpoint covers: everything but the generation and the attempt. */
  datatype Content = Content(
    sequence: int, stage: Stage,
    artifactKind: Option<Text>, artifactRef: Option<Text>, artifactSha: Option<Text>,
    nextAction: NextAction, effect: Option<EffectId>, effectState: EffectState, resultRef: Option<Text>)

  datatype Checkpoint = Checkpoint(id: CheckpointId, generation: nat, attempt: nat, content: Content, createdAt: int)

  datatype Reconciliation = Reconciliation(outcome: EffectState, readbackRef: Text, createdAt: int)

  datatype QuarantineRow = QuarantineRow(attemptCount: nat, reason: Reason, at: int)

  /** The columns of a task that admission fixes. */
  datatype Meta = Meta(
    repository: Repository, branch: Text, priority: int, fenced: bool, maxAttempts: nat, createdAt: int, rowid: nat)

  /** The four lease columns: leased_by, lease_token, lease_expires_at, attempt_id. */
  datatype LeaseColumns = LeaseColumns(
    holder: Option<WorkerId>, token: Option<nat>, expires: Option<int>, attempt: Option<nat>)

  const NO_LEASE := LeaseColumns(None, None, None, None)

  datatype Task = Task(
    meta: Meta, state: TaskState, lease: LeaseColumns, generation: nat, attemptCount: nat,
    producedSha: Option<Sha>, builder: Option<WorkerId>, validator: Option<WorkerId>,
    blockedReason: Option<Reason>, lastError: Option<Reason>,
    updatedAt: int, lastProgress: int, completedAt: Option<int>,
    attempts: seq<Attempt>,
    checkpoints: seq<Checkpoint>,
    reconciliations: map<(EffectId, nat), Reconciliation>,
    quarantine: seq<QuarantineRow>)

  datatype Worker = Worker(
    role: Role, profile: Profile, rulesSha: Option<Sha>,
    gatewayOk: bool, stateValidated: bool, lastHeartbeat: int)

  datatype Lane = Lane(
    enabled: bool, maxInFlight: int,
    builderClaims: nat, validatorClaims: nat,
    lastBuilderClaim: Option<int>, lastValidatorClaim: Option<int>)

  /** The whole database.  `uuids` numbers the tokens and attempt ids drawn so far, `rowids` the task rows. */
  datatype DB = DB(
    tasks: map<TaskId, Task>, workers: map<WorkerId, Worker>, lanes: map<Repository, Lane>,
    affinities: set<(WorkerId, Repository)>, cutover: bool, uuids: nat, rowids: nat)

  const EMPTY_DB := DB(map[], map[], map[], {}, false, 0, 0)

  datatype Config = Config(
    heartbeatTtl: int, leaseSeconds: int, maxAttempts: int, stallSeconds: int, rulesSha: Option<Sha>)

  ghost predicate ValidConfig(cfg: Config) {
    cfg.heartbeatTtl >= 1 && cfg.leaseSeconds >= 1 && cfg.maxAttempts >= 1 && cfg.stallSeconds >= 1
  }

  /** Why a method raised NotFoundError, ValueError or ConflictError; its transaction rolls back. */
  datatype PoolError =
    | NotFound
    | InvalidValue
    | CutoverNotEnabled
    | ReplayDiverges
    | RoleMismatch
    | ProfileNotNormal
    | NotGoverned
    | RulesMismatch
    | WorkerStale
    | WorkerBusy
    | TakenConcurrently
    | StateNotAllowed
    | LeaseInvalid
    | FenceRequired
    | GenerationInvalid
    | AttemptInvalid
    | LeaseExpired
    | BuilderRequired
    | BuilderMismatch
    | IndependentValidatorRequired
    | ProducedShaMissing
    | EffectUnresolved
    | FencedTaskRequired
    | UnknownEffectNeedsReconciliation
    | SequenceInvalid
    | NotAwaitingReconciliation
    | EffectNotPending
    | ReconciliationGenerationMismatch

  datatype Tx<+T> = Commit(db: DB, value: T) | Rollback(error: PoolError)

  /** What a worker quotes in every mutation of its task. */
  datatype Credentials = Credentials(
    task: TaskId, worker: WorkerId, token: nat, generation: Option<int>, attempt: Option<nat>)

  datatype LeaseGrant = LeaseGrant(
    task: TaskId, token: nat, worker: WorkerId, role: Role, expires: int, generation: nat, attempt: nat)

  datatype Tally = Tally(rerouted: nat, blocked: nat, failed: nat)
}
