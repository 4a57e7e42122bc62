/** What one transaction may do to one task row, together with its attempts, checkpoints,
    reconciliations and quarantine rows. */
module PoolRows {
  import opened Wrappers
  import opened PoolTypes

  predicate Active(t: Task) {
    t.state == Leased || t.state == Running || t.state == Validating
  }

  /** The lease is held and has not expired (`_lease`, last check). */
  predicate Live(t: Task, now: int) {
    t.lease.holder.Some? && t.lease.expires.Some? && now < t.lease.expires.value
  }

  predicate Expired(t: Task, now: int) {
    Active(t) && t.lease.expires.Some? && t.lease.expires.value <= now
  }

  predicate Stalled(cfg: Config, t: Task, now: int) {
    Active(t) && t.lastProgress <= now - cfg.stallSeconds
  }

  // ---- effects

  predicate OpenState(s: EffectState) {
    s == Pending || s == Unknown
  }

  predicate SettledState(s: EffectState) {
    s == Confirmed || s == NotApplied
  }

  /** Checkpoint `d` was recorded after `c` in (generation, sequence) order. */
  predicate Later(d: Checkpoint, c: Checkpoint) {
    d.generation > c.generation || (d.generation == c.generation && d.content.sequence > c.content.sequence)
  }

  predicate Reconciled(t: Task, c: Checkpoint) {
    c.content.effect.Some? && (c.content.effect.value, c.generation) in t.reconciliations
  }

  predicate HasLaterOfSameEffect(t: Task, c: Checkpoint) {
    exists i :: 0 <= i < |t.checkpoints| && t.checkpoints[i].content.effect == c.content.effect && Later(t.checkpoints[i], c)
  }

  /** One checkpoint awaits reconciliation (the WHERE clause of `_has_unresolved_effect`). */
  predicate Unresolved(t: Task, c: Checkpoint) {
    c.content.effect.Some? &&
    ((c.content.effectState == Unknown && !Reconciled(t, c)) ||
     (c.content.effectState == Pending && !Reconciled(t, c) && !HasLaterOfSameEffect(t, c)))
  }

  predicate HasUnresolved(t: Task) {
    exists i :: 0 <= i < |t.checkpoints| && Unresolved(t, t.checkpoints[i])
  }

  /** `_require_resolved_effects` passes. */
  predicate Clear(t: Task) {
    !(t.meta.fenced && HasUnresolved(t))
  }

  predicate HasUnknown(t: Task, effect: EffectId) {
    exists i :: 0 <= i < |t.checkpoints| &&
      t.checkpoints[i].content.effect == Some(effect) && t.checkpoints[i].content.effectState == Unknown &&
      !Reconciled(t, t.checkpoints[i])
  }

  predicate IsLatestFor(t: Task, effect: EffectId, i: int) {
    0 <= i < |t.checkpoints| && t.checkpoints[i].content.effect == Some(effect) &&
    forall j :: 0 <= j < |t.checkpoints| && t.checkpoints[j].content.effect == Some(effect) ==>
      !Later(t.checkpoints[j], t.checkpoints[i])
  }

  /** The latest checkpoint of the effect is of this generation and still open (`reconcile_effect`). */
  predicate AwaitsReconciliation(t: Task, effect: EffectId, at: nat) {
    exists i :: 0 <= i < |t.checkpoints| && IsLatestFor(t, effect, i) && t.checkpoints[i].generation == at &&
      OpenState(t.checkpoints[i].content.effectState)
  }

  predicate EffectPending(t: Task, effect: EffectId) {
    exists i :: 0 <= i < |t.checkpoints| && IsLatestFor(t, effect, i) &&
      OpenState(t.checkpoints[i].content.effectState)
  }

  predicate HasCheckpoint(t: Task, id: CheckpointId) {
    exists i :: 0 <= i < |t.checkpoints| && t.checkpoints[i].id == id
  }

  /** MAX(sequence) over the checkpoints of one generation, 0 when there is none. */
  function MaxSequence(cs: seq<Checkpoint>, generation: nat): (m: int)
    ensures 0 <= m
    ensures forall i :: 0 <= i < |cs| && cs[i].generation == generation ==> cs[i].content.sequence <= m
    ensures m == 0 || exists i :: 0 <= i < |cs| && cs[i].generation == generation && cs[i].content.sequence == m
  {
    if cs == [] then 0
    else
      var last := cs[|cs| - 1];
      var m := MaxSequence(cs[..|cs| - 1], generation);
      if last.generation == generation && last.content.sequence > m then last.content.sequence else m
  }

  /** The checks of `record_checkpoint` that precede its transaction. */
  predicate ContentValid(c: Content) {
    (c.effectState == NoEffect) == c.effect.None? &&
    c.sequence >= 1 &&
    (SettledState(c.effectState) ==> c.resultRef.Some?) &&
    (c.effectState == NoEffect ==> c.resultRef.None?)
  }

  // ---- moves

  datatype Move =
    | Acquire(worker: WorkerId, role: Role, token: nat, attempt: nat, expires: int)
    | Renew(expires: int)
    | Start
    | Submit(sha: Sha)
    | Complete
    | Fail(reason: Reason)
    | Block(reason: Reason)
    | Record(id: CheckpointId, content: Content)
    | Resolve(effect: EffectId, at: nat, outcome: EffectState, readbackRef: Text)
    | Requeue
    | SweepExpired
    | SweepStalled(alternative: bool)

  /** `_end_attempt`: COALESCE keeps an end that is already there. */
  function EndOne(a: Attempt, now: int, reason: Reason): Attempt {
    a.(endedAt := if a.endedAt.Some? then a.endedAt else Some(now),
       endReason := if a.endReason.Some? then a.endReason else Some(reason))
  }

  function EndAttempt(attempts: seq<Attempt>, id: Option<nat>, now: int, reason: Reason): (r: seq<Attempt>)
    ensures |r| == |attempts|
    ensures forall i :: 0 <= i < |r| ==>
      r[i] == if id == Some(attempts[i].id) then EndOne(attempts[i], now, reason) else attempts[i]
  {
    if attempts == [] then []
    else
      var a := attempts[|attempts| - 1];
      EndAttempt(attempts[..|attempts| - 1], id, now, reason) +
      [if id == Some(a.id) then EndOne(a, now, reason) else a]
  }

  function ExtendAttempt(attempts: seq<Attempt>, id: Option<nat>, expires: int): (r: seq<Attempt>)
    ensures |r| == |attempts|
    ensures forall i :: 0 <= i < |r| ==>
      r[i] == if id == Some(attempts[i].id) then attempts[i].(expires := expires) else attempts[i]
  {
    if attempts == [] then []
    else
      var a := attempts[|attempts| - 1];
      ExtendAttempt(attempts[..|attempts| - 1], id, expires) +
      [if id == Some(a.id) then a.(expires := expires) else a]
  }

  /** Every transition that gives a lease back ends the attempt and clears the lease columns. */
  function Release(t: Task, now: int, state: TaskState, end: Reason, blocked: Option<Reason>, error: Option<Reason>,
                   progress: int): Task
  {
    t.(state := state, lease := NO_LEASE, blockedReason := blocked, lastError := error,
       updatedAt := now, lastProgress := progress, attempts := EndAttempt(t.attempts, t.lease.attempt, now, end),
       quarantine := if state == Failed then t.quarantine + [QuarantineRow(t.attemptCount, OrWorkerFailure(error), now)]
                     else t.quarantine)
  }

  function OrWorkerFailure(reason: Option<Reason>): Reason {
    if reason.Some? then reason.value else WorkerFailure
  }

  /** Where work that still has attempts left goes back to. */
  function Pool(t: Task): TaskState {
    if t.producedSha.Some? then Validating else Queued
  }

  /** What either sweep decides about a row: block it for reconciliation, give up on it, hand it
      back, or (the watchdog, without an alternative worker) block it as stuck. */
  datatype Verdict = Verdict(state: TaskState, blocked: Option<Reason>, error: Reason)

  function Judge(t: Task, clear: bool, maxed: Reason, back: Option<Reason>, stuck: Reason): Verdict {
    if !clear then Verdict(Blocked, Some(EffectReconciliationRequired), EffectReconciliationRequired)
    else if t.attemptCount >= t.meta.maxAttempts then Verdict(Failed, None, maxed)
    else if back.Some? then Verdict(Pool(t), None, back.value)
    else Verdict(Blocked, Some(stuck), stuck)
  }

  function Sweep(t: Task, now: int, verdict: Verdict): Task {
    Release(t, now, verdict.state, verdict.error, verdict.blocked, Some(verdict.error), t.lastProgress)
  }

  function Apply(t: Task, now: int, move: Move): Task {
    match move
    case Acquire(worker, role, token, attempt, expires) =>
      t.(state := if role == Builder then Leased else Validating,
         lease := LeaseColumns(Some(worker), Some(token), Some(expires), Some(attempt)),
         generation := t.generation + 1, attemptCount := t.attemptCount + 1,
         validator := if role == Validator then Some(worker) else t.validator,
         updatedAt := now, lastProgress := now,
         attempts := t.attempts + [Attempt(attempt, t.generation + 1, worker, role, now, expires, None, None)])
    case Renew(expires) =>
      t.(lease := t.lease.(expires := Some(expires)), updatedAt := now,
         attempts := ExtendAttempt(t.attempts, t.lease.attempt, expires))
    case Start =>
      t.(state := Running, builder := t.lease.holder, updatedAt := now, lastProgress := now)
    case Submit(sha) =>
      Release(t, now, Validating, ValidationHandoff, t.blockedReason, t.lastError, now).(producedSha := Some(sha))
    case Complete =>
      Release(t, now, Completed, CompletedReason, t.blockedReason, t.lastError, now).(completedAt := Some(now))
    case Fail(reason) =>
      Release(t, now, if t.attemptCount >= t.meta.maxAttempts then Failed else Pool(t), FailedAttempt,
              t.blockedReason, Some(reason), t.lastProgress)
    case Block(reason) =>
      Release(t, now, Blocked, BlockedReason,
              Some(if Clear(t) then reason else EffectReconciliationRequired), t.lastError, now)
    case Record(id, content) =>
      t.(checkpoints := t.checkpoints + [Checkpoint(id, t.generation, AttemptOf(t), content, now)],
         updatedAt := now, lastProgress := now)
    case Resolve(effect, at, outcome, readbackRef) =>
      t.(reconciliations := t.reconciliations[(effect, at) := Reconciliation(outcome, readbackRef, now)])
    case Requeue =>
      t.(state := Pool(t), blockedReason := None, updatedAt := now, lastProgress := now)
    case SweepExpired =>
      Sweep(t, now, Judge(t, Clear(t), LeaseExpiredMaxAttempts, Some(LeaseExpiredRecovered), LeaseExpiredRecovered))
    case SweepStalled(alternative) =>
      Sweep(t, now, Judge(t, Clear(t), ProgressTimeoutMaxAttempts,
                          if alternative then Some(ProgressTimeoutRerouted) else None, ProgressTimeoutNoAlternative))
  }

  function AttemptOf(t: Task): nat {
    if t.lease.attempt.Some? then t.lease.attempt.value else 0
  }

  /** What the checks of the method that makes the move have established about the row. */
  predicate Enabled(cfg: Config, t: Task, now: int, move: Move) {
    match move
    case Acquire(worker, role, _, _, _) =>
      t.lease.holder.None? &&
      (match role
       case Builder => t.state == Queued
       case Validator => t.state == Validating && t.producedSha.Some? && t.builder != Some(worker))
    case Renew(_) => Active(t) && Live(t, now)
    case Start => t.state == Leased && Live(t, now)
    case Submit(_) => t.state == Running && Live(t, now) && t.builder == t.lease.holder && Clear(t)
    case Complete =>
      t.state == Validating && Live(t, now) && t.builder != t.lease.holder && t.producedSha.Some? && Clear(t)
    case Fail(_) => Active(t) && Live(t, now) && Clear(t)
    case Block(_) => Active(t) && Live(t, now)
    case Record(id, content) =>
      Active(t) && Live(t, now) && t.lease.attempt.Some? && t.meta.fenced && ContentValid(content) && !HasCheckpoint(t, id) &&
      (content.effect.Some? ==> !HasUnknown(t, content.effect.value)) &&
      content.sequence == MaxSequence(t.checkpoints, t.generation) + 1
    case Resolve(effect, at, outcome, _) =>
      t.meta.fenced && t.state == Blocked && t.blockedReason == Some(EffectReconciliationRequired) &&
      (effect, at) !in t.reconciliations && SettledState(outcome) &&
      AwaitsReconciliation(t, effect, at)
    case Requeue => t.state == Blocked && Clear(t)
    case SweepExpired => Expired(t, now)
    case SweepStalled(_) => Stalled(cfg, t, now)
  }
}
