/** The invariant of one task row and its preservation by every move. */
module Ledger {
  import opened Wrappers
  import opened PoolTypes
  import opened PoolRows

  /** The four lease columns are set and cleared together, and only active tasks are leased. */
  ghost predicate LeaseTogether(t: Task) {
    t.lease.holder.Some? == t.lease.token.Some? == t.lease.expires.Some? == t.lease.attempt.Some? &&
    (t.lease.holder.Some? ==> Active(t)) &&
    (t.state == Leased || t.state == Running ==> t.lease.holder.Some?)
  }

  /** Attempts carry the generations 1, 2, ... and ids drawn in that order; `open` says whether the
      last one is still running, and no other ever is; those that have ended say why. */
  ghost predicate AttemptRows(attempts: seq<Attempt>, open: bool, uuids: nat) {
    (forall i :: 0 <= i < |attempts| ==>
      attempts[i].generation == i + 1 && attempts[i].id < uuids &&
      (attempts[i].endedAt.None? <==> open && i == |attempts| - 1) &&
      attempts[i].endReason.Some? == attempts[i].endedAt.Some?) &&
    (forall i, j :: 0 <= i < j < |attempts| ==> attempts[i].id < attempts[j].id) &&
    (open ==> attempts != [])
  }

  ghost predicate OpenAttempt(lease: LeaseColumns, validating: bool, last: Attempt, uuids: nat) {
    lease.holder == Some(last.worker) && lease.attempt == Some(last.id) && lease.expires == Some(last.expires) &&
    lease.token.Some? && lease.token.value < uuids &&
    last.role == (if validating then Validator else Builder)
  }

  /** The fencing ledger: one attempt row per generation, the last one open exactly while the task
      is leased, and then agreeing with the lease columns. */
  ghost predicate AttemptLedger(t: Task, uuids: nat) {
    t.attemptCount == t.generation == |t.attempts| &&
    AttemptRows(t.attempts, t.lease.holder.Some?, uuids) &&
    (t.lease.holder.Some? ==>
      OpenAttempt(t.lease, t.state == Validating, t.attempts[|t.attempts| - 1], uuids))
  }

  /** Where a result is present, and who built and who validates it. */
  ghost predicate ResultColumns(t: Task) {
    (t.state == Queued || t.state == Leased || t.state == Running ==> t.producedSha.None?) &&
    (t.state == Validating || t.state == Completed ==> t.producedSha.Some?) &&
    (t.state == Running ==> t.builder == t.lease.holder) &&
    (t.producedSha.Some? ==> t.builder.Some? && t.generation >= 1) &&
    (t.state == Validating && t.lease.holder.Some? ==>
      t.validator == t.lease.holder && t.builder != t.lease.holder && t.generation >= 2) &&
    (t.state == Completed ==> t.validator.Some? && t.builder != t.validator && t.generation >= 2)
  }

  ghost predicate QuarantineLedger(t: Task) {
    t.meta.maxAttempts >= 1 && |t.quarantine| == (if t.state == Failed then 1 else 0)
  }

  /** Checkpoints come in (generation, sequence) order, numbered from 1 within their generation. */
  ghost predicate CheckpointRows(cs: seq<Checkpoint>, generation: nat) {
    (forall i :: 0 <= i < |cs| ==>
      1 <= cs[i].generation <= generation && ContentValid(cs[i].content) &&
      cs[i].content.sequence ==
        if i > 0 && cs[i - 1].generation == cs[i].generation then cs[i - 1].content.sequence + 1 else 1) &&
    (forall i, j :: 0 <= i < j < |cs| ==> Later(cs[j], cs[i]) && cs[i].id != cs[j].id)
  }

  /** Every checkpoint was recorded under the attempt of its generation. */
  ghost predicate CheckpointAttempts(cs: seq<Checkpoint>, attempts: seq<Attempt>) {
    forall i :: 0 <= i < |cs| ==>
      1 <= cs[i].generation <= |attempts| && cs[i].attempt == attempts[cs[i].generation - 1].id
  }

  ghost predicate CheckpointLedger(t: Task) {
    (t.checkpoints != [] ==> t.meta.fenced) &&
    CheckpointRows(t.checkpoints, t.generation) &&
    CheckpointAttempts(t.checkpoints, t.attempts)
  }

  /** The authority answers only for the current generation, and only while nobody holds the lease. */
  ghost predicate ReconciliationKeys(t: Task) {
    forall key :: key in t.reconciliations ==>
      1 <= key.1 <= t.generation && (t.lease.holder.Some? ==> key.1 < t.generation) &&
      SettledState(t.reconciliations[key].outcome)
  }

  /** Checkpoint `i` is the last word of its generation on its effect. */
  ghost predicate LastOfGeneration(cs: seq<Checkpoint>, i: int)
    requires 0 <= i < |cs|
  {
    forall j :: i < j < |cs| ==> cs[j].content.effect != cs[i].content.effect || cs[j].generation != cs[i].generation
  }

  /** What has been answered had been left open. */
  ghost predicate AnsweredOpen(t: Task) {
    forall i :: 0 <= i < |t.checkpoints| && Reconciled(t, t.checkpoints[i]) && LastOfGeneration(t.checkpoints, i) ==>
      OpenState(t.checkpoints[i].content.effectState)
  }

  ghost predicate ReconciliationRows(t: Task) {
    ReconciliationKeys(t) && AnsweredOpen(t)
  }

  ghost predicate AwaitingAuthority(t: Task) {
    t.state == Blocked && t.blockedReason == Some(EffectReconciliationRequired)
  }

  /** Where an open effect may be: in the current generation, as the latest word on that effect, on a
      task that is leased or blocked for reconciliation. */
  ghost predicate EffectsContained(t: Task) {
    forall i :: 0 <= i < |t.checkpoints| && Unresolved(t, t.checkpoints[i]) ==>
      t.checkpoints[i].generation == t.generation && !HasLaterOfSameEffect(t, t.checkpoints[i]) &&
      (t.lease.holder.Some? || AwaitingAuthority(t))
  }

  ghost predicate RowInv(t: Task, uuids: nat) {
    LeaseTogether(t) && AttemptLedger(t, uuids) && ResultColumns(t) && QuarantineLedger(t) &&
    CheckpointLedger(t) && ReconciliationRows(t) && EffectsContained(t)
  }

  /** The tokens and attempt ids a move uses were drawn after `uuids` and before `uuids'`. */
  ghost predicate Fresh(move: Move, uuids: nat, uuids': nat) {
    uuids <= uuids' &&
    (move.Acquire? ==> uuids <= move.token < uuids' && uuids <= move.attempt < uuids')
  }

  // ---- moves that give the lease back

  ghost predicate GivesBack(move: Move) {
    move.Submit? || move.Complete? || move.Fail? || move.Block? || move.SweepExpired? || move.SweepStalled?
  }

  /** `r` is `t` without its lease; no other ledger has changed. */
  ghost predicate Returned(t: Task, r: Task, now: int) {
    r.lease == NO_LEASE && r.state != Leased && r.state != Running && r.meta == t.meta &&
    r.generation == t.generation && r.attemptCount == t.attemptCount &&
    r.checkpoints == t.checkpoints && r.reconciliations == t.reconciliations &&
    r.builder == t.builder && r.validator == t.validator &&
    (exists end :: r.attempts == EndAttempt(t.attempts, t.lease.attempt, now, end))
  }

  lemma GivingBackReturns(t: Task, now: int, move: Move)
    requires GivesBack(move)
    ensures Returned(t, Apply(t, now, move), now)
  {
    var end := match move
      case Submit(_) => ValidationHandoff
      case Complete => CompletedReason
      case Fail(_) => FailedAttempt
      case Block(_) => BlockedReason
      case _ => OrWorkerFailure(Apply(t, now, move).lastError);
    assert Apply(t, now, move).attempts == EndAttempt(t.attempts, t.lease.attempt, now, end);
  }

  /** What is still open goes nowhere but to the authority. */
  lemma GivingBackUnresolved(cfg: Config, t: Task, now: int, move: Move)
    requires GivesBack(move) && Enabled(cfg, t, now, move) && !Clear(t)
    ensures AwaitingAuthority(Apply(t, now, move))
  {
  }

  // ---- attempts

  lemma EndingKeepsRows(attempts: seq<Attempt>, open: bool, id: Option<nat>, now: int, end: Reason, uuids: nat)
    requires AttemptRows(attempts, open, uuids)
    requires open ==> id == Some(attempts[|attempts| - 1].id)
    requires !open ==> id.None?
    ensures AttemptRows(EndAttempt(attempts, id, now, end), false, uuids)
  {
  }

  lemma ExtendingKeepsRows(attempts: seq<Attempt>, id: nat, expires: int, uuids: nat)
    requires AttemptRows(attempts, true, uuids) && id == attempts[|attempts| - 1].id
    ensures AttemptRows(ExtendAttempt(attempts, Some(id), expires), true, uuids)
  {
  }

  lemma AddingKeepsRows(attempts: seq<Attempt>, a: Attempt, uuids: nat, uuids': nat)
    requires AttemptRows(attempts, false, uuids) && a.generation == |attempts| + 1 && uuids <= a.id < uuids'
    requires a.endedAt.None? && a.endReason.None?
    ensures AttemptRows(attempts + [a], true, uuids')
  {
  }

  lemma ReturnKeepsLedger(t: Task, r: Task, now: int, uuids: nat, uuids': nat)
    requires LeaseTogether(t) && AttemptLedger(t, uuids) && Returned(t, r, now) && uuids <= uuids'
    ensures LeaseTogether(r) && AttemptLedger(r, uuids')
    ensures CheckpointAttempts(t.checkpoints, t.attempts) ==> CheckpointAttempts(r.checkpoints, r.attempts)
  {
    var end :| r.attempts == EndAttempt(t.attempts, t.lease.attempt, now, end);
    EndingKeepsRows(t.attempts, t.lease.holder.Some?, t.lease.attempt, now, end, uuids);
  }

  lemma AcquireKeepsLedger(cfg: Config, t: Task, now: int, move: Move, uuids: nat, uuids': nat)
    requires LeaseTogether(t) && AttemptLedger(t, uuids) && Fresh(move, uuids, uuids')
    requires move.Acquire? && Enabled(cfg, t, now, move)
    ensures LeaseTogether(Apply(t, now, move)) && AttemptLedger(Apply(t, now, move), uuids')
  {
    AddingKeepsRows(t.attempts, Apply(t, now, move).attempts[|t.attempts|], uuids, uuids');
  }

  lemma RenewKeepsLedger(cfg: Config, t: Task, now: int, move: Move, uuids: nat)
    requires LeaseTogether(t) && AttemptLedger(t, uuids)
    requires move.Renew? && Enabled(cfg, t, now, move)
    ensures LeaseTogether(Apply(t, now, move)) && AttemptLedger(Apply(t, now, move), uuids)
  {
    ExtendingKeepsRows(t.attempts, t.lease.attempt.value, move.expires, uuids);
  }

  lemma StayKeepsLedger(cfg: Config, t: Task, now: int, move: Move, uuids: nat)
    requires LeaseTogether(t) && AttemptLedger(t, uuids)
    requires move.Start? || move.Record? || move.Resolve? || move.Requeue?
    requires Enabled(cfg, t, now, move)
    ensures LeaseTogether(Apply(t, now, move)) && AttemptLedger(Apply(t, now, move), uuids)
  {
    assert Apply(t, now, move).attempts == t.attempts;
  }

  lemma LaterUuids(t: Task, uuids: nat, uuids': nat)
    requires AttemptLedger(t, uuids) && uuids <= uuids'
    ensures AttemptLedger(t, uuids')
  {
  }

  lemma LedgerKept(cfg: Config, t: Task, now: int, move: Move, uuids: nat, uuids': nat)
    requires LeaseTogether(t) && AttemptLedger(t, uuids) && Enabled(cfg, t, now, move) && Fresh(move, uuids, uuids')
    ensures LeaseTogether(Apply(t, now, move)) && AttemptLedger(Apply(t, now, move), uuids')
  {
    LaterUuids(t, uuids, uuids');
    if GivesBack(move) {
      GivingBackReturns(t, now, move);
      ReturnKeepsLedger(t, Apply(t, now, move), now, uuids, uuids');
    } else if move.Acquire? {
      AcquireKeepsLedger(cfg, t, now, move, uuids, uuids');
    } else if move.Renew? {
      RenewKeepsLedger(cfg, t, now, move, uuids');
    } else {
      StayKeepsLedger(cfg, t, now, move, uuids');
    }
  }

  // ---- results and quarantine

  lemma ResultKept(cfg: Config, t: Task, now: int, move: Move)
    requires LeaseTogether(t) && ResultColumns(t) && QuarantineLedger(t) && t.attemptCount == t.generation
    requires t.lease.holder.Some? ==> t.generation >= 1
    requires Enabled(cfg, t, now, move)
    ensures ResultColumns(Apply(t, now, move)) && QuarantineLedger(Apply(t, now, move))
  {
    if GivesBack(move) { GivingBackReturns(t, now, move); }
  }

  // ---- checkpoints

  /** In an ordered history MAX(sequence) is what the last checkpoint says. */
  lemma MaxSequenceIsLast(cs: seq<Checkpoint>, generation: nat)
    requires CheckpointRows(cs, generation)
    ensures MaxSequence(cs, generation) ==
      if cs != [] && cs[|cs| - 1].generation == generation then cs[|cs| - 1].content.sequence else 0
  {
    if cs != [] {
      var last := cs[|cs| - 1];
      forall i | 0 <= i < |cs|
        ensures cs[i].generation <= last.generation
        ensures cs[i].generation == last.generation ==> cs[i].content.sequence <= last.content.sequence
      {
        assert i == |cs| - 1 || Later(last, cs[i]);
      }
    }
  }

  lemma RecordingKeepsRows(cs: seq<Checkpoint>, generation: nat, c: Checkpoint)
    requires CheckpointRows(cs, generation)
    requires c.generation == generation >= 1 && ContentValid(c.content)
    requires forall i :: 0 <= i < |cs| ==> cs[i].id != c.id
    requires c.content.sequence == MaxSequence(cs, generation) + 1
    ensures CheckpointRows(cs + [c], generation)
  {
    hide ContentValid, MaxSequence;
    MaxSequenceIsLast(cs, generation);
    forall i | 0 <= i < |cs| ensures Later(c, cs[i]) {
      assert cs[i].generation == generation ==> cs[i].content.sequence <= MaxSequence(cs, generation);
    }
    var more := cs + [c];
    assert forall i :: 0 <= i < |cs| ==> more[i] == cs[i];
  }

  lemma LongerAttempts(cs: seq<Checkpoint>, attempts: seq<Attempt>, more: seq<Attempt>)
    requires CheckpointAttempts(cs, attempts) && |attempts| <= |more|
    requires forall i :: 0 <= i < |attempts| ==> more[i].id == attempts[i].id
    ensures CheckpointAttempts(cs, more)
  {
  }

  lemma RecordingKeepsAttempts(t: Task, c: Checkpoint, uuids: nat)
    requires LeaseTogether(t) && AttemptLedger(t, uuids) && CheckpointAttempts(t.checkpoints, t.attempts)
    requires t.lease.attempt.Some? && c.generation == t.generation && c.attempt == t.lease.attempt.value
    ensures CheckpointAttempts(t.checkpoints + [c], t.attempts)
  {
    hide AttemptRows;
    assert AttemptRows(t.attempts, t.lease.holder.Some?, uuids) ==> t.attempts != [] by { OpenIsNotEmpty(t.attempts, uuids); }
  }

  lemma OpenIsNotEmpty(attempts: seq<Attempt>, uuids: nat)
    ensures AttemptRows(attempts, true, uuids) ==> attempts != []
  {
  }

  lemma AttemptsOfCheckpointsKept(cfg: Config, t: Task, now: int, move: Move, uuids: nat)
    requires LeaseTogether(t) && AttemptLedger(t, uuids) && CheckpointAttempts(t.checkpoints, t.attempts)
    requires Enabled(cfg, t, now, move) && !GivesBack(move)
    ensures CheckpointAttempts(Apply(t, now, move).checkpoints, Apply(t, now, move).attempts)
  {
    hide AttemptRows, AttemptLedger, CheckpointAttempts;
    if move.Record? {
      RecordingKeepsAttempts(t, Checkpoint(move.id, t.generation, AttemptOf(t), move.content, now), uuids);
    } else {
      LongerAttempts(t.checkpoints, t.attempts, Apply(t, now, move).attempts);
    }
  }

  lemma CheckpointsKept(cfg: Config, t: Task, now: int, move: Move, uuids: nat)
    requires LeaseTogether(t) && AttemptLedger(t, uuids) && CheckpointLedger(t) && Enabled(cfg, t, now, move)
    ensures CheckpointLedger(Apply(t, now, move))
  {
    var r := Apply(t, now, move);
    if GivesBack(move) {
      GivingBackReturns(t, now, move);
      ReturnKeepsLedger(t, r, now, uuids, uuids);
    } else {
      AttemptsOfCheckpointsKept(cfg, t, now, move, uuids);
      if move.Record? {
        RecordingKeepsRows(t.checkpoints, t.generation, r.checkpoints[|t.checkpoints|]);
      } else {
        assert CheckpointRows(t.checkpoints, r.generation);
      }
    }
  }

  lemma ReconciliationKeysKept(cfg: Config, t: Task, now: int, move: Move)
    requires LeaseTogether(t) && CheckpointRows(t.checkpoints, t.generation) && ReconciliationKeys(t)
    requires Enabled(cfg, t, now, move)
    ensures ReconciliationKeys(Apply(t, now, move))
  {
    if GivesBack(move) { GivingBackReturns(t, now, move); }
  }

  lemma RecordKeepsAnswers(cfg: Config, t: Task, now: int, move: Move)
    requires LeaseTogether(t) && ReconciliationRows(t) && move.Record? && Enabled(cfg, t, now, move)
    ensures AnsweredOpen(Apply(t, now, move))
  {
    var r, n := Apply(t, now, move), |t.checkpoints|;
    assert forall j :: 0 <= j < n ==> r.checkpoints[j] == t.checkpoints[j];
    forall i | 0 <= i < |r.checkpoints| && Reconciled(r, r.checkpoints[i]) && LastOfGeneration(r.checkpoints, i)
      ensures OpenState(r.checkpoints[i].content.effectState)
    {
      if i < n {
        assert LastOfGeneration(t.checkpoints, i) by {
          forall j | i < j < n
            ensures t.checkpoints[j].content.effect != t.checkpoints[i].content.effect ||
                    t.checkpoints[j].generation != t.checkpoints[i].generation
          {
            assert r.checkpoints[j] == t.checkpoints[j];
          }
        }
      }
    }
  }

  lemma ResolveKeepsAnswers(cfg: Config, t: Task, now: int, move: Move)
    requires CheckpointRows(t.checkpoints, t.generation) && AnsweredOpen(t) && move.Resolve? && Enabled(cfg, t, now, move)
    ensures AnsweredOpen(Apply(t, now, move))
  {
    var r := Apply(t, now, move);
    var k :| IsLatestFor(t, move.effect, k) && t.checkpoints[k].generation == move.at &&
             OpenState(t.checkpoints[k].content.effectState);
    forall i | 0 <= i < |r.checkpoints| && Reconciled(r, r.checkpoints[i]) && LastOfGeneration(r.checkpoints, i)
      ensures OpenState(r.checkpoints[i].content.effectState)
    {
      if !Reconciled(t, t.checkpoints[i]) { LatestIsLastOfGeneration(t, move.effect, k, i); }
    }
  }

  lemma LatestIsLastOfGeneration(t: Task, effect: EffectId, k: int, i: int)
    requires CheckpointRows(t.checkpoints, t.generation) && IsLatestFor(t, effect, k)
    requires 0 <= i < |t.checkpoints| && t.checkpoints[i].content.effect == Some(effect)
    requires t.checkpoints[i].generation == t.checkpoints[k].generation && LastOfGeneration(t.checkpoints, i)
    ensures i == k
  {
  }

  lemma ReconciliationsKept(cfg: Config, t: Task, now: int, move: Move)
    requires LeaseTogether(t) && CheckpointRows(t.checkpoints, t.generation) && ReconciliationRows(t)
    requires Enabled(cfg, t, now, move)
    ensures ReconciliationRows(Apply(t, now, move))
  {
    ReconciliationKeysKept(cfg, t, now, move);
    if GivesBack(move) {
      GivingBackReturns(t, now, move);
    } else if move.Record? {
      RecordKeepsAnswers(cfg, t, now, move);
    } else if move.Resolve? {
      ResolveKeepsAnswers(cfg, t, now, move);
    }
  }

  // ---- effects

  /** Without a new checkpoint nothing becomes unresolved. */
  lemma UnresolvedBefore(t: Task, r: Task, i: int)
    requires r.checkpoints == t.checkpoints && t.reconciliations.Keys <= r.reconciliations.Keys
    requires 0 <= i < |r.checkpoints| && Unresolved(r, r.checkpoints[i])
    ensures Unresolved(t, t.checkpoints[i]) && HasUnresolved(t)
    ensures HasLaterOfSameEffect(t, t.checkpoints[i]) == HasLaterOfSameEffect(r, r.checkpoints[i])
  {
  }

  /** A new checkpoint may be open itself; it closes or supersedes others, it opens none. */
  lemma UnresolvedAfterRecording(t: Task, r: Task, i: int)
    requires CheckpointRows(r.checkpoints, r.generation) && r.reconciliations == t.reconciliations
    requires |r.checkpoints| == |t.checkpoints| + 1 && r.checkpoints[..|t.checkpoints|] == t.checkpoints
    requires var c := r.checkpoints[|t.checkpoints|].content; c.effect.Some? ==> !HasUnknown(t, c.effect.value)
    requires 0 <= i < |t.checkpoints| && Unresolved(r, r.checkpoints[i])
    ensures Unresolved(t, t.checkpoints[i])
    ensures !HasLaterOfSameEffect(t, t.checkpoints[i]) ==> !HasLaterOfSameEffect(r, r.checkpoints[i])
  {
    var n := |t.checkpoints|;
    assert forall k :: 0 <= k < n ==> t.checkpoints[k] == r.checkpoints[k];
    assert Later(r.checkpoints[n], r.checkpoints[i]);
  }

  lemma RecordKeepsEffects(cfg: Config, t: Task, now: int, move: Move, uuids: nat)
    requires LeaseTogether(t) && AttemptLedger(t, uuids) && CheckpointLedger(t) && EffectsContained(t)
    requires move.Record? && Enabled(cfg, t, now, move)
    ensures EffectsContained(Apply(t, now, move))
  {
    var r := Apply(t, now, move);
    CheckpointsKept(cfg, t, now, move, uuids);
    forall i | 0 <= i < |r.checkpoints| && Unresolved(r, r.checkpoints[i])
      ensures r.checkpoints[i].generation == r.generation && !HasLaterOfSameEffect(r, r.checkpoints[i])
    {
      if i < |t.checkpoints| { UnresolvedAfterRecording(t, r, i); }
    }
  }

  lemma EffectsKept(cfg: Config, t: Task, now: int, move: Move, uuids: nat)
    requires LeaseTogether(t) && AttemptLedger(t, uuids) && CheckpointLedger(t) && EffectsContained(t)
    requires Enabled(cfg, t, now, move)
    ensures EffectsContained(Apply(t, now, move))
  {
    if move.Record? {
      RecordKeepsEffects(cfg, t, now, move, uuids);
    } else {
      var r := Apply(t, now, move);
      if GivesBack(move) { GivingBackReturns(t, now, move); }
      forall i | 0 <= i < |r.checkpoints| && Unresolved(r, r.checkpoints[i])
        ensures r.checkpoints[i].generation == r.generation && !HasLaterOfSameEffect(r, r.checkpoints[i]) &&
                (r.lease.holder.Some? || AwaitingAuthority(r))
      {
        UnresolvedBefore(t, r, i);
        if GivesBack(move) { GivingBackUnresolved(cfg, t, now, move); }
      }
    }
  }

  /** The row invariant is kept by every move the methods can make. */
  lemma RowKept(cfg: Config, t: Task, now: int, move: Move, uuids: nat, uuids': nat)
    requires RowInv(t, uuids) && Enabled(cfg, t, now, move) && Fresh(move, uuids, uuids')
    ensures RowInv(Apply(t, now, move), uuids')
  {
    LedgerKept(cfg, t, now, move, uuids, uuids');
    ResultKept(cfg, t, now, move);
    CheckpointsKept(cfg, t, now, move, uuids);
    ReconciliationsKept(cfg, t, now, move);
    EffectsKept(cfg, t, now, move, uuids);
  }
}
