/** What any interleaving of native executors guarantees for a fenced task: one publication, one
    effect, one artifact. */
module ExecutorSafety {
  import opened Wrappers
  import opened PoolTypes
  import opened PoolRows
  import opened PoolSpec
  import opened PoolSteps
  import opened Ledger
  import opened PoolInvariant
  import opened Evolution
  import opened Fencing
  import opened NativeExecutor

  // ---- histories

  ghost predicate Opens(tid: TaskId, c: Content) {
    c.effect.Some? && c.effect.value.ArtifactEffect? && c.effect.value.task == tid && c == PendingContent(c.effect.value)
  }

  ghost predicate Carries(c: Content, effect: EffectId, a: Artifact) {
    c == ResultContent(c.sequence, effect, a)
  }

  ghost predicate Built(cs: seq<Checkpoint>) {
    |cs| >= 2 && cs[0].content.effect.Some? && ArtifactOf(cs[1].content).Some? &&
    var e, a := cs[0].content.effect.value, ArtifactOf(cs[1].content).value;
    Carries(cs[1].content, e, a) &&
    forall i :: 2 <= i < |cs| ==> Carries(cs[i].content, e, a) || (i == |cs| - 1 && cs[i].content == VerdictContent(a))
  }

  ghost predicate Ambiguous(cs: seq<Checkpoint>) {
    |cs| == 2 && cs[0].content.effect.Some? && cs[1].content == UnknownContent(cs[0].content.effect.value)
  }

  /** Nothing; a pending publication; that and an unknown outcome; or that and a result, repeated by
      every resumed build, with at most one verdict, at the end.  Always the one effect, and after the
      first result always its artifact. */
  ghost predicate History(tid: TaskId, cs: seq<Checkpoint>) {
    cs == [] || (Opens(tid, cs[0].content) && (|cs| == 1 || Ambiguous(cs) || Built(cs)))
  }

  ghost predicate Delivered(log: seq<Publication>, tid: TaskId, a: Option<Artifact>) {
    exists i :: 0 <= i < |log| && log[i].task == tid && log[i].artifact == a
  }

  ghost predicate Produced(tid: TaskId, cs: seq<Checkpoint>, sha: Sha) {
    Built(cs) && cs[0].content.effect == Some(ArtifactEffect(tid, sha))
  }

  ghost predicate Judged(t: Task) {
    Built(t.checkpoints) &&
    var last := t.checkpoints[|t.checkpoints| - 1];
    last.generation == t.generation && last.content.stage == ValidatorResult
  }

  ghost predicate FencedRow(log: seq<Publication>, tid: TaskId, t: Task) {
    History(tid, t.checkpoints) &&
    (Built(t.checkpoints) ==> Delivered(log, tid, ArtifactOf(t.checkpoints[1].content))) &&
    (t.producedSha.Some? ==> Produced(tid, t.checkpoints, t.producedSha.value)) &&
    (t.state == Completed ==> Judged(t))
  }

  // ---- processes

  /** What a process remembers, whatever has become of its lease. */
  ghost predicate Remembers(p: Process) {
    match p.pc
    case RecordingPending => p.latest.None?
    case Publishing => p.latest.None?
    case RecordingUnknown => p.latest.None?
    case VerifyingNew => p.latest.None? && p.artifact.Some?
    case VerifyingOld => CanResume(p, p.sha) && p.artifact == ArtifactOf(p.latest.value.content)
    case RecordingResult =>
      p.artifact.Some? && (p.latest.Some? ==> CanResume(p, p.sha) && p.artifact == ArtifactOf(p.latest.value.content))
    case Judging => CanInspect(p) && p.artifact == ArtifactOf(p.latest.value.content)
    case RecordingVerdict => CanInspect(p) && p.artifact == ArtifactOf(p.latest.value.content)
    case _ => true
  }

  ghost predicate HasPublished(p: Process) {
    p.pc == VerifyingNew || (p.pc == RecordingResult && p.latest.None?)
  }

  ghost predicate HasOpened(p: Process) {
    p.pc == Publishing || p.pc == RecordingUnknown || HasPublished(p)
  }

  /** What the history of its task looks like to a process that still has the current generation. */
  ghost predicate SeesNow(p: Process, cs: seq<Checkpoint>) {
    match p.pc
    case ReadingLatest => true
    case Blocking => true
    case Failing => true
    case Submitting => Produced(p.task, cs, p.sha)
    case Completing => Built(cs) && cs[|cs| - 1].generation == p.generation && cs[|cs| - 1].content.stage == ValidatorResult
    case _ =>
      if HasOpened(p) then |cs| == 1
      else p.latest == if cs == [] then None else Some(cs[|cs| - 1])
  }

  ghost predicate OpenedBy(p: Process, cs: seq<Checkpoint>) {
    cs != [] && cs[0].generation == p.generation && cs[0].content.effect == Some(EffectOf(p))
  }

  ghost predicate ProcessRow(p: Process, t: Task) {
    t.meta.fenced && 1 <= p.generation <= t.generation &&
    (HasOpened(p) ==> OpenedBy(p, t.checkpoints)) &&
    (p.generation == t.generation ==> SeesNow(p, t.checkpoints))
  }

  ghost predicate ProcessIn(db: DB, log: seq<Publication>, p: Process) {
    p.task in db.tasks && ProcessRow(p, db.tasks[p.task]) && Remembers(p) &&
    (HasPublished(p) ==> Delivered(log, p.task, p.artifact))
  }

  /** A publication is recorded by the first checkpoint of its task. */
  ghost predicate LoggedRow(entry: Publication, t: Task) {
    t.meta.fenced && t.checkpoints != [] && t.checkpoints[0].generation == entry.generation &&
    t.checkpoints[0].content.effect == Some(entry.effect)
  }

  ghost predicate Unlogged(log: seq<Publication>, tid: TaskId) {
    forall i :: 0 <= i < |log| ==> log[i].task != tid
  }

  ghost predicate LogOnce(log: seq<Publication>) {
    forall i, j :: 0 <= i < j < |log| ==> log[i].task != log[j].task
  }

  ghost predicate LogIn(db: DB, log: seq<Publication>) {
    forall i :: 0 <= i < |log| ==> log[i].task in db.tasks && LoggedRow(log[i], db.tasks[log[i].task])
  }

  ghost predicate FencedRows(db: DB, log: seq<Publication>) {
    forall tid :: tid in db.tasks && db.tasks[tid].meta.fenced ==> FencedRow(log, tid, db.tasks[tid])
  }

  ghost predicate ProcessesIn(s: Pool) {
    forall id :: id in s.processes ==>
      ProcessIn(s.db, s.log, s.processes[id]) &&
      (s.processes[id].pc == Publishing ==> Unlogged(s.log, s.processes[id].task))
  }

  /** Every grant starts one process. */
  ghost predicate Apart(ps: map<nat, Process>) {
    forall a, b :: a in ps && b in ps && a != b && ps[a].task == ps[b].task ==> ps[a].generation != ps[b].generation
  }

  /** A checkpoint of a native executor carries the attempt it was recorded under in its id. */
  ghost predicate Signed(c: Checkpoint) {
    c.id.NativeCheckpoint? && c.id.attempt == c.attempt
  }

  ghost predicate AllSigned(cs: seq<Checkpoint>) {
    forall i :: 0 <= i < |cs| ==> Signed(cs[i])
  }

  ghost predicate SignedRows(db: DB) {
    forall tid :: tid in db.tasks && db.tasks[tid].meta.fenced ==> AllSigned(db.tasks[tid].checkpoints)
  }

  ghost predicate ExecInv(s: Pool) {
    Inv(s.db) && SignedRows(s.db) && FencedRows(s.db, s.log) && LogIn(s.db, s.log) && LogOnce(s.log) &&
    ProcessesIn(s) && Apart(s.processes)
  }

  // ---- rows that native executors do not touch

  ghost predicate Calm(t: Task, t': Task) {
    t'.meta == t.meta && t'.checkpoints == t.checkpoints && t'.generation == t.generation &&
    t'.producedSha == t.producedSha && (t'.state == Completed <==> t.state == Completed)
  }

  ghost predicate FreshRow(t: Task) {
    t.checkpoints == [] && t.producedSha.None? && t.state == Queued
  }

  ghost predicate CalmIfFenced(t: Task, t': Task) {
    t'.meta == t.meta && (t.meta.fenced ==> Calm(t, t'))
  }

  ghost predicate CalmTasks(db: DB, db': DB) {
    (forall tid :: tid in db.tasks ==> tid in db'.tasks && CalmIfFenced(db.tasks[tid], db'.tasks[tid])) &&
    (forall tid :: tid in db'.tasks && tid !in db.tasks ==> FreshRow(db'.tasks[tid]))
  }

  lemma SweepIsCalm(t: Task, now: int, move: Move)
    requires move.SweepExpired? || move.SweepStalled? || move.Renew? || move.Start? || move.Fail? || move.Block? ||
             move.Resolve? || move.Requeue?
    requires t.state != Completed
    ensures Calm(t, Apply(t, now, move))
  {
  }

  lemma QuietRowIsCalm(cfg: Config, db: DB, op: Op, tid: TaskId, t: Task, t': Task, now: int)
    requires tid in db.tasks && db.tasks[tid].meta.fenced && Outside(db, op)
    requires QuietRow(cfg, op, tid, t, t', now)
    ensures Calm(t, t')
  {
    hide Apply;
    if t' != t {
      var move :| QuietMove(cfg, op, tid, t, t', now, move);
      SweepIsCalm(t, now, move);
    }
  }

  lemma QuietKeepsMeta(cfg: Config, op: Op, tid: TaskId, t: Task, t': Task, now: int)
    requires QuietRow(cfg, op, tid, t, t', now)
    ensures t'.meta == t.meta
  {
    if t' != t {
      var move :| QuietMove(cfg, op, tid, t, t', now, move);
      QuietMoveShape(t, now, move);
    }
  }

  lemma QuietIsCalm(cfg: Config, op: Op, db: DB, db': DB, now: int)
    requires Outside(db, op) && Quiet(cfg, op, db, db', now)
    ensures CalmTasks(db, db')
  {
    hide Apply, Outside, QuietLanes;
    forall tid | tid in db.tasks ensures CalmIfFenced(db.tasks[tid], db'.tasks[tid]) {
      QuietKeepsMeta(cfg, op, tid, db.tasks[tid], db'.tasks[tid], now);
      if db.tasks[tid].meta.fenced { QuietRowIsCalm(cfg, db, op, tid, db.tasks[tid], db'.tasks[tid], now); }
    }
  }

  lemma CalmTransitive(a: DB, b: DB, c: DB)
    requires CalmTasks(a, b) && CalmTasks(b, c) && b.tasks.Keys == a.tasks.Keys
    ensures CalmTasks(a, c)
  {
    hide Calm;
    forall tid | tid in a.tasks ensures CalmIfFenced(a.tasks[tid], c.tasks[tid]) {
      CalmRowTransitive(a.tasks[tid], b.tasks[tid], c.tasks[tid]);
    }
  }

  lemma CalmRowTransitive(a: Task, b: Task, c: Task)
    requires CalmIfFenced(a, b) && CalmIfFenced(b, c)
    ensures CalmIfFenced(a, c)
  {
  }

  lemma LegacyGrantIsCalm(cfg: Config, db: DB, db': DB, now: int, c: Claim)
    requires Inv(db) && Granted(cfg, db, db', now, c) && !c.fenced
    ensures CalmTasks(db, db')
  {
    hide IsFirst, NotReady, RowInv, LaneLedger;
    GrantEnabled(cfg, db, db', now, c);
  }

  /** Nothing outside the native executors writes what they rely on. */
  lemma EnvironmentIsCalm(cfg: Config, db: DB, now: int, op: Op)
    requires Inv(db) && Possible(cfg, db, now, op) && Outside(db, op)
    ensures CalmTasks(db, After(cfg, db, now, op))
  {
    hide Inv, After, Quiet, CalmTasks, Outside;
    StepStages(cfg, db, now, op);
    StepKeepsInv(cfg, db, now, op);
    var first, mid, last := Recovered(cfg, db, now, op), Swept(cfg, db, now, op), After(cfg, db, now, op);
    StagesKeepKeys(cfg, db, now, op);
    QuietIsCalm(cfg, op, db, first, now);
    QuietIsCalm(cfg, op, first, mid, now);
    CalmTransitive(db, first, mid);
    if Quiet(cfg, op, mid, last, now) {
      QuietIsCalm(cfg, op, mid, last, now);
    } else {
      var c :| GrantedTo(cfg, mid, last, now, op, c);
      UnfencedClaim(db, op);
      LegacyGrantIsCalm(cfg, mid, last, now, c);
    }
    CalmTransitive(db, mid, last);
  }

  lemma UnfencedClaim(db: DB, op: Op)
    requires op.ClaimOp? && Outside(db, op)
    ensures !op.fenced
  {
  }

  /** The sweeps inside a step add no task, and an operation that begins with sweeps is outside of any state. */
  lemma StagesKeepKeys(cfg: Config, db: DB, now: int, op: Op)
    requires Possible(cfg, db, now, op) && Outside(db, op)
    ensures Recovered(cfg, db, now, op).tasks.Keys == db.tasks.Keys && Swept(cfg, db, now, op).tasks.Keys == db.tasks.Keys
    ensures Outside(Recovered(cfg, db, now, op), op) && Outside(Swept(cfg, db, now, op), op)
  {
    hide Apply, SweepRows, ClaimTask, Stalled, Scan, StalledRows;
    match op
    case ClaimOp(_, _, _, only, _, order) => if only.None? { SweepRowsKeys(cfg, RecoverExpired(db, now), now, order); }
    case ReconcileOp(order) => SweepRowsKeys(cfg, RecoverExpired(db, now), now, order);
    case RecoverStalledOp(order) => SweepRowsKeys(cfg, db, now, order);
    case _ =>
  }

  // ---- steps of the environment

  lemma CalmKeepsRow(log: seq<Publication>, tid: TaskId, t: Task, t': Task)
    requires FencedRow(log, tid, t) && Calm(t, t')
    ensures FencedRow(log, tid, t')
  {
    hide History, Built, Delivered;
  }

  lemma CalmKeepsProcess(db: DB, db': DB, log: seq<Publication>, p: Process)
    requires ProcessIn(db, log, p) && CalmTasks(db, db')
    ensures ProcessIn(db', log, p)
  {
    hide SeesNow, Remembers, Delivered, OpenedBy;
    assert CalmIfFenced(db.tasks[p.task], db'.tasks[p.task]);
  }

  lemma FreshIsFenced(log: seq<Publication>, tid: TaskId, t: Task)
    requires FreshRow(t)
    ensures FencedRow(log, tid, t)
  {
  }

  lemma CalmKeepsSigned(db: DB, db': DB)
    requires SignedRows(db) && CalmTasks(db, db')
    ensures SignedRows(db')
  {
    hide AllSigned;
    forall tid | tid in db'.tasks && db'.tasks[tid].meta.fenced ensures AllSigned(db'.tasks[tid].checkpoints) {
      if tid in db.tasks {
        assert CalmIfFenced(db.tasks[tid], db'.tasks[tid]);
      } else {
        NothingToSign(db'.tasks[tid].checkpoints);
      }
    }
  }

  lemma NothingToSign(cs: seq<Checkpoint>)
    ensures cs == [] ==> AllSigned(cs)
  {
  }

  lemma CalmKeeps(s: Pool, db': DB)
    requires ExecInv(s) && Inv(db') && CalmTasks(s.db, db')
    ensures ExecInv(s.(db := db'))
  {
    hide Inv, FencedRow, ProcessIn, LogOnce, SignedRows;
    forall tid | tid in db'.tasks && db'.tasks[tid].meta.fenced ensures FencedRow(s.log, tid, db'.tasks[tid]) {
      if tid in s.db.tasks {
        CalmKeepsRow(s.log, tid, s.db.tasks[tid], db'.tasks[tid]);
      } else {
        FreshIsFenced(s.log, tid, db'.tasks[tid]);
      }
    }
    CalmKeepsSigned(s.db, db');
    forall id | id in s.processes ensures ProcessIn(db', s.log, s.processes[id]) {
      CalmKeepsProcess(s.db, db', s.log, s.processes[id]);
    }
  }

  // ---- claims

  lemma ExactClaimWrites(cfg: Config, db: DB, now: int, worker: WorkerId, role: Role, seconds: Option<int>, task: TaskId)
    requires Inv(db)
    ensures var tx := FencedClaim(cfg, db, now, worker, role, seconds, task);
      tx.Commit? ==>
        Inv(tx.db) && (tx.value.None? ==> tx.db == db) &&
        (tx.value.Some? ==>
          var g := tx.value.value;
          g.task in db.tasks && db.tasks[g.task].meta.fenced && tx.db.tasks == db.tasks[g.task := tx.db.tasks[g.task]] &&
          GrantedRow(db.tasks[g.task], tx.db.tasks[g.task]) && g.generation == tx.db.tasks[g.task].generation)
  {
    hide Inv, Pick, LaneLedger;
    var tx := FencedClaim(cfg, db, now, worker, role, seconds, task);
    var op := ClaimOp(worker, role, seconds, Some(task), true, []);
    if tx.Commit? {
      ClaimOutcome(cfg, db, now, worker, role, seconds, Some(task), true, []);
      StepKeepsInv(cfg, db, now, op);
      if tx.value.Some? {
        var c := Claim(tx.value.value.task, worker, role, OrDefault(seconds, cfg.leaseSeconds), Some(task), true);
        GrantEnabled(cfg, db, tx.db, now, c);
        GrantedIsFenced(cfg, db, tx.db, now, c);
      }
    }
  }

  lemma GrantedIsFenced(cfg: Config, db: DB, db': DB, now: int, c: Claim)
    requires Granted(cfg, db, db', now, c)
    ensures c.task in db.tasks && db.tasks[c.task].meta.fenced == c.fenced
  {
    hide IsFirst, NotReady;
  }

  ghost predicate GrantedRow(t: Task, t': Task) {
    t'.meta == t.meta && t'.checkpoints == t.checkpoints && t'.generation == t.generation + 1 &&
    t'.producedSha == t.producedSha && t'.state != Completed
  }

  lemma GrantKeepsProcess(db: DB, db': DB, log: seq<Publication>, p: Process, task: TaskId)
    requires ProcessIn(db, log, p) && task in db.tasks && task in db'.tasks
    requires db'.tasks == db.tasks[task := db'.tasks[task]] && GrantedRow(db.tasks[task], db'.tasks[task])
    ensures ProcessIn(db', log, p)
  {
    hide Remembers, Delivered, OpenedBy, SeesNow;
  }

  lemma GrantKeepsFencedRow(log: seq<Publication>, tid: TaskId, t: Task, t': Task)
    requires FencedRow(log, tid, t) && GrantedRow(t, t')
    ensures FencedRow(log, tid, t')
  {
    hide History, Built, Delivered;
  }

  lemma ClaimKeeps(cfg: Config, s: Pool, now: int, step: ExecStep)
    requires ExecInv(s) && step.ClaimStep? && CanStep(cfg, s, now, step)
    ensures ExecInv(Next(cfg, s, now, step))
  {
    hide Inv, FencedRow, ProcessIn, LogOnce, FencedClaim, GrantedRow;
    var tx := FencedClaim(cfg, s.db, now, step.worker, step.role, step.seconds, step.task);
    ExactClaimWrites(cfg, s.db, now, step.worker, step.role, step.seconds, step.task);
    if tx.Commit? && tx.value.Some? {
      GrantKeeps(s, tx.db, tx.value.value, step.id);
    }
  }

  lemma GrantKeeps(s: Pool, db': DB, g: LeaseGrant, id: nat)
    requires ExecInv(s) && Inv(db') && g.task in s.db.tasks && s.db.tasks[g.task].meta.fenced && g.task in db'.tasks
    requires db'.tasks == s.db.tasks[g.task := db'.tasks[g.task]] && GrantedRow(s.db.tasks[g.task], db'.tasks[g.task])
    requires g.generation == db'.tasks[g.task].generation && id !in s.processes
    ensures ExecInv(s.(db := db', processes := s.processes[id := Started(g, db'.tasks[g.task].producedSha)]))
  {
    hide Inv, FencedRow, LogOnce, Delivered, SeesNow, Remembers, OpenedBy, AllSigned;
    GrantKeepsFencedRow(s.log, g.task, s.db.tasks[g.task], db'.tasks[g.task]);
    forall k | k in s.processes ensures ProcessIn(db', s.log, s.processes[k]) {
      GrantKeepsProcess(s.db, db', s.log, s.processes[k], g.task);
    }
    NewProcess(db', s.log, g);
  }

  lemma NewProcess(db: DB, log: seq<Publication>, g: LeaseGrant)
    requires g.task in db.tasks && db.tasks[g.task].meta.fenced && 1 <= g.generation == db.tasks[g.task].generation
    ensures ProcessIn(db, log, Started(g, db.tasks[g.task].producedSha))
  {
  }

  // ---- reads and local actions

  lemma ReadKeeps(cfg: Config, s: Pool, now: int, step: ExecStep)
    requires ExecInv(s) && (step.ReadLatestStep? || step.ReadEffectsStep? || step.CrashStep?) && CanStep(cfg, s, now, step)
    ensures ExecInv(Next(cfg, s, now, step))
  {
    hide Inv, SignedRows, FencedRow, LogOnce, ProcessIn, ContextIsSafe, EffectsOf;
    if !step.CrashStep? { ReadProcess(cfg, s, now, step); }
  }

  lemma ReadProcess(cfg: Config, s: Pool, now: int, step: ExecStep)
    requires (step.ReadLatestStep? || step.ReadEffectsStep?) && CanStep(cfg, s, now, step)
    requires ProcessIn(s.db, s.log, s.processes[step.id])
    ensures var p, p' := s.processes[step.id], Next(cfg, s, now, step).processes[step.id];
      ProcessIn(s.db, s.log, p') && p'.task == p.task && p'.generation == p.generation && p'.pc != Publishing
  {
    hide Delivered, ContextIsSafe, EffectsOf, OpenedBy;
  }

  lemma LongerLog(log: seq<Publication>, entry: Publication, tid: TaskId, a: Option<Artifact>)
    requires Delivered(log, tid, a)
    ensures Delivered(log + [entry], tid, a)
  {
    var i :| 0 <= i < |log| && log[i].task == tid && log[i].artifact == a;
    assert (log + [entry])[i] == log[i];
  }

  lemma LongerLogKeepsRow(log: seq<Publication>, entry: Publication, tid: TaskId, t: Task)
    requires FencedRow(log, tid, t)
    ensures FencedRow(log + [entry], tid, t)
  {
    hide History, Delivered, Produced, Judged;
    if Built(t.checkpoints) { LongerLog(log, entry, tid, ArtifactOf(t.checkpoints[1].content)); }
  }

  lemma ActedProcess(db: DB, log: seq<Publication>, p: Process, ok: bool, sha: Sha, artifact: Artifact)
    requires ProcessIn(db, log, p) && Acting(p.pc) && p.pc != Publishing
    ensures ProcessIn(db, log, AfterAction(p, ok, sha, artifact)) && AfterAction(p, ok, sha, artifact).pc != Publishing
  {
    hide Delivered, Resumable;
  }

  lemma ActKeeps(cfg: Config, s: Pool, now: int, step: ExecStep)
    requires ExecInv(s) && step.ActStep? && CanStep(cfg, s, now, step) && s.processes[step.id].pc != Publishing
    ensures ExecInv(Next(cfg, s, now, step))
  {
    hide Inv, SignedRows, FencedRow, LogOnce, ProcessIn, AfterAction;
    var p := s.processes[step.id];
    ActedProcess(s.db, s.log, p, step.ok, step.sha, step.artifact);
    SameLease(p, step.ok, step.sha, step.artifact);
  }

  lemma SameLease(p: Process, ok: bool, sha: Sha, artifact: Artifact)
    ensures var p' := AfterAction(p, ok, sha, artifact); p'.task == p.task && p'.generation == p.generation
  {
  }

  lemma PublishedProcess(db: DB, log: seq<Publication>, p: Process, ok: bool, sha: Sha, artifact: Artifact)
    requires ProcessIn(db, log, p) && p.pc == Publishing
    ensures ProcessIn(db, log + [Publication(p.task, p.generation, EffectOf(p), if ok then Some(artifact) else None)],
                      AfterAction(p, ok, sha, artifact))
  {
    var log' := log + [Publication(p.task, p.generation, EffectOf(p), if ok then Some(artifact) else None)];
    assert log'[|log|].task == p.task;
  }

  lemma LongerLogKeepsProcess(db: DB, log: seq<Publication>, entry: Publication, p: Process)
    requires ProcessIn(db, log, p)
    ensures ProcessIn(db, log + [entry], p)
  {
    hide Delivered, ProcessRow, Remembers;
    if HasPublished(p) { LongerLog(log, entry, p.task, p.artifact); }
  }

  lemma LongerLogIn(db: DB, log: seq<Publication>, entry: Publication)
    requires LogIn(db, log) && LogOnce(log) && Unlogged(log, entry.task)
    requires entry.task in db.tasks && LoggedRow(entry, db.tasks[entry.task])
    ensures LogIn(db, log + [entry]) && LogOnce(log + [entry])
  {
    hide LoggedRow;
  }

  lemma StillUnlogged(log: seq<Publication>, entry: Publication, tid: TaskId)
    requires Unlogged(log, tid) && entry.task != tid
    ensures Unlogged(log + [entry], tid)
  {
  }

  lemma PublishKeeps(cfg: Config, s: Pool, now: int, step: ExecStep)
    requires ExecInv(s) && step.ActStep? && CanStep(cfg, s, now, step) && s.processes[step.id].pc == Publishing
    ensures ExecInv(Next(cfg, s, now, step))
  {
    hide Inv, SignedRows, FencedRow, ProcessIn, AfterAction, LogIn, LogOnce, Unlogged;
    var p := s.processes[step.id];
    var entry := Publication(p.task, p.generation, EffectOf(p), if step.ok then Some(step.artifact) else None);
    var s' := Next(cfg, s, now, step);
    assert s'.log == s.log + [entry];
    SameLease(p, step.ok, step.sha, step.artifact);
    PublishedProcess(s.db, s.log, p, step.ok, step.sha, step.artifact);
    LeavesPublishing(p, step.ok, step.sha, step.artifact);
    PublisherOpened(s.db, s.log, p);
    LongerLogIn(s.db, s.log, entry);
    forall tid | tid in s.db.tasks && s.db.tasks[tid].meta.fenced ensures FencedRow(s'.log, tid, s.db.tasks[tid]) {
      LongerLogKeepsRow(s.log, entry, tid, s.db.tasks[tid]);
    }
    forall k | k in s'.processes
      ensures ProcessIn(s'.db, s'.log, s'.processes[k])
      ensures s'.processes[k].pc == Publishing ==> Unlogged(s'.log, s'.processes[k].task)
    {
      if k != step.id {
        LongerLogKeepsProcess(s.db, s.log, entry, s.processes[k]);
        if s.processes[k].pc == Publishing {
          PublisherOpened(s.db, s.log, s.processes[k]);
          StillUnlogged(s.log, entry, s.processes[k].task);
        }
      }
    }
  }

  lemma LeavesPublishing(p: Process, ok: bool, sha: Sha, artifact: Artifact)
    requires p.pc == Publishing
    ensures AfterAction(p, ok, sha, artifact).pc != Publishing
  {
  }

  lemma PublisherOpened(db: DB, log: seq<Publication>, p: Process)
    requires ProcessIn(db, log, p) && p.pc == Publishing
    ensures p.task in db.tasks && db.tasks[p.task].meta.fenced && OpenedBy(p, db.tasks[p.task].checkpoints)
  {
  }
}
