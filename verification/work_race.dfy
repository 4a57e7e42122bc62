/** A run from the empty system in which two overlapping merge reports undo a merge. */
module WorkRace {
  import opened Wrappers
  import opened PoolTypes
  import opened PoolRows
  import opened PoolSpec
  import opened PoolSteps
  import opened PoolInvariant
  import opened WorkRecords
  import opened WorkRuns
  import opened Scenarios

  lemma {:induction false} SystemLonger(cfg: Config, workId: TaskId -> WorkId, s: System, events: seq<SystemEvent>,
                                        now: int, step: Step)
    requires SystemRun(cfg, workId, s, events) && CanStep(cfg, SystemEnd(cfg, workId, s, events), now, step)
    ensures SystemRun(cfg, workId, s, events + [SystemEvent(now, step)])
    ensures SystemEnd(cfg, workId, s, events + [SystemEvent(now, step)]) ==
      Next(cfg, workId, SystemEnd(cfg, workId, s, events), now, step)
    decreases |events|
  {
    hide CanStep, Next;
    var e := SystemEvent(now, step);
    if events == [] {
      assert [] + [e] == [e] && [e][1..] == [];
      assert SystemRun(cfg, workId, Next(cfg, workId, s, now, step), []);
    } else {
      SystemLonger(cfg, workId, Next(cfg, workId, s, events[0].now, events[0].step), events[1..], now, step);
      assert (events + [e])[0] == events[0] && (events + [e])[1..] == events[1..] + [e];
    }
  }

  /** A run of the pool as a run of the system. */
  function Lifted(events: seq<Event>): seq<SystemEvent> {
    if events == [] then [] else [SystemEvent(events[0].now, PoolStep(events[0].op))] + Lifted(events[1..])
  }

  lemma {:induction false} PoolRunLifts(cfg: Config, workId: TaskId -> WorkId, s: System, events: seq<Event>)
    requires Run(cfg, s.db, events)
    ensures SystemRun(cfg, workId, s, Lifted(events))
    ensures SystemEnd(cfg, workId, s, Lifted(events)) == s.(db := End(cfg, s.db, events))
    decreases |events|
  {
    hide After, Possible;
    if events == [] {
      assert s.(db := s.db) == s;
    } else {
      var s1 := s.(db := After(cfg, s.db, events[0].now, events[0].op));
      PoolRunLifts(cfg, workId, s1, events[1..]);
      assert Lifted(events)[0] == SystemEvent(events[0].now, PoolStep(events[0].op));
      assert Lifted(events)[1..] == Lifted(events[1..]);
    }
  }

  // ---- a completed task

  const VALIDATING := BUILDING + [Event(0, ClaimExact(Validator, 0))]
  const COMPLETING := VALIDATING + [Event(0, CompleteOp(Quote(0, Validator, 2)))]

  lemma ReachesCompleted()
    ensures Run(CFG, EMPTY_DB, COMPLETING)
    ensures var db := End(CFG, EMPTY_DB, COMPLETING);
      0 in db.tasks && db.tasks[0].state == Completed && db.tasks[0].producedSha == Some(7)
  {
    hide Run, End, After, Possible, Staffed, HeldRow, BuiltRow;
    ReachesBuilt();
    var db := End(CFG, EMPTY_DB, BUILDING);
    BuiltIsFree(db);
    ValidatorClaimStep(db, 0);
    RunLonger(CFG, EMPTY_DB, BUILDING, 0, ClaimExact(Validator, 0));
    var d1 := End(CFG, EMPTY_DB, VALIDATING);
    CompleteStep(d1, 0, 2);
    RunLonger(CFG, EMPTY_DB, VALIDATING, 0, CompleteOp(Quote(0, Validator, 2)));
  }

  lemma BuiltIsFree(db: DB)
    requires db.tasks.Keys == {0} && BuiltRow(db.tasks[0])
    ensures Free(db, VALIDATOR)
  {
  }

  // ---- a record ready for merge reports

  const PROOF := Evidence(Some(7), Some(0), Some(0), true, true, true)
  const MERGE := MergeReport(Some(7), true, Commit40(8), None)
  const REFUSAL := MergeReport(Some(7), false, Blank, Some(0))

  /** The steps that open the record of task 0 and verify its evidence. */
  function Verifying(workId: TaskId -> WorkId): seq<SystemEvent> {
    Lifted(COMPLETING) + [SystemEvent(0, OpenStep(0, Governed))] +
    [SystemEvent(0, ReadStep(0, workId(0), EvidenceRequest(PROOF)))] +
    [SystemEvent(0, CheckStep(0))] + [SystemEvent(0, WriteStep(0))]
  }

  lemma OpensAndVerifies(workId: TaskId -> WorkId, s: System)
    requires 0 in s.db.tasks && s.db.tasks[0].state == Completed && s.db.tasks[0].producedSha == Some(7)
    requires s.works == map[] && s.calls == map[]
    ensures CanStep(CFG, s, 0, OpenStep(0, Governed))
    ensures var s1 := Next(CFG, workId, s, 0, OpenStep(0, Governed));
      var read := ReadStep(0, workId(0), EvidenceRequest(PROOF));
      CanStep(CFG, s1, 0, read) &&
      var s2 := Next(CFG, workId, s1, 0, read);
      CanStep(CFG, s2, 0, CheckStep(0)) &&
      var s3 := Next(CFG, workId, s2, 0, CheckStep(0));
      CanStep(CFG, s3, 0, WriteStep(0)) &&
      var s4 := Next(CFG, workId, s3, 0, WriteStep(0));
      s4.calls == map[] && ReportsAreWritten(s4, workId(0), MERGE) && ReportsAreWritten(s4, workId(0), REFUSAL)
  {
  }

  lemma ReachesReady(workId: TaskId -> WorkId)
    ensures SystemRun(CFG, workId, EMPTY_SYSTEM, Verifying(workId))
    ensures var s := SystemEnd(CFG, workId, EMPTY_SYSTEM, Verifying(workId));
      s.calls == map[] && ReportsAreWritten(s, workId(0), MERGE) && ReportsAreWritten(s, workId(0), REFUSAL)
  {
    hide Run, End, CanStep, Next, SystemRun, SystemEnd, ReportsAreWritten;
    ReachesCompleted();
    PoolRunLifts(CFG, workId, EMPTY_SYSTEM, COMPLETING);
    var e0 := Lifted(COMPLETING);
    OpensAndVerifies(workId, SystemEnd(CFG, workId, EMPTY_SYSTEM, e0));
    SystemLonger(CFG, workId, EMPTY_SYSTEM, e0, 0, OpenStep(0, Governed));
    var e1 := e0 + [SystemEvent(0, OpenStep(0, Governed))];
    var read := ReadStep(0, workId(0), EvidenceRequest(PROOF));
    SystemLonger(CFG, workId, EMPTY_SYSTEM, e1, 0, read);
    var e2 := e1 + [SystemEvent(0, read)];
    SystemLonger(CFG, workId, EMPTY_SYSTEM, e2, 0, CheckStep(0));
    var e3 := e2 + [SystemEvent(0, CheckStep(0))];
    SystemLonger(CFG, workId, EMPTY_SYSTEM, e3, 0, WriteStep(0));
  }

  /** Both reports read and are checked, then the merge is written. */
  function Merging(workId: TaskId -> WorkId): seq<SystemEvent> {
    Verifying(workId) +
    [SystemEvent(0, ReadStep(0, workId(0), MergeRequest(MERGE)))] + [SystemEvent(0, CheckStep(0))] +
    [SystemEvent(0, ReadStep(1, workId(0), MergeRequest(REFUSAL)))] + [SystemEvent(0, CheckStep(1))] +
    [SystemEvent(0, WriteStep(0))]
  }

  /** Reading and checking one report, at the end of a run. */
  lemma ReadsAtEnd(workId: TaskId -> WorkId, events: seq<SystemEvent>, m: MergeReport, id: nat)
    requires SystemRun(CFG, workId, EMPTY_SYSTEM, events)
    requires var s := SystemEnd(CFG, workId, EMPTY_SYSTEM, events);
      ReportsAreWritten(s, workId(0), m) && id !in s.calls
    ensures var e := events + [SystemEvent(0, ReadStep(id, workId(0), MergeRequest(m)))] + [SystemEvent(0, CheckStep(id))];
      SystemRun(CFG, workId, EMPTY_SYSTEM, e) &&
      SystemEnd(CFG, workId, EMPTY_SYSTEM, e) ==
        AfterReading(CFG, workId, SystemEnd(CFG, workId, EMPTY_SYSTEM, events), 0, workId(0), m, id)
  {
    hide CanStep, Next, SystemRun, SystemEnd, ReportsAreWritten;
    var s, w := SystemEnd(CFG, workId, EMPTY_SYSTEM, events), workId(0);
    ReadThenCheck(CFG, workId, s, 0, w, m, id);
    var read := ReadStep(id, w, MergeRequest(m));
    SystemLonger(CFG, workId, EMPTY_SYSTEM, events, 0, read);
    SystemLonger(CFG, workId, EMPTY_SYSTEM, events + [SystemEvent(0, read)], 0, CheckStep(id));
  }

  lemma StillWritten(s: System, s': System, w: WorkId, m: MergeReport)
    requires ReportsAreWritten(s, w, m) && s' == s.(calls := s'.calls)
    ensures ReportsAreWritten(s', w, m)
  {
  }

  /** From the empty system on: the record is merged, and one write later it is not. */
  lemma MergeIsUndone(workId: TaskId -> WorkId)
    ensures SystemRun(CFG, workId, EMPTY_SYSTEM, Merging(workId))
    ensures SystemRun(CFG, workId, EMPTY_SYSTEM, Merging(workId) + [SystemEvent(0, WriteStep(1))])
    ensures var s := SystemEnd(CFG, workId, EMPTY_SYSTEM, Merging(workId));
      workId(0) in s.works && s.works[workId(0)].mergeState == Merged
    ensures var s := SystemEnd(CFG, workId, EMPTY_SYSTEM, Merging(workId) + [SystemEvent(0, WriteStep(1))]);
      workId(0) in s.works && s.works[workId(0)].mergeState == MergeBlocked
  {
    hide CanStep, SystemRun, SystemEnd, ReportsAreWritten;
    var w := workId(0);
    ReachesReady(workId);
    var e0, s := Verifying(workId), SystemEnd(CFG, workId, EMPTY_SYSTEM, Verifying(workId));
    ReadsAtEnd(workId, e0, MERGE, 0);
    var e1 := e0 + [SystemEvent(0, ReadStep(0, w, MergeRequest(MERGE)))] + [SystemEvent(0, CheckStep(0))];
    StillWritten(s, SystemEnd(CFG, workId, EMPTY_SYSTEM, e1), w, REFUSAL);
    ReadsAtEnd(workId, e1, REFUSAL, 1);
    RacingReportsUndoMerge(CFG, workId, s, 0, w, MERGE, REFUSAL, 0, 1);
    var e2 := e1 + [SystemEvent(0, ReadStep(1, w, MergeRequest(REFUSAL)))] + [SystemEvent(0, CheckStep(1))];
    SystemLonger(CFG, workId, EMPTY_SYSTEM, e2, 0, WriteStep(0));
    SystemLonger(CFG, workId, EMPTY_SYSTEM, e2 + [SystemEvent(0, WriteStep(0))], 0, WriteStep(1));
  }
}
