/** Verdicts and deleted hosts: deleting a host deletes its log rows. */
module HostDeletion {
  import opened Wrappers
  import opened Targets
  import opened Rows
  import opened Counting
  import opened Machine
  import opened Invariants
  import opened UserSteps
  import opened AgentSteps
  import opened Safety
  import opened Stored
  import Progress
  import Response
  import Races

  /** Strategy `i` rolls out task `t` to these hosts, of which some may have been deleted. */
  predicate Chose(z: State, i: nat, t: TaskId, hosts: seq<HostId>) {
    i < |z.strategies| && z.strategies[i].task == t && z.strategies[i].snapshot == Some(hosts) && t in z.db.tasks
  }

  predicate Judged(status: Status) {
    status == Success || status == Failure
  }

  /** The verdict on the task says what the log says. */
  predicate VerdictTells(z: State, t: TaskId, hosts: seq<HostId>)
    requires t in z.db.tasks
  {
    && (z.db.tasks[t].status == Success
        <==> hosts != [] && forall h :: h in hosts ==> LoggedOnce(z.db, t, h, HostUpdated))
    && (z.db.tasks[t].status == Failure
        <==> && (forall h :: h in hosts ==> LoggedOnce(z.db, t, h, HostUpdated) || LoggedOnce(z.db, t, h, HostFailed))
             && (exists h :: h in hosts && LoggedOnce(z.db, t, h, HostFailed)))
  }

  lemma NoLogsOfDeleted(db: Db, t: TaskId, h: HostId)
    requires RowsOk(db) && h !in db.hosts
    ensures forall outcome :: !LoggedOnce(db, t, h, outcome)
  {
    assert HostLogIds(db, t, h) == {};
  }

  /** The verdict says what the log says exactly when no chosen host is gone or there is no verdict. */
  lemma VerdictTellsExactly(z: State, i: nat, t: TaskId, hosts: seq<HostId>)
    requires Reachable(z) && Chose(z, i, t, hosts)
    ensures VerdictTells(z, t, hosts) <==> AllPresent(z.db, hosts) || !Judged(z.db.tasks[t].status)
  {
    if AllPresent(z.db, hosts) {
      VerdictIsExact(z, i, t, hosts);
    } else {
      ReachableInv(z);
      var h :| h in hosts && h !in z.db.hosts;
      NoLogsOfDeleted(z.db, t, h);
    }
  }

  lemma DeletedHost(db: Db, h: HostId)
    requires RowsOk(db)
    ensures DeleteHosts(db, {h}).tasks == db.tasks && h !in DeleteHosts(db, {h}).hosts
  {
  }

  /** Deleting any chosen host after the verdict leads to a state in which it no longer does. */
  lemma DeletionBreaksVerdict(z: State, i: nat, t: TaskId, hosts: seq<HostId>, h: HostId)
    requires Reachable(z) && RollsOut(z, i, t, hosts) && Judged(z.db.tasks[t].status) && h in hosts
    ensures var later := Apply(z, HostsDeleted({h}));
            Reachable(later) && Chose(later, i, t, hosts) && !VerdictTells(later, t, hosts)
  {
    var later := Apply(z, HostsDeleted({h}));
    assert RowsOk(z.db) by {
      ReachableInv(z);
    }
    DeletedHost(z.db, h);
    assert later == z.(db := DeleteHosts(z.db, {h}));
    StepReachable(z, HostsDeleted({h}));
    VerdictTellsExactly(later, i, t, hosts);
  }

  /** And a run in which users store only rows that are in order reaches such a state. */
  lemma SomeVerdictFails()
    ensures exists z, hosts :: OkReachable(z) && Chose(z, 0, 0, hosts) && !VerdictTells(z, 0, hosts)
  {
    Races.ReachesSuccess();
    var z := Races.Updated();
    assert Init(Races.START) && OkReachable(z);
    OkReachableIsReachable(z);
    DeletionBreaksVerdict(z, 0, 0, [0], 0);
    var later := Apply(z, HostsDeleted({0}));
    OkStep(z, HostsDeleted({0}), later);
    OkReachableOn(z, later);
    assert Chose(later, 0, 0, [0]);
  }

  // ----- no verdict after a deletion -----

  predicate NoNewVerdict(db: Db, z: Db, t: TaskId) {
    t in z.tasks && t in db.tasks && Judged(z.tasks[t].status) ==> Judged(db.tasks[t].status)
  }

  lemma StrategyJudgesNothing(db: Db, st: Strategy, found: seq<HostId>, t: TaskId)
    ensures NoNewVerdict(db, StepStrategy(db, st, found).0, t)
  {
  }

  lemma TaskWorkerJudgesNothing(s: State, t: TaskId)
    ensures NoNewVerdict(s.db, StepTaskWorker(s).db, t)
  {
    if s.tw.MarkingRunning? && s.tw.todo != [] && s.tw.todo[0].task in s.db.tasks {
      assert StepTaskWorker(s).db == WriteTaskStatus(s.db, s.tw.todo[0].task, s.tw.loaded, Running);
    } else if !s.tw.DeletingOrphan? {
      assert StepTaskWorker(s).db == s.db;
    }
  }

  lemma UserJudgesNothing(db: Db, l: Step, t: TaskId)
    requires RowsOk(db) && IsUserStep(l)
    ensures NoNewVerdict(db, StepUser(db, l), t)
  {
  }

  lemma DeploymentWorkerJudgesNothing(s: State, t: TaskId)
    requires RowsOk(s.db)
    ensures NoNewVerdict(s.db, StepDeploymentWorker(s).db, t)
  {
  }

  /** Only a report brings a verdict. */
  lemma OthersJudgeNothing(s: State, l: Step, t: TaskId)
    requires RowsOk(s.db) && Enabled(s, l) && !l.ReportTaken?
    ensures NoNewVerdict(s.db, Apply(s, l).db, t)
  {
    if l.StrategySteps? {
      StrategyJudgesNothing(s.db, s.strategies[l.strategy], l.found, t);
    } else if l.TaskWorkerSteps? {
      TaskWorkerJudgesNothing(s, t);
    } else if l.DeploymentWorkerSteps? {
      DeploymentWorkerJudgesNothing(s, t);
    } else if IsUserStep(l) {
      UserJudgesNothing(s.db, l, t);
    } else {
      OthersKeepTables(s, l);
    }
  }

  /** The counters of a judged task add up to the chosen hosts. */
  lemma JudgedTallyIsFull(row: Task, st: Strategy)
    requires TaskRowOk(row, st) && Judged(row.status)
    ensures st.snapshot.Some? && row.tally.updated + row.tally.failed == |st.snapshot.value|
  {
  }

  /** A report that brings a verdict finds a log row of every chosen host. */
  lemma JudgingReportHasEveryLog(s: State, g: HostId, t: TaskId, outcome: Outcome, i: nat, hosts: seq<HostId>)
    requires Inv(s) && Enabled(s, ReportTaken(g, t, outcome)) && Chose(s, i, t, hosts) && g in s.db.hosts
    requires t in TakeReport(s.db, t, g, outcome).tasks && Judged(TakeReport(s.db, t, g, outcome).tasks[t].status)
    ensures RowsOk(TakeReport(s.db, t, g, outcome))
    ensures forall h :: h in hosts ==> Logged(TakeReport(s.db, t, g, outcome).logs, t, h)
  {
    var later := Apply(s, ReportTaken(g, t, outcome));
    assert later.db == TakeReport(s.db, t, g, outcome) && later.strategies == s.strategies;
    TakenReport(s.db, t, g, outcome);
    ReportKeepsInv(s, g, t, outcome);
    FullTallyHasEveryLog(later, i, t, hosts);
  }

  /** So no report brings one when a chosen host is gone. */
  lemma ReportNeedsEveryHost(s: State, g: HostId, u: TaskId, outcome: Outcome, i: nat, t: TaskId, hosts: seq<HostId>)
    requires Inv(s) && Enabled(s, ReportTaken(g, u, outcome)) && Chose(s, i, t, hosts)
    requires !Judged(s.db.tasks[t].status) && !AllPresent(s.db, hosts)
    ensures NoNewVerdict(s.db, TakeReport(s.db, u, g, outcome), t)
  {
    var z := TakeReport(s.db, u, g, outcome);
    if u in s.db.tasks && g in s.db.hosts {
      TakenReport(s.db, u, g, outcome);
      if u == t && Judged(z.tasks[t].status) {
        JudgingReportHasEveryLog(s, g, t, outcome, i, hosts);
        LoggedHostsArePresent(z, t, hosts);
        assert false;
      }
    }
  }

  /** A verdict whose counters are the counts has a log row of every chosen host behind it. */
  lemma FullTallyHasEveryLog(z: State, i: nat, t: TaskId, hosts: seq<HostId>)
    requires Inv(z) && Chose(z, i, t, hosts) && Judged(z.db.tasks[t].status)
    requires z.db.tasks[t].tally.updated == CountHosts(z.db, t, HostUpdated)
    requires z.db.tasks[t].tally.failed == CountHosts(z.db, t, HostFailed)
    ensures forall h :: h in hosts ==> Logged(z.db.logs, t, h)
  {
    assert StrategyOk(z.db, z.agents, z.sent, z.strategies[i]);
    JudgedTallyIsFull(z.db.tasks[t], z.strategies[i]);
    CountsAreHosts(z.db, t, hosts);
  }

  lemma LoggedHostsArePresent(db: Db, t: TaskId, hosts: seq<HostId>)
    requires RowsOk(db) && forall h :: h in hosts ==> Logged(db.logs, t, h)
    ensures AllPresent(db, hosts)
  {
  }

  /** What a strategy chose stays chosen. */
  lemma ChoiceStays(s: State, l: Step, i: nat)
    requires Enabled(s, l) && i < |s.strategies| && ShapeOk(s.strategies[i]) && s.strategies[i].snapshot.Some?
    ensures var z := Apply(s, l);
            && i < |z.strategies| && z.strategies[i].task == s.strategies[i].task
            && z.strategies[i].snapshot == s.strategies[i].snapshot
  {
    if l.StrategySteps? && l.strategy == i {
      Progress.SnapshotStays(s.db, s.strategies[i], l.found);
    } else if l.StrategySteps? || l.StrategyCrashes? {
      Progress.OthersStay(s, l, i);
    } else if l.PatchPosts? || l.PatchPolls? || l.PatchCrashes? {
      Progress.ChildrenStay(s, l, i);
    } else if l.TaskWorkerSteps? {
    } else {
      assert Apply(s, l).strategies == s.strategies;
    }
  }

  /** A chosen host is gone and the task has no verdict. */
  predicate Hopeless(s: State, i: nat, t: TaskId, hosts: seq<HostId>) {
    && i < |s.strategies| && s.strategies[i].task == t && s.strategies[i].snapshot == Some(hosts)
    && !AllPresent(s.db, hosts)
    && (t in s.db.tasks ==> !Judged(s.db.tasks[t].status))
  }

  lemma DeletedStaysDeleted(db: Db, z: Db, hosts: seq<HostId>)
    requires !AllPresent(db, hosts) && Response.HostsGo(db, z) && forall h :: h in hosts ==> h < db.nextHost
    ensures !AllPresent(z, hosts)
  {
  }

  lemma ChosenHostStaysDeleted(s: State, l: Step, i: nat, hosts: seq<HostId>)
    requires Inv(s) && Enabled(s, l) && i < |s.strategies| && s.strategies[i].snapshot == Some(hosts)
    requires !AllPresent(s.db, hosts)
    ensures !AllPresent(Apply(s, l).db, hosts) && ShapeOk(s.strategies[i])
    ensures s.strategies[i].task in Apply(s, l).db.tasks ==> s.strategies[i].task in s.db.tasks
  {
    assert StrategyOk(s.db, s.agents, s.sent, s.strategies[i]);
    assert RowsOk(s.db) && !s.tw.DeletingOrphan?;
    Response.StepKeepsLogs(s, l);
    DeletedStaysDeleted(s.db, Apply(s, l).db, hosts);
    StepMovesOn(s, l);
  }

  lemma HopelessStepJudgesNothing(s: State, l: Step, i: nat, t: TaskId, hosts: seq<HostId>)
    requires Inv(s) && Enabled(s, l) && Hopeless(s, i, t, hosts) && t in s.db.tasks
    ensures NoNewVerdict(s.db, Apply(s, l).db, t)
  {
    if l.ReportTaken? {
      ReportNeedsEveryHost(s, l.host, l.task, l.outcome, i, t, hosts);
    } else {
      OthersJudgeNothing(s, l, t);
    }
  }

  lemma StepKeepsHopeless(s: State, l: Step, i: nat, t: TaskId, hosts: seq<HostId>)
    requires Inv(s) && Enabled(s, l) && Hopeless(s, i, t, hosts)
    ensures Hopeless(Apply(s, l), i, t, hosts)
  {
    ChosenHostStaysDeleted(s, l, i, hosts);
    ChoiceStays(s, l, i);
    if t in Apply(s, l).db.tasks {
      HopelessStepJudgesNothing(s, l, i, t, hosts);
    }
  }

  /** Once a chosen host has been deleted while the task has no verdict, no run gives it one. */
  lemma {:induction false} NoVerdictAfterDeletion(s: State, steps: seq<Step>, z: State,
                                                  i: nat, t: TaskId, hosts: seq<HostId>)
    requires Inv(s) && Run(s, steps, z) && Hopeless(s, i, t, hosts)
    ensures Hopeless(z, i, t, hosts)
    decreases |steps|
  {
    if steps == [] {
    } else {
      StepKeepsInv(s, steps[0]);
      StepKeepsHopeless(s, steps[0], i, t, hosts);
      NoVerdictAfterDeletion(Apply(s, steps[0]), steps[1..], z, i, t, hosts);
    }
  }
}
