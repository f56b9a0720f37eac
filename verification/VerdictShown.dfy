/** When a deployment shows the verdict of its task. */
module VerdictShown {
  import opened Wrappers
  import opened Targets
  import opened Rows
  import opened Machine
  import opened Invariants
  import opened UserSteps
  import opened AgentSteps
  import opened Safety
  import opened Creation
  import opened Provenance
  import opened HostDeletion
  import opened StatusOrder
  import Conservation

  /** The task has a verdict and is the only task of the deployment. */
  predicate OnlyJudged(db: Db, t: TaskId, d: DeploymentId) {
    t in db.tasks && Judged(db.tasks[t].status) && TasksOf(db, d) == {t} && d in db.deployments
  }

  predicate Shown(db: Db, t: TaskId, d: DeploymentId) {
    OnlyJudged(db, t, d) ==> db.deployments[d].status in {db.tasks[t].status, Pending}
  }

  ghost predicate AllShown(db: Db) {
    forall t, d :: Shown(db, t, d)
  }

  // ----- a task that already has its verdict -----

  lemma OwnTaskIsNotJudged(db: Db, st: Strategy, t: TaskId)
    requires st.pc.MarkDeployment? || st.pc.SkipDeployment?
    requires ShapeOk(st) && Serves(db, st.task, st.deployment)
    requires st.task in db.tasks ==> TaskRowOk(db.tasks[st.task], st)
    ensures !OnlyJudged(db, t, st.deployment)
  {
    assert st.deployment in db.deployments ==> st.task in TasksOf(db, st.deployment);
  }

  lemma StrategyKeepsShown(s: State, i: nat, found: seq<HostId>, t: TaskId, d: DeploymentId)
    requires StrategiesOk(s) && StrategiesServe(s.db, s.strategies) && Enabled(s, StrategySteps(i, found))
    requires OnlyJudged(s.db, t, d) && d in StepStrategy(s.db, s.strategies[i], found).0.deployments
    ensures StepStrategy(s.db, s.strategies[i], found).0.deployments[d].status == s.db.deployments[d].status
  {
    var st := s.strategies[i];
    assert StrategyOk(s.db, s.agents, s.sent, st) && Serves(s.db, st.task, st.deployment);
    StrategyWrites(s.db, st, found);
    if st.pc.MarkDeployment? || st.pc.SkipDeployment? {
      OwnTaskIsNotJudged(s.db, st, t);
    }
  }

  lemma OtherReportKeepsShown(db: Db, u: TaskId, h: HostId, outcome: Outcome, t: TaskId, d: DeploymentId)
    requires OnlyJudged(db, t, d) && (u in db.tasks && h in db.hosts ==> u != t)
    requires d in TakeReport(db, u, h, outcome).deployments
    ensures TakeReport(db, u, h, outcome).deployments[d].status == db.deployments[d].status
  {
    if u in db.tasks && h in db.hosts {
      ReportWrites(db, u, h, outcome);
      assert u !in TasksOf(db, d);
    }
  }

  /** The reported task has no verdict yet. */
  lemma ReportIsForAnother(s: State, l: Step, t: TaskId)
    requires Inv(s) && Enabled(s, l) && l.ReportTaken? && t in s.db.tasks && Judged(s.db.tasks[t].status)
    ensures l.task in s.db.tasks && l.host in s.db.hosts ==> l.task != t
  {
    assert l.host in s.agents && LoadOk(s.agents[l.host], l.host, l.task, s.sent, s.db.logs);
    if l.task in s.db.tasks {
      ReportedTaskIsRunning(s, l.task, l.host);
    }
  }

  /** Once the only task of a deployment has its verdict, a step leaves the deployment's status alone
      or writes "pending". */
  lemma StepLeavesOrPends(s: State, l: Step, t: TaskId, d: DeploymentId)
    requires Inv(s) && StrategiesServe(s.db, s.strategies) && Enabled(s, l)
    requires OnlyJudged(s.db, t, d) && d in Apply(s, l).db.deployments
    ensures Apply(s, l).db.deployments[d].status in {s.db.deployments[d].status, Pending}
  {
    if l.ReportTaken? {
      ReportIsForAnother(s, l, t);
      OtherReportKeepsShown(s.db, l.task, l.host, l.outcome, t, d);
    } else {
      UnreportedStepPends(s, l, t, d);
    }
  }

  lemma UnreportedStepPends(s: State, l: Step, t: TaskId, d: DeploymentId)
    requires RowsOk(s.db) && StrategiesOk(s) && StrategiesServe(s.db, s.strategies) && Enabled(s, l) && !l.ReportTaken?
    requires OnlyJudged(s.db, t, d) && d in Apply(s, l).db.deployments
    ensures Apply(s, l).db.deployments[d].status in {s.db.deployments[d].status, Pending}
  {
    if l.StrategySteps? {
      StrategyKeepsShown(s, l.strategy, l.found, t, d);
    } else if l.DeploymentWorkerSteps? {
      DeploymentWorkerWrites(s);
    } else {
      OthersWriteNothing(s, l);
    }
  }

  // ----- every reachable state -----

  lemma TasksOfStay(db: Db, z: Db, d: DeploymentId)
    requires TasksStay(db, z) && SameDeployments(db, z) && RowsOk(db) && d in z.deployments
    ensures TasksOf(db, d) <= TasksOf(z, d)
  {
  }

  /** The verdict was there before the step. */
  lemma VerdictWasThere(s: State, l: Step, t: TaskId, d: DeploymentId)
    requires Inv(s) && Enabled(s, l) && OnlyJudged(Apply(s, l).db, t, d)
    requires t in s.db.tasks && Judged(s.db.tasks[t].status) && s.db.tasks[t].deployment == d && d in s.db.deployments
    ensures OnlyJudged(s.db, t, d) && Apply(s, l).db.tasks[t].status == s.db.tasks[t].status
  {
    StepGrows(s, l);
    TasksOfStay(s.db, Apply(s, l).db, d);
    assert t in TasksOf(s.db, d);
  }

  /** The verdict comes with the step, a report. */
  lemma NewVerdictIsShown(s: State, l: Step, t: TaskId, d: DeploymentId)
    requires Inv(s) && Enabled(s, l) && OnlyJudged(Apply(s, l).db, t, d)
    requires t in s.db.tasks && !Judged(s.db.tasks[t].status)
    ensures Apply(s, l).db.deployments[d].status == Apply(s, l).db.tasks[t].status
  {
    var z := Apply(s, l).db;
    if !l.ReportTaken? {
      OthersJudgeNothing(s, l, t);
      assert false;
    } else {
      assert t in TasksOf(z, d);
      assert l.host in s.agents && LoadOk(s.agents[l.host], l.host, l.task, s.sent, s.db.logs);
      ReportOfNewVerdict(s.db, l.task, l.host, l.outcome, t);
      ReportedTaskIsRunning(s, t, l.host);
      Conservation.VerdictIsWrittenTwice(s.db, l.host, t, l.outcome);
    }
  }

  lemma ReportOfNewVerdict(db: Db, u: TaskId, h: HostId, outcome: Outcome, t: TaskId)
    requires RowsOk(db) && t in db.tasks && !Judged(db.tasks[t].status)
    requires t in TakeReport(db, u, h, outcome).tasks && Judged(TakeReport(db, u, h, outcome).tasks[t].status)
    ensures u == t && h in db.hosts
  {
    if u in db.tasks && h in db.hosts {
      TakenReport(db, u, h, outcome);
    }
  }

  lemma StepKeepsShown(s: State, l: Step, t: TaskId, d: DeploymentId)
    requires Inv(s) && StrategiesServe(s.db, s.strategies) && Enabled(s, l) && Shown(s.db, t, d)
    ensures Shown(Apply(s, l).db, t, d)
  {
    var z := Apply(s, l).db;
    if OnlyJudged(z, t, d) {
      assert t in TasksOf(z, d);
      VerdictHasOldTask(s, l, t);
      StepKeepsDeployments(s, l);
      if Judged(s.db.tasks[t].status) {
        VerdictWasThere(s, l, t, d);
        StepLeavesOrPends(s, l, t, d);
      } else {
        NewVerdictIsShown(s, l, t, d);
      }
    }
  }

  /** A task does not have a verdict when it is created. */
  lemma VerdictHasOldTask(s: State, l: Step, t: TaskId)
    requires Inv(s) && Enabled(s, l) && t in Apply(s, l).db.tasks && Judged(Apply(s, l).db.tasks[t].status)
    ensures t in s.db.tasks && RowsOk(s.db) && !s.tw.DeletingOrphan? && s.db.tasks[t].deployment in s.db.deployments
  {
    if IsDeploymentWorkerStep(l) {
      WorkerCreatesUnjudged(s, l, t);
    } else {
      OtherStepLeavesUnknown(s, l);
    }
  }

  lemma WorkerCreatesUnjudged(s: State, l: Step, t: TaskId)
    requires Enabled(s, l) && IsDeploymentWorkerStep(l)
    ensures t in Apply(s, l).db.tasks && Judged(Apply(s, l).db.tasks[t].status) ==> t in s.db.tasks
  {
  }

  lemma {:induction false} RunKeepsShown(s: State, steps: seq<Step>, z: State)
    requires Inv(s) && CausesOk(s) && Run(s, steps, z) && AllShown(s.db)
    ensures AllShown(z.db)
    decreases |steps|
  {
    if steps == [] {
    } else {
      var m := Apply(s, steps[0]);
      forall t, d ensures Shown(m.db, t, d) {
        StepKeepsShown(s, steps[0], t, d);
      }
      StepKeepsInv(s, steps[0]);
      StepKeepsCaused(s, steps[0]);
      StepKeepsServing(s, steps[0]);
      RunKeepsShown(m, steps[1..], z);
    }
  }

  /** In every reachable state a deployment whose only task has a verdict shows that verdict, or
      "pending". As long as the deployment worker has not crashed every deployment has one task at most. */
  lemma VerdictIsShown(z: State, t: TaskId)
    requires Reachable(z) && t in z.db.tasks && Judged(z.db.tasks[t].status)
    requires z.crashes == 0 || TasksOf(z.db, z.db.tasks[t].deployment) == {t}
    ensures var d := z.db.tasks[t].deployment;
            d in z.db.deployments && z.db.deployments[d].status in {z.db.tasks[t].status, Pending}
  {
    var d := z.db.tasks[t].deployment;
    ReachableInv(z);
    if z.crashes == 0 {
      OneTaskWithoutCrash(z, t);
    }
    var s :| Init(s) && Leads(s, z);
    var steps :| Run(s, steps, z);
    RunKeepsShown(s, steps, z);
    assert Shown(z.db, t, d);
  }

  lemma OneTaskWithoutCrash(z: State, t: TaskId)
    requires Reachable(z) && t in z.db.tasks && z.crashes == 0
    ensures TasksOf(z.db, z.db.tasks[t].deployment) == {t}
  {
    var d := z.db.tasks[t].deployment;
    TasksAreBounded(z, d);
    forall u | u in TasksOf(z.db, d) ensures u == t {
      if u != t {
        TwoTasks(z.db, d, t, u);
      }
    }
  }

  // ----- and when "pending" takes its place -----

  /** From a state in which the only task of the deployment has its verdict: at the end of the run the
      deployment shows the verdict exactly when it did so at first and the run holds no late write. */
  lemma {:induction false} VerdictStaysShownExactly(s: State, steps: seq<Step>, z: State, t: TaskId, d: DeploymentId)
    requires Inv(s) && CausesOk(s) && Run(s, steps, z) && OnlyJudged(s.db, t, d) && Shown(s.db, t, d)
    requires d in z.db.deployments && TasksOf(z.db, d) == {t}
    ensures OnlyJudged(z.db, t, d) && z.db.tasks[t].status == s.db.tasks[t].status
    ensures z.db.deployments[d].status == z.db.tasks[t].status
            <==> s.db.deployments[d].status == s.db.tasks[t].status && NoLateWrite(s, steps, d)
    decreases |steps|
  {
    if steps == [] {
    } else {
      StepKeepsInv(s, steps[0]);
      StepKeepsCaused(s, steps[0]);
      StepKeepsServing(s, steps[0]);
      StillThere(s, steps, z, t, d);
      ShownAfterStep(s, steps[0], t, d);
      VerdictStaysShownExactly(Apply(s, steps[0]), steps[1..], z, t, d);
    }
  }

  /** The first step keeps the verdict shown exactly when it is no late write. */
  lemma ShownAfterStep(s: State, l: Step, t: TaskId, d: DeploymentId)
    requires Inv(s) && StrategiesServe(s.db, s.strategies) && Enabled(s, l)
    requires OnlyJudged(s.db, t, d) && Shown(s.db, t, d) && OnlyJudged(Apply(s, l).db, t, d)
    requires Apply(s, l).db.tasks[t].status == s.db.tasks[t].status
    ensures Shown(Apply(s, l).db, t, d)
    ensures var status := s.db.tasks[t].status;
            Apply(s, l).db.deployments[d].status == status
            <==> s.db.deployments[d].status == status && !Falls(s, l, d)
  {
    StepLeavesOrPends(s, l, t, d);
    StatusFallsExactly(s, l, d);
  }

  /** Deployments that are there at the end were there all along, with their tasks. */
  lemma StillThere(s: State, steps: seq<Step>, z: State, t: TaskId, d: DeploymentId)
    requires Inv(s) && steps != [] && Run(s, steps, z) && Inv(Apply(s, steps[0])) && OnlyJudged(s.db, t, d)
    requires d in z.db.deployments && TasksOf(z.db, d) == {t}
    ensures OnlyJudged(Apply(s, steps[0]).db, t, d)
    ensures Apply(s, steps[0]).db.tasks[t].status == s.db.tasks[t].status
  {
    var m := Apply(s, steps[0]);
    StepNeverUnknownAgain(s, steps[0]);
    NothingWritesUnknown(m, steps[1..], z);
    assert d < s.db.nextDeployment;
    StepGrows(s, steps[0]);
    TasksOfStay(s.db, m.db, d);
    RunKeepsTasksOf(m, steps[1..], z, d);
    assert t in TasksOf(s.db, d);
    assert t in TasksOf(m.db, d);
  }

  lemma {:induction false} RunKeepsTasksOf(s: State, steps: seq<Step>, z: State, d: DeploymentId)
    requires Inv(s) && Run(s, steps, z) && d in z.db.deployments && d < s.db.nextDeployment
    ensures TasksOf(s.db, d) <= TasksOf(z.db, d)
    decreases |steps|
  {
    if steps == [] {
    } else {
      var m := Apply(s, steps[0]);
      StepKeepsInv(s, steps[0]);
      StepGrows(s, steps[0]);
      StepNeverUnknownAgain(s, steps[0]);
      NothingWritesUnknown(m, steps[1..], z);
      TasksOfStay(s.db, m.db, d);
      RunKeepsTasksOf(m, steps[1..], z, d);
    }
  }
}
