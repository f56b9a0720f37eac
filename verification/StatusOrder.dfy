/** When a deployment's status moves backward: unknown, pending, running, then a verdict. */
module StatusOrder {
  import opened Wrappers
  import opened Targets
  import opened Rows
  import opened Machine
  import opened Invariants
  import opened UserSteps
  import opened AgentSteps
  import opened Safety
  import opened Creation
  import opened Provenance

  function Rank(status: Status): nat {
    match status
    case Unknown => 0
    case Pending => 1
    case Running => 2
    case _ => 3
  }

  /** The deployment worker is about to write "pending" over a later status. */
  predicate PendingComesLate(s: State, l: Step, d: DeploymentId) {
    && l.DeploymentWorkerSteps? && s.dw.MarkingPending? && s.dw.todo != [] && s.dw.todo[0] == d
    && s.dw.loaded != Pending && d in s.db.deployments && Rank(s.db.deployments[d].status) > Rank(Pending)
  }

  /** A strategy of the deployment is about to write "running" over a verdict. */
  predicate RunningComesLate(s: State, l: Step, d: DeploymentId) {
    && l.StrategySteps? && Rolled(s, l.strategy, d) && s.strategies[l.strategy].pc.MarkDeployment?
    && s.strategies[l.strategy].pc.loadedStatus != Running
    && d in s.db.deployments && Rank(s.db.deployments[d].status) > Rank(Running)
  }

  predicate Falls(s: State, l: Step, d: DeploymentId) {
    PendingComesLate(s, l, d) || RunningComesLate(s, l, d)
  }

  /** The deployment is there before and after, with a lower status. */
  predicate Lower(db: Db, z: Db, d: DeploymentId) {
    d in db.deployments && d in z.deployments && Rank(z.deployments[d].status) < Rank(db.deployments[d].status)
  }

  lemma WorkerLowers(s: State, d: DeploymentId)
    requires s.dw != DeploymentsIdle
    ensures Lower(s.db, StepDeploymentWorker(s).db, d) <==> PendingComesLate(s, DeploymentWorkerSteps, d)
  {
  }

  lemma StrategyLowers(db: Db, st: Strategy, found: seq<HostId>, d: DeploymentId)
    ensures Lower(db, StepStrategy(db, st, found).0, d)
            <==> && st.deployment == d && st.pc.MarkDeployment? && st.pc.loadedStatus != Running
                 && d in db.deployments && Rank(db.deployments[d].status) > Rank(Running)
  {
    StrategyWrites(db, st, found);
  }

  lemma ReportLowersNothing(db: Db, t: TaskId, h: HostId, outcome: Outcome, d: DeploymentId)
    ensures !Lower(db, TakeReport(db, t, h, outcome), d)
  {
    if t in db.tasks && h in db.hosts {
      ReportWrites(db, t, h, outcome);
    }
  }

  /** A step lowers the status of a deployment exactly when it is one of the two late writes. */
  lemma StatusFallsExactly(s: State, l: Step, d: DeploymentId)
    requires RowsOk(s.db) && Enabled(s, l)
    ensures Lower(s.db, Apply(s, l).db, d) <==> Falls(s, l, d)
  {
    if l.DeploymentWorkerSteps? {
      WorkerLowers(s, d);
    } else if l.StrategySteps? {
      StrategyLowers(s.db, s.strategies[l.strategy], l.found, d);
    } else if l.ReportTaken? {
      ReportLowersNothing(s.db, l.task, l.host, l.outcome, d);
    } else {
      OthersWriteNothing(s, l);
    }
  }

  // ----- runs -----

  /** No step of the run lowers the deployment's status. */
  predicate NeverLower(s: State, steps: seq<Step>, d: DeploymentId)
    decreases |steps|
  {
    steps != [] && Enabled(s, steps[0])
    ==> !Lower(s.db, Apply(s, steps[0]).db, d) && NeverLower(Apply(s, steps[0]), steps[1..], d)
  }

  /** No step of the run is a late write. */
  predicate NoLateWrite(s: State, steps: seq<Step>, d: DeploymentId)
    decreases |steps|
  {
    steps != [] && Enabled(s, steps[0])
    ==> !Falls(s, steps[0], d) && NoLateWrite(Apply(s, steps[0]), steps[1..], d)
  }

  /** Along a run the status of a deployment never falls exactly when the run holds no late write,
      and then it ends no lower than it began. */
  lemma {:induction false} MonotoneExactly(s: State, steps: seq<Step>, z: State, d: DeploymentId)
    requires Inv(s) && Run(s, steps, z) && d in s.db.deployments
    ensures NeverLower(s, steps, d) <==> NoLateWrite(s, steps, d)
    ensures NoLateWrite(s, steps, d) ==> !Lower(s.db, z.db, d)
    decreases |steps|
  {
    if steps == [] {
    } else {
      var m := Apply(s, steps[0]);
      StepKeepsInv(s, steps[0]);
      StatusFallsExactly(s, steps[0], d);
      if d in m.db.deployments {
        MonotoneExactly(m, steps[1..], z, d);
      } else {
        StepNeverUnknownAgain(s, steps[0]);
        NothingWritesUnknown(m, steps[1..], z);
        GoneStaysGone(m, steps[1..], z, d);
      }
    }
  }

  lemma {:induction false} GoneStaysGone(s: State, steps: seq<Step>, z: State, d: DeploymentId)
    requires Inv(s) && Run(s, steps, z) && d < s.db.nextDeployment && d !in s.db.deployments
    ensures NeverLower(s, steps, d) && NoLateWrite(s, steps, d)
    decreases |steps|
  {
    if steps == [] {
    } else {
      StepKeepsInv(s, steps[0]);
      StepNeverUnknownAgain(s, steps[0]);
      GoneStaysGone(Apply(s, steps[0]), steps[1..], z, d);
    }
  }

  // ----- what the second late write takes -----

  lemma TwoTasks(db: Db, d: DeploymentId, t: TaskId, u: TaskId)
    requires t in TasksOf(db, d) && u in TasksOf(db, d) && t != u
    ensures |TasksOf(db, d)| >= 2
  {
    Counting.SubsetSize({t, u}, TasksOf(db, d));
  }

  /** "running" is written over a verdict only for a deployment with a second task, hence only after
      a crash of the deployment worker: while it has not crashed, only its own "pending" comes late. */
  lemma RunningOverVerdictNeedsCrash(s: State, l: Step, d: DeploymentId)
    requires Reachable(s) && Enabled(s, l) && RunningComesLate(s, l, d)
    ensures |TasksOf(s.db, d)| >= 2 && s.crashes >= 1
  {
    var st := s.strategies[l.strategy];
    ReachableInv(s);
    assert StrategyOk(s.db, s.agents, s.sent, st);
    StrategyServesItsTask(s, l.strategy);
    StatusHasCause(s, d);
    var u :| u in s.db.tasks && s.db.tasks[u].deployment == d && s.db.tasks[u].status == s.db.deployments[d].status;
    assert s.db.tasks[st.task].status == Running;
    TwoTasks(s.db, d, st.task, u);
    TasksAreBounded(s, d);
  }

  /** One verdict is written over another only for a deployment with two tasks, hence only after a
      crash of the deployment worker. */
  lemma VerdictOverVerdictNeedsCrash(s: State, l: Step, d: DeploymentId)
    requires Reachable(s) && Enabled(s, l) && d in s.db.deployments && d in Apply(s, l).db.deployments
    requires Rank(s.db.deployments[d].status) == 3 == Rank(Apply(s, l).db.deployments[d].status)
    requires s.db.deployments[d].status != Apply(s, l).db.deployments[d].status
    ensures |TasksOf(Apply(s, l).db, d)| >= 2 && s.crashes >= 1
  {
    var z := Apply(s, l);
    ReachableInv(s);
    StepReachable(s, l);
    StatusHasCause(s, d);
    StatusHasCause(z, d);
    StepGrows(s, l);
    var t :| t in s.db.tasks && s.db.tasks[t].deployment == d && s.db.tasks[t].status == s.db.deployments[d].status;
    var u :| u in z.db.tasks && z.db.tasks[u].deployment == d && z.db.tasks[u].status == z.db.deployments[d].status;
    VerdictStays(s.db, z.db, t, d);
    TwoTasks(z.db, d, t, u);
    TasksAreBounded(z, d);
    if l.DeploymentWorkerCrashes? || l.DeploymentWorkerSteps? {
      WorkerWritesNoVerdict(s, l, d);
    } else {
      OthersLeaveTheWorker(s, l);
    }
  }

  lemma VerdictStays(db: Db, z: Db, t: TaskId, d: DeploymentId)
    requires RowsOk(db) && TasksMoveOn(db, z) && TasksStay(db, z) && SameDeployments(db, z)
    requires t in db.tasks && db.tasks[t].deployment == d && d in z.deployments && Rank(db.tasks[t].status) == 3
    ensures t in z.tasks && z.tasks[t] == db.tasks[t].(status := db.tasks[t].status, tally := z.tasks[t].tally)
  {
  }

  lemma WorkerWritesNoVerdict(s: State, l: Step, d: DeploymentId)
    requires Enabled(s, l) && IsDeploymentWorkerStep(l)
    requires d in s.db.deployments && d in Apply(s, l).db.deployments
    ensures var status := Apply(s, l).db.deployments[d].status;
            Rank(status) == 3 ==> status == s.db.deployments[d].status
  {
    if l.DeploymentWorkerSteps? {
      DeploymentWorkerWrites(s);
    }
  }
}
