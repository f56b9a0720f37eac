/** Why a deployment has the status it shows: every status but "unknown" has its cause in the run. */
module Provenance {
  import opened Wrappers
  import opened Targets
  import opened Rows
  import opened Machine
  import opened Invariants
  import opened UserSteps
  import opened AgentSteps
  import opened Safety
  import opened Creation

  /** A strategy of the deployment. */
  predicate Rolled(s: State, i: nat, d: DeploymentId) {
    i < |s.strategies| && s.strategies[i].deployment == d
  }

  /** One of the deployment's tasks has the status. */
  predicate HasTask(db: Db, d: DeploymentId, status: Status) {
    exists t :: t in db.tasks && db.tasks[t].deployment == d && db.tasks[t].status == status
  }

  ghost predicate Caused(s: State, d: DeploymentId, status: Status) {
    match status
    case Unknown => true
    case Pending => s.created[d] > 0
    case Running => exists i :: Rolled(s, i, d)
    case _ => HasTask(s.db, d, status)
  }

  ghost predicate AllCaused(s: State) {
    forall d :: d in s.db.deployments ==> Caused(s, d, s.db.deployments[d].status)
  }

  /** The worker writes "pending" only after creating a task. */
  predicate PendingOk(s: State) {
    && (s.dw.ReadingDue? && s.dw.todo != [] ==> s.created[s.dw.todo[0]] > 0)
    && (s.dw.MarkingPending? && s.dw.todo != [] ==> s.created[s.dw.todo[0]] > 0)
  }

  /** The task belongs to the deployment, and exists as long as the deployment does. */
  predicate Serves(db: Db, t: TaskId, d: DeploymentId) {
    && t < db.nextTask && d < db.nextDeployment
    && (d in db.deployments ==> t in db.tasks)
    && (t in db.tasks ==> db.tasks[t].deployment == d)
  }

  function Todo(tw: TaskWorker): seq<Claim> {
    match tw
    case TasksIdle => []
    case LookingUp(todo) => todo
    case ReadingOrphan(todo) => todo
    case DeletingOrphan(todo) => todo
    case ReadingTask(todo, _) => todo
    case MarkingRunning(todo, _, _) => todo
    case Spawning(todo, _) => todo
  }

  predicate StrategiesServe(db: Db, strategies: seq<Strategy>) {
    forall i :: 0 <= i < |strategies| ==> Serves(db, strategies[i].task, strategies[i].deployment)
  }

  predicate ClaimsServe(db: Db, claims: seq<Claim>) {
    forall c :: c in claims ==> Serves(db, c.task, c.deployment)
  }

  ghost predicate CausesOk(s: State) {
    && AllCaused(s) && PendingOk(s)
    && StrategiesServe(s.db, s.strategies) && ClaimsServe(s.db, Todo(s.tw))
  }

  // ----- tasks stay with their deployment -----

  /** A task whose deployment is still there is still there. */
  predicate TasksStay(db: Db, z: Db) {
    forall t :: t in db.tasks && db.tasks[t].deployment in z.deployments ==> t in z.tasks
  }

  predicate SameDeployments(db: Db, z: Db) {
    forall t :: t in z.tasks && t < db.nextTask ==> t in db.tasks && z.tasks[t].deployment == db.tasks[t].deployment
  }

  lemma StrategyKeepsTasks(db: Db, st: Strategy, found: seq<HostId>)
    ensures TasksStay(db, StepStrategy(db, st, found).0)
  {
  }

  lemma ReportKeepsTasks(db: Db, t: TaskId, h: HostId, outcome: Outcome)
    requires RowsOk(db)
    ensures TasksStay(db, TakeReport(db, t, h, outcome))
  {
    if t in db.tasks && h in db.hosts {
      TakenReport(db, t, h, outcome);
    }
  }

  lemma UserKeepsTasks(db: Db, l: Step)
    requires RowsOk(db) && IsUserStep(l)
    ensures TasksStay(db, StepUser(db, l))
  {
  }

  lemma TaskWorkerKeepsTasks(s: State)
    requires !s.tw.DeletingOrphan?
    ensures TasksStay(s.db, StepTaskWorker(s).db)
  {
  }

  lemma DeploymentWorkerKeepsTasks(s: State)
    ensures TasksStay(s.db, StepDeploymentWorker(s).db)
  {
  }

  lemma StepKeepsTasks(s: State, l: Step)
    requires RowsOk(s.db) && !s.tw.DeletingOrphan? && Enabled(s, l)
    ensures TasksStay(s.db, Apply(s, l).db)
  {
    if l.StrategySteps? {
      StrategyKeepsTasks(s.db, s.strategies[l.strategy], l.found);
    } else if l.ReportTaken? {
      ReportKeepsTasks(s.db, l.task, l.host, l.outcome);
    } else if IsUserStep(l) {
      UserKeepsTasks(s.db, l);
    } else if l.TaskWorkerSteps? {
      TaskWorkerKeepsTasks(s);
    } else if l.DeploymentWorkerSteps? {
      DeploymentWorkerKeepsTasks(s);
    } else {
      OthersKeepTables(s, l);
    }
  }

  lemma DeploymentWorkerKeepsDeployments(s: State)
    ensures SameDeployments(s.db, StepDeploymentWorker(s).db)
  {
  }

  lemma StepKeepsDeployments(s: State, l: Step)
    requires RowsOk(s.db) && !s.tw.DeletingOrphan? && Enabled(s, l)
    ensures SameDeployments(s.db, Apply(s, l).db)
  {
    if l.DeploymentWorkerSteps? {
      DeploymentWorkerKeepsDeployments(s);
    } else if IsDeploymentWorkerStep(l) {
      assert Apply(s, l).db == s.db;
    } else {
      OtherStepLeavesUnknown(s, l);
    }
  }

  // ----- causes stay -----

  predicate SameStrategy(st: Strategy, z: Strategy) {
    z.task == st.task && z.deployment == st.deployment
  }

  predicate StrategiesGrow(strategies: seq<Strategy>, z: seq<Strategy>) {
    |strategies| <= |z| && forall i :: 0 <= i < |strategies| ==> SameStrategy(strategies[i], z[i])
  }

  predicate Grows(s: State, z: State) {
    && s.created <= z.created && StrategiesGrow(s.strategies, z.strategies)
    && TasksMoveOn(s.db, z.db) && TasksStay(s.db, z.db) && SameDeployments(s.db, z.db)
  }

  lemma CauseStays(s: State, z: State, d: DeploymentId, status: Status)
    requires RowsOk(s.db) && Caused(s, d, status) && Grows(s, z) && d in z.db.deployments
    ensures Caused(z, d, status)
  {
    if status == Running {
      var i :| Rolled(s, i, d);
      assert Rolled(z, i, d);
    } else if status in {Success, Failure, Skipped} {
      var t :| t in s.db.tasks && s.db.tasks[t].deployment == d && s.db.tasks[t].status == status;
      assert t in z.db.tasks;
    }
  }

  lemma OwnStepGrows(db: Db, st: Strategy, found: seq<HostId>)
    ensures SameStrategy(st, StepStrategy(db, st, found).1)
  {
  }

  lemma PatchStepGrows(s: State, l: Step)
    requires Enabled(s, l) && (l.PatchPosts? || l.PatchPolls? || l.PatchCrashes?)
    ensures StrategiesGrow(s.strategies, Apply(s, l).strategies) && Apply(s, l).created == s.created
  {
    var z := Apply(s, l);
    assert forall k :: 0 <= k < |s.strategies| && k != l.strategy ==> z.strategies[k] == s.strategies[k];
  }

  lemma WorkersStepGrows(s: State, l: Step)
    requires Enabled(s, l) && (l.TaskWorkerSteps? || l.DeploymentWorkerSteps? || l.StrategyCrashes?)
    ensures StrategiesGrow(s.strategies, Apply(s, l).strategies) && s.created <= Apply(s, l).created
  {
  }

  lemma OthersLeaveStrategies(s: State, l: Step)
    requires Enabled(s, l) && !l.PatchPosts? && !l.PatchPolls? && !l.PatchCrashes?
    requires !l.TaskWorkerSteps? && !l.DeploymentWorkerSteps? && !l.StrategyCrashes? && !l.StrategySteps?
    ensures Apply(s, l).strategies == s.strategies && Apply(s, l).created == s.created
  {
  }

  lemma StepGrowsStrategies(s: State, l: Step)
    requires Enabled(s, l)
    ensures StrategiesGrow(s.strategies, Apply(s, l).strategies) && s.created <= Apply(s, l).created
  {
    if l.StrategySteps? {
      OwnStepGrows(s.db, s.strategies[l.strategy], l.found);
    } else if l.PatchPosts? || l.PatchPolls? || l.PatchCrashes? {
      PatchStepGrows(s, l);
    } else if l.TaskWorkerSteps? || l.DeploymentWorkerSteps? || l.StrategyCrashes? {
      WorkersStepGrows(s, l);
    } else {
      OthersLeaveStrategies(s, l);
    }
  }

  lemma StepGrows(s: State, l: Step)
    requires Inv(s) && Enabled(s, l)
    ensures Grows(s, Apply(s, l))
  {
    assert RowsOk(s.db) && !s.tw.DeletingOrphan?;
    StepGrowsStrategies(s, l);
    StepMovesOn(s, l);
    StepKeepsTasks(s, l);
    StepKeepsDeployments(s, l);
  }

  // ----- who writes which status -----

  /** From `db` to `z` only deployment `d` may have changed its status, to `status`. */
  predicate OnlyWrites(db: Db, z: Db, d: DeploymentId, status: Status) {
    forall e :: e in z.deployments ==>
      && e in db.deployments
      && (z.deployments[e].status == db.deployments[e].status || (e == d && z.deployments[e].status == status))
  }

  predicate KeepsStatuses(db: Db, z: Db) {
    forall e :: e in z.deployments ==>
      z.deployments[e].status == if e in db.deployments then db.deployments[e].status else Unknown
  }

  lemma StrategyWrites(db: Db, st: Strategy, found: seq<HostId>)
    ensures var z := StepStrategy(db, st, found).0;
            && OnlyWrites(db, z, st.deployment, if st.pc.MarkDeployment? then Running else Skipped)
            && (!st.pc.MarkDeployment? && !st.pc.SkipDeployment? ==> z.deployments == db.deployments)
  {
  }

  /** A verdict is written to the task and to its deployment, or to neither. */
  lemma ReportWrites(db: Db, t: TaskId, h: HostId, outcome: Outcome)
    requires t in db.tasks && h in db.hosts
    ensures var z := TakeReport(db, t, h, outcome);
            && t in z.tasks && z.tasks[t].deployment == db.tasks[t].deployment
            && (z.deployments == db.deployments
                || (z.tasks[t].status in {Success, Failure}
                    && OnlyWrites(db, z, db.tasks[t].deployment, z.tasks[t].status)))
  {
    var db1 := InsertLog(db, Log(t, h, outcome));
    var tally := Tally(db1.tasks[t].tally.total, CountHosts(db1, t, HostUpdated), CountHosts(db1, t, HostFailed));
    var db2 := UpdateTaskTally(db1, t, tally);
    assert TakeReport(db, t, h, outcome) == SyncTaskStatus(db2, t);
    assert db2.tasks[t].deployment == db.tasks[t].deployment && db2.deployments == db.deployments;
  }

  lemma DeploymentWorkerWrites(s: State)
    ensures var z := StepDeploymentWorker(s);
            if s.dw.MarkingPending? && s.dw.todo != [] then OnlyWrites(s.db, z.db, s.dw.todo[0], Pending)
            else z.db.deployments == s.db.deployments
  {
  }

  lemma UserKeepsStatuses(db: Db, l: Step)
    requires RowsOk(db) && IsUserStep(l)
    ensures KeepsStatuses(db, StepUser(db, l))
  {
  }

  lemma OthersWriteNothing(s: State, l: Step)
    requires RowsOk(s.db) && Enabled(s, l) && !l.StrategySteps? && !l.ReportTaken? && !l.DeploymentWorkerSteps?
    ensures KeepsStatuses(s.db, Apply(s, l).db)
  {
    if IsUserStep(l) {
      UserKeepsStatuses(s.db, l);
    } else {
      assert Apply(s, l).db.deployments == s.db.deployments;
    }
  }

  // ----- the causes hold after every step -----

  lemma AfterWrite(s: State, z: State, d: DeploymentId, status: Status)
    requires RowsOk(s.db) && Grows(s, z) && OnlyWrites(s.db, z.db, d, status) && Caused(z, d, status) && AllCaused(s)
    ensures AllCaused(z)
  {
    forall e | e in z.db.deployments ensures Caused(z, e, z.db.deployments[e].status) {
      CauseStays(s, z, e, s.db.deployments[e].status);
    }
  }

  lemma AfterQuietStep(s: State, z: State)
    requires RowsOk(s.db) && Grows(s, z) && KeepsStatuses(s.db, z.db) && AllCaused(s)
    ensures AllCaused(z)
  {
    forall e | e in z.db.deployments ensures Caused(z, e, z.db.deployments[e].status) {
      if e in s.db.deployments {
        CauseStays(s, z, e, s.db.deployments[e].status);
      }
    }
  }

  lemma ReportKeepsCauses(s: State, h: HostId, t: TaskId, outcome: Outcome)
    requires RowsOk(s.db) && AllCaused(s) && Enabled(s, ReportTaken(h, t, outcome))
    requires Grows(s, Apply(s, ReportTaken(h, t, outcome)))
    ensures AllCaused(Apply(s, ReportTaken(h, t, outcome)))
  {
    var z := Apply(s, ReportTaken(h, t, outcome));
    if t in s.db.tasks && h in s.db.hosts {
      ReportWrites(s.db, t, h, outcome);
      if z.db.deployments == s.db.deployments {
        AfterQuietStep(s, z);
      } else {
        assert HasTask(z.db, s.db.tasks[t].deployment, z.db.tasks[t].status);
        AfterWrite(s, z, s.db.tasks[t].deployment, z.db.tasks[t].status);
      }
    } else {
      AfterQuietStep(s, z);
    }
  }

  /** A strategy that writes "skipped" to its deployment has written it to its task. */
  lemma SkippedTaskIsThere(s: State, st: Strategy)
    requires StrategyOk(s.db, s.agents, s.sent, st) && Serves(s.db, st.task, st.deployment)
    requires st.pc.SkipDeployment? && st.deployment in s.db.deployments
    ensures HasTask(s.db, st.deployment, Skipped)
  {
  }

  /** What a strategy writes to its deployment has its cause. */
  lemma StrategyWriteIsCaused(s: State, z: State, i: nat, found: seq<HostId>)
    requires RowsOk(s.db) && AllCaused(s) && Grows(s, z) && i < |s.strategies|
    requires z.db == StepStrategy(s.db, s.strategies[i], found).0
    requires var st := s.strategies[i];
             st.pc.SkipDeployment? && st.deployment in s.db.deployments ==> HasTask(z.db, st.deployment, Skipped)
    ensures AllCaused(z)
  {
    var st := s.strategies[i];
    StrategyWrites(s.db, st, found);
    if st.pc.MarkDeployment? {
      assert Rolled(z, i, st.deployment);
      AfterWrite(s, z, st.deployment, Running);
    } else if st.pc.SkipDeployment? && st.deployment in s.db.deployments {
      AfterWrite(s, z, st.deployment, Skipped);
    } else {
      AfterQuietStep(s, z);
    }
  }

  lemma SkipLeavesTasks(db: Db, st: Strategy, found: seq<HostId>)
    requires st.pc.SkipDeployment?
    ensures StepStrategy(db, st, found).0.tasks == db.tasks
  {
  }

  lemma StrategyKeepsCauses(s: State, i: nat, found: seq<HostId>)
    requires Inv(s) && AllCaused(s) && StrategiesServe(s.db, s.strategies) && Enabled(s, StrategySteps(i, found))
    ensures AllCaused(Apply(s, StrategySteps(i, found)))
  {
    assert StrategyOk(s.db, s.agents, s.sent, s.strategies[i]);
    StepGrows(s, StrategySteps(i, found));
    if s.strategies[i].pc.SkipDeployment? && s.strategies[i].deployment in s.db.deployments {
      SkippedTaskIsThere(s, s.strategies[i]);
      SkipLeavesTasks(s.db, s.strategies[i], found);
    }
    StrategyWriteIsCaused(s, Apply(s, StrategySteps(i, found)), i, found);
  }

  lemma DeploymentWorkerKeepsCauses(s: State)
    requires RowsOk(s.db) && AllCaused(s) && PendingOk(s) && Grows(s, StepDeploymentWorker(s))
    ensures AllCaused(StepDeploymentWorker(s)) && PendingOk(StepDeploymentWorker(s))
  {
    var z := StepDeploymentWorker(s);
    DeploymentWorkerWrites(s);
    if s.dw.MarkingPending? && s.dw.todo != [] {
      AfterWrite(s, z, s.dw.todo[0], Pending);
    } else {
      AfterQuietStep(s, z);
    }
  }

  lemma WorkerOnlyFires(s: State, l: Step)
    requires Enabled(s, l) && !l.DeploymentWorkerSteps?
    ensures var z := Apply(s, l);
            z.created == s.created && (z.dw == s.dw || z.dw.CreatingTask? || z.dw.DeploymentsIdle?)
  {
  }

  lemma StepKeepsCaused(s: State, l: Step)
    requires Inv(s) && CausesOk(s) && Enabled(s, l)
    ensures AllCaused(Apply(s, l)) && PendingOk(Apply(s, l))
  {
    StepGrows(s, l);
    if l.DeploymentWorkerSteps? {
      DeploymentWorkerKeepsCauses(s);
    } else {
      if l.StrategySteps? {
        StrategyKeepsCauses(s, l.strategy, l.found);
      } else if l.ReportTaken? {
        ReportKeepsCauses(s, l.host, l.task, l.outcome);
      } else {
        OthersWriteNothing(s, l);
        AfterQuietStep(s, Apply(s, l));
      }
      WorkerOnlyFires(s, l);
    }
  }

  // ----- strategies stay with the deployment of their task -----

  lemma ServesStays(db: Db, z: Db, t: TaskId, d: DeploymentId)
    requires Serves(db, t, d) && NeverUnknownAgain(db, z) && TasksMoveOn(db, z)
    requires TasksStay(db, z) && SameDeployments(db, z)
    ensures Serves(z, t, d)
  {
  }

  /** A strategy was there before, or is spawned for a claim; a claim was there before, or is for a
      pending task. */
  lemma TaskWorkerSpawns(s: State)
    requires s.tw != TasksIdle
    ensures var z := StepTaskWorker(s);
            && (forall c :: c in Todo(z.tw) ==> c in Todo(s.tw))
            && |s.strategies| <= |z.strategies|
            && (forall i :: 0 <= i < |s.strategies| ==> z.strategies[i] == s.strategies[i])
            && (forall i :: |s.strategies| <= i < |z.strategies|
                  ==> Claim(z.strategies[i].task, z.strategies[i].deployment) in Todo(s.tw))
  {
  }

  lemma OthersLeaveClaims(s: State, l: Step)
    requires Enabled(s, l) && !l.TaskWorkerSteps?
    ensures var z := Apply(s, l);
            && |z.strategies| == |s.strategies|
            && (z.tw == s.tw || z.tw == TasksIdle || (l.TaskWorkerFires? && z.tw == LookingUp(l.pending)))
  {
  }

  lemma FiringServes(db: Db, claims: seq<Claim>)
    requires RowsOk(db) && ListsPending(claims, db)
    ensures ClaimsServe(db, claims)
  {
  }

  lemma StepKeepsServing(s: State, l: Step)
    requires Inv(s) && StrategiesServe(s.db, s.strategies) && ClaimsServe(s.db, Todo(s.tw)) && Enabled(s, l)
    ensures StrategiesServe(Apply(s, l).db, Apply(s, l).strategies) && ClaimsServe(Apply(s, l).db, Todo(Apply(s, l).tw))
  {
    var z := Apply(s, l);
    StepGrows(s, l);
    StepNeverUnknownAgain(s, l);
    forall t, d | Serves(s.db, t, d) ensures Serves(z.db, t, d) {
      ServesStays(s.db, z.db, t, d);
    }
    if l.TaskWorkerSteps? {
      TaskWorkerSpawns(s);
      forall i | 0 <= i < |z.strategies| ensures Serves(z.db, z.strategies[i].task, z.strategies[i].deployment) {
        if i < |s.strategies| {
          assert Serves(s.db, s.strategies[i].task, s.strategies[i].deployment);
        } else {
          assert Serves(s.db, z.strategies[i].task, z.strategies[i].deployment);
        }
      }
    } else {
      OthersLeaveClaims(s, l);
      if l.TaskWorkerFires? {
        FiringServes(s.db, l.pending);
      }
    }
  }

  // ----- every run -----

  lemma {:induction false} RunKeepsCauses(s: State, steps: seq<Step>, z: State)
    requires Inv(s) && CausesOk(s) && Run(s, steps, z)
    ensures CausesOk(z)
    decreases |steps|
  {
    if steps == [] {
    } else {
      StepKeepsInv(s, steps[0]);
      StepKeepsCaused(s, steps[0]);
      StepKeepsServing(s, steps[0]);
      RunKeepsCauses(Apply(s, steps[0]), steps[1..], z);
    }
  }

  lemma ReachableCauses(z: State)
    requires Reachable(z)
    ensures CausesOk(z)
  {
    var s :| Init(s) && Leads(s, z);
    var steps :| Run(s, steps, z);
    RunKeepsCauses(s, steps, z);
  }

  /** In every reachable state a deployment is pending only after a task was created for it, running
      only after a strategy for it was spawned, and shows a success, a failure or a skip only if one
      of its tasks shows the same. */
  lemma StatusHasCause(z: State, d: DeploymentId)
    requires Reachable(z) && d in z.db.deployments
    ensures Caused(z, d, z.db.deployments[d].status)
  {
    ReachableCauses(z);
  }

  /** Every strategy is for the deployment that its task belongs to, and its task exists as long as
      that deployment. */
  lemma StrategyServesItsTask(z: State, i: nat)
    requires Reachable(z) && i < |z.strategies|
    ensures var t, d := z.strategies[i].task, z.strategies[i].deployment;
            && (d in z.db.deployments <==> t in z.db.tasks)
            && (t in z.db.tasks ==> z.db.tasks[t].deployment == d)
  {
    ReachableCauses(z);
    ReachableInv(z);
    assert Serves(z.db, z.strategies[i].task, z.strategies[i].deployment);
  }
}
