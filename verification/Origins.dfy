/** Where strategies and tasks come from: a claim whose deployment asked for the one-by-one rollout, and
    a firing that found the deployment due. */
module Origins {
  import opened Wrappers
  import opened Targets
  import opened Rows
  import opened Machine
  import opened Invariants
  import opened UserSteps
  import opened Safety
  import opened Creation
  import opened Provenance
  import Interference

  // ----- strategies -----

  /** A claim and the rollout its deployment's row holds. */
  datatype Lookup = Lookup(claim: Claim, rollout: string)

  function LookedUpNow(s: State, l: Step): set<Lookup> {
    if l.TaskWorkerSteps? && s.tw.LookingUp? && s.tw.todo != [] && s.tw.todo[0].deployment in s.db.deployments
    then {Lookup(s.tw.todo[0], s.db.deployments[s.tw.todo[0].deployment].rollout)} else {}
  }

  /** All lookups of the task worker along a run. */
  function LookedUp(s: State, steps: seq<Step>): set<Lookup>
    decreases |steps|
  {
    if steps == [] || !Enabled(s, steps[0]) then {}
    else LookedUpNow(s, steps[0]) + LookedUp(Apply(s, steps[0]), steps[1..])
  }

  predicate WorkerLookedUp(tw: TaskWorker, known: set<Lookup>) {
    match tw
    case ReadingTask(todo, rollout) => todo != [] ==> Lookup(todo[0], rollout) in known
    case MarkingRunning(todo, rollout, _) => todo != [] ==> Lookup(todo[0], rollout) in known
    case Spawning(todo, rollout) => todo != [] ==> Lookup(todo[0], rollout) in known
    case _ => true
  }

  predicate StrategiesLookedUp(strategies: seq<Strategy>, known: set<Lookup>) {
    forall i :: 0 <= i < |strategies|
      ==> Lookup(Claim(strategies[i].task, strategies[i].deployment), "one_by_one") in known
  }

  lemma TaskWorkerLooksUp(s: State, known: set<Lookup>)
    requires s.tw != TasksIdle && WorkerLookedUp(s.tw, known) && StrategiesLookedUp(s.strategies, known)
    ensures var z, more := StepTaskWorker(s), known + LookedUpNow(s, TaskWorkerSteps);
            WorkerLookedUp(z.tw, more) && StrategiesLookedUp(z.strategies, more)
  {
  }

  lemma OthersLookNothingUp(s: State, l: Step)
    requires Enabled(s, l) && !l.TaskWorkerSteps?
    ensures Apply(s, l).tw == s.tw || Apply(s, l).tw.TasksIdle? || Apply(s, l).tw.LookingUp?
  {
  }

  lemma StepLooksUp(s: State, l: Step, known: set<Lookup>)
    requires Enabled(s, l) && WorkerLookedUp(s.tw, known) && StrategiesLookedUp(s.strategies, known)
    ensures WorkerLookedUp(Apply(s, l).tw, known + LookedUpNow(s, l))
    ensures StrategiesLookedUp(Apply(s, l).strategies, known + LookedUpNow(s, l))
  {
    if l.TaskWorkerSteps? {
      TaskWorkerLooksUp(s, known);
    } else {
      OthersLookNothingUp(s, l);
      StepGrowsStrategies(s, l);
      Interference.OthersSpawnNothing(s, l);
    }
  }

  lemma {:induction false} RunLooksUp(s: State, steps: seq<Step>, z: State, known: set<Lookup>)
    requires Run(s, steps, z) && WorkerLookedUp(s.tw, known) && StrategiesLookedUp(s.strategies, known)
    ensures StrategiesLookedUp(z.strategies, known + LookedUp(s, steps))
    decreases |steps|
  {
    if steps == [] {
      assert known + LookedUp(s, steps) == known;
    } else {
      var more := known + LookedUpNow(s, steps[0]);
      StepLooksUp(s, steps[0], known);
      RunLooksUp(Apply(s, steps[0]), steps[1..], z, more);
      assert known + LookedUp(s, steps) == more + LookedUp(Apply(s, steps[0]), steps[1..]);
    }
  }

  /** In every run from the start a strategy runs for a task only if the worker, claiming that task, had
      found the rollout "one_by_one" in the row of the deployment. */
  lemma StrategiesAreOneByOne(s: State, steps: seq<Step>, z: State, i: nat)
    requires Init(s) && Run(s, steps, z) && i < |z.strategies|
    ensures Lookup(Claim(z.strategies[i].task, z.strategies[i].deployment), "one_by_one") in LookedUp(s, steps)
  {
    RunLooksUp(s, steps, z, {});
    assert {} + LookedUp(s, steps) == LookedUp(s, steps);
  }

  /** A step adds a strategy exactly when the worker is about to spawn for that rollout; it then adds
      one, for the claim, at its first point. */
  lemma SpawnsExactly(s: State, l: Step)
    requires Enabled(s, l)
    ensures |Apply(s, l).strategies| != |s.strategies|
            <==> l.TaskWorkerSteps? && s.tw.Spawning? && s.tw.todo != [] && s.tw.rollout == "one_by_one"
    ensures |Apply(s, l).strategies| != |s.strategies|
            ==> Apply(s, l).strategies
                == s.strategies + [Strategy(s.tw.todo[0].task, s.tw.todo[0].deployment, LoadDeployment, None, [])]
  {
    if !l.TaskWorkerSteps? {
      Interference.OthersSpawnNothing(s, l);
    }
  }

  // ----- tasks -----

  /** The deployments a firing lists, those whose rows are due then. */
  function FiredNow(s: State, l: Step): set<DeploymentId> {
    if l.DeploymentWorkerFires? then
      set d | d in l.due && d in s.db.deployments
              && s.db.deployments[d].status == Unknown && s.db.deployments[d].schedule == "once"
              && s.db.deployments[d].scheduleTime < l.now
    else {}
  }

  function Fired(s: State, steps: seq<Step>): set<DeploymentId>
    decreases |steps|
  {
    if steps == [] || !Enabled(s, steps[0]) then {}
    else FiredNow(s, steps[0]) + Fired(Apply(s, steps[0]), steps[1..])
  }

  predicate TasksFired(s: State, known: set<DeploymentId>) {
    && (forall d :: d in Selected(s.dw) ==> d in known)
    && (forall t :: t in s.db.tasks ==> s.db.tasks[t].deployment in known)
  }

  lemma WorkerFires(s: State, l: Step, known: set<DeploymentId>)
    requires Enabled(s, l) && IsDeploymentWorkerStep(l) && TasksFired(s, known)
    ensures TasksFired(Apply(s, l), known + FiredNow(s, l))
  {
    if l.DeploymentWorkerFires? {
      forall d | d in l.due ensures d in FiredNow(s, l) {
        assert d in DueDeployments(s.db, l.now);
      }
    }
  }

  lemma StepFires(s: State, l: Step, known: set<DeploymentId>)
    requires Inv(s) && Enabled(s, l) && TasksFired(s, known)
    ensures TasksFired(Apply(s, l), known + FiredNow(s, l))
  {
    assert RowsOk(s.db) && !s.tw.DeletingOrphan?;
    if IsDeploymentWorkerStep(l) {
      WorkerFires(s, l, known);
    } else {
      OthersLeaveTheWorker(s, l);
      OtherStepLeavesUnknown(s, l);
    }
  }

  lemma {:induction false} RunFires(s: State, steps: seq<Step>, z: State, known: set<DeploymentId>)
    requires Inv(s) && Run(s, steps, z) && TasksFired(s, known)
    ensures TasksFired(z, known + Fired(s, steps))
    decreases |steps|
  {
    if steps == [] {
      assert known + Fired(s, steps) == known;
    } else {
      var more := known + FiredNow(s, steps[0]);
      StepKeepsInv(s, steps[0]);
      StepFires(s, steps[0], known);
      RunFires(Apply(s, steps[0]), steps[1..], z, more);
      assert known + Fired(s, steps) == more + Fired(Apply(s, steps[0]), steps[1..]);
    }
  }

  /** In every run from the start each task belongs to a deployment that some firing of the worker
      listed while its row was unknown, scheduled "once", and past its schedule time. */
  lemma TasksWereDue(s: State, steps: seq<Step>, z: State, t: TaskId)
    requires Init(s) && Run(s, steps, z) && t in z.db.tasks
    ensures z.db.tasks[t].deployment in Fired(s, steps)
  {
    RunFires(s, steps, z, {});
    assert {} + Fired(s, steps) == Fired(s, steps);
  }
}
