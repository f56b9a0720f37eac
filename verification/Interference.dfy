/** Runs in which one process stands still while all the others go on. */
module Interference {
  import opened Wrappers
  import opened Targets
  import opened Rows
  import opened Machine
  import opened Invariants
  import opened Safety
  import opened Creation

  datatype Actor = TheDeploymentWorker | TheTaskWorker | TheStrategy(strategy: nat)

  predicate By(l: Step, who: Actor) {
    match who
    case TheDeploymentWorker => l.DeploymentWorkerFires? || l.DeploymentWorkerSteps? || l.DeploymentWorkerCrashes?
    case TheTaskWorker => l.TaskWorkerFires? || l.TaskWorkerSteps? || l.TaskWorkerCrashes?
    case TheStrategy(i) => (l.StrategySteps? || l.StrategyCrashes?) && l.strategy == i
  }

  predicate OthersRun(s: State, steps: seq<Step>, z: State, who: Actor) {
    Run(s, steps, z) && forall l :: l in steps ==> !By(l, who)
  }

  ghost predicate OthersLead(s: State, z: State, who: Actor) {
    exists steps :: OthersRun(s, steps, z, who)
  }

  /** What the process that stands still can count on. */
  predicate Undisturbed(s: State, z: State, who: Actor) {
    match who
    case TheDeploymentWorker => z.dw == s.dw && z.created == s.created && z.crashes == s.crashes
    case TheTaskWorker => z.tw == s.tw && |z.strategies| == |s.strategies|
    case TheStrategy(i) =>
      i < |s.strategies| ==>
        && i < |z.strategies|
        && |z.strategies[i].children| == |s.strategies[i].children|
        && z.strategies[i] == s.strategies[i].(children := z.strategies[i].children)
  }

  /** Only the task worker spawns strategies. */
  lemma OthersSpawnNothing(s: State, l: Step)
    requires Enabled(s, l) && !l.TaskWorkerSteps?
    ensures |Apply(s, l).strategies| == |s.strategies|
  {
  }

  lemma StepUndisturbed(s: State, l: Step, who: Actor)
    requires Enabled(s, l) && !By(l, who)
    ensures Undisturbed(s, Apply(s, l), who)
  {
    if who.TheDeploymentWorker? {
    } else if who.TheTaskWorker? {
      OthersSpawnNothing(s, l);
    } else if l.TaskWorkerSteps? || l.StrategySteps? || l.StrategyCrashes? {
    } else if l.PatchPosts? || l.PatchPolls? || l.PatchCrashes? {
    } else {
      assert Apply(s, l).strategies == s.strategies;
    }
  }

  lemma {:induction false} OthersUndisturbed(s: State, steps: seq<Step>, z: State, who: Actor)
    requires OthersRun(s, steps, z, who)
    ensures Undisturbed(s, z, who)
    decreases |steps|
  {
    if steps == [] {
    } else {
      assert steps[0] in steps;
      StepUndisturbed(s, steps[0], who);
      OthersUndisturbed(Apply(s, steps[0]), steps[1..], z, who);
    }
  }

  /** Everything a method learns from an interference point. */
  lemma AfterInterference(s: State, z: State, who: Actor)
    requires Inv(s) && OthersLead(s, z, who)
    ensures Leads(s, z) && Inv(z) && Undisturbed(s, z, who)
    ensures TasksMoveOn(s.db, z.db) && NeverUnknownAgain(s.db, z.db)
  {
    var steps :| OthersRun(s, steps, z, who);
    RunKeepsInv(s, steps, z);
    OthersUndisturbed(s, steps, z, who);
    StatusOnlyMovesOn(s, steps, z);
    NothingWritesUnknown(s, steps, z);
  }

  lemma OneStepLeads(s: State, l: Step)
    requires Inv(s) && Enabled(s, l)
    ensures Leads(s, Apply(s, l)) && Inv(Apply(s, l))
    ensures TasksMoveOn(s.db, Apply(s, l).db) && NeverUnknownAgain(s.db, Apply(s, l).db)
  {
    assert [l][1..] == [];
    assert Run(s, [l], Apply(s, l));
    StepKeepsInv(s, l);
    StepMovesOn(s, l);
    StepNeverUnknownAgain(s, l);
  }

  /** A run that starts in a reachable state. */
  ghost predicate Continues(start: State, z: State) {
    Reachable(start) && Leads(start, z)
  }

  lemma ContinuesInv(start: State, z: State)
    requires Continues(start, z)
    ensures Inv(z)
  {
    ReachableInv(start);
    var steps :| Run(start, steps, z);
    RunKeepsInv(start, steps, z);
  }

  lemma ContinuesReachable(start: State, z: State)
    requires Continues(start, z)
    ensures Reachable(z)
  {
    var s :| Init(s) && Leads(s, start);
    LeadsOn(s, start, z);
  }

  /** From a state on, a run continues from that state. */
  lemma ContinuesHere(start: State, z: State)
    requires Continues(start, z)
    ensures Continues(z, z)
  {
    ContinuesReachable(start, z);
    StandingLeads(z);
  }

  lemma ContinuesOn(start: State, m: State, z: State)
    requires Continues(start, m) && Leads(m, z)
    ensures Continues(start, z)
  {
    LeadsOn(start, m, z);
  }

  lemma ContinuesRows(start: State, z: State)
    requires Continues(start, z)
    ensures RowsOk(z.db)
  {
    ContinuesInv(start, z);
  }

  lemma StandingLeads(s: State)
    ensures Leads(s, s)
  {
    assert Run(s, [], s);
  }
}
