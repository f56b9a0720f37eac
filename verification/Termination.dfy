/** A rollout finishes: what can make its strategy raise, and how many steps it takes otherwise. */
module Termination {
  import opened Wrappers
  import opened Targets
  import opened Rows
  import opened Machine
  import opened Invariants
  import opened UserSteps
  import opened StrategySteps
  import opened Safety
  import opened Creation
  import opened Provenance
  import opened Interference
  import opened Progress
  import opened Response
  import Snapshot

  // ----- a strategy that does not raise -----

  /** Nobody kills strategy `i`, deletes deployment `d` or gives it filters that raise. */
  predicate Harmless(l: Step, i: nat, d: DeploymentId) {
    && l != StrategyCrashes(i)
    && (l.DeploymentsDeleted? ==> d !in l.deployments)
    && (l.DeploymentEdited? && l.deployment == d ==> !Raises(l.row.filters))
  }

  predicate HarmlessRun(steps: seq<Step>, i: nat, d: DeploymentId) {
    forall l :: l in steps ==> Harmless(l, i, d)
  }

  /** The deployment is there with filters that do not raise, and its task with it. */
  predicate Provided(db: Db, t: TaskId, d: DeploymentId) {
    d in db.deployments && !Raises(db.deployments[d].filters) && Serves(db, t, d)
  }

  /** The strategy has not raised, and has its hosts once it is past loading them. */
  predicate Sound(st: Strategy) {
    && st.pc != Crashed
    && (st.pc.LoadGroups? ==> !Raises(st.pc.filters))
    && (st.pc.LoadHosts? ==> !Raises(st.pc.filters))
    && (st.snapshot.None? ==> LoadingPc(st.pc))
  }

  predicate Healthy(s: State, i: nat, t: TaskId, d: DeploymentId) {
    && i < |s.strategies| && s.strategies[i].task == t && s.strategies[i].deployment == d
    && Provided(s.db, t, d) && Sound(s.strategies[i])
  }

  lemma QueriesBuild(f: Filters)
    requires !Raises(f)
    ensures GroupQuery(f).Some? && HostQuery(f).Some?
  {
    GroupQueryMeans(f, Group(0, "", ""));
    HostQueryMeans(f, Host(0, "", "", ""));
  }

  lemma LoadingStaysSound(db: Db, st: Strategy, found: seq<HostId>)
    requires Sound(st) && Provided(db, st.task, st.deployment) && LoadingPc(st.pc)
    ensures Sound(StepLoading(db, st, found))
  {
    if st.pc.LoadGroups? || st.pc.LoadHosts? {
      QueriesBuild(st.pc.filters);
    }
  }

  lemma OwnStepStaysSound(db: Db, st: Strategy, found: seq<HostId>)
    requires ShapeOk(st) && Sound(st) && Provided(db, st.task, st.deployment)
    ensures Sound(StepStrategy(db, st, found).1)
  {
    if LoadingPc(st.pc) {
      LoadingStaysSound(db, st, found);
    }
  }

  lemma UserKeepsProvided(db: Db, l: Step, i: nat, d: DeploymentId)
    requires RowsOk(db) && IsUserStep(l) && Harmless(l, i, d)
    requires d in db.deployments && !Raises(db.deployments[d].filters)
    ensures var z := StepUser(db, l); d in z.deployments && !Raises(z.deployments[d].filters)
  {
  }

  lemma StepKeepsFilters(s: State, l: Step, i: nat, d: DeploymentId)
    requires RowsOk(s.db) && Enabled(s, l) && Harmless(l, i, d)
    requires d in s.db.deployments && !Raises(s.db.deployments[d].filters)
    ensures var z := Apply(s, l).db; d in z.deployments && !Raises(z.deployments[d].filters)
  {
    if IsUserStep(l) {
      UserKeepsProvided(s.db, l, i, d);
    } else {
      Snapshot.StepKeepsTables(s, l, d, s.db.deployments[d].filters);
    }
  }

  lemma StepKeepsProvided(s: State, l: Step, i: nat, t: TaskId, d: DeploymentId)
    requires Inv(s) && Enabled(s, l) && Harmless(l, i, d) && Provided(s.db, t, d)
    ensures Provided(Apply(s, l).db, t, d)
  {
    StepKeepsFilters(s, l, i, d);
    StepGrows(s, l);
    StepNeverUnknownAgain(s, l);
    ServesStays(s.db, Apply(s, l).db, t, d);
  }

  lemma StepStaysSound(s: State, l: Step, i: nat, t: TaskId, d: DeploymentId)
    requires StrategiesOk(s) && Enabled(s, l) && Harmless(l, i, d) && Healthy(s, i, t, d)
    ensures var z := Apply(s, l);
            && i < |z.strategies| && z.strategies[i].task == t && z.strategies[i].deployment == d
            && Sound(z.strategies[i])
  {
    if l.StrategySteps? && l.strategy == i {
      assert StrategyOk(s.db, s.agents, s.sent, s.strategies[i]);
      OwnStepStaysSound(s.db, s.strategies[i], l.found);
      OwnStepGrows(s.db, s.strategies[i], l.found);
    } else {
      StepUndisturbed(s, l, TheStrategy(i));
    }
  }

  lemma {:induction false} RunStaysHealthy(s: State, steps: seq<Step>, z: State, i: nat, t: TaskId, d: DeploymentId)
    requires Inv(s) && Run(s, steps, z) && HarmlessRun(steps, i, d) && Healthy(s, i, t, d)
    ensures Healthy(z, i, t, d)
    decreases |steps|
  {
    if steps == [] {
    } else {
      assert steps[0] in steps && forall l :: l in steps[1..] ==> l in steps;
      StepKeepsInv(s, steps[0]);
      StepKeepsProvided(s, steps[0], i, t, d);
      StepStaysSound(s, steps[0], i, t, d);
      RunStaysHealthy(Apply(s, steps[0]), steps[1..], z, i, t, d);
    }
  }

  // ----- counting its steps -----

  function OwnSteps(steps: seq<Step>, i: nat): nat {
    if steps == [] then 0
    else (if steps[0].StrategySteps? && steps[0].strategy == i then 1 else 0) + OwnSteps(steps[1..], i)
  }

  /** The step is a poll of strategy `i` that finds its patch process `j` alive. */
  predicate FindsAlive(s: State, l: Step, i: nat, j: nat) {
    && l.StrategySteps? && l.strategy == i && i < |s.strategies| && |s.strategies[i].children| == j + 1
    && Enabled(s, l) && StepStrategy(s.db, s.strategies[i], l.found).1 == s.strategies[i]
  }

  /** How often along the run patch process `j` of strategy `i` is found alive. */
  function AlivePolls(s: State, steps: seq<Step>, i: nat, j: nat): nat
    decreases |steps|
  {
    if steps == [] || !Enabled(s, steps[0]) then 0
    else (if FindsAlive(s, steps[0], i, j) then 1 else 0) + AlivePolls(Apply(s, steps[0]), steps[1..], i, j)
  }

  /** The same for the first `n` patch processes together. */
  function AllAlivePolls(s: State, steps: seq<Step>, i: nat, n: nat): nat {
    if n == 0 then 0 else AlivePolls(s, steps, i, n - 1) + AllAlivePolls(s, steps, i, n - 1)
  }

  lemma {:induction false} AllAlivePollsOfFirst(s: State, steps: seq<Step>, i: nat, n: nat)
    requires steps != [] && Enabled(s, steps[0])
    ensures AllAlivePolls(s, steps, i, n)
            == (if exists j :: 0 <= j < n && FindsAlive(s, steps[0], i, j) then 1 else 0)
               + AllAlivePolls(Apply(s, steps[0]), steps[1..], i, n)
  {
    if n == 0 {
    } else {
      AllAlivePollsOfFirst(s, steps, i, n - 1);
    }
  }

  lemma {:induction false} NoPolls(s: State, i: nat, n: nat)
    ensures AllAlivePolls(s, [], i, n) == 0
  {
    if n == 0 {
    } else {
      NoPolls(s, i, n - 1);
    }
  }

  lemma {:induction false} AtMostEach(s: State, steps: seq<Step>, i: nat, n: nat, k: nat)
    requires forall j :: 0 <= j < n ==> AlivePolls(s, steps, i, j) <= k
    ensures AllAlivePolls(s, steps, i, n) <= k * n
  {
    if n == 0 {
    } else {
      AtMostEach(s, steps, i, n - 1, k);
      assert k * (n - 1) + k == k * n;
    }
  }

  /** An own step works or finds one of the first `n` patch processes alive. */
  lemma OwnStepWorksOrPolls(s: State, l: Step, i: nat, n: nat)
    requires StrategiesOk(s) && Enabled(s, l) && i < |s.strategies| && HasHosts(s.strategies[i], n)
    requires l.StrategySteps? && l.strategy == i
    ensures Apply(s, l).strategies[i] != s.strategies[i] || exists j :: 0 <= j < n && FindsAlive(s, l, i, j)
  {
    var st := s.strategies[i];
    assert StrategyOk(s.db, s.agents, s.sent, st);
    var next := StepStrategy(s.db, st, l.found).1;
    assert Apply(s, l).strategies[i] == next;
    if next == st {
      StepUsesWork(s.db, st, l.found, n);
      assert FindsAlive(s, l, i, |st.children| - 1);
    }
  }

  /** All own steps together: those that work, and the polls that find a patch process alive. */
  lemma {:induction false} OwnStepsAdd(s: State, steps: seq<Step>, z: State, i: nat, n: nat)
    requires Inv(s) && Run(s, steps, z) && i < |s.strategies|
    requires i < |z.strategies| ==> HasHosts(z.strategies[i], n)
    ensures OwnSteps(steps, i) <= WorkingSteps(s, steps, i) + AllAlivePolls(s, steps, i, n)
    decreases |steps|
  {
    if steps == [] {
    } else {
      var m := Apply(s, steps[0]);
      StepKeepsInv(s, steps[0]);
      StrategiesOnlyGrow(s, steps[0], i);
      WorkingStepsAreBounded(s, steps, z, i, n);
      OwnStepsAdd(m, steps[1..], z, i, n);
      AllAlivePollsOfFirst(s, steps, i, n);
      if steps[0].StrategySteps? && steps[0].strategy == i {
        OwnStepWorksOrPolls(s, steps[0], i, n);
      }
    }
  }

  lemma WorkIsLeft(st: Strategy, n: nat)
    requires ShapeOk(st) && HasHosts(st, n) && Work(st, n) <= 0
    ensures Over(st)
  {
  }

  /** The own steps are bounded, and a strategy that has taken so many is over. */
  lemma OwnStepsAreBounded(s: State, steps: seq<Step>, z: State, i: nat, n: nat, k: nat)
    requires Inv(s) && Run(s, steps, z) && i < |s.strategies|
    requires i < |z.strategies| ==> HasHosts(z.strategies[i], n)
    requires forall j :: 0 <= j < n ==> AlivePolls(s, steps, i, j) <= k
    ensures OwnSteps(steps, i) <= 16 + 3 * n + k * n
    ensures i < |z.strategies| && (OwnSteps(steps, i) == 16 + 3 * n + k * n ==> Over(z.strategies[i]))
  {
    WorkingStepsAreBounded(s, steps, z, i, n);
    OwnStepsAdd(s, steps, z, i, n);
    AtMostEach(s, steps, i, n, k);
    RunKeepsInv(s, steps, z);
    assert StrategyOk(z.db, z.agents, z.sent, z.strategies[i]);
    WorkIsNatural(z.strategies[i], n);
    if OwnSteps(steps, i) == 16 + 3 * n + k * n {
      WorkIsLeft(z.strategies[i], n);
    }
  }

  // ----- the rollout finishes -----

  /** Strategy `i` has just been spawned for a deployment whose filters do not raise. */
  predicate Starts(s: State, i: nat) {
    && i < |s.strategies| && s.strategies[i] == NewStrategy(Claim(s.strategies[i].task, s.strategies[i].deployment))
    && s.strategies[i].deployment in s.db.deployments
    && !Raises(s.db.deployments[s.strategies[i].deployment].filters)
  }

  /** The strategy ran to its end: one patch process for each of `n` chosen hosts, in order, all dead. */
  predicate Completed(z: State, i: nat, n: nat) {
    && i < |z.strategies| && z.strategies[i].pc.Finished?
    && z.strategies[i].snapshot.Some? && |z.strategies[i].children| == |z.strategies[i].snapshot.value| == n
    && forall j :: 0 <= j < n ==>
         && Dead(z.strategies[i].children[j])
         && z.strategies[i].children[j].host == z.strategies[i].snapshot.value[j]
  }

  ghost predicate CannotStep(z: State, i: nat) {
    forall found: seq<HostId> :: !Enabled(z, StrategySteps(i, found))
  }

  lemma NeverRaises(s: State, steps: seq<Step>, z: State, i: nat)
    requires Reachable(s) && Starts(s, i) && Run(s, steps, z) && HarmlessRun(steps, i, s.strategies[i].deployment)
    ensures i < |z.strategies| && z.strategies[i].pc != Crashed
    ensures z.strategies[i].snapshot.None? ==> LoadingPc(z.strategies[i].pc)
  {
    var t, d := s.strategies[i].task, s.strategies[i].deployment;
    ReachableInv(s);
    ReachableCauses(s);
    assert Serves(s.db, t, d);
    RunStaysHealthy(s, steps, z, i, t, d);
  }

  /** The strategy of a rollout that nobody kills and whose deployment is neither deleted nor given
      filters that raise never raises. With `n` chosen hosts, each found alive at most `k` times, it
      takes at most 16 + 3n + kn steps; when it has taken so many, and whenever it cannot step, it
      has ended with exactly one dead patch process for each chosen host. */
  lemma RolloutFinishes(s: State, steps: seq<Step>, z: State, i: nat, n: nat, k: nat)
    requires Reachable(s) && Starts(s, i) && Run(s, steps, z) && HarmlessRun(steps, i, s.strategies[i].deployment)
    requires i < |z.strategies| ==> HasHosts(z.strategies[i], n)
    requires forall j :: 0 <= j < n ==> AlivePolls(s, steps, i, j) <= k
    ensures i < |z.strategies| && z.strategies[i].pc != Crashed
    ensures OwnSteps(steps, i) <= 16 + 3 * n + k * n
    ensures CannotStep(z, i) || OwnSteps(steps, i) == 16 + 3 * n + k * n ==> Completed(z, i, n)
  {
    ReachableInv(s);
    NeverRaises(s, steps, z, i);
    OwnStepsAreBounded(s, steps, z, i, n, k);
    RunIsReachable(s, steps, z);
    if CannotStep(z, i) {
      StuckIsOver(z, i);
    }
    if Over(z.strategies[i]) {
      FinishedMeansAllHosts(z, i);
    }
  }

  lemma RunIsReachable(s: State, steps: seq<Step>, z: State)
    requires Reachable(s) && Run(s, steps, z)
    ensures Reachable(z)
  {
    var first :| Init(first) && Leads(first, s);
    LeadsOn(first, s, z);
  }

  lemma StuckIsOver(z: State, i: nat)
    requires i < |z.strategies| && CannotStep(z, i)
    ensures Over(z.strategies[i])
  {
    var found := SomeFound(z.db, z.strategies[i].pc);
    assert !Enabled(z, StrategySteps(i, found));
  }

  // ----- how often a patch process is found alive -----

  /** Between two polls that find process `j` alive it checks the log at least once: it sleeps 30
      seconds between checks, and the strategy 60 between polls. `rested` says that it has checked
      since the last poll. */
  predicate Paced(s: State, steps: seq<Step>, i: nat, j: nat, rested: bool)
    decreases |steps|
  {
    steps != [] && Enabled(s, steps[0]) ==>
      && (FindsAlive(s, steps[0], i, j) ==> rested)
      && Paced(Apply(s, steps[0]), steps[1..], i, j,
               steps[0] == PatchPolls(i, j) || (rested && !FindsAlive(s, steps[0], i, j)))
  }

  lemma {:induction false} PolledNoOftenerThanChecked(s: State, steps: seq<Step>, z: State,
                                                      i: nat, j: nat, rested: bool)
    requires Run(s, steps, z) && Paced(s, steps, i, j, rested)
    ensures AlivePolls(s, steps, i, j) <= Checks(steps, i, j) + (if rested then 1 else 0)
    decreases |steps|
  {
    if steps == [] {
    } else {
      PolledNoOftenerThanChecked(Apply(s, steps[0]), steps[1..], z, i, j,
                                 steps[0] == PatchPolls(i, j) || (rested && !FindsAlive(s, steps[0], i, j)));
    }
  }

  lemma {:induction false} PollsConcat(s: State, first: seq<Step>, m: State, second: seq<Step>, i: nat, j: nat)
    requires Run(s, first, m)
    ensures AlivePolls(s, first + second, i, j) == AlivePolls(s, first, i, j) + AlivePolls(m, second, i, j)
    decreases |first|
  {
    if first == [] {
      assert first + second == second;
    } else {
      assert (first + second)[1..] == first[1..] + second;
      PollsConcat(Apply(s, first[0]), first[1..], m, second, i, j);
    }
  }

  /** A patch process whose host's outcome is logged after it was found alive `k` times is found
      alive at most three times more. */
  lemma FoundAliveThriceMore(s: State, first: seq<Step>, m: State, second: seq<Step>, z: State,
                             i: nat, j: nat, outcome: Rows.Outcome, k: nat)
    requires Run(s, first, m) && AlivePolls(s, first, i, j) <= k
    requires Reachable(m) && Run(m, second, z) && Answered(m, i, j, outcome) && StillThere(z.db, m, i, j)
    requires !Dead(m.strategies[i].children[j]) && Paced(m, second, i, j, true)
    ensures AlivePolls(s, first + second, i, j) <= k + 3
  {
    LoggedPatchDies(m, second, z, i, j, outcome);
    PolledNoOftenerThanChecked(m, second, z, i, j, true);
    PollsConcat(s, first, m, second, i, j);
  }

  // ----- a rollout whose patch processes are answered or die -----

  lemma DeadIsNotFoundAlive(s: State, l: Step, i: nat, j: nat)
    requires StrategiesOk(s) && Enabled(s, l) && IsChild(s, i, j) && Dead(s.strategies[i].children[j])
    ensures !FindsAlive(s, l, i, j)
    ensures IsChild(Apply(s, l), i, j) && Dead(Apply(s, l).strategies[i].children[j])
  {
    StepMovesChild(s, l, i, j);
    if FindsAlive(s, l, i, j) {
      var st := s.strategies[i];
      assert StrategyOk(s.db, s.agents, s.sent, st);
      StepUsesWork(s.db, st, l.found, if st.snapshot.Some? then |st.snapshot.value| else 0);
      assert false;
    }
  }

  lemma {:induction false} DeadIsNeverFoundAlive(s: State, steps: seq<Step>, z: State, i: nat, j: nat)
    requires Inv(s) && Run(s, steps, z) && IsChild(s, i, j) && Dead(s.strategies[i].children[j])
    ensures AlivePolls(s, steps, i, j) == 0
    decreases |steps|
  {
    if steps == [] {
    } else {
      StepKeepsInv(s, steps[0]);
      DeadIsNotFoundAlive(s, steps[0], i, j);
      DeadIsNeverFoundAlive(Apply(s, steps[0]), steps[1..], z, i, j);
    }
  }

  /** From here on the process is dead; or its host's outcome is logged, the task and the host last,
      and it is paced; or the run is over. */
  ghost predicate Settled(m: State, rest: seq<Step>, z: State, i: nat, j: nat) {
    || rest == []
    || (IsChild(m, i, j) && Dead(m.strategies[i].children[j]))
    || (exists outcome :: Answered(m, i, j, outcome) && StillThere(z.db, m, i, j) && Paced(m, rest, i, j, true))
  }

  /** The process is settled at some point of the run, found alive at most `k` times before. */
  ghost predicate SettledWithin(s: State, steps: seq<Step>, z: State, i: nat, j: nat, k: nat) {
    exists first, m, rest :: SettlesAt(s, first, m, rest, z, i, j, k) && steps == first + rest
  }

  ghost predicate SettlesAt(s: State, first: seq<Step>, m: State, rest: seq<Step>, z: State, i: nat, j: nat, k: nat) {
    Run(s, first, m) && AlivePolls(s, first, i, j) <= k && Run(m, rest, z) && Settled(m, rest, z, i, j)
  }

  lemma SettledIsFoundAliveSeldom(s: State, steps: seq<Step>, z: State, i: nat, j: nat, k: nat)
    requires Reachable(s) && SettledWithin(s, steps, z, i, j, k)
    ensures AlivePolls(s, steps, i, j) <= k + 3
  {
    var first, m, rest :| SettlesAt(s, first, m, rest, z, i, j, k) && steps == first + rest;
    RunIsReachable(s, first, m);
    PollsConcat(s, first, m, rest, i, j);
    if rest != [] {
      if IsChild(m, i, j) && Dead(m.strategies[i].children[j]) {
        ReachableInv(m);
        DeadIsNeverFoundAlive(m, rest, z, i, j);
      } else {
        var outcome :| Answered(m, i, j, outcome) && StillThere(z.db, m, i, j) && Paced(m, rest, i, j, true);
        FoundAliveThriceMore(s, first, m, rest, z, i, j, outcome, k);
      }
    }
  }

  /** The whole of it: when each patch process dies, or its host's outcome is logged, before it is
      found alive more than `k` times, the strategy takes at most 16 + 3n + (k + 3)n steps, and when
      it has taken so many, and whenever it cannot step, it has ended with exactly one dead patch
      process for each of its `n` chosen hosts. */
  lemma AnsweredRolloutFinishes(s: State, steps: seq<Step>, z: State, i: nat, n: nat, k: nat)
    requires Reachable(s) && Starts(s, i) && Run(s, steps, z) && HarmlessRun(steps, i, s.strategies[i].deployment)
    requires i < |z.strategies| ==> HasHosts(z.strategies[i], n)
    requires forall j :: 0 <= j < n ==> SettledWithin(s, steps, z, i, j, k)
    ensures i < |z.strategies| && z.strategies[i].pc != Crashed
    ensures OwnSteps(steps, i) <= 16 + 3 * n + (k + 3) * n
    ensures CannotStep(z, i) || OwnSteps(steps, i) == 16 + 3 * n + (k + 3) * n ==> Completed(z, i, n)
  {
    forall j | 0 <= j < n ensures AlivePolls(s, steps, i, j) <= k + 3 {
      SettledIsFoundAliveSeldom(s, steps, z, i, j, k);
    }
    RolloutFinishes(s, steps, z, i, n, k + 3);
  }
}
