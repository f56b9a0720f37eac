/** A rollout does not get stuck and does not go on for ever: it waits only for a living patch
    process, and between waits its steps run out. */
module Progress {
  import opened Wrappers
  import opened Targets
  import opened Rows
  import opened Machine
  import opened Invariants
  import opened Safety
  import opened StrategySteps

  function EarlyRank(pc: StrategyPc): nat {
    match pc
    case LoadDeployment => 10
    case LoadGroups(_) => 9
    case LoadHosts(_, _) => 8
    case ReadDeployment => 7
    case MarkDeployment(_) => 6
    case ReadTask => 5
    case MarkTask(_) => 4
    case ReadTally => 3
    case RereadTask(_) => 2
    case WriteTally(_, _) => 1
    case _ => 0
  }

  /** A bound on the steps a strategy with `n` hosts has left, waiting apart. */
  function Work(st: Strategy, n: nat): int {
    var left := 3 * (n - |st.children|);
    match st.pc
    case NextHost => left + 6
    case SendMessage => left + 8
    case Waiting => left + 7
    case SkipReadTask => 5
    case SkipTask(_) => 4
    case SkipReadDeployment => 3
    case SkipDeployment(_) => 2
    case Finished => 0
    case Crashed => 0
    case _ => EarlyRank(st.pc) + 3 * n + 6
  }

  /** The strategy has `n` hosts, as far as is known. */
  predicate HasHosts(st: Strategy, n: nat) {
    st.snapshot.Some? ==> |st.snapshot.value| == n
  }

  lemma LoopUsesWork(st: Strategy, n: nat)
    requires ShapeOk(st) && HasHosts(st, n) && (st.pc.NextHost? || st.pc.SendMessage? || st.pc.Waiting?)
    ensures var z := StepLoop(st);
            && (z != st ==> 0 <= Work(z, n) < Work(st, n))
            && (z == st <==> st.pc.Waiting? && !Dead(st.children[|st.children| - 1]))
  {
  }

  lemma WritingUsesWork(db: Db, st: Strategy, n: nat)
    requires ShapeOk(st) && HasHosts(st, n) && !Over(st)
    requires !LoadingPc(st.pc) && !st.pc.NextHost? && !st.pc.SendMessage? && !st.pc.Waiting?
    ensures var z := StepWriting(db, st).1; z != st && 0 <= Work(z, n) < Work(st, n)
  {
  }

  /** A step changes the strategy and uses up work, or it is a poll of a living patch process. */
  lemma StepUsesWork(db: Db, st: Strategy, found: seq<HostId>, n: nat)
    requires ShapeOk(st) && !Over(st)
    requires HasHosts(StepStrategy(db, st, found).1, n)
    ensures var z := StepStrategy(db, st, found).1;
            && (z != st ==> 0 <= Work(z, n) < Work(st, n))
            && (z == st <==> st.pc.Waiting? && !Dead(st.children[|st.children| - 1]))
  {
    SnapshotStays(db, st, found);
    if st.pc.NextHost? || st.pc.SendMessage? || st.pc.Waiting? {
      LoopUsesWork(st, n);
    } else if !LoadingPc(st.pc) {
      WritingUsesWork(db, st, n);
    }
  }

  /** Steps of strategy `i` along a run that are more than a poll. */
  function WorkingSteps(s: State, steps: seq<Step>, i: nat): nat
    decreases |steps|
  {
    if steps == [] || !Enabled(s, steps[0]) then 0
    else
      var z := Apply(s, steps[0]);
      var works := steps[0].StrategySteps? && steps[0].strategy == i && i < |s.strategies|
                   && z.strategies[i] != s.strategies[i];
      (if works then 1 else 0) + WorkingSteps(z, steps[1..], i)
  }

  /** What a step by anybody does to strategy `i`. */
  lemma StepSpendsWork(s: State, l: Step, i: nat, n: nat)
    requires Inv(s) && Enabled(s, l) && i < |s.strategies|
    requires i < |Apply(s, l).strategies| ==> HasHosts(Apply(s, l).strategies[i], n)
    ensures i < |Apply(s, l).strategies| && HasHosts(s.strategies[i], n)
    ensures var st, z := s.strategies[i], Apply(s, l).strategies[i];
            var works := l.StrategySteps? && l.strategy == i && z != st;
            0 <= Work(z, n) && Work(z, n) + (if works then 1 else 0) <= Work(st, n)
  {
    var st := s.strategies[i];
    assert StrategyOk(s.db, s.agents, s.sent, st);
    StepKeepsInv(s, l);
    if l.StrategySteps? && l.strategy == i {
      SnapshotStays(s.db, st, l.found);
      StepUsesWork(s.db, st, l.found, n);
    } else if l.StrategySteps? || l.StrategyCrashes? {
      OthersStay(s, l, i);
    } else if l.PatchPosts? || l.PatchPolls? || l.PatchCrashes? {
      ChildrenStay(s, l, i);
    } else if l.TaskWorkerSteps? {
    } else {
      assert Apply(s, l).strategies == s.strategies;
    }
    WorkIsNatural(Apply(s, l).strategies[i], n);
    WorkIsNatural(st, n);
  }

  lemma WorkIsNatural(st: Strategy, n: nat)
    requires HasHosts(st, n)
    ensures ShapeOk(st) ==> 0 <= Work(st, n)
  {
  }

  lemma SnapshotStays(db: Db, st: Strategy, found: seq<HostId>)
    requires ShapeOk(st)
    ensures st.snapshot.Some? ==> StepStrategy(db, st, found).1.snapshot == st.snapshot
  {
  }

  lemma OthersStay(s: State, l: Step, i: nat)
    requires Enabled(s, l) && i < |s.strategies|
    requires (l.StrategySteps? && l.strategy != i) || l.StrategyCrashes?
    ensures i < |Apply(s, l).strategies|
    ensures Apply(s, l).strategies[i] == s.strategies[i] || Apply(s, l).strategies[i] == s.strategies[i].(pc := Crashed)
  {
  }

  lemma ChildrenStay(s: State, l: Step, i: nat)
    requires Enabled(s, l) && i < |s.strategies|
    requires l.PatchPosts? || l.PatchPolls? || l.PatchCrashes?
    ensures var z := Apply(s, l).strategies;
            && i < |z| && z[i] == s.strategies[i].(children := z[i].children)
            && |z[i].children| == |s.strategies[i].children|
  {
  }

  /** Along a run the steps of a strategy, polls apart, are paid for by its work: from its start
      to its end a strategy with `n` hosts takes at most 16 + 3n of them. */
  lemma {:induction false} WorkingStepsAreBounded(s: State, steps: seq<Step>, z: State, i: nat, n: nat)
    requires Inv(s) && Run(s, steps, z) && i < |s.strategies|
    requires i < |z.strategies| ==> HasHosts(z.strategies[i], n)
    ensures i < |z.strategies| && HasHosts(s.strategies[i], n)
    ensures WorkingSteps(s, steps, i) + Work(z.strategies[i], n) <= Work(s.strategies[i], n) <= 16 + 3 * n
    decreases |steps|
  {
    if steps == [] {
      assert StrategyOk(s.db, s.agents, s.sent, s.strategies[i]);
    } else {
      var m := Apply(s, steps[0]);
      StepKeepsInv(s, steps[0]);
      StrategiesOnlyGrow(s, steps[0], i);
      WorkingStepsAreBounded(m, steps[1..], z, i, n);
      StepSpendsWork(s, steps[0], i, n);
    }
    assert StrategyOk(s.db, s.agents, s.sent, s.strategies[i]);
  }

  lemma StrategiesOnlyGrow(s: State, l: Step, i: nat)
    requires Enabled(s, l) && i < |s.strategies|
    ensures i < |Apply(s, l).strategies|
  {
  }

  // ----- never stuck -----

  lemma {:induction false} SomeListing<T>(ids: set<T>) returns (rows: seq<T>)
    ensures Lists(rows, ids)
    decreases |ids|
  {
    if ids == {} {
      rows := [];
    } else {
      var x :| x in ids;
      var rest := SomeListing(ids - {x});
      rows := [x] + rest;
    }
  }

  /** A strategy that is not over can step, and when its step is only a poll, the patch process it
      polls is alive and can step itself. */
  lemma NeverStuck(z: State, i: nat)
    requires Reachable(z) && i < |z.strategies| && !Over(z.strategies[i])
    ensures exists found :: CanStep(z, i, found)
  {
    ReachableInv(z);
    var st := z.strategies[i];
    assert StrategyOk(z.db, z.agents, z.sent, st);
    var found := SomeFound(z.db, st.pc);
    ShapedCanStep(z, i, found);
    assert CanStep(z, i, found);
  }

  lemma SomeFound(db: Db, pc: StrategyPc) returns (found: seq<HostId>)
    ensures FoundHosts(db, pc, found)
  {
    found := [];
    if pc.LoadHosts? && HostQuery(pc.filters).Some? {
      found := SomeListing(HostIds(db.hosts, pc.groupIds, HostQuery(pc.filters).value));
    }
  }

  lemma ShapedCanStep(z: State, i: nat, found: seq<HostId>)
    requires i < |z.strategies| && ShapeOk(z.strategies[i]) && !Over(z.strategies[i])
    requires FoundHosts(z.db, z.strategies[i].pc, found)
    ensures CanStep(z, i, found)
  {
    var st := z.strategies[i];
    var next := StepStrategy(z.db, st, found).1;
    assert Apply(z, StrategySteps(i, found)).strategies[i] == next;
    StepUsesWork(z.db, st, found, if next.snapshot.Some? then |next.snapshot.value| else 0);
  }

  predicate CanStep(z: State, i: nat, found: seq<HostId>) {
    && Enabled(z, StrategySteps(i, found))
    && (Apply(z, StrategySteps(i, found)).strategies[i] == z.strategies[i] ==>
          var st := z.strategies[i];
          var j := |st.children| - 1;
          && j >= 0 && !Dead(st.children[j])
          && (Enabled(z, PatchPosts(i, j, true, false)) || Enabled(z, PatchPolls(i, j))))
  }

  /** A strategy that ran to its end has spawned one patch process for each chosen host. */
  lemma FinishedMeansAllHosts(z: State, i: nat)
    requires Reachable(z) && i < |z.strategies| && z.strategies[i].pc.Finished?
    ensures var st := z.strategies[i];
            && st.snapshot.Some? && |st.children| == |st.snapshot.value|
            && (forall j :: 0 <= j < |st.children| ==>
                  Dead(st.children[j]) && st.children[j].host == st.snapshot.value[j])
            && (st.snapshot.value == [] && st.task in z.db.tasks ==> z.db.tasks[st.task].status == Skipped)
  {
    ReachableInv(z);
    assert StrategyOk(z.db, z.agents, z.sent, z.strategies[i]);
  }
}
