/** What a strategy's snapshot of hosts has to do with the deployment's filters: unless
    somebody edits the tables meanwhile, the hosts it patches are exactly those the filters ask for. */
module Snapshot {
  import opened Wrappers
  import opened Targets
  import opened Rows
  import opened Machine
  import opened UserSteps
  import opened StrategySteps
  import Progress

  /** The tables the selection reads, with `f` the filters of deployment `d`. */
  predicate Tables(db: Db, d: DeploymentId, f: Filters, groups: map<GroupId, Group>, hosts: map<HostId, Host>) {
    db.groups == groups && db.hosts == hosts && d in db.deployments && db.deployments[d].filters == f
  }

  /** How far the strategy has got with its selection. */
  predicate Selecting(st: Strategy, d: DeploymentId, f: Filters,
                      groups: map<GroupId, Group>, hosts: map<HostId, Host>) {
    && st.deployment == d
    && (match st.snapshot
        case Some(chosen) => Select(groups, hosts, f).Some? && Lists(chosen, Select(groups, hosts, f).value)
        case None =>
          match st.pc
          case LoadDeployment => true
          case LoadGroups(g) => g == f
          case LoadHosts(g, ids) =>
            g == f && GroupQuery(f).Some? && ids == GroupIds(groups, f.team, GroupQuery(f).value)
          case Crashed => true
          case _ => false)
    && (LoadingPc(st.pc) ==> st.snapshot.None?)
    && (st.snapshot.None? ==> st.children == [])
  }

  lemma OwnStepSelects(db: Db, st: Strategy, found: seq<HostId>, d: DeploymentId, f: Filters)
    requires Tables(db, d, f, db.groups, db.hosts) && Selecting(st, d, f, db.groups, db.hosts)
    requires FoundHosts(db, st.pc, found)
    ensures Selecting(StepStrategy(db, st, found).1, d, f, db.groups, db.hosts)
  {
  }

  lemma StrategyKeepsTables(db: Db, st: Strategy, found: seq<HostId>, d: DeploymentId, f: Filters)
    requires Tables(db, d, f, db.groups, db.hosts)
    ensures Tables(StepStrategy(db, st, found).0, d, f, db.groups, db.hosts)
  {
  }

  lemma ReportKeepsTables(db: Db, t: TaskId, h: HostId, outcome: Outcome, d: DeploymentId, f: Filters)
    requires Tables(db, d, f, db.groups, db.hosts)
    ensures Tables(TakeReport(db, t, h, outcome), d, f, db.groups, db.hosts)
  {
    if t in db.tasks && h in db.hosts {
      var db1 := InsertLog(db, Log(t, h, outcome));
      var tally := Tally(db1.tasks[t].tally.total, CountHosts(db1, t, HostUpdated), CountHosts(db1, t, HostFailed));
      assert TakeReport(db, t, h, outcome) == SyncTaskStatus(UpdateTaskTally(db1, t, tally), t);
    }
  }

  lemma DeploymentWorkerKeepsTables(s: State, d: DeploymentId, f: Filters)
    requires Tables(s.db, d, f, s.db.groups, s.db.hosts)
    ensures Tables(StepDeploymentWorker(s).db, d, f, s.db.groups, s.db.hosts)
  {
  }

  lemma TaskWorkerKeepsTables(s: State, d: DeploymentId, f: Filters)
    requires Tables(s.db, d, f, s.db.groups, s.db.hosts)
    ensures Tables(StepTaskWorker(s).db, d, f, s.db.groups, s.db.hosts)
  {
  }

  lemma StepKeepsTables(s: State, l: Step, d: DeploymentId, f: Filters)
    requires Enabled(s, l) && !IsUserStep(l) && Tables(s.db, d, f, s.db.groups, s.db.hosts)
    ensures Tables(Apply(s, l).db, d, f, s.db.groups, s.db.hosts)
  {
    if l.StrategySteps? {
      StrategyKeepsTables(s.db, s.strategies[l.strategy], l.found, d, f);
    } else if l.ReportTaken? {
      ReportKeepsTables(s.db, l.task, l.host, l.outcome, d, f);
    } else if l.DeploymentWorkerSteps? {
      DeploymentWorkerKeepsTables(s, d, f);
    } else if l.TaskWorkerSteps? {
      TaskWorkerKeepsTables(s, d, f);
    } else {
      OthersKeepTables(s, l);
    }
  }

  /** Until strategy `i` has its hosts nobody changes the groups, the hosts or the filters of
      deployment `d`; other rows may be edited at any time, and these afterwards. */
  predicate Unedited(s: State, steps: seq<Step>, i: nat, d: DeploymentId)
    decreases |steps|
  {
    steps != [] && Enabled(s, steps[0]) ==>
      && (IsUserStep(steps[0]) && i < |s.strategies| && LoadingPc(s.strategies[i].pc) && d in s.db.deployments
          ==> Tables(StepUser(s.db, steps[0]), d, s.db.deployments[d].filters, s.db.groups, s.db.hosts))
      && Unedited(Apply(s, steps[0]), steps[1..], i, d)
  }

  lemma OwnLaterStepSelects(db: Db, st: Strategy, found: seq<HostId>, d: DeploymentId, f: Filters,
                            groups: map<GroupId, Group>, hosts: map<HostId, Host>)
    requires Selecting(st, d, f, groups, hosts) && !LoadingPc(st.pc) && !Over(st)
    ensures Selecting(StepStrategy(db, st, found).1, d, f, groups, hosts)
    ensures !LoadingPc(StepStrategy(db, st, found).1.pc)
  {
  }

  /** The strategy has got so far, and while it is still loading the tables are as they were. */
  predicate OnTrack(s: State, i: nat, d: DeploymentId, f: Filters,
                    groups: map<GroupId, Group>, hosts: map<HostId, Host>) {
    && i < |s.strategies| && Selecting(s.strategies[i], d, f, groups, hosts)
    && (LoadingPc(s.strategies[i].pc) ==> Tables(s.db, d, f, groups, hosts))
  }

  lemma OwnStepStaysOnTrack(s: State, l: Step, i: nat, d: DeploymentId, f: Filters,
                            groups: map<GroupId, Group>, hosts: map<HostId, Host>)
    requires Enabled(s, l) && l.StrategySteps? && l.strategy == i && OnTrack(s, i, d, f, groups, hosts)
    ensures OnTrack(Apply(s, l), i, d, f, groups, hosts)
  {
    if LoadingPc(s.strategies[i].pc) {
      OwnStepSelects(s.db, s.strategies[i], l.found, d, f);
      StrategyKeepsTables(s.db, s.strategies[i], l.found, d, f);
    } else {
      OwnLaterStepSelects(s.db, s.strategies[i], l.found, d, f, groups, hosts);
    }
  }

  lemma OthersKeepSelecting(s: State, l: Step, i: nat, d: DeploymentId, f: Filters,
                            groups: map<GroupId, Group>, hosts: map<HostId, Host>)
    requires Enabled(s, l) && !(l.StrategySteps? && l.strategy == i)
    requires i < |s.strategies| && Selecting(s.strategies[i], d, f, groups, hosts)
    ensures var z := Apply(s, l);
            && i < |z.strategies| && Selecting(z.strategies[i], d, f, groups, hosts)
            && (LoadingPc(z.strategies[i].pc) ==> LoadingPc(s.strategies[i].pc))
  {
    if l.PatchPosts? || l.PatchPolls? || l.PatchCrashes? {
      Progress.ChildrenStay(s, l, i);
    } else if l.StrategySteps? || l.StrategyCrashes? || l.TaskWorkerSteps? {
    } else {
      assert Apply(s, l).strategies == s.strategies;
    }
  }

  lemma StepStaysOnTrack(s: State, l: Step, i: nat, d: DeploymentId, f: Filters,
                         groups: map<GroupId, Group>, hosts: map<HostId, Host>)
    requires Enabled(s, l) && Unedited(s, [l], i, d) && OnTrack(s, i, d, f, groups, hosts)
    ensures OnTrack(Apply(s, l), i, d, f, groups, hosts)
  {
    if l.StrategySteps? && l.strategy == i {
      OwnStepStaysOnTrack(s, l, i, d, f, groups, hosts);
    } else {
      OthersKeepSelecting(s, l, i, d, f, groups, hosts);
      if LoadingPc(s.strategies[i].pc) {
        if IsUserStep(l) {
          assert Apply(s, l).db == StepUser(s.db, l);
        } else {
          StepKeepsTables(s, l, d, f);
        }
      }
    }
  }

  lemma {:induction false} RunStaysOnTrack(s: State, steps: seq<Step>, z: State, i: nat, d: DeploymentId, f: Filters,
                                           groups: map<GroupId, Group>, hosts: map<HostId, Host>)
    requires Run(s, steps, z) && Unedited(s, steps, i, d) && OnTrack(s, i, d, f, groups, hosts)
    ensures OnTrack(z, i, d, f, groups, hosts)
    decreases |steps|
  {
    if steps == [] {
    } else {
      assert Unedited(s, [steps[0]], i, d) by {
        assert [steps[0]][1..] == [];
      }
      StepStaysOnTrack(s, steps[0], i, d, f, groups, hosts);
      RunStaysOnTrack(Apply(s, steps[0]), steps[1..], z, i, d, f, groups, hosts);
    }
  }

  /** Until the snapshot is taken a step of the strategy itself raises exactly when the query it
      is about to build does. */
  lemma LoadingRaisesExactly(db: Db, st: Strategy, found: seq<HostId>, d: DeploymentId, f: Filters)
    requires Tables(db, d, f, db.groups, db.hosts) && Selecting(st, d, f, db.groups, db.hosts) && LoadingPc(st.pc)
    ensures StepStrategy(db, st, found).1.pc == Crashed
            <==> || (st.pc.LoadGroups?
                     && exists tag :: tag in Text.Split(OrEmpty(f.groups), ',') && GroupTagRaises(tag))
                 || (st.pc.LoadHosts?
                     && exists tag :: tag in Text.Split(OrEmpty(f.hosts), ',') && HostTagRaises(tag))
  {
    GroupQueryMeans(f, Group(0, "", ""));
    HostQueryMeans(f, Host(0, "", "", ""));
  }

  ghost predicate Chosen(chosen: Option<seq<HostId>>,
                         groups: map<GroupId, Group>, hosts: map<HostId, Host>, f: Filters) {
    match chosen
    case None => true
    case Some(rows) => !Raises(f) && Distinct(rows) && forall h :: h in rows <==> Wanted(groups, hosts, f, h)
  }

  lemma SelectionIsChosen(st: Strategy, d: DeploymentId, f: Filters,
                          groups: map<GroupId, Group>, hosts: map<HostId, Host>)
    requires Selecting(st, d, f, groups, hosts)
    ensures Chosen(st.snapshot, groups, hosts, f)
  {
    SelectsExactlyTheWanted(groups, hosts, f);
  }

  /** However the run goes on, as long as nobody edits what the selection reads before it is read, a
      strategy that starts with an existing deployment and has taken its snapshot has taken the wanted
      hosts, each once. With filters that raise it never takes one and contacts no host. */
  lemma SnapshotIsTheSelection(s: State, steps: seq<Step>, z: State, i: nat)
    requires Run(s, steps, z) && i < |s.strategies| && Unedited(s, steps, i, s.strategies[i].deployment)
    requires s.strategies[i] == NewStrategy(Claim(s.strategies[i].task, s.strategies[i].deployment))
    requires s.strategies[i].deployment in s.db.deployments
    ensures i < |z.strategies|
    ensures var f := s.db.deployments[s.strategies[i].deployment].filters;
            Chosen(z.strategies[i].snapshot, s.db.groups, s.db.hosts, f)
    ensures var st := z.strategies[i];
            st.snapshot.None? ==> st.children == [] && (LoadingPc(st.pc) || st.pc == Crashed)
  {
    var d := s.strategies[i].deployment;
    var f := s.db.deployments[d].filters;
    RunStaysOnTrack(s, steps, z, i, d, f, s.db.groups, s.db.hosts);
    SelectionIsChosen(z.strategies[i], d, f, s.db.groups, s.db.hosts);
  }
}
