/** One strategy process, written as `OneByOneStrategy.handle/2` is: load the hosts, mark the
    deployment and the task, record the total, then patch host after host. */
module StrategyProcess {
  import opened Wrappers
  import opened Targets
  import opened Rows
  import opened Machine
  import opened Invariants
  import opened Safety
  import opened Interference
  import opened Creation
  import opened Server
  import Provenance
  import Progress

  datatype Outcome = Done | Raised | StillWaiting

  /** The states in which the deployment, its groups and their hosts were read. */
  datatype Reads = Reads(deployment: State, groups: State, hosts: State)

  ghost predicate InOrder(start: State, r: Reads, z: State) {
    Continues(start, r.deployment) && Leads(r.deployment, r.groups) && Leads(r.groups, r.hosts) && Leads(r.hosts, z)
  }

  /** The rows are the hosts that the filters ask for, each once. */
  ghost predicate Listed(rows: seq<HostId>, r: Reads, f: Filters) {
    Distinct(rows) && forall h :: h in rows <==> Wanted(r.groups.db.groups, r.hosts.db.hosts, f, h)
  }

  lemma ListedExactly(rows: seq<HostId>, r: Reads, f: Filters)
    requires GroupQuery(f).Some? && HostQuery(f).Some?
    requires Lists(rows, HostIds(r.hosts.db.hosts, GroupIds(r.groups.db.groups, f.team, GroupQuery(f).value),
                                 HostQuery(f).value))
    ensures Listed(rows, r, f) && !Raises(f)
  {
    SelectsExactlyTheWanted(r.groups.db.groups, r.hosts.db.hosts, f);
  }

  lemma RaisesWhenQueryDoes(f: Filters)
    requires GroupQuery(f).None? || HostQuery(f).None?
    ensures Raises(f)
  {
    SelectsExactlyTheWanted(map[], map[], f);
  }

  class StrategyProcess {
    const server: Server
    const pid: nat
    const task: TaskId
    const deployment: DeploymentId

    constructor (server: Server, pid: nat, task: TaskId, deployment: DeploymentId)
      ensures this.server == server && this.pid == pid && this.task == task && this.deployment == deployment
    {
      this.server := server;
      this.pid := pid;
      this.task := task;
      this.deployment := deployment;
    }

    /** This process as the machine sees it. */
    ghost predicate Is(st: Strategy)
      reads server
    {
      pid < |server.View().strategies| && server.View().strategies[pid] == st
    }

    /** At point `pc`, before any patch process. */
    ghost predicate At(start: State, pc: StrategyPc, hosts: Option<seq<HostId>>)
      reads server
    {
      && Continues(start, server.View())
      && Is(Strategy(task, deployment, pc, hosts, []))
    }

    /** The other processes run, then this one is still where it was. */
    method Interfere(ghost start: State, ghost pc: StrategyPc, ghost hosts: Option<seq<HostId>>)
      requires At(start, pc, hosts)
      modifies server
      ensures At(start, pc, hosts)
    {
      server.Interfere(start, TheStrategy(pid));
      assert server.View().strategies[pid].children == [];
    }

    /** The call just made is this process's next step. */
    method Advance(ghost start: State, before: State, found: seq<HostId>)
      requires Continues(start, before) && pid < |before.strategies| && !Over(before.strategies[pid])
      requires FoundHosts(before.db, before.strategies[pid].pc, found)
      requires server.db == StepStrategy(before.db, before.strategies[pid], found).0
      modifies server`processes
      ensures Continues(start, server.View()) && Is(StepStrategy(before.db, before.strategies[pid], found).1)
    {
      server.Advance(start, before, StrategySteps(pid, found));
    }

    /** `get_deployment_target_hosts/1`: the deployment, then its groups, then their hosts. Without
        the deployment there is no host list; otherwise it raises exactly when its filters do, and
        lists exactly the hosts they ask for. */
    method LoadTargets(ghost start: State) returns (hosts: Option<seq<HostId>>, raised: bool, ghost read: Option<Reads>)
      requires At(start, LoadDeployment, None)
      modifies server
      ensures At(start, if raised then Crashed else ReadDeployment, hosts)
      ensures read.None? ==> !raised && hosts.None? && deployment !in server.db.deployments
      ensures read.Some? ==> Answered(start, read.value, hosts, raised)
    {
      Interfere(start, LoadDeployment, None);
      ghost var here := server.View();
      ContinuesHere(start, here);
      hosts, raised, read := None, false, None;
      if deployment in server.db.deployments {
        var filters := server.db.deployments[deployment].filters;
        Advance(here, server.View(), []);
        ghost var groups, rows;
        hosts, raised, groups, rows := LoadGroupsAndHosts(here, filters);
        read := Some(Reads(here, groups, rows));
      } else {
        Advance(here, server.View(), []);
      }
      ContinuesOn(start, here, server.View());
    }

    /** The filters the deployment had when it was read. */
    ghost predicate Asked(r: Reads, f: Filters) {
      deployment in r.deployment.db.deployments && r.deployment.db.deployments[deployment].filters == f
    }

    ghost predicate Answered(start: State, r: Reads, hosts: Option<seq<HostId>>, raised: bool)
      reads server
    {
      && InOrder(start, r, server.View())
      && exists f :: Asked(r, f) && (raised <==> Raises(f)) && (hosts.Some? <==> !raised)
           && (hosts.Some? ==> Listed(hosts.value, r, f))
    }

    method LoadGroupsAndHosts(ghost start: State, filters: Filters)
      returns (hosts: Option<seq<HostId>>, raised: bool, ghost groups: State, ghost rows: State)
      requires At(start, LoadGroups(filters), None)
      modifies server
      ensures At(start, if raised then Crashed else ReadDeployment, hosts)
      ensures Continues(start, groups) && Leads(groups, rows) && Leads(rows, server.View())
      ensures (raised <==> Raises(filters)) && (hosts.Some? <==> !raised)
      ensures hosts.Some? ==> Listed(hosts.value, Reads(start, groups, rows), filters)
    {
      Interfere(start, LoadGroups(filters), None);
      groups := server.View();
      ContinuesHere(start, groups);
      var query := GroupQuery(filters);
      hosts, raised, rows := None, query.None?, groups;
      if raised {
        RaisesWhenQueryDoes(filters);
        Advance(groups, server.View(), []);
      } else {
        var ids := GroupIds(server.db.groups, filters.team, query.value);
        Advance(groups, server.View(), []);
        hosts, raised, rows := LoadHostRows(groups, filters, ids);
        if raised {
          RaisesWhenQueryDoes(filters);
        } else {
          ListedExactly(hosts.value, Reads(start, groups, rows), filters);
        }
      }
      ContinuesOn(start, groups, server.View());
    }

    method LoadHostRows(ghost start: State, filters: Filters, ids: set<GroupId>)
      returns (hosts: Option<seq<HostId>>, raised: bool, ghost seen: State)
      requires At(start, LoadHosts(filters, ids), None)
      modifies server
      ensures At(start, if raised then Crashed else ReadDeployment, hosts)
      ensures Leads(start, seen) && Leads(seen, server.View())
      ensures (raised <==> HostQuery(filters).None?) && (hosts.Some? <==> !raised)
      ensures hosts.Some? ==> Lists(hosts.value, HostIds(seen.db.hosts, ids, HostQuery(filters).value))
    {
      Interfere(start, LoadHosts(filters, ids), None);
      seen := server.View();
      ContinuesHere(start, seen);
      var query := HostQuery(filters);
      hosts, raised := None, query.None?;
      if raised {
        Advance(seen, server.View(), []);
      } else {
        var rows := server.ListRows(HostIds(server.db.hosts, ids, query.value));
        hosts := Some(rows);
        Advance(seen, server.View(), rows);
      }
      ContinuesOn(start, seen, server.View());
    }

    /** `update_deployment_status(deployment.id, "running")` */
    method MarkDeployment(ghost start: State, ghost hosts: Option<seq<HostId>>) returns (raised: bool)
      requires At(start, ReadDeployment, hosts)
      modifies server
      ensures At(start, if raised then Crashed else ReadTask, hosts)
      ensures raised ==> deployment !in server.db.deployments
    {
      Interfere(start, ReadDeployment, hosts);
      raised := false;
      if deployment in server.db.deployments {
        var loaded := server.db.deployments[deployment].status;
        Advance(start, server.View(), []);
        raised := WriteRunningDeployment(start, hosts, loaded);
      } else {
        Advance(start, server.View(), []);
      }
    }

    method WriteRunningDeployment(ghost start: State, ghost hosts: Option<seq<HostId>>, loaded: Status)
      returns (raised: bool)
      requires At(start, Machine.MarkDeployment(loaded), hosts)
      modifies server
      ensures At(start, if raised then Crashed else ReadTask, hosts)
      ensures raised ==> deployment !in server.db.deployments
    {
      Interfere(start, Machine.MarkDeployment(loaded), hosts);
      var before := server.View();
      raised := server.PutDeploymentStatus(deployment, loaded, Running);
      Advance(start, before, []);
    }

    /** `update_task_status(task.id, "running")` */
    method MarkTask(ghost start: State, ghost hosts: Option<seq<HostId>>) returns (raised: bool)
      requires At(start, ReadTask, hosts)
      modifies server
      ensures At(start, if raised then Crashed else ReadTally, hosts)
      ensures raised ==> task !in server.db.tasks
    {
      Interfere(start, ReadTask, hosts);
      raised := false;
      if task in server.db.tasks {
        var loaded := server.db.tasks[task];
        Advance(start, server.View(), []);
        raised := WriteRunningTask(start, hosts, loaded);
      } else {
        Advance(start, server.View(), []);
      }
    }

    method WriteRunningTask(ghost start: State, ghost hosts: Option<seq<HostId>>, loaded: Task) returns (raised: bool)
      requires At(start, Machine.MarkTask(loaded), hosts)
      modifies server
      ensures At(start, if raised then Crashed else ReadTally, hosts)
      ensures raised ==> task !in server.db.tasks
    {
      Interfere(start, Machine.MarkTask(loaded), hosts);
      var before := server.View();
      raised := server.PutTaskStatus(task, loaded, Running);
      Advance(start, before, []);
    }

    /** Read the result and write it back with the number of hosts. While the task is there it raises
        exactly when there is no host list, and otherwise its total is their number. */
    method RecordTotal(ghost start: State, hosts: Option<seq<HostId>>) returns (raised: bool)
      requires At(start, ReadTally, hosts)
      modifies server
      ensures At(start, if raised then Crashed else NextHost, hosts)
      ensures raised ==> hosts.None? || task !in server.db.tasks
      ensures task in server.db.tasks ==>
                (raised <==> hosts.None?) && (hosts.Some? ==> server.db.tasks[task].tally.total == |hosts.value|)
    {
      Interfere(start, ReadTally, hosts);
      raised := task in server.db.tasks && hosts.None?;
      if task in server.db.tasks && hosts.Some? {
        var tally := server.db.tasks[task].tally;
        Advance(start, server.View(), []);
        raised := WriteTotal(start, hosts, tally);
        TotalIsRecorded(start, hosts.value, raised);
      } else {
        Advance(start, server.View(), []);
      }
    }

    method WriteTotal(ghost start: State, hosts: Option<seq<HostId>>, tally: Tally) returns (raised: bool)
      requires At(start, RereadTask(tally), hosts) && hosts.Some?
      modifies server
      ensures At(start, if raised then Crashed else NextHost, hosts)
      ensures raised ==> task !in server.db.tasks
    {
      Interfere(start, RereadTask(tally), hosts);
      raised := false;
      if task in server.db.tasks {
        var loaded := server.db.tasks[task];
        Advance(start, server.View(), []);
        raised := PutTotal(start, hosts, tally, loaded);
      } else {
        Advance(start, server.View(), []);
      }
    }

    method PutTotal(ghost start: State, hosts: Option<seq<HostId>>, tally: Tally, loaded: Task) returns (raised: bool)
      requires At(start, WriteTally(tally, loaded), hosts) && hosts.Some?
      modifies server
      ensures At(start, if raised then Crashed else NextHost, hosts)
      ensures raised ==> task !in server.db.tasks
    {
      Interfere(start, WriteTally(tally, loaded), hosts);
      var before := server.View();
      raised := server.PutTaskTally(task, loaded, Tally(|hosts.value|, tally.updated, tally.failed));
      Advance(start, before, []);
    }

    lemma TotalIsRecorded(start: State, hosts: seq<HostId>, raised: bool)
      requires At(start, if raised then Crashed else NextHost, Some(hosts))
      ensures !raised && task in server.db.tasks ==> server.db.tasks[task].tally.total == |hosts|
    {
      ContinuesInv(start, server.View());
      assert StrategyOk(server.db, server.View().agents, server.View().sent, server.View().strategies[pid]);
    }

    /** In the loop over the hosts, `k` patch processes spawned. */
    ghost predicate InLoop(start: State, pc: StrategyPc, hosts: seq<HostId>, k: nat)
      reads server
    {
      && Continues(start, server.View()) && pid < |server.View().strategies|
      && var st := server.View().strategies[pid];
         && st.task == task && st.deployment == deployment
         && st.pc == pc && st.snapshot == Some(hosts) && |st.children| == k
    }

    /** `spawn`, `send`, then poll `Process.alive?` at most `patience` times in all. */
    method PatchHosts(ghost start: State, hosts: seq<HostId>, patience: nat) returns (outcome: Outcome)
      requires At(start, NextHost, Some(hosts)) && hosts != []
      modifies server
      ensures outcome == Done ==> InLoop(start, Finished, hosts, |hosts|)
      ensures outcome != Done ==>
                outcome == StillWaiting && exists k :: 0 < k <= |hosts| && InLoop(start, Waiting, hosts, k)
    {
      var k, left := 0, patience;
      outcome := Done;
      while k < |hosts|
        invariant 0 <= k <= |hosts|
        invariant InLoop(start, NextHost, hosts, k)
      {
        SpawnAndSend(start, hosts, k);
        k := k + 1;
        var alive;
        alive, left := AwaitProcess(start, hosts, k, left);
        if alive {
          outcome := StillWaiting;
          return;
        }
      }
      ContinuesInv(start, server.View());
      Advance(start, server.View(), []);
    }

    method SpawnAndSend(ghost start: State, hosts: seq<HostId>, k: nat)
      requires k < |hosts| && InLoop(start, NextHost, hosts, k)
      modifies server
      ensures InLoop(start, Waiting, hosts, k + 1)
    {
      server.Interfere(start, TheStrategy(pid));
      Advance(start, server.View(), []);
      Send(start, hosts, k + 1);
    }

    method Send(ghost start: State, hosts: seq<HostId>, k: nat)
      requires 0 < k <= |hosts| && InLoop(start, SendMessage, hosts, k)
      modifies server
      ensures InLoop(start, Waiting, hosts, k)
    {
      server.Interfere(start, TheStrategy(pid));
      Advance(start, server.View(), []);
    }

    /** `WaitForProcess.is_alive?/1` */
    method AwaitProcess(ghost start: State, hosts: seq<HostId>, k: nat, patience: nat) returns (alive: bool, left: nat)
      requires 0 < k <= |hosts| && InLoop(start, Waiting, hosts, k)
      modifies server
      ensures InLoop(start, if alive then Waiting else NextHost, hosts, k)
    {
      left := patience;
      alive := true;
      while alive && left > 0
        invariant InLoop(start, if alive then Waiting else NextHost, hosts, k)
        decreases left
      {
        alive := IsAlive(start, hosts, k);
        left := left - 1;
      }
    }

    /** `Process.alive?/1` of the last patch process spawned. */
    method IsAlive(ghost start: State, hosts: seq<HostId>, k: nat) returns (alive: bool)
      requires 0 < k <= |hosts| && InLoop(start, Waiting, hosts, k)
      modifies server
      ensures InLoop(start, if alive then Waiting else NextHost, hosts, k)
    {
      server.Interfere(start, TheStrategy(pid));
      alive := !Dead(server.processes.strategies[pid].children[k - 1]);
      Advance(start, server.View(), []);
    }

    /** `length(hosts) == 0`: mark the task, then the deployment, as skipped. */
    method SkipTask(ghost start: State) returns (raised: bool)
      requires At(start, SkipReadTask, Some([]))
      modifies server
      ensures At(start, if raised then Crashed else SkipReadDeployment, Some([]))
      ensures raised ==> task !in server.db.tasks
    {
      Interfere(start, SkipReadTask, Some([]));
      raised := false;
      if task in server.db.tasks {
        var loaded := server.db.tasks[task];
        Advance(start, server.View(), []);
        raised := WriteSkipped(start, loaded);
      } else {
        Advance(start, server.View(), []);
      }
    }

    method WriteSkipped(ghost start: State, loaded: Task) returns (raised: bool)
      requires At(start, Machine.SkipTask(loaded), Some([]))
      modifies server
      ensures At(start, if raised then Crashed else SkipReadDeployment, Some([]))
      ensures raised ==> task !in server.db.tasks
    {
      Interfere(start, Machine.SkipTask(loaded), Some([]));
      var before := server.View();
      raised := server.PutTaskStatus(task, loaded, Skipped);
      Advance(start, before, []);
    }

    method SkipDeployment(ghost start: State) returns (raised: bool)
      requires At(start, SkipReadDeployment, Some([]))
      modifies server
      ensures At(start, if raised then Crashed else Finished, Some([]))
      ensures raised ==> deployment !in server.db.deployments
    {
      Interfere(start, SkipReadDeployment, Some([]));
      raised := false;
      if deployment in server.db.deployments {
        var loaded := server.db.deployments[deployment].status;
        Advance(start, server.View(), []);
        raised := WriteSkippedDeployment(start, loaded);
      } else {
        Advance(start, server.View(), []);
      }
    }

    method WriteSkippedDeployment(ghost start: State, loaded: Status) returns (raised: bool)
      requires At(start, Machine.SkipDeployment(loaded), Some([]))
      modifies server
      ensures At(start, if raised then Crashed else Finished, Some([]))
      ensures raised ==> deployment !in server.db.deployments
    {
      Interfere(start, Machine.SkipDeployment(loaded), Some([]));
      var before := server.View();
      raised := server.PutDeploymentStatus(deployment, loaded, Skipped);
      Advance(start, before, []);
    }

    /** A deployment and its task go together, and do not come back. */
    lemma GoneTogether(start: State)
      requires Continues(start, server.View()) && pid < |server.View().strategies|
      requires server.View().strategies[pid].task == task && server.View().strategies[pid].deployment == deployment
      ensures deployment in server.db.deployments <==> task in server.db.tasks
    {
      ContinuesReachable(start, server.View());
      Provenance.StrategyServesItsTask(server.View(), pid);
    }

    lemma StaysGone(start: State)
      requires Continues(start, server.View())
      requires pid < |start.strategies| && start.strategies[pid].deployment == deployment
      ensures deployment !in start.db.deployments ==> deployment !in server.db.deployments
    {
      ReachableInv(start);
      Provenance.ReachableCauses(start);
      assert Provenance.Serves(start.db, start.strategies[pid].task, deployment);
      var steps :| Run(start, steps, server.View());
      NothingWritesUnknown(start, steps, server.View());
    }

    /** The whole process. It ends, raises, or still waits for a patch process after `patience`
        polls. It raises when the deployment is missing at its first read or has filters that raise,
        and otherwise only if the deployment has been deleted. When it ends it has spawned one patch
        process for each host the filters ask for, in order, and when there is none the task, if it
        still exists, is skipped. */
    method Handle(patience: nat) returns (outcome: Outcome, ghost read: Option<Reads>)
      requires Reachable(server.View()) && Is(Strategy(task, deployment, LoadDeployment, None, []))
      modifies server
      ensures Leads(old(server.View()), server.View()) && pid < |server.View().strategies|
      ensures read.Some? ==> InOrder(old(server.View()), read.value, server.View())
                              && deployment in read.value.deployment.db.deployments
      ensures var raises := read.None? || Raises(read.value.deployment.db.deployments[deployment].filters);
              && (raises ==> outcome == Raised)
              && (outcome == Raised && !raises ==> deployment !in server.db.deployments)
      ensures read.None? ==> deployment !in server.db.deployments
      ensures var st := server.View().strategies[pid];
              match outcome
              case Raised => st.pc == Crashed
              case StillWaiting => st.pc == Waiting
              case Done =>
                && st.pc == Finished && st.snapshot.Some? && |st.children| == |st.snapshot.value|
                && Listed(st.snapshot.value, read.value, read.value.deployment.db.deployments[deployment].filters)
                && (forall j :: 0 <= j < |st.children| ==>
                      Dead(st.children[j]) && st.children[j].host == st.snapshot.value[j])
                && (st.children == [] && task in server.db.tasks ==> server.db.tasks[task].status == Skipped)
    {
      ghost var start := server.View();
      StandingLeads(start);
      var hosts, raised;
      hosts, raised, read := LoadTargets(start);
      if raised { return Raised, read; }
      ghost var loaded := server.View();
      ContinuesHere(start, loaded);
      outcome := Patch(loaded, hosts, patience);
      StaysGone(loaded);
      LeadsOn(start, loaded, server.View());
      if read.Some? {
        LeadsOn(read.value.hosts, loaded, server.View());
      }
      if outcome == Done {
        ContinuesReachable(loaded, server.View());
        Progress.FinishedMeansAllHosts(server.View(), pid);
      }
    }

    /** Everything after the hosts are read. */
    method Patch(ghost start: State, hosts: Option<seq<HostId>>, patience: nat) returns (outcome: Outcome)
      requires At(start, ReadDeployment, hosts)
      modifies server
      ensures Ended(start, outcome)
      ensures outcome == Raised ==> hosts.None? || deployment !in server.db.deployments
      ensures outcome != Raised ==> hosts.Some? && server.View().strategies[pid].snapshot == hosts
    {
      var raised := Prepare(start, hosts);
      if raised { return Raised; }
      Interfere(start, NextHost, hosts);
      if hosts.None? {
        Advance(start, server.View(), []);
        return Raised;
      }
      outcome := Roll(start, hosts.value, patience);
    }

    ghost predicate Ended(start: State, outcome: Outcome)
      reads server
    {
      && Continues(start, server.View()) && pid < |server.View().strategies|
      && var st := server.View().strategies[pid];
         st.task == task && st.deployment == deployment
         && match outcome
            case Raised => st.pc == Crashed
            case StillWaiting => st.pc == Waiting
            case Done => st.pc == Finished
    }

    /** The statuses and the total. */
    method Prepare(ghost start: State, hosts: Option<seq<HostId>>) returns (raised: bool)
      requires At(start, ReadDeployment, hosts)
      modifies server
      ensures At(start, if raised then Crashed else NextHost, hosts)
      ensures raised ==> hosts.None? || deployment !in server.db.deployments
    {
      raised := MarkDeployment(start, hosts);
      if raised { return; }
      raised := MarkTask(start, hosts);
      if !raised {
        raised := RecordTotal(start, hosts);
      }
      GoneTogether(start);
    }

    method Roll(ghost start: State, hosts: seq<HostId>, patience: nat) returns (outcome: Outcome)
      requires At(start, NextHost, Some(hosts))
      modifies server
      ensures Ended(start, outcome) && server.View().strategies[pid].snapshot == Some(hosts)
      ensures outcome == Raised ==> deployment !in server.db.deployments
    {
      if hosts == [] {
        Advance(start, server.View(), []);
        var raised := Skip(start);
        return if raised then Raised else Done;
      } else {
        outcome := PatchHosts(start, hosts, patience);
      }
    }

    method Skip(ghost start: State) returns (raised: bool)
      requires At(start, SkipReadTask, Some([]))
      modifies server
      ensures At(start, if raised then Crashed else Finished, Some([]))
      ensures raised ==> deployment !in server.db.deployments
    {
      raised := SkipTask(start);
      if raised {
        GoneTogether(start);
      } else {
        raised := SkipDeployment(start);
      }
    }
  }
}
