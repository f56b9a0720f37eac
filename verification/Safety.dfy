/** Safety of the rollout over every run: whatever users, workers, agents and crashes do. */
module Safety {
  import opened Wrappers
  import opened Targets
  import opened Rows
  import opened Counting
  import opened Machine
  import opened Invariants
  import opened UserSteps
  import opened TaskWorkerSteps
  import opened StrategySteps
  import opened AgentSteps

  // ----- the invariant holds in every reachable state -----

  lemma StepKeepsInv(s: State, l: Step)
    requires Inv(s) && Enabled(s, l)
    ensures Inv(Apply(s, l))
  {
    if IsUserStep(l) {
      UserKeepsInv(s, l);
    } else if IsDeploymentWorkerStep(l) {
      DeploymentWorkerKeepsInv(s, l);
    } else if IsTaskWorkerStep(l) {
      TaskWorkerKeepsInv(s, l);
    } else if l.StrategySteps? || l.StrategyCrashes? {
      StrategyKeepsInv(s, l);
    } else if l.PatchPosts? {
      PatchPostKeepsInv(s, l.strategy, l.child, l.delivered, l.raised);
    } else if l.PatchPolls? {
      PatchPollKeepsInv(s, l.strategy, l.child);
    } else if l.PatchCrashes? {
      PatchCrashKeepsInv(s, l.strategy, l.child);
    } else if l.ReportTaken? {
      ReportKeepsInv(s, l.host, l.task, l.outcome);
    } else {
      AgentKeepsInv(s, l);
    }
  }

  lemma {:induction false} RunKeepsInv(s: State, steps: seq<Step>, z: State)
    requires Inv(s) && Run(s, steps, z)
    ensures Inv(z)
    decreases |steps|
  {
    if steps == [] {
    } else {
      StepKeepsInv(s, steps[0]);
      RunKeepsInv(Apply(s, steps[0]), steps[1..], z);
    }
  }

  lemma ReachableInv(z: State)
    requires Reachable(z)
    ensures Inv(z)
  {
    var s :| Init(s) && Leads(s, z);
    var steps :| Run(s, steps, z);
    RunKeepsInv(s, steps, z);
  }

  // ----- the verdict -----

  /** Strategy `i` rolls out task `t`, and none of the hosts it chose has been deleted. */
  predicate RollsOut(z: State, i: nat, t: TaskId, hosts: seq<HostId>) {
    && i < |z.strategies| && z.strategies[i].task == t && z.strategies[i].snapshot == Some(hosts)
    && t in z.db.tasks && AllPresent(z.db, hosts)
  }

  /** The ids of the log rows about one task and host. */
  function HostLogIds(db: Db, t: TaskId, h: HostId): set<LogId> {
    set id | id in db.logs && db.logs[id].task == t && db.logs[id].host == h
  }

  /** Exactly one log row about the task and host, with this outcome. */
  predicate LoggedOnce(db: Db, t: TaskId, h: HostId, outcome: Outcome) {
    |HostLogIds(db, t, h)| == 1 && forall id :: id in HostLogIds(db, t, h) ==> db.logs[id].outcome == outcome
  }

  /** A log row is the only one about its task and host, and its outcome the only outcome. */
  lemma LogDecides(db: Db, t: TaskId, h: HostId, id: LogId)
    requires OneLogEach(db.logs) && id in HostLogIds(db, t, h)
    ensures forall outcome :: LoggedOnce(db, t, h, outcome) <==> db.logs[id].outcome == outcome
  {
    assert HostLogIds(db, t, h) == {id};
  }

  /** Counting the failure rows of a task tells whether a host failed. */
  lemma SomeHostFailed(db: Db, t: TaskId, hosts: seq<HostId>)
    requires OneLogEach(db.logs)
    requires forall id :: id in TaskLogIds(db.logs, t) ==> db.logs[id].host in hosts
    ensures LogIds(db, t, HostFailed) != {} <==> exists h :: h in hosts && LoggedOnce(db, t, h, HostFailed)
  {
    if LogIds(db, t, HostFailed) != {} {
      var id :| id in LogIds(db, t, HostFailed);
      assert id in TaskLogIds(db.logs, t);
      LogDecides(db, t, db.logs[id].host, id);
    }
    if exists h :: h in hosts && LoggedOnce(db, t, h, HostFailed) {
      var h :| h in hosts && LoggedOnce(db, t, h, HostFailed);
      var id :| id in HostLogIds(db, t, h);
      assert id in LogIds(db, t, HostFailed);
    }
  }

  /** Counting all rows of a task tells whether every host reported. */
  lemma EveryHostReported(db: Db, t: TaskId, hosts: seq<HostId>)
    requires OneLogEach(db.logs) && Distinct(hosts)
    requires forall id :: id in TaskLogIds(db.logs, t) ==> db.logs[id].host in hosts
    ensures CountHosts(db, t, HostUpdated) + CountHosts(db, t, HostFailed) == |hosts|
            <==> forall h :: h in hosts ==> LoggedOnce(db, t, h, HostUpdated) || LoggedOnce(db, t, h, HostFailed)
  {
    CountsAreHosts(db, t, hosts);
    if CountHosts(db, t, HostUpdated) + CountHosts(db, t, HostFailed) == |hosts| {
      forall h | h in hosts ensures LoggedOnce(db, t, h, HostUpdated) || LoggedOnce(db, t, h, HostFailed) {
        var id :| id in db.logs && db.logs[id].task == t && db.logs[id].host == h;
        LogDecides(db, t, h, id);
      }
    }
    if forall h :: h in hosts ==> LoggedOnce(db, t, h, HostUpdated) || LoggedOnce(db, t, h, HostFailed) {
      AllLogged(db, t, hosts);
      CountsAdd(db, t);
    }
  }

  lemma CountsAdd(db: Db, t: TaskId)
    ensures CountHosts(db, t, HostUpdated) + CountHosts(db, t, HostFailed) == |TaskLogIds(db.logs, t)|
  {
    var updated, failed := LogIds(db, t, HostUpdated), LogIds(db, t, HostFailed);
    assert TaskLogIds(db.logs, t) == updated + failed && updated !! failed;
  }

  /** The task is marked as a success exactly when every chosen host has its one log row and the
      row says updated; there is no other log row of the task. It is marked as a failure exactly
      when every chosen host has its one log row and some row says failed. */
  lemma VerdictIsExact(z: State, i: nat, t: TaskId, hosts: seq<HostId>)
    requires Reachable(z) && RollsOut(z, i, t, hosts)
    ensures z.db.tasks[t].status == Success
            <==> hosts != [] && forall h :: h in hosts ==> LoggedOnce(z.db, t, h, HostUpdated)
    ensures z.db.tasks[t].status == Failure
            <==> && (forall h :: h in hosts ==>
                       LoggedOnce(z.db, t, h, HostUpdated) || LoggedOnce(z.db, t, h, HostFailed))
                 && (exists h :: h in hosts && LoggedOnce(z.db, t, h, HostFailed))
    ensures forall id :: id in TaskLogIds(z.db.logs, t) ==> z.db.logs[id].host in hosts
  {
    ReachableInv(z);
    var st := z.strategies[i];
    assert StrategyOk(z.db, z.agents, z.sent, st);
    SomeHostFailed(z.db, t, hosts);
    EveryHostReported(z.db, t, hosts);
    if hosts != [] {
      assert hosts[0] in hosts;
    }
    if st.children == [] {
      assert TaskLogIds(z.db.logs, t) == {} == LogIds(z.db, t, HostFailed) == LogIds(z.db, t, HostUpdated);
    } else if LogIds(z.db, t, HostFailed) == {} {
      forall h | LoggedOnce(z.db, t, h, HostFailed) ensures h !in hosts {
      }
    } else {
      var h :| h in hosts && LoggedOnce(z.db, t, h, HostFailed);
      var id :| id in HostLogIds(z.db, t, h);
      LogDecides(z.db, t, h, id);
    }
  }

  /** Hosts that all have a log row give at least as many rows. */
  lemma AllLogged(db: Db, t: TaskId, hosts: seq<HostId>)
    requires OneLogEach(db.logs) && Distinct(hosts)
    requires forall h :: h in hosts ==> HostLogIds(db, t, h) != {}
    requires forall id :: id in TaskLogIds(db.logs, t) ==> db.logs[id].host in hosts
    ensures |TaskLogIds(db.logs, t)| == |hosts|
  {
    var all := TaskLogIds(db.logs, t);
    forall h | h in hosts ensures h in HostsOf(db.logs, all) {
      var id :| id in HostLogIds(db, t, h);
      assert id in all;
    }
    assert HostsOf(db.logs, all) == Members(hosts);
    HostsOfSize(db.logs, t, all);
    MembersSize(hosts);
  }

  // ----- one strategy for each task, one patch process at a time -----

  /** No run, crashes of the task worker included, ever spawns two strategies for one task. */
  lemma OneStrategyPerTask(z: State, i: nat, j: nat)
    requires Reachable(z) && i < |z.strategies| && j < |z.strategies|
    requires z.strategies[i].task == z.strategies[j].task
    ensures i == j
  {
    ReachableInv(z);
  }

  /** The hosts contacted are a prefix of the chosen hosts, each contacted once; every host before
      the last one has a log row for the task or its process raised, unless the host or the task
      was deleted meanwhile. */
  lemma OneByOne(z: State, i: nat)
    requires Reachable(z) && i < |z.strategies|
    ensures var st := z.strategies[i];
            st.children != [] ==>
              && st.snapshot.Some? && |st.children| <= |st.snapshot.value| && Distinct(st.snapshot.value)
              && (forall j :: 0 <= j < |st.children| ==> st.children[j].host == st.snapshot.value[j])
              && (forall j :: 0 <= j < |st.children| - 1 ==>
                    || st.children[j].pc == Died
                    || Logged(z.db.logs, st.task, st.children[j].host)
                    || st.task !in z.db.tasks || st.children[j].host !in z.db.hosts)
  {
    ReachableInv(z);
    assert StrategyOk(z.db, z.agents, z.sent, z.strategies[i]);
  }

  /** Two living patch processes are never for the same task. */
  lemma OneLivePatchPerTask(z: State, i: nat, j: nat, k: nat, m: nat)
    requires Reachable(z) && IsChild(z, i, j) && IsChild(z, k, m)
    requires z.strategies[i].task == z.strategies[k].task
    requires !Dead(z.strategies[i].children[j]) && !Dead(z.strategies[k].children[m])
    ensures i == k && j == m
  {
    ReachableInv(z);
    assert StrategyOk(z.db, z.agents, z.sent, z.strategies[i]);
  }

  /** A command is posted at most once, and its agent and wires never hold two copies of it. */
  lemma CommandsAreSingle(z: State, t: TaskId, h: HostId)
    requires Reachable(z)
    ensures Load(AgentOf(z, h), t) <= 1
    ensures Load(AgentOf(z, h), t) == 1 ==> (t, h) in z.sent && !Logged(z.db.logs, t, h)
    ensures |HostLogIds(z.db, t, h)| <= 1
  {
    ReachableInv(z);
    if h in z.agents {
      assert LoadOk(z.agents[h], h, t, z.sent, z.db.logs);
    }
    LogsAreSingle(z.db, t, h);
  }

  /** A patch process about to post is the first to post to its host for its task: no run posts the
      same command twice. */
  lemma PostedOnce(z: State, i: nat, j: nat, delivered: bool, raised: bool)
    requires Reachable(z) && Enabled(z, PatchPosts(i, j, delivered, raised))
    ensures var command := (z.strategies[i].task, z.strategies[i].children[j].host);
            command !in z.sent && Apply(z, PatchPosts(i, j, delivered, raised)).sent == z.sent + {command}
  {
    ReachableInv(z);
    PostingIsFirst(z, i, j);
  }

  lemma LogsAreSingle(db: Db, t: TaskId, h: HostId)
    requires OneLogEach(db.logs)
    ensures |HostLogIds(db, t, h)| <= 1
  {
    if HostLogIds(db, t, h) != {} {
      var id :| id in HostLogIds(db, t, h);
      assert HostLogIds(db, t, h) == {id};
    }
  }

  // ----- the counters -----

  /** The counters never exceed the recorded total, and while no chosen host is deleted they are
      the numbers of log rows. */
  lemma CountersAreConserved(z: State, t: TaskId)
    requires Reachable(z) && t in z.db.tasks
    ensures z.db.tasks[t].tally.updated + z.db.tasks[t].tally.failed <= z.db.tasks[t].tally.total
    ensures forall i: nat, hosts :: RollsOut(z, i, t, hosts) ==>
              && z.db.tasks[t].tally.updated == CountHosts(z.db, t, HostUpdated)
              && z.db.tasks[t].tally.failed == CountHosts(z.db, t, HostFailed)
  {
    ReachableInv(z);
    if !Unclaimed(z.strategies, t) {
      var i: nat :| i < |z.strategies| && z.strategies[i].task == t;
      assert StrategyOk(z.db, z.agents, z.sent, z.strategies[i]);
    }
    forall i: nat, hosts | RollsOut(z, i, t, hosts)
      ensures z.db.tasks[t].tally.updated == CountHosts(z.db, t, HostUpdated)
      ensures z.db.tasks[t].tally.failed == CountHosts(z.db, t, HostFailed)
    {
      var st := z.strategies[i];
      assert StrategyOk(z.db, z.agents, z.sent, st);
      if st.children == [] {
        assert LogIds(z.db, t, HostUpdated) == {} == LogIds(z.db, t, HostFailed);
      }
    }
  }

  /** Until a strategy has recorded its total, nothing about its task is posted, under way or
      logged, and the row still reads zero: the read and the later write of the result have no
      report between them to lose. */
  lemma NoReportBeforeTheTotal(z: State, i: nat)
    requires Reachable(z) && i < |z.strategies| && Early(z.strategies[i].pc)
    ensures var t := z.strategies[i].task;
            && (forall h: HostId :: (t, h) !in z.sent && Load(AgentOf(z, h), t) == 0)
            && TaskLogIds(z.db.logs, t) == {}
            && (t in z.db.tasks ==> z.db.tasks[t].tally == NO_TALLY)
  {
    ReachableInv(z);
    var st := z.strategies[i];
    assert StrategyOk(z.db, z.agents, z.sent, st);
    forall h: HostId ensures (st.task, h) !in z.sent && Load(AgentOf(z, h), st.task) == 0 {
      forall a: nat, b: nat ensures !Posted(z.strategies, st.task, h, a, b) {
      }
      CommandsAreSingle(z, st.task, h);
    }
  }

  // ----- task status -----

  /** A verdict has a strategy behind it that contacted hosts. */
  lemma VerdictHasRollout(z: State, t: TaskId)
    requires Reachable(z) && t in z.db.tasks && z.db.tasks[t].status in {Success, Failure}
    ensures exists i :: 0 <= i < |z.strategies| && z.strategies[i].task == t && z.strategies[i].children != []
  {
    ReachableInv(z);
    assert !Unclaimed(z.strategies, t);
    var i: nat :| i < |z.strategies| && z.strategies[i].task == t;
    assert StrategyOk(z.db, z.agents, z.sent, z.strategies[i]);
  }

  /** The task worker's branch for a task without a deployment never finds a row to delete:
      deleting the deployment has already deleted the task. */
  lemma OrphansAreGone(z: State)
    requires Reachable(z)
    ensures !z.tw.DeletingOrphan?
    ensures z.tw.ReadingOrphan? && z.tw.todo != [] ==> z.tw.todo[0].task !in z.db.tasks
  {
    ReachableInv(z);
  }

  /** The order pending, running, verdict. */
  predicate Later(a: Status, b: Status) {
    || a == b
    || (a == Pending && b in {Running, Success, Failure, Skipped})
    || (a == Running && b in {Success, Failure, Skipped})
  }

  /** No task comes back, and every task that stays only moves on. */
  predicate TasksMoveOn(db: Db, z: Db) {
    && db.nextTask <= z.nextTask
    && forall t :: t in z.tasks && t < db.nextTask ==> t in db.tasks && Later(db.tasks[t].status, z.tasks[t].status)
  }

  lemma StrategyMovesOn(db: Db, st: Strategy, found: seq<HostId>)
    requires ShapeOk(st) && (st.task in db.tasks ==> TaskRowOk(db.tasks[st.task], st))
    ensures TasksMoveOn(db, StepStrategy(db, st, found).0)
  {
    if st.pc.MarkTask? && st.task in db.tasks {
      assert StepStrategy(db, st, found).0 == WriteTaskStatus(db, st.task, st.pc.loaded, Running);
    } else if st.pc.SkipTask? && st.task in db.tasks {
      assert StepStrategy(db, st, found).0 == WriteTaskStatus(db, st.task, st.pc.loaded, Skipped);
    } else if st.pc.WriteTally? && st.task in db.tasks && st.snapshot.Some? {
      var tally := Tally(|st.snapshot.value|, st.pc.tally.updated, st.pc.tally.failed);
      assert StepStrategy(db, st, found).0 == WriteTaskTally(db, st.task, st.pc.loaded, tally);
    } else {
      assert StepStrategy(db, st, found).0.tasks == db.tasks;
    }
  }

  lemma TaskWorkerMovesOn(s: State)
    requires TaskWorkerOk(s.db, s.strategies, s.tw)
    ensures TasksMoveOn(s.db, StepTaskWorker(s).db)
  {
    if s.tw.MarkingRunning? && s.tw.todo != [] && s.tw.todo[0].task in s.db.tasks {
      assert ClaimOk(s.db, s.strategies, s.tw.todo[0], Pending);
      assert StepTaskWorker(s).db == WriteTaskStatus(s.db, s.tw.todo[0].task, s.tw.loaded, Running);
    } else {
      assert StepTaskWorker(s).db == s.db;
    }
  }

  lemma DeploymentWorkerMovesOn(s: State)
    ensures TasksMoveOn(s.db, StepDeploymentWorker(s).db)
  {
  }

  lemma ReportMovesOn(s: State, h: HostId, t: TaskId, outcome: Outcome)
    requires Inv(s) && Enabled(s, ReportTaken(h, t, outcome))
    ensures TasksMoveOn(s.db, TakeReport(s.db, t, h, outcome))
  {
    if t in s.db.tasks && h in s.db.hosts {
      TakenReport(s.db, t, h, outcome);
      assert LoadOk(s.agents[h], h, t, s.sent, s.db.logs);
      assert (t, h) in s.sent;
      ReportedTaskIsRunning(s, t, h);
    }
  }

  lemma ReportedTaskIsRunning(s: State, t: TaskId, h: HostId)
    requires Inv(s) && (t, h) in s.sent && Load(AgentOf(s, h), t) == 1 && t in s.db.tasks
    ensures s.db.tasks[t].status == Running
  {
    var i: nat, j: nat :| Posted(s.strategies, t, h, i, j);
    var st := s.strategies[i];
    assert StrategyOk(s.db, s.agents, s.sent, st);
    assert h == st.snapshot.value[j];
    assert h in st.snapshot.value;
  }

  lemma StepMovesOn(s: State, l: Step)
    requires Inv(s) && Enabled(s, l)
    ensures TasksMoveOn(s.db, Apply(s, l).db)
  {
    if IsUserStep(l) {
      StepUserOnlyDeletes(s.db, l);
    } else if l.DeploymentWorkerSteps? {
      DeploymentWorkerMovesOn(s);
    } else if l.TaskWorkerSteps? {
      TaskWorkerMovesOn(s);
    } else if l.StrategySteps? {
      assert StrategyOk(s.db, s.agents, s.sent, s.strategies[l.strategy]);
      StrategyMovesOn(s.db, s.strategies[l.strategy], l.found);
    } else if l.ReportTaken? {
      ReportMovesOn(s, l.host, l.task, l.outcome);
    } else {
      OthersKeepTables(s, l);
    }
  }

  /** Along every run a task only moves on: pending, running, then one verdict that stays. */
  lemma {:induction false} StatusOnlyMovesOn(s: State, steps: seq<Step>, z: State)
    requires Inv(s) && Run(s, steps, z)
    ensures TasksMoveOn(s.db, z.db)
    decreases |steps|
  {
    if steps == [] {
    } else {
      var m := Apply(s, steps[0]);
      StepMovesOn(s, steps[0]);
      StepKeepsInv(s, steps[0]);
      StatusOnlyMovesOn(m, steps[1..], z);
    }
  }

  // ----- skipped tasks -----

  /** The step writes "skipped" to the task. */
  predicate SkipsTask(s: State, l: Step, t: TaskId) {
    && l.StrategySteps? && l.strategy < |s.strategies| && s.strategies[l.strategy].pc.SkipTask?
    && s.strategies[l.strategy].task == t && t in s.db.tasks
  }

  predicate SkipsAlong(s: State, steps: seq<Step>, t: TaskId)
    decreases |steps|
  {
    steps != [] && Enabled(s, steps[0]) && (SkipsTask(s, steps[0], t) || SkipsAlong(Apply(s, steps[0]), steps[1..], t))
  }

  predicate IsSkipped(db: Db, t: TaskId) {
    t in db.tasks && db.tasks[t].status == Skipped
  }

  lemma StrategySkips(db: Db, st: Strategy, found: seq<HostId>, t: TaskId)
    requires ShapeOk(st)
    ensures IsSkipped(StepStrategy(db, st, found).0, t)
            ==> IsSkipped(db, t) || (st.pc.SkipTask? && st.task == t && t in db.tasks)
    ensures st.pc.SkipTask? && st.task == t && t in db.tasks ==> IsSkipped(StepStrategy(db, st, found).0, t)
  {
  }

  lemma TaskWorkerSkipsNothing(s: State, t: TaskId)
    ensures IsSkipped(StepTaskWorker(s).db, t) ==> IsSkipped(s.db, t)
  {
    if s.tw.MarkingRunning? && s.tw.todo != [] && s.tw.todo[0].task in s.db.tasks {
      assert StepTaskWorker(s).db == WriteTaskStatus(s.db, s.tw.todo[0].task, s.tw.loaded, Running);
    } else if !s.tw.DeletingOrphan? {
      assert StepTaskWorker(s).db == s.db;
    }
  }

  lemma DeploymentWorkerSkipsNothing(s: State, t: TaskId)
    ensures IsSkipped(StepDeploymentWorker(s).db, t) ==> IsSkipped(s.db, t)
  {
  }

  lemma ReportSkipsNothing(db: Db, u: TaskId, h: HostId, outcome: Outcome, t: TaskId)
    requires RowsOk(db)
    ensures IsSkipped(TakeReport(db, u, h, outcome), t) ==> IsSkipped(db, t)
  {
    if u in db.tasks && h in db.hosts {
      TakenReport(db, u, h, outcome);
    }
  }

  lemma OthersSkipNothing(s: State, l: Step, t: TaskId)
    requires RowsOk(s.db) && Enabled(s, l) && !l.StrategySteps?
    ensures IsSkipped(Apply(s, l).db, t) ==> IsSkipped(s.db, t)
  {
    if l.TaskWorkerSteps? {
      TaskWorkerSkipsNothing(s, t);
    } else if l.DeploymentWorkerSteps? {
      DeploymentWorkerSkipsNothing(s, t);
    } else if l.ReportTaken? {
      ReportSkipsNothing(s.db, l.task, l.host, l.outcome, t);
    } else if IsUserStep(l) {
      UserSkipsNothing(s.db, l, t);
    } else {
      OthersKeepTables(s, l);
    }
  }

  lemma UserSkipsNothing(db: Db, l: Step, t: TaskId)
    requires IsUserStep(l)
    ensures IsSkipped(StepUser(db, l), t) ==> IsSkipped(db, t)
  {
  }

  /** A step makes a task skipped exactly when it writes that to it. */
  lemma StepSkips(s: State, l: Step, t: TaskId)
    requires Inv(s) && Enabled(s, l)
    ensures IsSkipped(Apply(s, l).db, t) ==> IsSkipped(s.db, t) || SkipsTask(s, l, t)
    ensures SkipsTask(s, l, t) ==> IsSkipped(Apply(s, l).db, t) && s.strategies[l.strategy].snapshot == Some([])
  {
    if l.StrategySteps? {
      assert StrategyOk(s.db, s.agents, s.sent, s.strategies[l.strategy]);
      StrategySkips(s.db, s.strategies[l.strategy], l.found, t);
    } else {
      OthersSkipNothing(s, l, t);
    }
  }

  /** From any point of a run on, a task that still exists at the end is skipped then exactly when
      it was skipped at that point or the rest of the run writes "skipped" to it. */
  lemma {:induction false} SkippedAlong(s: State, steps: seq<Step>, z: State, t: TaskId)
    requires Inv(s) && Run(s, steps, z) && t in z.db.tasks
    ensures IsSkipped(z.db, t) <==> IsSkipped(s.db, t) || SkipsAlong(s, steps, t)
    decreases |steps|
  {
    if steps == [] {
    } else {
      var m := Apply(s, steps[0]);
      StepKeepsInv(s, steps[0]);
      StepSkips(s, steps[0], t);
      StepMovesOn(s, steps[0]);
      StatusOnlyMovesOn(m, steps[1..], z);
      SkippedAlong(m, steps[1..], z, t);
      if IsSkipped(s.db, t) {
        SkippedStays(s.db, m.db, z.db, t);
      }
    }
  }

  lemma SkippedStays(db: Db, m: Db, z: Db, t: TaskId)
    requires RowsOk(db) && TasksMoveOn(db, m) && TasksMoveOn(m, z) && t in z.tasks && IsSkipped(db, t)
    ensures IsSkipped(m, t)
  {
  }

  /** Strategy `i` of the task chose no host. */
  predicate ChoseNone(z: State, i: nat, t: TaskId) {
    i < |z.strategies| && z.strategies[i].task == t && z.strategies[i].snapshot == Some([])
  }

  /** In every run from the start a task is skipped exactly when a strategy that chose no host wrote
      that to it; a strategy that ended with no host has done so. */
  lemma SkippedIsExact(s: State, steps: seq<Step>, z: State, t: TaskId)
    requires Init(s) && Run(s, steps, z) && t in z.db.tasks
    ensures z.db.tasks[t].status == Skipped <==> SkipsAlong(s, steps, t)
    ensures z.db.tasks[t].status == Skipped ==> exists i: nat :: ChoseNone(z, i, t)
    ensures forall i: nat :: ChoseNone(z, i, t) && z.strategies[i].pc.Finished? ==> z.db.tasks[t].status == Skipped
  {
    SkippedAlong(s, steps, z, t);
    RunKeepsInv(s, steps, z);
    if z.db.tasks[t].status == Skipped {
      assert !Unclaimed(z.strategies, t);
      var i: nat :| i < |z.strategies| && z.strategies[i].task == t;
      assert StrategyOk(z.db, z.agents, z.sent, z.strategies[i]);
      assert ChoseNone(z, i, t);
    }
    forall i: nat | ChoseNone(z, i, t) && z.strategies[i].pc.Finished? ensures z.db.tasks[t].status == Skipped {
      assert StrategyOk(z.db, z.agents, z.sent, z.strategies[i]);
    }
  }
}
