/** What fine interleaving allows, shown on runs of one deployment with one host. */
module Races {
  import opened Wrappers
  import opened Targets
  import opened Rows
  import opened Machine
  import opened Stored

  const GROUPS: map<GroupId, Group> := map[0 := GROUP]
  const HOSTS: map<HostId, Host> := map[0 := HOST]
  const START := State(EMPTY_DB, DeploymentsIdle, TasksIdle, [], map[], {}, multiset{}, 0)

  // ----- one strategy, whatever else the state holds -----

  /** The tables the strategy reads. */
  predicate OneHost(db: Db) {
    db.groups == GROUPS && db.hosts == HOSTS && 0 in db.deployments && db.deployments[0].filters == FILTERS
  }

  /** The state with strategy `i` replaced. */
  function At(s: State, i: nat, pc: StrategyPc, snapshot: Option<seq<HostId>>, children: seq<Patch>): State
    requires i < |s.strategies|
  {
    s.(strategies := s.strategies[i := Strategy(s.strategies[i].task, 0, pc, snapshot, children)])
  }

  function WithStatus(db: Db, status: Status): Db
    requires 0 in db.deployments
  {
    db.(deployments := db.deployments[0 := db.deployments[0].(status := status)])
  }

  lemma OnlyOnesWanted(f: Filters, g: Group, h: Host)
    requires !Raises(f) && Wanted(map[0 := g], map[0 := h], f, 0)
    ensures GroupQuery(f).Some? && GroupIds(map[0 := g], f.team, GroupQuery(f).value) == {0}
    ensures HostQuery(f).Some? && HostIds(map[0 := h], {0}, HostQuery(f).value) == {0}
  {
    GroupQueryMeans(f, g);
    HostQueryMeans(f, h);
  }

  /** The filters select the one host. */
  lemma OneSelected()
    ensures GroupQuery(FILTERS).Some? && GroupIds(GROUPS, 0, GroupQuery(FILTERS).value) == {0}
    ensures HostQuery(FILTERS).Some? && HostIds(HOSTS, {0}, HostQuery(FILTERS).value) == {0}
  {
    TheyAreWanted();
    OnlyOnesWanted(FILTERS, GROUP, HOST);
  }

  /** A filter that selects the one group and the one host. */
  predicate SelectsOne(f: Filters) {
    && f.team == 0
    && GroupQuery(f).Some? && GroupIds(GROUPS, 0, GroupQuery(f).value) == {0}
    && HostQuery(f).Some? && HostIds(HOSTS, {0}, HostQuery(f).value) == {0}
  }

  lemma LoadsRows(s: State, i: nat, f: Filters)
    requires i < |s.strategies| && s.db.groups == GROUPS && s.db.hosts == HOSTS && SelectsOne(f)
    requires s.strategies[i] == Strategy(s.strategies[i].task, 0, LoadGroups(f), None, [])
    ensures OkLeads(s, At(s, i, ReadDeployment, Some([0]), []))
  {
    var a := At(s, i, LoadHosts(f, {0}), None, []);
    OkStep(s, StrategySteps(i, []), a);
    var z := At(s, i, ReadDeployment, Some([0]), []);
    assert At(a, i, ReadDeployment, Some([0]), []) == z;
    OkStep(a, StrategySteps(i, [0]), z);
    OkLeadsOn(s, a, z);
  }

  lemma Selects(s: State, i: nat)
    requires i < |s.strategies| && OneHost(s.db)
    requires s.strategies[i] == Strategy(s.strategies[i].task, 0, LoadDeployment, None, [])
    ensures OkLeads(s, At(s, i, ReadDeployment, Some([0]), []))
  {
    var f := s.db.deployments[0].filters;
    assert SelectsOne(f) by {
      OneSelected();
    }
    SelectsFor(s, i, f);
  }

  lemma SelectsFor(s: State, i: nat, f: Filters)
    requires i < |s.strategies| && s.db.groups == GROUPS && s.db.hosts == HOSTS && SelectsOne(f)
    requires 0 in s.db.deployments && s.db.deployments[0].filters == f
    requires s.strategies[i] == Strategy(s.strategies[i].task, 0, LoadDeployment, None, [])
    ensures OkLeads(s, At(s, i, ReadDeployment, Some([0]), []))
  {
    var a := At(s, i, LoadGroups(f), None, []);
    OkStep(s, StrategySteps(i, []), a);
    LoadsRows(a, i, f);
    assert At(a, i, ReadDeployment, Some([0]), []) == At(s, i, ReadDeployment, Some([0]), []);
    OkLeadsOn(s, a, At(s, i, ReadDeployment, Some([0]), []));
  }

  lemma ReadsStatus(s: State, i: nat)
    requires i < |s.strategies| && 0 in s.db.deployments
    requires s.strategies[i] == Strategy(s.strategies[i].task, 0, ReadDeployment, Some([0]), [])
    ensures OkLeads(s, At(s, i, MarkDeployment(s.db.deployments[0].status), Some([0]), []))
  {
    OkStep(s, StrategySteps(i, []), At(s, i, MarkDeployment(s.db.deployments[0].status), Some([0]), []));
  }

  lemma MarksRunning(s: State, i: nat, loaded: Status)
    requires i < |s.strategies| && 0 in s.db.deployments && loaded != Running
    requires s.strategies[i] == Strategy(s.strategies[i].task, 0, MarkDeployment(loaded), Some([0]), [])
    ensures OkLeads(s, At(s, i, ReadTask, Some([0]), []).(db := WithStatus(s.db, Running)))
  {
    OkStep(s, StrategySteps(i, []), At(s, i, ReadTask, Some([0]), []).(db := WithStatus(s.db, Running)));
  }

  function WithTask(db: Db, t: TaskId, row: Task): Db {
    db.(tasks := db.tasks[t := row])
  }

  lemma MarksTask(s: State, i: nat)
    requires i < |s.strategies| && s.strategies[i] == Strategy(s.strategies[i].task, 0, ReadTask, Some([0]), [])
    requires s.strategies[i].task in s.db.tasks && s.db.tasks[s.strategies[i].task] == Task(0, NO_TALLY, Running)
    ensures OkLeads(s, At(s, i, ReadTally, Some([0]), []))
  {
    var t := s.strategies[i].task;
    var a := At(s, i, MarkTask(s.db.tasks[t]), Some([0]), []);
    OkStep(s, StrategySteps(i, []), a);
    assert s.db.tasks[t := s.db.tasks[t]] == s.db.tasks;
    OkStep(a, StrategySteps(i, []), At(s, i, ReadTally, Some([0]), []));
    OkLeadsOn(s, a, At(s, i, ReadTally, Some([0]), []));
  }

  lemma RecordsTotal(s: State, i: nat)
    requires i < |s.strategies| && s.strategies[i] == Strategy(s.strategies[i].task, 0, ReadTask, Some([0]), [])
    requires s.strategies[i].task in s.db.tasks && s.db.tasks[s.strategies[i].task] == Task(0, NO_TALLY, Running)
    ensures var db := WithTask(s.db, s.strategies[i].task, Task(0, Tally(1, 0, 0), Running));
            OkLeads(s, At(s, i, NextHost, Some([0]), []).(db := db))
  {
    MarksTask(s, i);
    var b := At(s, i, ReadTally, Some([0]), []);
    WritesTotal(b, i);
    var db := WithTask(s.db, s.strategies[i].task, Task(0, Tally(1, 0, 0), Running));
    assert At(b, i, NextHost, Some([0]), []).(db := db) == At(s, i, NextHost, Some([0]), []).(db := db);
    OkLeadsOn(s, b, At(s, i, NextHost, Some([0]), []).(db := db));
  }

  lemma RereadsTask(s: State, i: nat)
    requires i < |s.strategies| && s.strategies[i] == Strategy(s.strategies[i].task, 0, ReadTally, Some([0]), [])
    requires s.strategies[i].task in s.db.tasks && s.db.tasks[s.strategies[i].task] == Task(0, NO_TALLY, Running)
    ensures OkLeads(s, At(s, i, WriteTally(NO_TALLY, Task(0, NO_TALLY, Running)), Some([0]), []))
  {
    var a := At(s, i, RereadTask(NO_TALLY), Some([0]), []);
    OkStep(s, StrategySteps(i, []), a);
    var b := At(s, i, WriteTally(NO_TALLY, Task(0, NO_TALLY, Running)), Some([0]), []);
    OkStep(a, StrategySteps(i, []), b);
    OkLeadsOn(s, a, b);
  }

  lemma WritesTotal(s: State, i: nat)
    requires i < |s.strategies| && s.strategies[i] == Strategy(s.strategies[i].task, 0, ReadTally, Some([0]), [])
    requires s.strategies[i].task in s.db.tasks && s.db.tasks[s.strategies[i].task] == Task(0, NO_TALLY, Running)
    ensures var db := WithTask(s.db, s.strategies[i].task, Task(0, Tally(1, 0, 0), Running));
            OkLeads(s, At(s, i, NextHost, Some([0]), []).(db := db))
  {
    RereadsTask(s, i);
    var b := At(s, i, WriteTally(NO_TALLY, Task(0, NO_TALLY, Running)), Some([0]), []);
    var db := WithTask(s.db, s.strategies[i].task, Task(0, Tally(1, 0, 0), Running));
    var c := At(s, i, NextHost, Some([0]), []).(db := db);
    OkStep(b, StrategySteps(i, []), c);
    OkLeadsOn(s, b, c);
  }

  lemma SpawnsAndSends(s: State, i: nat)
    requires i < |s.strategies| && s.strategies[i] == Strategy(s.strategies[i].task, 0, NextHost, Some([0]), [])
    ensures OkLeads(s, At(s, i, Waiting, Some([0]), [Patch(0, Posting)]))
  {
    var a := At(s, i, SendMessage, Some([0]), [Patch(0, Receiving)]);
    assert [] + [Patch(0, Receiving)] == [Patch(0, Receiving)];
    OkStep(s, StrategySteps(i, []), a);
    assert [Patch(0, Receiving)][0 := Patch(0, Posting)] == [Patch(0, Posting)];
    OkStep(a, StrategySteps(i, []), At(s, i, Waiting, Some([0]), [Patch(0, Posting)]));
    OkLeadsOn(s, a, At(s, i, Waiting, Some([0]), [Patch(0, Posting)]));
  }

  /** The one agent with one command of task `t`. */
  function Holding(s: State, i: nat, a: Agent): State
    requires i < |s.strategies|
  {
    At(s, i, Waiting, Some([0]), [Patch(0, AskingUpdated)]).(agents := map[0 := a], sent := {(s.strategies[i].task, 0)})
  }

  lemma Posts(s: State, i: nat)
    requires i < |s.strategies|
    requires s.strategies[i] == Strategy(s.strategies[i].task, 0, Waiting, Some([0]), [Patch(0, Posting)])
    requires s.agents == map[] && s.sent == {}
    ensures OkLeads(s, Holding(s, i, FRESH_AGENT.(handlers := multiset{s.strategies[i].task})))
  {
    var t := s.strategies[i].task;
    assert FRESH_AGENT.handlers + multiset{t} == multiset{t};
    assert map[][0 := FRESH_AGENT.(handlers := multiset{t})] == map[0 := FRESH_AGENT.(handlers := multiset{t})];
    assert [Patch(0, Posting)][0 := Patch(0, AskingUpdated)] == [Patch(0, AskingUpdated)];
    var z := Apply(s, PatchPosts(i, 0, true, false));
    assert z.sent == {(t, 0)} && z.agents == map[0 := FRESH_AGENT.(handlers := multiset{t})];
    OkStep(s, PatchPosts(i, 0, true, false), Holding(s, i, FRESH_AGENT.(handlers := multiset{t})));
  }

  lemma AgentMoves(s: State, i: nat, a: Agent, l: Step, b: Agent)
    requires i < |s.strategies| && AgentReady(a, l) && StepAgent(a, l) == b
    requires l.CommandQueued? || l.CommandTaken? || l.CommandReported?
    requires l.host == 0
    ensures OkLeads(Holding(s, i, a), Holding(s, i, b))
  {
    var h := Holding(s, i, a);
    assert AgentOf(h, 0) == a && map[0 := a][0 := b] == map[0 := b];
    assert Enabled(h, l) && Apply(h, l) == WithAgent(h, 0, b);
    OkStep(h, l, Holding(s, i, b));
  }

  lemma RunsUpgrade(s: State, i: nat, t: TaskId)
    requires i < |s.strategies| && t == s.strategies[i].task
    ensures OkLeads(Holding(s, i, FRESH_AGENT.(handlers := multiset{t})),
                  Holding(s, i, FRESH_AGENT.(updatedOut := multiset{t})))
  {
    var h, a := FRESH_AGENT.(handlers := multiset{t}), FRESH_AGENT.(queue := [t]);
    var b, c := FRESH_AGENT.(working := Some(t)), FRESH_AGENT.(updatedOut := multiset{t});
    assert multiset{t} - multiset{t} == multiset{} && [] + [t] == [t] && [t][1..] == [];
    assert FRESH_AGENT.updatedOut + multiset{t} == multiset{t};
    AgentMoves(s, i, h, CommandQueued(0, t), a);
    AgentMoves(s, i, a, CommandTaken(0), b);
    AgentMoves(s, i, b, CommandReported(0, HostUpdated), c);
    OkLeadsOn(Holding(s, i, h), Holding(s, i, a), Holding(s, i, b));
    OkLeadsOn(Holding(s, i, h), Holding(s, i, b), Holding(s, i, c));
  }

  /** The tables after the one report of task `t`. */
  function Succeeded(db: Db, t: TaskId): Db
    requires 0 in db.deployments
  {
    var logged := InsertLog(WithTask(db, t, Task(0, Tally(1, 1, 0), Success)), Log(t, 0, HostUpdated));
    WithStatus(logged, Success)
  }

  lemma ReportSucceeds(db: Db, t: TaskId)
    requires db.logs == map[] && t in db.tasks && db.tasks[t] == Task(0, Tally(1, 0, 0), Running)
    requires db.hosts == HOSTS && 0 in db.deployments
    ensures TakeReport(db, t, 0, HostUpdated) == Succeeded(db, t)
  {
    var logged := InsertLog(db, Log(t, 0, HostUpdated));
    assert LogIds(logged, t, HostUpdated) == {db.nextLog} && LogIds(logged, t, HostFailed) == {};
    var tallied := UpdateTaskTally(logged, t, Tally(1, 1, 0));
    assert tallied == WithTask(logged, t, Task(0, Tally(1, 1, 0), Running));
    assert SyncTaskStatus(tallied, t) == Succeeded(db, t);
  }

  lemma ReportsOnce(t: TaskId)
    ensures var a := FRESH_AGENT.(updatedOut := multiset{t});
            && AgentReady(a, ReportTaken(0, t, HostUpdated))
            && StepAgent(a, ReportTaken(0, t, HostUpdated)) == FRESH_AGENT
  {
    assert multiset{t} - multiset{t} == multiset{};
  }

  lemma TakesReport(s: State, i: nat, t: TaskId)
    requires i < |s.strategies| && t == s.strategies[i].task
    requires s.db.logs == map[] && t in s.db.tasks && s.db.tasks[t] == Task(0, Tally(1, 0, 0), Running)
    requires s.db.hosts == HOSTS && 0 in s.db.deployments
    ensures OkLeads(Holding(s, i, FRESH_AGENT.(updatedOut := multiset{t})),
                  Holding(s, i, FRESH_AGENT).(db := Succeeded(s.db, t)))
  {
    ReportSucceeds(s.db, t);
    ReportsOnce(t);
    TakesReportOf(s, i, t, FRESH_AGENT.(updatedOut := multiset{t}), FRESH_AGENT, Succeeded(s.db, t));
  }

  lemma TakesReportOf(s: State, i: nat, t: TaskId, a: Agent, b: Agent, db: Db)
    requires i < |s.strategies| && AgentReady(a, ReportTaken(0, t, HostUpdated))
    requires StepAgent(a, ReportTaken(0, t, HostUpdated)) == b && TakeReport(s.db, t, 0, HostUpdated) == db
    ensures OkLeads(Holding(s, i, a), Holding(s, i, b).(db := db))
  {
    var h := Holding(s, i, a);
    assert AgentOf(h, 0) == a && map[0 := a][0 := b] == map[0 := b];
    OkStep(h, ReportTaken(0, t, HostUpdated), Holding(s, i, b).(db := db));
  }

  lemma Answered(s: State, i: nat)
    requires i < |s.strategies| && s.strategies[i] == Strategy(s.strategies[i].task, 0, NextHost, Some([0]), [])
    requires s.agents == map[] && s.sent == {} && s.db.logs == map[] && s.db.hosts == HOSTS && 0 in s.db.deployments
    requires s.strategies[i].task in s.db.tasks && s.db.tasks[s.strategies[i].task] == Task(0, Tally(1, 0, 0), Running)
    ensures OkLeads(s, Holding(s, i, FRESH_AGENT).(db := Succeeded(s.db, s.strategies[i].task)))
  {
    var t := s.strategies[i].task;
    SpawnsAndSends(s, i);
    var a := At(s, i, Waiting, Some([0]), [Patch(0, Posting)]);
    Posts(a, i);
    var b := Holding(s, i, FRESH_AGENT.(handlers := multiset{t}));
    assert Holding(a, i, FRESH_AGENT.(handlers := multiset{t})) == b;
    RunsUpgrade(s, i, t);
    var c := Holding(s, i, FRESH_AGENT.(updatedOut := multiset{t}));
    TakesReport(s, i, t);
    OkLeadsOn(s, a, b);
    OkLeadsOn(s, b, c);
    OkLeadsOn(s, c, Holding(s, i, FRESH_AGENT).(db := Succeeded(s.db, t)));
  }

  // ----- the way to a spawned strategy -----

  /** One group, one host, one deployment, and `n` tasks of it with one status. */
  function World(n: nat, status: Status): Db {
    Db(map[0 := DEPLOYMENT], Tasks(n, status), map[], GROUPS, HOSTS, 1, n, 0, 1)
  }

  function Tasks(n: nat, status: Status): map<TaskId, Task> {
    if n == 0 then map[] else Tasks(n - 1, status)[n - 1 := Task(0, NO_TALLY, status)]
  }

  lemma Furnishes()
    ensures OkLeads(START, START.(db := World(0, Pending)))
  {
    TheyAreOk();
    var a := START.(db := START.db.(groups := GROUPS));
    OkStep(START, GroupsChanged(GROUPS), a);
    var b := START.(db := a.db.(hosts := HOSTS, nextHost := 1));
    OkStep(a, HostCreated(HOST), b);
    assert World(0, Pending).tasks == map[];
    OkStep(b, DeploymentCreated(DEPLOYMENT), START.(db := World(0, Pending)));
    OkLeadsOn(START, a, b);
    OkLeadsOn(START, b, START.(db := World(0, Pending)));
  }

  function Copies(n: nat): multiset<DeploymentId> {
    multiset{}[0 := n]
  }

  /** The deployment worker creates a task and stops there. */
  function Created(n: nat): State {
    START.(db := World(n, Pending), dw := ReadingDue([0]), created := Copies(n), crashes := if n == 0 then 0 else n - 1)
  }

  lemma CreatesTask(s: State, n: nat)
    requires s == Created(n + 1).(db := World(n, Pending), dw := DeploymentsIdle, created := Copies(n))
    ensures OkLeads(s, Created(n + 1))
  {
    assert DueDeployments(s.db, 1) == {0};
    var a := s.(dw := CreatingTask([0]));
    OkStep(s, DeploymentWorkerFires(1, [0]), a);
    assert InsertTask(World(n, Pending), 0) == World(n + 1, Pending);
    OkStep(a, DeploymentWorkerSteps, Created(n + 1));
    OkLeadsOn(s, a, Created(n + 1));
  }

  lemma CreatesFirst()
    ensures OkLeads(START, Created(1))
  {
    Furnishes();
    CreatesTask(START.(db := World(0, Pending)), 0);
    OkLeadsOn(START, START.(db := World(0, Pending)), Created(1));
  }

  /** After a crash the worker selects the deployment again. */
  lemma CreatesSecond()
    ensures OkLeads(START, Created(2))
  {
    CreatesFirst();
    var crashed := Created(1).(dw := DeploymentsIdle, crashes := 1);
    OkStep(Created(1), DeploymentWorkerCrashes, crashed);
    CreatesTask(crashed, 1);
    OkLeadsOn(START, Created(1), crashed);
    OkLeadsOn(START, crashed, Created(2));
  }

  // ----- claiming -----

  lemma Looks(s: State, todo: seq<Claim>)
    requires s.tw == LookingUp(todo) && todo != [] && todo[0].deployment in s.db.deployments
    ensures OkLeads(s, s.(tw := ReadingTask(todo, s.db.deployments[todo[0].deployment].rollout)))
  {
    OkStep(s, TaskWorkerSteps, s.(tw := ReadingTask(todo, s.db.deployments[todo[0].deployment].rollout)));
  }

  lemma Marks(s: State, todo: seq<Claim>, rollout: string)
    requires s.tw == ReadingTask(todo, rollout) && todo != [] && todo[0].task in s.db.tasks
    requires s.db.tasks[todo[0].task].status == Pending
    ensures var row := s.db.tasks[todo[0].task].(status := Running);
            OkLeads(s, s.(db := WithTask(s.db, todo[0].task, row), tw := Spawning(todo, rollout)))
  {
    var row := s.db.tasks[todo[0].task];
    var a := s.(tw := MarkingRunning(todo, rollout, row));
    OkStep(s, TaskWorkerSteps, a);
    var z := s.(db := WithTask(s.db, todo[0].task, row.(status := Running)), tw := Spawning(todo, rollout));
    OkStep(a, TaskWorkerSteps, z);
    OkLeadsOn(s, a, z);
  }

  lemma Spawns(s: State, todo: seq<Claim>)
    requires s.tw == Spawning(todo, "one_by_one") && todo != []
    ensures OkLeads(s, s.(tw := LookingUp(todo[1..]), strategies := s.strategies + [NewStrategy(todo[0])]))
  {
    OkStep(s, TaskWorkerSteps, s.(tw := LookingUp(todo[1..]), strategies := s.strategies + [NewStrategy(todo[0])]));
  }

  lemma Claims(s: State, todo: seq<Claim>)
    requires s.tw == LookingUp(todo) && todo != [] && todo[0].deployment in s.db.deployments
    requires s.db.deployments[todo[0].deployment].rollout == "one_by_one"
    requires todo[0].task in s.db.tasks && s.db.tasks[todo[0].task].status == Pending
    ensures var row := s.db.tasks[todo[0].task].(status := Running);
            OkLeads(s, s.(db := WithTask(s.db, todo[0].task, row), tw := LookingUp(todo[1..]),
                        strategies := s.strategies + [NewStrategy(todo[0])]))
  {
    var row := s.db.tasks[todo[0].task].(status := Running);
    Looks(s, todo);
    var a := s.(tw := ReadingTask(todo, "one_by_one"));
    Marks(a, todo, "one_by_one");
    var b := s.(db := WithTask(s.db, todo[0].task, row), tw := Spawning(todo, "one_by_one"));
    Spawns(b, todo);
    OkLeadsOn(s, a, b);
    OkLeadsOn(s, b, s.(db := WithTask(s.db, todo[0].task, row), tw := LookingUp(todo[1..]),
                     strategies := s.strategies + [NewStrategy(todo[0])]));
  }

  // ----- without a crash -----

  function Spawned(): State {
    Created(1).(db := World(1, Running), tw := LookingUp([]), strategies := [NewStrategy(Claim(0, 0))])
  }

  lemma FiresTaskWorker(s: State, todo: seq<Claim>)
    requires s.tw == TasksIdle && ListsPending(todo, s.db)
    ensures OkLeads(s, s.(tw := LookingUp(todo)))
  {
    OkStep(s, TaskWorkerFires(todo), s.(tw := LookingUp(todo)));
  }

  lemma ClaimsFirst()
    ensures OkLeads(Created(1).(tw := LookingUp([Claim(0, 0)])), Spawned())
  {
    var s, todo := Created(1), [Claim(0, 0)];
    Claims(s.(tw := LookingUp(todo)), todo);
    assert todo[1..] == [] && [] + [NewStrategy(todo[0])] == [NewStrategy(todo[0])];
    assert WithTask(World(1, Pending), 0, Task(0, NO_TALLY, Running)) == World(1, Running);
  }

  lemma SpawnsFirst()
    ensures OkLeads(START, Spawned())
  {
    CreatesFirst();
    var s, todo := Created(1), [Claim(0, 0)];
    assert PendingTasks(s.db) == {0};
    FiresTaskWorker(s, todo);
    ClaimsFirst();
    OkLeadsOn(START, s, s.(tw := LookingUp(todo)));
    OkLeadsOn(START, s.(tw := LookingUp(todo)), Spawned());
  }

  /** The strategy has marked the deployment while the deployment worker has yet to. */
  function MarkedRunning(): State {
    At(Spawned(), 0, ReadTask, Some([0]), []).(db := WithStatus(World(1, Running), Running))
  }

  lemma ReachesRunning()
    ensures OkLeads(START, MarkedRunning())
  {
    SpawnsFirst();
    var s := Spawned();
    Selects(s, 0);
    var a := At(s, 0, ReadDeployment, Some([0]), []);
    ReadsStatus(a, 0);
    var b := At(s, 0, MarkDeployment(Unknown), Some([0]), []);
    assert At(a, 0, MarkDeployment(Unknown), Some([0]), []) == b;
    MarksRunning(b, 0, Unknown);
    OkLeadsOn(START, s, a);
    OkLeadsOn(START, a, b);
    assert At(b, 0, ReadTask, Some([0]), []).(db := WithStatus(b.db, Running)) == MarkedRunning();
    OkLeadsOn(START, b, MarkedRunning());
  }

  /** The one host has been updated, and the worker has still not written "pending". */
  function Updated(): State {
    var s := Holding(MarkedRunning(), 0, FRESH_AGENT);
    s.(db := Succeeded(WithStatus(WithTask(World(1, Running), 0, Task(0, Tally(1, 0, 0), Running)), Running), 0))
  }

  lemma ReachesSuccess()
    ensures OkLeads(START, Updated())
  {
    ReachesRunning();
    var s := MarkedRunning();
    RecordsTotal(s, 0);
    var a := At(s, 0, NextHost, Some([0]), []).(db := WithTask(s.db, 0, Task(0, Tally(1, 0, 0), Running)));
    Answered(a, 0);
    assert WithTask(s.db, 0, Task(0, Tally(1, 0, 0), Running))
        == WithStatus(WithTask(World(1, Running), 0, Task(0, Tally(1, 0, 0), Running)), Running);
    assert Holding(a, 0, FRESH_AGENT).(db := Succeeded(a.db, 0)) == Updated();
    OkLeadsOn(START, s, a);
    OkLeadsOn(START, a, Updated());
  }

  /** The worker reads the deployment back and writes "pending" over whatever it finds. */
  lemma WritesPending(s: State)
    requires s.dw == ReadingDue([0]) && 0 in s.db.deployments && s.db.deployments[0].status != Pending
    ensures OkLeads(s, s.(db := WithStatus(s.db, Pending), dw := CreatingTask([])))
  {
    var a := s.(dw := MarkingPending([0], s.db.deployments[0].status));
    OkStep(s, DeploymentWorkerSteps, a);
    assert [0][1..] == [];
    var z := s.(db := WithStatus(s.db, Pending), dw := CreatingTask([]));
    OkStep(a, DeploymentWorkerSteps, z);
    OkLeadsOn(s, a, z);
  }

  /** Some run in which users store only rows that are in order shows the deployment with `first`, and
      a continuation of it with `second`. */
  ghost predicate ShowsThen(first: Status, second: Status, crashes: nat) {
    exists s, z :: OkReachable(s) && OkLeads(s, z) && s.crashes == z.crashes == crashes
      && 0 in s.db.deployments && 0 in z.db.deployments
      && s.db.deployments[0].status == first && z.db.deployments[0].status == second
  }

  lemma ShowsPendingNext(s: State)
    requires OkReachable(s) && s.crashes == 0 && s.dw == ReadingDue([0]) && 0 in s.db.deployments
    requires s.db.deployments[0].status != Pending
    ensures ShowsThen(s.db.deployments[0].status, Pending, 0)
  {
    WritesPending(s);
  }

  /** Without any crash a deployment can be running and then pending again, or even a success and
      then pending again. */
  lemma PendingCanComeLate()
    ensures ShowsThen(Running, Pending, 0) && ShowsThen(Success, Pending, 0)
  {
    ReachesRunning();
    assert Init(START) && OkReachable(MarkedRunning());
    ShowsPendingNext(MarkedRunning());
    ReachesSuccess();
    assert OkReachable(Updated());
    ShowsPendingNext(Updated());
  }

  // ----- with one crash -----

  function SpawnedBoth(): State {
    Created(2).(db := World(2, Running), tw := LookingUp([]),
                strategies := [NewStrategy(Claim(0, 0)), NewStrategy(Claim(1, 0))])
  }

  /** The first task is claimed, the second not yet. */
  function Half(): State {
    Created(2).(db := WithTask(World(2, Pending), 0, Task(0, NO_TALLY, Running)), tw := LookingUp([Claim(1, 0)]),
                strategies := [NewStrategy(Claim(0, 0))])
  }

  lemma ClaimsFirstOfBoth()
    ensures OkLeads(Created(2).(tw := LookingUp([Claim(0, 0), Claim(1, 0)])), Half())
  {
    var todo := [Claim(0, 0), Claim(1, 0)];
    Claims(Created(2).(tw := LookingUp(todo)), todo);
    assert todo[1..] == [Claim(1, 0)] && [] + [NewStrategy(todo[0])] == [NewStrategy(todo[0])];
  }

  lemma FiresForBoth()
    ensures OkLeads(Created(2), Created(2).(tw := LookingUp([Claim(0, 0), Claim(1, 0)])))
  {
    assert PendingTasks(Created(2).db) == {0, 1};
    FiresTaskWorker(Created(2), [Claim(0, 0), Claim(1, 0)]);
  }

  lemma SpawnsBoth()
    ensures OkLeads(START, SpawnedBoth())
  {
    var a := Created(2).(tw := LookingUp([Claim(0, 0), Claim(1, 0)]));
    CreatesSecond();
    FiresForBoth();
    ClaimsFirstOfBoth();
    SpawnsSecond(Half());
    OkLeadsOn(START, Created(2), a);
    OkLeadsOn(START, a, Half());
    OkLeadsOn(START, Half(), SpawnedBoth());
  }

  lemma SpawnsSecond(b: State)
    requires b == Half()
    ensures OkLeads(b, SpawnedBoth())
  {
    Claims(b, [Claim(1, 0)]);
    assert [Claim(1, 0)][1..] == [];
    assert WithTask(b.db, 1, Task(0, NO_TALLY, Running)) == World(2, Running);
    assert [NewStrategy(Claim(0, 0))] + [NewStrategy(Claim(1, 0))] == SpawnedBoth().strategies;
  }

  /** The second strategy has read the status "unknown" and is about to write "running". */
  function SecondReads(): State {
    At(SpawnedBoth(), 1, MarkDeployment(Unknown), Some([0]), [])
  }

  lemma ReachesSecondRead()
    ensures OkLeads(START, SecondReads())
  {
    SpawnsBoth();
    var s := SpawnedBoth();
    Selects(s, 1);
    var a := At(s, 1, ReadDeployment, Some([0]), []);
    ReadsStatus(a, 1);
    assert At(a, 1, MarkDeployment(Unknown), Some([0]), []) == SecondReads();
    OkLeadsOn(START, s, a);
    OkLeadsOn(START, a, SecondReads());
  }

  /** Strategy 0 runs to its success. */
  lemma FirstSucceeds(s: State) returns (z: State)
    requires s == SecondReads()
    ensures OkLeads(s, z) && |z.strategies| == 2 && z.strategies[1] == s.strategies[1] && z.crashes == s.crashes
    ensures 0 in z.db.deployments && z.db.deployments[0].status == Success
  {
    Selects(s, 0);
    var a := At(s, 0, ReadDeployment, Some([0]), []);
    ReadsStatus(a, 0);
    var b := At(s, 0, MarkDeployment(Unknown), Some([0]), []);
    assert At(a, 0, MarkDeployment(Unknown), Some([0]), []) == b;
    MarksRunning(b, 0, Unknown);
    var c := At(s, 0, ReadTask, Some([0]), []).(db := WithStatus(s.db, Running));
    assert At(b, 0, ReadTask, Some([0]), []).(db := WithStatus(s.db, Running)) == c;
    OkLeadsOn(s, a, b);
    OkLeadsOn(s, b, c);
    z := SucceedsFrom(c);
    OkLeadsOn(s, c, z);
  }

  lemma SucceedsFrom(c: State) returns (z: State)
    requires |c.strategies| == 2 && c.strategies[0] == Strategy(0, 0, ReadTask, Some([0]), [])
    requires c.db == WithStatus(World(2, Running), Running) && c.agents == map[] && c.sent == {}
    ensures OkLeads(c, z) && |z.strategies| == 2 && z.strategies[1] == c.strategies[1] && z.crashes == c.crashes
    ensures 0 in z.db.deployments && z.db.deployments[0].status == Success
  {
    RecordsTotal(c, 0);
    var d := At(c, 0, NextHost, Some([0]), []).(db := WithTask(c.db, 0, Task(0, Tally(1, 0, 0), Running)));
    Answered(d, 0);
    z := Holding(d, 0, FRESH_AGENT).(db := Succeeded(d.db, 0));
    OkLeadsOn(c, d, z);
  }

  /** After one crash of the deployment worker "running" can be written over a verdict. */
  lemma RunningCanComeLate()
    ensures ShowsThen(Success, Running, 1)
  {
    ReachesSecondRead();
    var s := SecondReads();
    var z := FirstSucceeds(s);
    MarksRunning(z, 1, Unknown);
    OkLeadsOn(START, s, z);
    assert Init(START) && OkReachable(z);
  }
}
