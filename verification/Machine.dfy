/** The rollout as one state machine: the rows, the two periodic workers, the strategy and patch
    processes they spawn, and the agents. One step is one repository call, one message or one
    crash, so every interleaving of the processes is a run. */
module Machine {
  import opened Wrappers
  import opened Targets
  import opened Rows

  // ----- processes -----

  /** `DeploymentWorker`: the deployments still to handle, the first being handled now. */
  datatype DeploymentWorker =
    | DeploymentsIdle
    | CreatingTask(todo: seq<DeploymentId>)
    | ReadingDue(todo: seq<DeploymentId>)
    | MarkingPending(todo: seq<DeploymentId>, loaded: Status)

  datatype Claim = Claim(task: TaskId, deployment: DeploymentId)

  /** `TaskWorker`: the tasks still to claim, the first being claimed now. */
  datatype TaskWorker =
    | TasksIdle
    | LookingUp(todo: seq<Claim>)
    | ReadingOrphan(todo: seq<Claim>)
    | DeletingOrphan(todo: seq<Claim>)
    | ReadingTask(todo: seq<Claim>, rollout: string)
    | MarkingRunning(todo: seq<Claim>, rollout: string, loaded: Task)
    | Spawning(todo: seq<Claim>, rollout: string)

  /** `PatchTask`: waiting for its message, about to post, polling for a log, ended, or raised. */
  datatype PatchPc = Receiving | Posting | AskingUpdated | AskingFailed | Ended | Died

  datatype Patch = Patch(host: HostId, pc: PatchPc)

  /** `OneByOneStrategy.handle/2`, one constructor for each point between two repository calls. */
  datatype StrategyPc =
    | LoadDeployment
    | LoadGroups(filters: Filters)
    | LoadHosts(filters: Filters, groupIds: set<GroupId>)
    | ReadDeployment
    | MarkDeployment(loadedStatus: Status)
    | ReadTask
    | MarkTask(loaded: Task)
    | ReadTally
    | RereadTask(tally: Tally)
    | WriteTally(tally: Tally, loaded: Task)
    | NextHost
    | SendMessage
    | Waiting
    | SkipReadTask
    | SkipTask(loaded: Task)
    | SkipReadDeployment
    | SkipDeployment(loadedStatus: Status)
    | Finished
    | Crashed

  /** The snapshot is None until the hosts are read, and stays None when the deployment was gone.
      The children are the patch processes spawned so far, oldest first. */
  datatype Strategy = Strategy(
    task: TaskId,
    deployment: DeploymentId,
    pc: StrategyPc,
    snapshot: Option<seq<HostId>>,
    children: seq<Patch>)

  /** An agent: commands in HTTP handlers, the bounded channel, the command being run, and the
      reports on their way to the server, by outcome. A command is known by its task. */
  datatype Agent = Agent(
    handlers: multiset<TaskId>,
    queue: seq<TaskId>,
    working: Option<TaskId>,
    updatedOut: multiset<TaskId>,
    failedOut: multiset<TaskId>)

  const FRESH_AGENT := Agent(multiset{}, [], None, multiset{}, multiset{})
  const CAPACITY: nat := 500

  /** The last three fields record history: the commands posted, the tasks created for each
      deployment and the crashes of the deployment worker. */
  datatype State = State(
    db: Db,
    dw: DeploymentWorker,
    tw: TaskWorker,
    strategies: seq<Strategy>,
    agents: map<HostId, Agent>,
    sent: set<(TaskId, HostId)>,
    created: multiset<DeploymentId>,
    crashes: nat)

  function AgentIn(agents: map<HostId, Agent>, h: HostId): Agent {
    if h in agents then agents[h] else FRESH_AGENT
  }

  function AgentOf(s: State, h: HostId): Agent {
    AgentIn(s.agents, h)
  }

  predicate Dead(p: Patch) { p.pc == Ended || p.pc == Died }

  predicate Over(st: Strategy) { st.pc == Finished || st.pc == Crashed }

  const EMPTY_DB := Db(map[], map[], map[], map[], map[], 0, 0, 0, 0)

  predicate Init(s: State) {
    && s.db.deployments == map[] && s.db.tasks == map[] && s.db.logs == map[] && s.db.hosts == map[]
    && s.dw == DeploymentsIdle && s.tw == TasksIdle && s.strategies == [] && s.agents == map[]
    && s.sent == {} && s.created == multiset{} && s.crashes == 0
  }

  // ----- steps -----

  datatype Step =
    // users
    | DeploymentCreated(row: Deployment)
    | DeploymentEdited(deployment: DeploymentId, row: Deployment)
    | DeploymentsDeleted(deployments: set<DeploymentId>)
    | HostCreated(newHost: Host)
    | HostEdited(host: HostId, newHost: Host)
    | HostsDeleted(hosts: set<HostId>)
    | GroupsChanged(groups: map<GroupId, Group>)
    // the deployment worker
    | DeploymentWorkerFires(now: int, due: seq<DeploymentId>)
    | DeploymentWorkerSteps
    | DeploymentWorkerCrashes
    // the task worker
    | TaskWorkerFires(pending: seq<Claim>)
    | TaskWorkerSteps
    | TaskWorkerCrashes
    // strategies and their patch processes
    | StrategySteps(strategy: nat, found: seq<HostId>)
    | StrategyCrashes(strategy: nat)
    | PatchPosts(strategy: nat, child: nat, delivered: bool, raised: bool)
    | PatchPolls(strategy: nat, child: nat)
    | PatchCrashes(strategy: nat, child: nat)
    // agents and the reports they send
    | CommandQueued(host: HostId, task: TaskId)
    | CommandDropped(host: HostId, task: TaskId)
    | CommandTaken(host: HostId)
    | CommandReported(host: HostId, outcome: Outcome)
    | AgentCrashes(host: HostId)
    | ReportLost(host: HostId, task: TaskId, outcome: Outcome)
    | ReportTaken(host: HostId, task: TaskId, outcome: Outcome)

  // ----- users -----

  /** A new deployment starts as unknown, and an edit never touches the status. */
  function StepUser(db: Db, l: Step): Db {
    match l
    case DeploymentCreated(row) =>
      db.(deployments := db.deployments[db.nextDeployment := row.(status := Unknown)],
          nextDeployment := db.nextDeployment + 1)
    case DeploymentEdited(d, row) =>
      if d in db.deployments
      then db.(deployments := db.deployments[d := row.(status := db.deployments[d].status)]) else db
    case DeploymentsDeleted(gone) => DeleteDeployments(db, gone)
    case HostCreated(row) => db.(hosts := db.hosts[db.nextHost := row], nextHost := db.nextHost + 1)
    case HostEdited(h, row) => if h in db.hosts then db.(hosts := db.hosts[h := row]) else db
    case HostsDeleted(gone) => DeleteHosts(db, gone)
    case GroupsChanged(groups) => db.(groups := groups)
    case _ => db
  }

  // ----- the deployment worker -----

  /** One repository call of the worker; a call that raises restarts it. */
  function StepDeploymentWorker(s: State): State {
    match s.dw
    case DeploymentsIdle => s
    case CreatingTask(todo) =>
      if todo == [] then s.(dw := DeploymentsIdle)
      else if todo[0] !in s.db.deployments then CrashDeploymentWorker(s) // the foreign key raises
      else s.(db := InsertTask(s.db, todo[0]), dw := ReadingDue(todo), created := s.created + multiset{todo[0]})
    case ReadingDue(todo) =>
      if todo == [] then s.(dw := DeploymentsIdle)
      else if todo[0] !in s.db.deployments then s.(dw := CreatingTask(todo[1..]))
      else s.(dw := MarkingPending(todo, s.db.deployments[todo[0]].status))
    case MarkingPending(todo, loaded) =>
      if todo == [] then s.(dw := DeploymentsIdle)
      else if todo[0] !in s.db.deployments then CrashDeploymentWorker(s) // a stale row raises
      else s.(db := WriteDeploymentStatus(s.db, todo[0], loaded, Pending), dw := CreatingTask(todo[1..]))
  }

  function CrashDeploymentWorker(s: State): State {
    s.(dw := DeploymentsIdle, crashes := s.crashes + 1)
  }

  // ----- the task worker -----

  function StepTaskWorker(s: State): State {
    match s.tw
    case TasksIdle => s
    case LookingUp(todo) =>
      if todo == [] then s.(tw := TasksIdle)
      else if todo[0].deployment !in s.db.deployments then s.(tw := ReadingOrphan(todo))
      else s.(tw := ReadingTask(todo, s.db.deployments[todo[0].deployment].rollout))
    case ReadingOrphan(todo) =>
      if todo == [] then s.(tw := TasksIdle)
      else if todo[0].task !in s.db.tasks then s.(tw := LookingUp(todo[1..]))
      else s.(tw := DeletingOrphan(todo))
    case DeletingOrphan(todo) =>
      if todo == [] || todo[0].task !in s.db.tasks then s.(tw := TasksIdle) // a stale row raises
      else s.(db := DeleteTask(s.db, todo[0].task), tw := LookingUp(todo[1..]))
    case ReadingTask(todo, rollout) =>
      if todo == [] then s.(tw := TasksIdle)
      else if todo[0].task !in s.db.tasks then s.(tw := Spawning(todo, rollout))
      else s.(tw := MarkingRunning(todo, rollout, s.db.tasks[todo[0].task]))
    case MarkingRunning(todo, rollout, loaded) =>
      if todo == [] || todo[0].task !in s.db.tasks then s.(tw := TasksIdle) // a stale row raises
      else s.(db := WriteTaskStatus(s.db, todo[0].task, loaded, Running), tw := Spawning(todo, rollout))
    case Spawning(todo, rollout) =>
      if todo == [] then s.(tw := TasksIdle)
      else if rollout == "one_by_one" then
        s.(tw := LookingUp(todo[1..]), strategies := s.strategies + [NewStrategy(todo[0])])
      else s.(tw := LookingUp(todo[1..]))
  }

  function NewStrategy(c: Claim): Strategy {
    Strategy(c.task, c.deployment, LoadDeployment, None, [])
  }

  // ----- one strategy process -----

  /** The strategy's next call: the new tables and the new process state. `found` is the order in
      which the host query returns its rows. */
  function StepStrategy(db: Db, st: Strategy, found: seq<HostId>): (Db, Strategy) {
    match st.pc
    case LoadDeployment => (db, StepLoading(db, st, found))
    case LoadGroups(_) => (db, StepLoading(db, st, found))
    case LoadHosts(_, _) => (db, StepLoading(db, st, found))
    case NextHost => (db, StepLoop(st))
    case SendMessage => (db, StepLoop(st))
    case Waiting => (db, StepLoop(st))
    case Finished => (db, st)
    case Crashed => (db, st)
    case _ => StepWriting(db, st)
  }

  /** `get_deployment_target_hosts/1` */
  function StepLoading(db: Db, st: Strategy, found: seq<HostId>): Strategy {
    match st.pc
    case LoadDeployment =>
      if st.deployment !in db.deployments then st.(pc := ReadDeployment)
      else st.(pc := LoadGroups(db.deployments[st.deployment].filters))
    case LoadGroups(f) =>
      (match GroupQuery(f)
       case None => st.(pc := Crashed)
       case Some(query) => st.(pc := LoadHosts(f, GroupIds(db.groups, f.team, query))))
    case LoadHosts(f, groupIds) =>
      (match HostQuery(f)
       case None => st.(pc := Crashed)
       case Some(_) => st.(pc := ReadDeployment, snapshot := Some(found)))
    case _ => st
  }

  /** The statuses and the total. */
  function StepWriting(db: Db, st: Strategy): (Db, Strategy) {
    match st.pc
    case ReadDeployment =>
      if st.deployment !in db.deployments then (db, st.(pc := ReadTask))
      else (db, st.(pc := MarkDeployment(db.deployments[st.deployment].status)))
    case MarkDeployment(loaded) =>
      if st.deployment !in db.deployments then (db, st.(pc := Crashed))
      else (WriteDeploymentStatus(db, st.deployment, loaded, Running), st.(pc := ReadTask))
    case ReadTask =>
      if st.task !in db.tasks then (db, st.(pc := ReadTally))
      else (db, st.(pc := MarkTask(db.tasks[st.task])))
    case MarkTask(loaded) =>
      if st.task !in db.tasks then (db, st.(pc := Crashed))
      else (WriteTaskStatus(db, st.task, loaded, Running), st.(pc := ReadTally))
    case ReadTally =>
      if st.task !in db.tasks then (db, st.(pc := NextHost))
      else if st.snapshot.None? then (db, st.(pc := Crashed)) // length(nil) raises
      else (db, st.(pc := RereadTask(db.tasks[st.task].tally)))
    case RereadTask(tally) =>
      if st.task !in db.tasks then (db, st.(pc := NextHost))
      else (db, st.(pc := WriteTally(tally, db.tasks[st.task])))
    case WriteTally(tally, loaded) =>
      if st.snapshot.None? then (db, st.(pc := Crashed))
      else
        var wanted := Tally(|st.snapshot.value|, tally.updated, tally.failed);
        if loaded.tally == wanted then (db, st.(pc := NextHost)) // an empty changeset is not sent
        else if st.task !in db.tasks then (db, st.(pc := Crashed))
        else (WriteTaskTally(db, st.task, loaded, wanted), st.(pc := NextHost))
    case SkipReadTask =>
      if st.task !in db.tasks then (db, st.(pc := SkipReadDeployment))
      else (db, st.(pc := SkipTask(db.tasks[st.task])))
    case SkipTask(loaded) =>
      if st.task !in db.tasks then (db, st.(pc := Crashed))
      else (WriteTaskStatus(db, st.task, loaded, Skipped), st.(pc := SkipReadDeployment))
    case SkipReadDeployment =>
      if st.deployment !in db.deployments then (db, st.(pc := Finished))
      else (db, st.(pc := SkipDeployment(db.deployments[st.deployment].status)))
    case SkipDeployment(loaded) =>
      if st.deployment !in db.deployments then (db, st.(pc := Crashed))
      else (WriteDeploymentStatus(db, st.deployment, loaded, Skipped), st.(pc := Finished))
    case _ => (db, st)
  }

  /** The loop over the hosts. */
  function StepLoop(st: Strategy): Strategy {
    match st.pc
    case NextHost =>
      if st.snapshot.None? then st.(pc := Crashed) // a loop over nil raises
      else if |st.children| < |st.snapshot.value| then
        st.(pc := SendMessage, children := st.children + [Patch(st.snapshot.value[|st.children|], Receiving)])
      else if |st.snapshot.value| == 0 then st.(pc := SkipReadTask)
      else st.(pc := Finished)
    case SendMessage =>
      if st.children == [] then st.(pc := Crashed) else WithLastChild(st, Hear).(pc := Waiting)
    case Waiting =>
      if st.children == [] || Dead(st.children[|st.children| - 1]) then st.(pc := NextHost) else st
    case _ => st
  }

  /** A message reaches a process that waits for one; a dead process never reads it. */
  function Hear(p: Patch): Patch {
    if p.pc == Receiving then p.(pc := Posting) else p
  }

  function WithLastChild(st: Strategy, f: Patch -> Patch): Strategy
    requires st.children != []
  {
    var n := |st.children| - 1;
    st.(children := st.children[n := f(st.children[n])])
  }

  // ----- one patch process -----

  /** `check/1`: first the success log, then the failure log, then sleep and start over. */
  function PollPatch(db: Db, t: TaskId, p: Patch): Patch {
    match p.pc
    case AskingUpdated => if HostLogged(db, p.host, t, HostUpdated) then p.(pc := Ended) else p.(pc := AskingFailed)
    case AskingFailed => if HostLogged(db, p.host, t, HostFailed) then p.(pc := Ended) else p.(pc := AskingUpdated)
    case _ => p
  }

  function WithChild(s: State, i: nat, j: nat, p: Patch): State
    requires i < |s.strategies| && j < |s.strategies[i].children|
  {
    var st := s.strategies[i];
    s.(strategies := s.strategies[i := st.(children := st.children[j := p])])
  }

  function WithAgent(s: State, h: HostId, a: Agent): State {
    s.(agents := s.agents[h := a])
  }

  // ----- one agent -----

  function Outgoing(a: Agent, outcome: Outcome): multiset<TaskId> {
    match outcome
    case HostUpdated => a.updatedOut
    case HostFailed => a.failedOut
  }

  function WithOutgoing(a: Agent, outcome: Outcome, out: multiset<TaskId>): Agent {
    match outcome
    case HostUpdated => a.(updatedOut := out)
    case HostFailed => a.(failedOut := out)
  }

  /** Commands and reports move on inside the agent, or leave it. */
  function StepAgent(a: Agent, l: Step): Agent {
    match l
    case CommandQueued(_, t) => a.(handlers := a.handlers - multiset{t}, queue := a.queue + [t])
    case CommandDropped(_, t) => a.(handlers := a.handlers - multiset{t})
    case CommandTaken(_) => if a.queue == [] then a else a.(queue := a.queue[1..], working := Some(a.queue[0]))
    case CommandReported(_, outcome) =>
      if a.working.None? then a
      else WithOutgoing(a, outcome, Outgoing(a, outcome) + multiset{a.working.value}).(working := None)
    case AgentCrashes(_) => a.(handlers := multiset{}, queue := [], working := None)
    case ReportLost(_, t, outcome) => WithOutgoing(a, outcome, Outgoing(a, outcome) - multiset{t})
    case ReportTaken(_, t, outcome) => WithOutgoing(a, outcome, Outgoing(a, outcome) - multiset{t})
    case _ => a
  }

  predicate AgentReady(a: Agent, l: Step) {
    match l
    case CommandQueued(_, t) => t in a.handlers && |a.queue| < CAPACITY
    case CommandDropped(_, t) => t in a.handlers
    case CommandTaken(_) => a.working.None? && a.queue != []
    case CommandReported(_, _) => a.working.Some?
    case AgentCrashes(_) => true
    case ReportLost(_, t, outcome) => t in Outgoing(a, outcome)
    case ReportTaken(_, t, outcome) => t in Outgoing(a, outcome)
    case _ => false
  }

  // ----- the step relation -----

  predicate IsChild(s: State, i: nat, j: nat) {
    i < |s.strategies| && j < |s.strategies[i].children|
  }

  /** The claims list the pending tasks, each with the deployment its row names. */
  predicate ListsPending(claims: seq<Claim>, db: Db) {
    && Distinct(claims)
    && (forall c :: c in claims ==> c.task in PendingTasks(db) && c.deployment == db.tasks[c.task].deployment)
    && (forall t :: t in PendingTasks(db) ==> Claim(t, db.tasks[t].deployment) in claims)
  }

  predicate Enabled(s: State, l: Step) {
    match l
    case DeploymentCreated(_) => true
    case DeploymentEdited(d, _) => d in s.db.deployments
    case DeploymentsDeleted(_) => true
    case HostCreated(_) => true
    case HostEdited(h, _) => h in s.db.hosts
    case HostsDeleted(_) => true
    case GroupsChanged(_) => true
    case DeploymentWorkerFires(now, due) => s.dw == DeploymentsIdle && Lists(due, DueDeployments(s.db, now))
    case DeploymentWorkerSteps => s.dw != DeploymentsIdle
    case DeploymentWorkerCrashes => true
    case TaskWorkerFires(pending) => s.tw == TasksIdle && ListsPending(pending, s.db)
    case TaskWorkerSteps => s.tw != TasksIdle
    case TaskWorkerCrashes => true
    case StrategySteps(i, found) =>
      && i < |s.strategies| && !Over(s.strategies[i])
      && FoundHosts(s.db, s.strategies[i].pc, found)
    case StrategyCrashes(i) => i < |s.strategies| && !Over(s.strategies[i])
    case PatchPosts(i, j, _, _) => IsChild(s, i, j) && s.strategies[i].children[j].pc == Posting
    case PatchPolls(i, j) => IsChild(s, i, j) && s.strategies[i].children[j].pc in {AskingUpdated, AskingFailed}
    case PatchCrashes(i, j) => IsChild(s, i, j) && !Dead(s.strategies[i].children[j])
    case CommandQueued(h, _) => AgentReady(AgentOf(s, h), l)
    case CommandDropped(h, _) => AgentReady(AgentOf(s, h), l)
    case CommandTaken(h) => AgentReady(AgentOf(s, h), l)
    case CommandReported(h, _) => AgentReady(AgentOf(s, h), l)
    case AgentCrashes(_) => true
    case ReportLost(h, _, _) => AgentReady(AgentOf(s, h), l)
    case ReportTaken(h, _, _) => AgentReady(AgentOf(s, h), l)
  }

  predicate FoundHosts(db: Db, pc: StrategyPc, found: seq<HostId>) {
    pc.LoadHosts? && HostQuery(pc.filters).Some?
    ==> Lists(found, HostIds(db.hosts, pc.groupIds, HostQuery(pc.filters).value))
  }

  function Apply(s: State, l: Step): State
    requires Enabled(s, l)
  {
    match l
    case DeploymentCreated(_) => s.(db := StepUser(s.db, l))
    case DeploymentEdited(_, _) => s.(db := StepUser(s.db, l))
    case DeploymentsDeleted(_) => s.(db := StepUser(s.db, l))
    case HostCreated(_) => s.(db := StepUser(s.db, l))
    case HostEdited(_, _) => s.(db := StepUser(s.db, l))
    case HostsDeleted(_) => s.(db := StepUser(s.db, l))
    case GroupsChanged(_) => s.(db := StepUser(s.db, l))
    case DeploymentWorkerFires(_, due) => s.(dw := CreatingTask(due))
    case DeploymentWorkerSteps => StepDeploymentWorker(s)
    case DeploymentWorkerCrashes => CrashDeploymentWorker(s)
    case TaskWorkerFires(pending) => s.(tw := LookingUp(pending))
    case TaskWorkerSteps => StepTaskWorker(s)
    case TaskWorkerCrashes => s.(tw := TasksIdle)
    case StrategySteps(i, found) =>
      var (db, st) := StepStrategy(s.db, s.strategies[i], found);
      s.(db := db, strategies := s.strategies[i := st])
    case StrategyCrashes(i) => s.(strategies := s.strategies[i := s.strategies[i].(pc := Crashed)])
    case PatchPosts(i, j, delivered, raised) =>
      var t, p := s.strategies[i].task, s.strategies[i].children[j];
      var s1 := WithChild(s, i, j, p.(pc := if raised then Died else AskingUpdated));
      var s2 := s1.(sent := s1.sent + {(t, p.host)});
      if delivered
      then WithAgent(s2, p.host, AgentOf(s2, p.host).(handlers := AgentOf(s2, p.host).handlers + multiset{t}))
      else s2
    case PatchPolls(i, j) => WithChild(s, i, j, PollPatch(s.db, s.strategies[i].task, s.strategies[i].children[j]))
    case PatchCrashes(i, j) => WithChild(s, i, j, s.strategies[i].children[j].(pc := Died))
    case CommandQueued(h, _) => WithAgent(s, h, StepAgent(AgentOf(s, h), l))
    case CommandDropped(h, _) => WithAgent(s, h, StepAgent(AgentOf(s, h), l))
    case CommandTaken(h) => WithAgent(s, h, StepAgent(AgentOf(s, h), l))
    case CommandReported(h, _) => WithAgent(s, h, StepAgent(AgentOf(s, h), l))
    case AgentCrashes(h) => WithAgent(s, h, StepAgent(AgentOf(s, h), l))
    case ReportLost(h, _, _) => WithAgent(s, h, StepAgent(AgentOf(s, h), l))
    case ReportTaken(h, t, outcome) =>
      WithAgent(s.(db := TakeReport(s.db, t, h, outcome)), h, StepAgent(AgentOf(s, h), l))
  }

  // ----- runs -----

  /** `steps` leads from `s` to `z`. */
  predicate Run(s: State, steps: seq<Step>, z: State)
    decreases |steps|
  {
    if steps == [] then s == z else Enabled(s, steps[0]) && Run(Apply(s, steps[0]), steps[1..], z)
  }

  ghost predicate Leads(s: State, z: State) {
    exists steps :: Run(s, steps, z)
  }

  ghost predicate Reachable(z: State) {
    exists s :: Init(s) && Leads(s, z)
  }

  lemma {:induction false} RunConcat(s: State, first: seq<Step>, m: State, second: seq<Step>, z: State)
    requires Run(s, first, m) && Run(m, second, z)
    ensures Run(s, first + second, z)
    decreases |first|
  {
    if first == [] {
      assert first + second == second;
    } else {
      RunConcat(Apply(s, first[0]), first[1..], m, second, z);
      assert (first + second)[1..] == first[1..] + second;
    }
  }

  lemma LeadsOn(s: State, m: State, z: State)
    requires Leads(s, m) && Leads(m, z)
    ensures Leads(s, z)
  {
    var first :| Run(s, first, m);
    var second :| Run(m, second, z);
    RunConcat(s, first, m, second, z);
  }

  lemma StepReachable(s: State, l: Step)
    requires Reachable(s) && Enabled(s, l)
    ensures Reachable(Apply(s, l))
  {
    var first :| Init(first) && Leads(first, s);
    assert [l][1..] == [];
    assert Run(s, [l], Apply(s, l));
    LeadsOn(first, s, Apply(s, l));
  }
}
