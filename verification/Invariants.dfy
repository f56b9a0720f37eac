/** What every reachable state of the rollout satisfies. */
module Invariants {
  import opened Wrappers
  import opened Targets
  import opened Rows
  import opened Counting
  import opened Machine

  // ----- tables -----

  predicate RowsOk(db: Db) {
    && (forall d :: d in db.deployments ==> d < db.nextDeployment)
    && (forall t :: t in db.tasks ==> t < db.nextTask && db.tasks[t].deployment in db.deployments)
    && (forall id :: id in db.logs ==> id < db.nextLog && db.logs[id].task in db.tasks && db.logs[id].host in db.hosts)
    && (forall h :: h in db.hosts ==> h < db.nextHost)
  }

  // ----- commands: posted by one patch process, in at most one place at a time -----

  predicate HasPosted(p: Patch) { p.pc != Receiving && p.pc != Posting }

  predicate Posted(strategies: seq<Strategy>, t: TaskId, h: HostId, i: nat, j: nat) {
    && i < |strategies| && strategies[i].task == t
    && j < |strategies[i].children| && strategies[i].children[j].host == h
    && HasPosted(strategies[i].children[j])
  }

  ghost predicate SentOk(strategies: seq<Strategy>, sent: set<(TaskId, HostId)>) {
    forall t, h :: (t, h) in sent ==> exists i, j :: Posted(strategies, t, h, i, j)
  }

  /** How many copies of the task's command, or of its report, the agent and its wires hold. */
  function Load(a: Agent, t: TaskId): nat {
    a.handlers[t] + multiset(a.queue)[t] + (if a.working == Some(t) then 1 else 0) + a.updatedOut[t] + a.failedOut[t]
  }

  predicate Logged(logs: map<LogId, Log>, t: TaskId, h: HostId) {
    exists id :: id in logs && logs[id].task == t && logs[id].host == h
  }

  predicate LoadOk(a: Agent, h: HostId, t: TaskId, sent: set<(TaskId, HostId)>, logs: map<LogId, Log>) {
    Load(a, t) <= 1 && (Load(a, t) == 1 ==> (t, h) in sent && !Logged(logs, t, h))
  }

  ghost predicate AgentsOk(agents: map<HostId, Agent>, sent: set<(TaskId, HostId)>, logs: map<LogId, Log>) {
    forall h, t: TaskId :: h in agents ==> LoadOk(agents[h], h, t, sent, logs)
  }

  predicate LogsOk(logs: map<LogId, Log>, sent: set<(TaskId, HostId)>) {
    OneLogEach(logs) && forall id :: id in logs ==> (logs[id].task, logs[id].host) in sent
  }

  // ----- strategies -----

  predicate UniqueTasks(strategies: seq<Strategy>) {
    forall i, j :: 0 <= i < j < |strategies| ==> strategies[i].task != strategies[j].task
  }

  /** Before the total is recorded. */
  predicate Early(pc: StrategyPc) {
    || pc.LoadDeployment? || pc.LoadGroups? || pc.LoadHosts? || pc.ReadDeployment? || pc.MarkDeployment?
    || pc.ReadTask? || pc.MarkTask? || pc.ReadTally? || pc.RereadTask? || pc.WriteTally?
  }

  predicate Skipping(pc: StrategyPc) {
    pc.SkipReadTask? || pc.SkipTask? || pc.SkipReadDeployment? || pc.SkipDeployment?
  }

  /** What a row loaded earlier still tells. */
  predicate LoadedOk(pc: StrategyPc) {
    && (pc.MarkTask? ==> pc.loaded.status == Running)
    && (pc.SkipTask? ==> pc.loaded.status == Running)
    && (pc.RereadTask? ==> pc.tally == NO_TALLY)
    && (pc.WriteTally? ==> pc.tally == NO_TALLY && pc.loaded.tally == NO_TALLY)
  }

  predicate AllDead(children: seq<Patch>) {
    forall j :: 0 <= j < |children| ==> Dead(children[j])
  }

  predicate AllButLastDead(children: seq<Patch>) {
    forall j :: 0 <= j < |children| - 1 ==> Dead(children[j])
  }

  /** The hosts contacted are the first hosts of the snapshot, in order. */
  predicate Prefix(st: Strategy) {
    match st.snapshot
    case None => st.children == []
    case Some(hosts) =>
      && Distinct(hosts)
      && |st.children| <= |hosts|
      && forall j :: 0 <= j < |st.children| ==> st.children[j].host == hosts[j]
  }

  predicate ShapeOk(st: Strategy) {
    && Prefix(st)
    && LoadedOk(st.pc)
    && AllButLastDead(st.children)
    && (Early(st.pc) ==> st.children == [])
    && (st.pc.LoadDeployment? || st.pc.LoadGroups? || st.pc.LoadHosts? ==> st.snapshot.None?)
    && (st.pc.RereadTask? || st.pc.WriteTally? ==> st.snapshot.Some?)
    && (st.pc.NextHost? ==> AllDead(st.children))
    && (st.pc.SendMessage? ==> st.children != [] && st.children[|st.children| - 1].pc in {Receiving, Died})
    && (st.pc.Waiting? ==> st.children != [] && st.children[|st.children| - 1].pc != Receiving)
    && (Skipping(st.pc) ==> st.snapshot == Some([]))
    && (st.pc.Finished? ==> st.snapshot.Some? && |st.children| == |st.snapshot.value| && AllDead(st.children))
  }

  predicate Late(st: Strategy) {
    (!Early(st.pc) && st.pc != Crashed) || st.children != []
  }

  /** The task row, seen by its strategy. */
  predicate TaskRowOk(row: Task, st: Strategy) {
    && row.status in {Running, Success, Failure, Skipped}
    && row.tally.updated + row.tally.failed <= row.tally.total
    && (Early(st.pc) ==> row.tally == NO_TALLY && row.status == Running)
    && (Late(st) ==> st.snapshot.Some? && row.tally.total == |st.snapshot.value|)
    && (st.children == [] ==> row.tally.updated == 0 && row.tally.failed == 0 && row.status in {Running, Skipped})
    && (row.status == Skipped
        ==> st.snapshot == Some([]) && (st.pc.SkipReadDeployment? || st.pc.SkipDeployment? || Over(st)))
    && (st.snapshot == Some([]) && (st.pc.SkipReadDeployment? || st.pc.SkipDeployment? || st.pc.Finished?)
        ==> row.status == Skipped)
    && (st.children != [] ==>
          && (row.status == Success <==> row.tally.updated == row.tally.total)
          && (row.status == Failure
              <==> row.tally.updated + row.tally.failed == row.tally.total && row.tally.failed > 0))
  }

  predicate AllPresent(db: Db, hosts: seq<HostId>) {
    forall h :: h in hosts ==> h in db.hosts
  }

  /** The task's log rows, seen by its strategy. The counts hold as long as no host of the
      snapshot has been deleted, since deleting a host deletes its logs. */
  predicate TaskLogsOk(db: Db, st: Strategy) {
    && (forall id :: id in db.logs && db.logs[id].task == st.task
          ==> st.snapshot.Some? && st.children != [] && db.logs[id].host in st.snapshot.value)
    && (forall j :: 0 <= j < |st.children| && st.children[j].pc == Ended
          ==> st.task !in db.tasks || st.children[j].host !in db.hosts || Logged(db.logs, st.task, st.children[j].host))
    && (st.task in db.tasks && st.snapshot.Some? && st.children != [] && AllPresent(db, st.snapshot.value) ==>
          && db.tasks[st.task].tally.updated == CountHosts(db, st.task, HostUpdated)
          && db.tasks[st.task].tally.failed == CountHosts(db, st.task, HostFailed))
  }

  predicate IdsOk(db: Db, st: Strategy) {
    && st.task < db.nextTask
    && (st.snapshot.Some? ==> forall h :: h in st.snapshot.value ==> h < db.nextHost)
  }

  /** After a verdict every command of the task has been posted and used up. */
  predicate SettledOk(agents: map<HostId, Agent>, sent: set<(TaskId, HostId)>, tasks: map<TaskId, Task>, st: Strategy) {
    st.task in tasks && tasks[st.task].status in {Success, Failure} && st.snapshot.Some?
    ==> forall h :: h in st.snapshot.value ==> (st.task, h) in sent && Load(AgentIn(agents, h), st.task) == 0
  }

  ghost predicate StrategyOk(db: Db, agents: map<HostId, Agent>, sent: set<(TaskId, HostId)>, st: Strategy) {
    && ShapeOk(st)
    && IdsOk(db, st)
    && (st.task in db.tasks ==> TaskRowOk(db.tasks[st.task], st))
    && TaskLogsOk(db, st)
    && SettledOk(agents, sent, db.tasks, st)
  }

  ghost predicate StrategiesOk(s: State) {
    forall i :: 0 <= i < |s.strategies| ==> StrategyOk(s.db, s.agents, s.sent, s.strategies[i])
  }

  // ----- tasks without a strategy, and the worker that claims them -----

  predicate Unclaimed(strategies: seq<Strategy>, t: TaskId) {
    forall i :: 0 <= i < |strategies| ==> strategies[i].task != t
  }

  ghost predicate UnclaimedOk(tasks: map<TaskId, Task>, strategies: seq<Strategy>) {
    forall t :: t in tasks && Unclaimed(strategies, t)
      ==> tasks[t].tally == NO_TALLY && tasks[t].status in {Pending, Running}
  }

  predicate ClaimOk(db: Db, strategies: seq<Strategy>, c: Claim, status: Status) {
    && c.task < db.nextTask
    && Unclaimed(strategies, c.task)
    && (c.task in db.tasks ==> db.tasks[c.task].status == status && db.tasks[c.task].deployment == c.deployment)
  }

  predicate TodoOk(db: Db, strategies: seq<Strategy>, todo: seq<Claim>) {
    && (forall i, j :: 0 <= i < j < |todo| ==> todo[i].task != todo[j].task)
    && forall i :: 0 <= i < |todo| ==> ClaimOk(db, strategies, todo[i], Pending)
  }

  predicate TaskWorkerOk(db: Db, strategies: seq<Strategy>, tw: TaskWorker) {
    match tw
    case TasksIdle => true
    case Spawning(todo, _) =>
      && todo != [] && TodoOk(db, strategies, todo[1..]) && ClaimOk(db, strategies, todo[0], Running)
      && forall i :: 0 < i < |todo| ==> todo[i].task != todo[0].task
    case MarkingRunning(todo, _, loaded) => TodoOk(db, strategies, todo) && loaded.status == Pending
    // With the foreign key, a task whose deployment is gone is gone as well.
    case ReadingOrphan(todo) =>
      TodoOk(db, strategies, todo) && (todo != [] ==> todo[0].task !in db.tasks)
    case DeletingOrphan(todo) => false
    case LookingUp(todo) => TodoOk(db, strategies, todo)
    case ReadingTask(todo, _) => TodoOk(db, strategies, todo)
  }

  ghost predicate Inv(s: State) {
    && RowsOk(s.db)
    && LogsOk(s.db.logs, s.sent)
    && UniqueTasks(s.strategies)
    && SentOk(s.strategies, s.sent)
    && AgentsOk(s.agents, s.sent, s.db.logs)
    && StrategiesOk(s)
    && UnclaimedOk(s.db.tasks, s.strategies)
    && TaskWorkerOk(s.db, s.strategies, s.tw)
  }
}
