/** Agents, and the reports the server takes from them, keep the invariant. */
module AgentSteps {
  import opened Wrappers
  import opened Targets
  import opened Rows
  import opened Counting
  import opened Machine
  import opened Invariants
  import opened Frames

  predicate IsAgentStep(l: Step) {
    || l.CommandQueued? || l.CommandDropped? || l.CommandTaken? || l.CommandReported?
    || l.AgentCrashes? || l.ReportLost?
  }

  /** An agent that holds no more of any command than before. */
  lemma LighterAgentKeepsInv(s: State, h: HostId, a: Agent)
    requires Inv(s)
    requires forall t: TaskId :: Load(a, t) <= Load(AgentOf(s, h), t)
    ensures Inv(WithAgent(s, h, a))
  {
    var z := WithAgent(s, h, a);
    forall g, t: TaskId | g in z.agents ensures LoadOk(z.agents[g], g, t, z.sent, z.db.logs) {
      if g in s.agents {
        assert LoadOk(s.agents[g], g, t, s.sent, s.db.logs);
      }
    }
    forall i | 0 <= i < |z.strategies| ensures StrategyOk(z.db, z.agents, z.sent, z.strategies[i]) {
      StrategyFrame(s.db, s.db, s.agents, z.agents, s.sent, s.sent, s.strategies[i]);
    }
  }

  /** Appending to the channel and taking from its front move one command. */
  lemma QueueMoves(queue: seq<TaskId>, t: TaskId)
    ensures multiset(queue + [t]) == multiset(queue) + multiset{t}
    ensures queue != [] ==> multiset(queue) == multiset{queue[0]} + multiset(queue[1..])
  {
    if queue != [] {
      assert queue == [queue[0]] + queue[1..];
    }
  }

  /** Inside the agent a command changes place and nothing else. */
  lemma AgentMovesCommands(a: Agent, l: Step, t: TaskId)
    requires AgentReady(a, l) && (l.CommandQueued? || l.CommandTaken? || l.CommandReported?)
    ensures Load(StepAgent(a, l), t) == Load(a, t)
  {
    if l.CommandQueued? {
      QueueMoves(a.queue, l.task);
    } else if l.CommandTaken? {
      QueueMoves(a.queue, 0);
    }
  }

  lemma TakenReportLeavesAgent(a: Agent, g: HostId, u: TaskId, outcome: Outcome, t: TaskId)
    requires u in Outgoing(a, outcome)
    ensures Load(StepAgent(a, ReportTaken(g, u, outcome)), t) == Load(a, t) - (if t == u then 1 else 0)
  {
  }

  /** A command only moves on inside its agent, or is lost. */
  lemma StepLightens(a: Agent, l: Step, t: TaskId)
    requires AgentReady(a, l)
    ensures Load(StepAgent(a, l), t) <= Load(a, t)
    ensures l.ReportTaken? && t == l.task ==> Load(StepAgent(a, l), t) == Load(a, t) - 1
  {
    if l.CommandQueued? || l.CommandTaken? || l.CommandReported? {
      AgentMovesCommands(a, l, t);
    } else if l.ReportTaken? {
      TakenReportLeavesAgent(a, l.host, l.task, l.outcome, t);
    } else {
      LossLightens(a, l, t);
    }
  }

  lemma LossLightens(a: Agent, l: Step, t: TaskId)
    requires AgentReady(a, l) && (l.CommandDropped? || l.AgentCrashes? || l.ReportLost?)
    ensures Load(StepAgent(a, l), t) <= Load(a, t)
  {
  }

  lemma AgentKeepsInv(s: State, l: Step)
    requires Inv(s) && Enabled(s, l) && IsAgentStep(l)
    ensures Inv(Apply(s, l))
  {
    var a := AgentOf(s, l.host);
    forall t: TaskId {
      StepLightens(a, l, t);
    }
    LighterAgentKeepsInv(s, l.host, StepAgent(a, l));
  }

  // ----- a report that the server takes -----

  /** The tables after a report on a live task and host, written out. */
  lemma TakenReport(db: Db, t: TaskId, h: HostId, outcome: Outcome)
    requires RowsOk(db) && t in db.tasks && h in db.hosts
    ensures var z := TakeReport(db, t, h, outcome);
            var logs := db.logs[db.nextLog := Log(t, h, outcome)];
            && z.logs == logs && z.hosts == db.hosts && z.groups == db.groups
            && z.nextTask == db.nextTask && z.nextHost == db.nextHost && z.nextDeployment == db.nextDeployment
            && z.nextLog == db.nextLog + 1
            && z.tasks.Keys == db.tasks.Keys && z.deployments.Keys == db.deployments.Keys
            && (forall u :: u in db.tasks && u != t ==> z.tasks[u] == db.tasks[u])
            && z.tasks[t] == ReportedRow(db.tasks[t], CountHosts(z, t, HostUpdated), CountHosts(z, t, HostFailed))
  {
    var db1 := InsertLog(db, Log(t, h, outcome));
    var z := TakeReport(db, t, h, outcome);
    var tally := Tally(db1.tasks[t].tally.total, CountHosts(db1, t, HostUpdated), CountHosts(db1, t, HostFailed));
    SyncWrites(UpdateTaskTally(db1, t, tally), t);
    assert LogIds(z, t, HostUpdated) == LogIds(db1, t, HostUpdated);
    assert LogIds(z, t, HostFailed) == LogIds(db1, t, HostFailed);
  }

  /** Syncing writes the task's status and deployment statuses only. */
  lemma SyncWrites(db: Db, t: TaskId)
    requires t in db.tasks
    ensures var z, row := SyncTaskStatus(db, t), db.tasks[t];
            && z == db.(tasks := z.tasks, deployments := z.deployments)
            && z.tasks == db.tasks[t := ReportedRow(row, row.tally.updated, row.tally.failed)]
            && z.deployments.Keys == db.deployments.Keys
  {
    var tally := db.tasks[t].tally;
    if tally.total != tally.updated + tally.failed {
      assert SyncTaskStatus(db, t) == db && db.tasks[t := db.tasks[t]] == db.tasks;
    } else {
      JudgeWrites(db, t, if tally.failed > 0 then Failure else Success);
    }
  }

  lemma JudgeWrites(db: Db, t: TaskId, verdict: Status)
    requires t in db.tasks
    ensures var z := UpdateDeploymentStatus(UpdateTaskStatus(db, t, verdict), db.tasks[t].deployment, verdict);
            && z == db.(tasks := z.tasks, deployments := z.deployments)
            && z.tasks == db.tasks[t := db.tasks[t].(status := verdict)]
            && z.deployments.Keys == db.deployments.Keys
  {
  }

  /** The task row after counting: new counters, and the verdict they give, if any. */
  function ReportedRow(row: Task, updated: nat, failed: nat): Task {
    var status := if row.tally.total != updated + failed then row.status
                  else if failed > 0 then Failure else Success;
    Task(row.deployment, Tally(row.tally.total, updated, failed), status)
  }

  /** The strategy whose command the report answers. */
  lemma ReportOwnerOk(s: State, t: TaskId, h: HostId, outcome: Outcome, st: Strategy, agents: map<HostId, Agent>)
    requires RowsOk(s.db) && LogsOk(s.db.logs, s.sent) && StrategyOk(s.db, s.agents, s.sent, st)
    requires st.task == t && t in s.db.tasks && h in s.db.hosts
    requires st.snapshot.Some? && st.children != [] && h in st.snapshot.value
    requires (t, h) in s.sent && !Logged(s.db.logs, t, h) && Load(AgentOf(s, h), t) == 1
    requires KeepsLoads(s.agents, agents, t) && AgentsOk(agents, s.sent, TakeReport(s.db, t, h, outcome).logs)
    ensures StrategyOk(TakeReport(s.db, t, h, outcome), agents, s.sent, st)
  {
    var z := TakeReport(s.db, t, h, outcome);
    TakenReport(s.db, t, h, outcome);
    ReportRowsOk(s.db, s.sent, t, h, outcome);
    OwnerIsRunning(s.db, s.agents, s.sent, st, h);
    AfterReportLogsOk(s.db, z, h, outcome, st);
    OwnerRowIsOk(s.db, z, st);
    ReportSettles(z, t, st.snapshot.value, agents, s.sent);
  }

  /** The counts give a row in order, and with a verdict every host has its log row. */
  lemma OwnerRowIsOk(db: Db, z: Db, st: Strategy)
    requires st.task in db.tasks && TaskRowOk(db.tasks[st.task], st) && ShapeOk(st)
    requires st.children != [] && st.snapshot.Some? && st.task in z.tasks && db.tasks[st.task].status == Running
    requires OneLogEach(z.logs) && TaskLogsOk(z, st)
    requires var u, f := CountHosts(z, st.task, HostUpdated), CountHosts(z, st.task, HostFailed);
             z.tasks[st.task] == ReportedRow(db.tasks[st.task], u, f)
    ensures TaskRowOk(z.tasks[st.task], st)
    ensures z.tasks[st.task].status in {Success, Failure}
            ==> forall g :: g in st.snapshot.value ==> Logged(z.logs, st.task, g)
  {
    CountsAreHosts(z, st.task, st.snapshot.value);
    AfterReportRowOk(db, z, st);
  }

  /** While a command or report is left, the task has no verdict. */
  lemma OwnerIsRunning(db: Db, agents: map<HostId, Agent>, sent: set<(TaskId, HostId)>, st: Strategy, h: HostId)
    requires StrategyOk(db, agents, sent, st) && st.task in db.tasks && st.snapshot.Some? && st.children != []
    requires h in st.snapshot.value && Load(AgentIn(agents, h), st.task) == 1
    ensures db.tasks[st.task].status == Running
  {
  }

  /** When every host has its log row, no command and no report is left. */
  lemma ReportSettles(z: Db, t: TaskId, hosts: seq<HostId>, agents: map<HostId, Agent>, sent: set<(TaskId, HostId)>)
    requires AgentsOk(agents, sent, z.logs) && LogsOk(z.logs, sent)
    ensures (forall g :: g in hosts ==> Logged(z.logs, t, g))
            ==> forall g :: g in hosts ==> (t, g) in sent && Load(AgentIn(agents, g), t) == 0
  {
    if forall g :: g in hosts ==> Logged(z.logs, t, g) {
      forall g | g in hosts ensures (t, g) in sent && Load(AgentIn(agents, g), t) == 0 {
        assert Logged(z.logs, t, g);
        assert g in agents ==> LoadOk(agents[g], g, t, sent, z.logs);
      }
    }
  }

  lemma AfterReportLogsOk(db: Db, z: Db, h: HostId, outcome: Outcome, st: Strategy)
    requires TaskLogsOk(db, st) && st.task in db.tasks && st.task in z.tasks && RowsOk(db)
    requires st.snapshot.Some? && st.children != [] && h in st.snapshot.value
    requires z.logs == db.logs[db.nextLog := Log(st.task, h, outcome)] && z.hosts == db.hosts
    requires z.tasks[st.task].tally.updated == CountHosts(z, st.task, HostUpdated)
    requires z.tasks[st.task].tally.failed == CountHosts(z, st.task, HostFailed)
    ensures TaskLogsOk(z, st)
  {
    assert db.nextLog !in db.logs;
    forall g | Logged(db.logs, st.task, g) ensures Logged(z.logs, st.task, g) {
      var id :| id in db.logs && db.logs[id].task == st.task && db.logs[id].host == g;
      assert z.logs[id] == db.logs[id];
    }
  }

  lemma OneMoreLog(logs: map<LogId, Log>, id: LogId, log: Log)
    requires OneLogEach(logs) && id !in logs && !Logged(logs, log.task, log.host)
    ensures OneLogEach(logs[id := log])
  {
  }

  /** The owner's view of its row survives the report. */
  lemma AfterReportRowOk(db: Db, z: Db, st: Strategy)
    requires st.task in db.tasks && TaskRowOk(db.tasks[st.task], st) && ShapeOk(st)
    requires st.children != [] && st.snapshot.Some? && st.task in z.tasks
    requires db.tasks[st.task].status == Running
    requires var u, f := CountHosts(z, st.task, HostUpdated), CountHosts(z, st.task, HostFailed);
             u + f <= |st.snapshot.value| && z.tasks[st.task] == ReportedRow(db.tasks[st.task], u, f)
    ensures TaskRowOk(z.tasks[st.task], st)
  {
  }

  lemma ReportAgentsOk(s: State, t: TaskId, h: HostId, outcome: Outcome, agents: map<HostId, Agent>)
    requires Inv(s) && t in s.db.tasks && h in s.db.hosts && h in s.agents
    requires forall g: HostId, u: TaskId :: g in agents ==> Load(agents[g], u) <= Load(AgentOf(s, g), u)
    requires agents.Keys == s.agents.Keys && Load(agents[h], t) == 0
    ensures AgentsOk(agents, s.sent, TakeReport(s.db, t, h, outcome).logs)
  {
    var z := TakeReport(s.db, t, h, outcome);
    TakenReport(s.db, t, h, outcome);
    forall g, u: TaskId | g in agents ensures LoadOk(agents[g], g, u, s.sent, z.logs) {
      assert LoadOk(s.agents[g], g, u, s.sent, s.db.logs);
      if (g, u) != (h, t) && Logged(z.logs, u, g) {
        var id :| id in z.logs && z.logs[id].task == u && z.logs[id].host == g;
        assert id != s.db.nextLog;
        assert Logged(s.db.logs, u, g);
      }
    }
  }

  lemma TakenReportLightens(a: Agent, g: HostId, u: TaskId, outcome: Outcome)
    requires u in Outgoing(a, outcome)
    ensures var lighter := StepAgent(a, ReportTaken(g, u, outcome));
            && (forall t: TaskId :: Load(lighter, t) <= Load(a, t))
            && Load(a, u) > 0 && Load(lighter, u) == Load(a, u) - 1
  {
    forall t: TaskId {
      TakenReportLeavesAgent(a, g, u, outcome, t);
    }
  }

  lemma ReportKeepsInv(s: State, h: HostId, t: TaskId, outcome: Outcome)
    requires Inv(s) && Enabled(s, ReportTaken(h, t, outcome))
    ensures Inv(Apply(s, ReportTaken(h, t, outcome)))
  {
    var lighter := StepAgent(AgentOf(s, h), ReportTaken(h, t, outcome));
    TakenReportLightens(AgentOf(s, h), h, t, outcome);
    assert h in s.agents && LoadOk(s.agents[h], h, t, s.sent, s.db.logs);
    if t in s.db.tasks && h in s.db.hosts {
      LiveReportKeepsInv(s, h, t, outcome, lighter);
    } else {
      LighterAgentKeepsInv(s, h, lighter);
    }
  }

  lemma LiveReportKeepsInv(s: State, h: HostId, t: TaskId, outcome: Outcome, a: Agent)
    requires Inv(s) && h in s.agents && t in s.db.tasks && h in s.db.hosts
    requires (t, h) in s.sent && !Logged(s.db.logs, t, h) && Load(s.agents[h], t) == 1 && Load(a, t) == 0
    requires forall u: TaskId :: Load(a, u) <= Load(s.agents[h], u)
    ensures Inv(WithAgent(s.(db := TakeReport(s.db, t, h, outcome)), h, a))
  {
    var agents := s.agents[h := a];
    ReportAgentsOk(s, t, h, outcome, agents);
    forall u: TaskId ensures KeepsLoads(s.agents, agents, u) {
    }
    ReportStrategiesOk(s, t, h, outcome, agents);
    ReportTablesOk(s, t, h, outcome);
    var z := WithAgent(s.(db := TakeReport(s.db, t, h, outcome)), h, a);
    assert z == s.(db := TakeReport(s.db, t, h, outcome), agents := agents);
  }

  lemma ReportRowsOk(db: Db, sent: set<(TaskId, HostId)>, t: TaskId, h: HostId, outcome: Outcome)
    requires RowsOk(db) && LogsOk(db.logs, sent) && t in db.tasks && h in db.hosts
    requires (t, h) in sent && !Logged(db.logs, t, h)
    ensures RowsOk(TakeReport(db, t, h, outcome)) && LogsOk(TakeReport(db, t, h, outcome).logs, sent)
  {
    TakenReport(db, t, h, outcome);
    OneMoreLog(db.logs, db.nextLog, Log(t, h, outcome));
  }

  lemma ReportTablesOk(s: State, t: TaskId, h: HostId, outcome: Outcome)
    requires RowsOk(s.db) && LogsOk(s.db.logs, s.sent)
    requires UnclaimedOk(s.db.tasks, s.strategies) && TaskWorkerOk(s.db, s.strategies, s.tw)
    requires t in s.db.tasks && h in s.db.hosts && !Unclaimed(s.strategies, t)
    requires (t, h) in s.sent && !Logged(s.db.logs, t, h)
    ensures var z := TakeReport(s.db, t, h, outcome);
            && RowsOk(z) && LogsOk(z.logs, s.sent)
            && UnclaimedOk(z.tasks, s.strategies) && TaskWorkerOk(z, s.strategies, s.tw)
  {
    ReportRowsOk(s.db, s.sent, t, h, outcome);
    TakenReport(s.db, t, h, outcome);
    ReportClaimsOk(s, TakeReport(s.db, t, h, outcome), t);
  }

  lemma ReportStrategiesOk(s: State, t: TaskId, h: HostId, outcome: Outcome, agents: map<HostId, Agent>)
    requires Inv(s) && t in s.db.tasks && h in s.db.hosts
    requires (t, h) in s.sent && !Logged(s.db.logs, t, h) && Load(AgentOf(s, h), t) == 1
    requires forall u: TaskId :: KeepsLoads(s.agents, agents, u)
    requires AgentsOk(agents, s.sent, TakeReport(s.db, t, h, outcome).logs)
    ensures StrategiesOk(s.(db := TakeReport(s.db, t, h, outcome), agents := agents))
    ensures !Unclaimed(s.strategies, t)
  {
    var z := TakeReport(s.db, t, h, outcome);
    var i: nat, j: nat :| Posted(s.strategies, t, h, i, j);
    forall k | 0 <= k < |s.strategies| ensures StrategyOk(z, agents, s.sent, s.strategies[k]) {
      var st := s.strategies[k];
      assert StrategyOk(s.db, s.agents, s.sent, st);
      if k == i {
        assert h == st.snapshot.value[j];
        ReportOwnerOk(s, t, h, outcome, st, agents);
      } else {
        assert st.task != t;
        ReportKeepsOthers(s.db, t, h, outcome, st.task);
        StrategyFrame(s.db, z, s.agents, agents, s.sent, s.sent, st);
      }
    }
  }

  lemma ReportKeepsOthers(db: Db, t: TaskId, h: HostId, outcome: Outcome, u: TaskId)
    requires RowsOk(db) && t in db.tasks && h in db.hosts && u != t
    ensures KeepsTask(db, TakeReport(db, t, h, outcome), u)
  {
    TakenReport(db, t, h, outcome);
  }

  lemma ReportClaimsOk(s: State, z: Db, t: TaskId)
    requires UnclaimedOk(s.db.tasks, s.strategies) && TaskWorkerOk(s.db, s.strategies, s.tw)
    requires !Unclaimed(s.strategies, t) && z.nextTask == s.db.nextTask && z.tasks.Keys == s.db.tasks.Keys
    requires forall u :: u in s.db.tasks && u != t ==> z.tasks[u] == s.db.tasks[u]
    ensures UnclaimedOk(z.tasks, s.strategies) && TaskWorkerOk(z, s.strategies, s.tw)
  {
    forall c, status | ClaimOk(s.db, s.strategies, c, status) ensures ClaimOk(z, s.strategies, c, status) {
    }
  }
}
