/** Where a posted command is: with the agent, on a wire, or in the log table. */
module Conservation {
  import opened Wrappers
  import opened Targets
  import opened Rows
  import opened Counting
  import opened Machine
  import opened Invariants
  import opened UserSteps
  import opened AgentSteps
  import opened Safety

  /** Copies of the command for the task and host, and log rows that answer it. */
  function Tokens(s: State, t: TaskId, h: HostId): nat {
    Load(AgentOf(s, h), t) + |HostLogIds(s.db, t, h)|
  }

  /** The step hands the command to the agent. */
  predicate Delivers(s: State, l: Step, t: TaskId, h: HostId) {
    l.PatchPosts? && l.delivered && IsChild(s, l.strategy, l.child)
    && s.strategies[l.strategy].task == t && s.strategies[l.strategy].children[l.child].host == h
  }

  /** The step may lose a command, a report or a log row. */
  predicate Loses(s: State, l: Step) {
    || l.CommandDropped? || l.AgentCrashes? || l.ReportLost?
    || l.DeploymentsDeleted? || l.HostsDeleted?
    || (l.ReportTaken? && (l.task !in s.db.tasks || l.host !in s.db.hosts))
  }

  predicate IsAbout(log: Log, t: TaskId, h: HostId) {
    log.task == t && log.host == h
  }

  function IdsAbout(logs: map<LogId, Log>, t: TaskId, h: HostId): set<LogId> {
    set id | id in logs && IsAbout(logs[id], t, h)
  }

  lemma HostLogIdsAreAbout(db: Db, t: TaskId, h: HostId)
    ensures HostLogIds(db, t, h) == IdsAbout(db.logs, t, h)
  {
  }

  lemma OneMoreAbout(logs: map<LogId, Log>, next: LogId, log: Log, t: TaskId, h: HostId)
    requires next !in logs
    ensures |IdsAbout(logs[next := log], t, h)| == |IdsAbout(logs, t, h)| + (if IsAbout(log, t, h) then 1 else 0)
  {
    var more := if IsAbout(log, t, h) then {next} else {};
    assert IdsAbout(logs[next := log], t, h) == IdsAbout(logs, t, h) + more;
  }

  lemma TakenReportIsLogged(db: Db, u: TaskId, g: HostId, outcome: Outcome, t: TaskId, h: HostId)
    requires RowsOk(db) && u in db.tasks && g in db.hosts
    ensures |HostLogIds(TakeReport(db, u, g, outcome), t, h)|
            == |HostLogIds(db, t, h)| + (if t == u && h == g then 1 else 0)
  {
    TakenReport(db, u, g, outcome);
    assert db.nextLog !in db.logs;
    HostLogIdsAreAbout(db, t, h);
    HostLogIdsAreAbout(TakeReport(db, u, g, outcome), t, h);
    OneMoreAbout(db.logs, db.nextLog, Log(u, g, outcome), t, h);
  }

  lemma StrategyKeepsLogs(db: Db, st: Strategy, found: seq<HostId>)
    ensures StepStrategy(db, st, found).0.logs == db.logs
  {
  }

  lemma QuietLogs(s: State, l: Step)
    requires Enabled(s, l) && !Loses(s, l) && !l.ReportTaken? && !s.tw.DeletingOrphan?
    ensures Apply(s, l).db.logs == s.db.logs
  {
    if l.StrategySteps? {
      StrategyKeepsLogs(s.db, s.strategies[l.strategy], l.found);
    }
  }

  predicate TouchesAgents(l: Step) {
    l.PatchPosts? || IsAgentStep(l) || l.ReportTaken?
  }

  lemma QuietAgents(s: State, l: Step)
    requires Enabled(s, l) && !TouchesAgents(l)
    ensures Apply(s, l).agents == s.agents
  {
  }

  lemma QuietStepConserves(s: State, l: Step, t: TaskId, h: HostId)
    requires Enabled(s, l) && !Loses(s, l) && !TouchesAgents(l) && !s.tw.DeletingOrphan?
    ensures Tokens(Apply(s, l), t, h) == Tokens(s, t, h)
  {
    QuietLogs(s, l);
    QuietAgents(s, l);
    assert HostLogIds(Apply(s, l).db, t, h) == HostLogIds(s.db, t, h);
  }

  lemma ReportConserves(s: State, g: HostId, u: TaskId, outcome: Outcome, t: TaskId, h: HostId)
    requires RowsOk(s.db) && Enabled(s, ReportTaken(g, u, outcome)) && u in s.db.tasks && g in s.db.hosts
    ensures Tokens(Apply(s, ReportTaken(g, u, outcome)), t, h) == Tokens(s, t, h)
  {
    TakenReportIsLogged(s.db, u, g, outcome, t, h);
    TakenReportLeavesAgent(AgentOf(s, g), g, u, outcome, t);
  }

  lemma OtherAgentsStay(s: State, l: Step)
    requires Enabled(s, l) && (l.CommandQueued? || l.CommandTaken? || l.CommandReported?)
    ensures Apply(s, l) == WithAgent(s, l.host, StepAgent(AgentOf(s, l.host), l))
  {
  }

  lemma AgentStepConserves(s: State, l: Step, t: TaskId, h: HostId)
    requires Enabled(s, l) && (l.CommandQueued? || l.CommandTaken? || l.CommandReported?)
    ensures Tokens(Apply(s, l), t, h) == Tokens(s, t, h)
  {
    AgentMovesCommands(AgentOf(s, l.host), l, t);
    OtherAgentsStay(s, l);
    NewAgentTokens(s, l.host, StepAgent(AgentOf(s, l.host), l), t, h);
  }

  lemma NewAgentTokens(s: State, g: HostId, a: Agent, t: TaskId, h: HostId)
    ensures Tokens(WithAgent(s, g, a), t, h)
            == Tokens(s, t, h) + (if g == h then Load(a, t) - Load(AgentOf(s, h), t) else 0)
  {
    assert WithAgent(s, g, a).db == s.db;
  }

  lemma PostedLoad(a: Agent, u: TaskId, t: TaskId)
    ensures Load(a.(handlers := a.handlers + multiset{u}), t) == Load(a, t) + (if u == t then 1 else 0)
  {
  }

  lemma PostConserves(s: State, i: nat, j: nat, delivered: bool, raised: bool, t: TaskId, h: HostId)
    requires Enabled(s, PatchPosts(i, j, delivered, raised))
    ensures var l := PatchPosts(i, j, delivered, raised);
            Tokens(Apply(s, l), t, h) == Tokens(s, t, h) + (if Delivers(s, l, t, h) then 1 else 0)
  {
    var z := Apply(s, PatchPosts(i, j, delivered, raised));
    var g, u := s.strategies[i].children[j].host, s.strategies[i].task;
    var a := AgentOf(s, g);
    var posted := a.(handlers := a.handlers + multiset{u});
    PostedLoad(a, u, t);
    NewAgentTokens(s, g, posted, t, h);
    PostEffect(s, i, j, delivered, raised);
  }

  lemma PostEffect(s: State, i: nat, j: nat, delivered: bool, raised: bool)
    requires Enabled(s, PatchPosts(i, j, delivered, raised))
    ensures var z := Apply(s, PatchPosts(i, j, delivered, raised));
            var g, u := s.strategies[i].children[j].host, s.strategies[i].task;
            var a := AgentOf(s, g);
            && z.db == s.db
            && z.agents == if delivered then s.agents[g := a.(handlers := a.handlers + multiset{u})] else s.agents
  {
  }

  lemma InnerStepConserves(s: State, l: Step, t: TaskId, h: HostId)
    requires RowsOk(s.db) && !s.tw.DeletingOrphan? && Enabled(s, l) && !Loses(s, l) && !l.PatchPosts?
    ensures Tokens(Apply(s, l), t, h) == Tokens(s, t, h)
  {
    if l.ReportTaken? {
      ReportConserves(s, l.host, l.task, l.outcome, t, h);
    } else if IsAgentStep(l) {
      AgentStepConserves(s, l, t, h);
    } else {
      QuietStepConserves(s, l, t, h);
    }
  }

  /** A step that loses nothing keeps every command, and only a delivery adds one. */
  lemma StepConserves(s: State, l: Step, t: TaskId, h: HostId)
    requires RowsOk(s.db) && !s.tw.DeletingOrphan? && Enabled(s, l) && !Loses(s, l)
    ensures Tokens(Apply(s, l), t, h) == Tokens(s, t, h) + (if Delivers(s, l, t, h) then 1 else 0)
  {
    if l.PatchPosts? {
      PostConserves(s, l.strategy, l.child, l.delivered, l.raised, t, h);
    } else {
      InnerStepConserves(s, l, t, h);
    }
  }

  /** How often a run hands the command over. */
  function Deliveries(s: State, steps: seq<Step>, t: TaskId, h: HostId): nat
    decreases |steps|
  {
    if steps == [] || !Enabled(s, steps[0]) then 0
    else (if Delivers(s, steps[0], t, h) then 1 else 0) + Deliveries(Apply(s, steps[0]), steps[1..], t, h)
  }

  predicate LosesNothing(s: State, steps: seq<Step>)
    decreases |steps|
  {
    steps != [] && Enabled(s, steps[0]) ==> !Loses(s, steps[0]) && LosesNothing(Apply(s, steps[0]), steps[1..])
  }

  // ----- and by outcome -----

  predicate SaysRow(log: Log, t: TaskId, h: HostId, outcome: Outcome) {
    log.task == t && log.host == h && log.outcome == outcome
  }

  /** The log rows about the task and host with this outcome. */
  function SayingIds(logs: map<LogId, Log>, t: TaskId, h: HostId, outcome: Outcome): set<LogId> {
    set id | id in logs && SaysRow(logs[id], t, h, outcome)
  }

  function ReportsOut(a: Agent, t: TaskId, outcome: Outcome): nat {
    if outcome == HostUpdated then a.updatedOut[t] else a.failedOut[t]
  }

  /** Reports of this outcome on their way, and log rows of it. */
  function Saying(s: State, t: TaskId, h: HostId, outcome: Outcome): nat {
    ReportsOut(AgentOf(s, h), t, outcome) + |SayingIds(s.db.logs, t, h, outcome)|
  }

  /** The agent ran the task's command and reports this outcome. */
  predicate Says(s: State, l: Step, t: TaskId, h: HostId, outcome: Outcome) {
    l == CommandReported(h, outcome) && AgentOf(s, h).working == Some(t)
  }

  lemma OneMoreSays(logs: map<LogId, Log>, next: LogId, log: Log, t: TaskId, h: HostId, outcome: Outcome)
    requires next !in logs
    ensures |SayingIds(logs[next := log], t, h, outcome)|
            == |SayingIds(logs, t, h, outcome)| + (if SaysRow(log, t, h, outcome) then 1 else 0)
  {
    var more := if SaysRow(log, t, h, outcome) then {next} else {};
    assert SayingIds(logs[next := log], t, h, outcome) == SayingIds(logs, t, h, outcome) + more;
  }

  lemma TakenReportSays(db: Db, u: TaskId, g: HostId, said: Outcome, t: TaskId, h: HostId, outcome: Outcome)
    requires RowsOk(db) && u in db.tasks && g in db.hosts
    ensures |SayingIds(TakeReport(db, u, g, said).logs, t, h, outcome)|
            == |SayingIds(db.logs, t, h, outcome)| + (if t == u && h == g && outcome == said then 1 else 0)
  {
    TakenReport(db, u, g, said);
    assert db.nextLog !in db.logs;
    OneMoreSays(db.logs, db.nextLog, Log(u, g, said), t, h, outcome);
  }

  lemma AgentStepSays(a: Agent, l: Step, t: TaskId, outcome: Outcome)
    requires AgentReady(a, l)
    requires l.CommandQueued? || l.CommandTaken? || l.CommandReported? || l.ReportTaken?
    ensures ReportsOut(StepAgent(a, l), t, outcome) == ReportsOut(a, t, outcome)
            + (if l.CommandReported? && l.outcome == outcome && a.working == Some(t) then 1 else 0)
            - (if l.ReportTaken? && l.outcome == outcome && l.task == t then 1 else 0)
  {
  }

  lemma AgentStepIsItsOwn(s: State, l: Step)
    requires Enabled(s, l) && (l.CommandQueued? || l.CommandTaken? || l.CommandReported? || l.ReportTaken?)
    ensures AgentReady(AgentOf(s, l.host), l)
    ensures Apply(s, l).agents == s.agents[l.host := StepAgent(AgentOf(s, l.host), l)]
    ensures Apply(s, l).db == if l.ReportTaken? then TakeReport(s.db, l.task, l.host, l.outcome) else s.db
  {
  }

  lemma NewAgentSays(s: State, z: State, g: HostId, a: Agent, t: TaskId, h: HostId, outcome: Outcome)
    requires z.agents == s.agents[g := a]
    ensures Saying(z, t, h, outcome) - |SayingIds(z.db.logs, t, h, outcome)|
            == Saying(s, t, h, outcome) - |SayingIds(s.db.logs, t, h, outcome)|
               + (if g == h then ReportsOut(a, t, outcome) - ReportsOut(AgentOf(s, h), t, outcome) else 0)
  {
  }

  lemma AgentStepKeepsSaying(s: State, l: Step, t: TaskId, h: HostId, outcome: Outcome)
    requires RowsOk(s.db) && Enabled(s, l) && !Loses(s, l)
    requires l.CommandQueued? || l.CommandTaken? || l.CommandReported? || l.ReportTaken?
    ensures Saying(Apply(s, l), t, h, outcome)
            == Saying(s, t, h, outcome) + (if Says(s, l, t, h, outcome) then 1 else 0)
  {
    AgentStepIsItsOwn(s, l);
    AgentStepSays(AgentOf(s, l.host), l, t, outcome);
    NewAgentSays(s, Apply(s, l), l.host, StepAgent(AgentOf(s, l.host), l), t, h, outcome);
    if l.ReportTaken? {
      TakenReportSays(s.db, l.task, l.host, l.outcome, t, h, outcome);
    }
  }

  lemma PostKeepsSaying(s: State, i: nat, j: nat, delivered: bool, raised: bool, t: TaskId, h: HostId, outcome: Outcome)
    requires Enabled(s, PatchPosts(i, j, delivered, raised))
    ensures Saying(Apply(s, PatchPosts(i, j, delivered, raised)), t, h, outcome) == Saying(s, t, h, outcome)
  {
    PostEffect(s, i, j, delivered, raised);
  }

  lemma StepKeepsSaying(s: State, l: Step, t: TaskId, h: HostId, outcome: Outcome)
    requires RowsOk(s.db) && !s.tw.DeletingOrphan? && Enabled(s, l) && !Loses(s, l)
    ensures Saying(Apply(s, l), t, h, outcome)
            == Saying(s, t, h, outcome) + (if Says(s, l, t, h, outcome) then 1 else 0)
  {
    if l.PatchPosts? {
      PostKeepsSaying(s, l.strategy, l.child, l.delivered, l.raised, t, h, outcome);
    } else if IsAgentStep(l) || l.ReportTaken? {
      AgentStepKeepsSaying(s, l, t, h, outcome);
    } else {
      QuietStepKeepsSaying(s, l, t, h, outcome);
    }
  }

  lemma QuietStepKeepsSaying(s: State, l: Step, t: TaskId, h: HostId, outcome: Outcome)
    requires Enabled(s, l) && !Loses(s, l) && !TouchesAgents(l) && !s.tw.DeletingOrphan?
    ensures Saying(Apply(s, l), t, h, outcome) == Saying(s, t, h, outcome)
  {
    QuietLogs(s, l);
    QuietAgents(s, l);
  }

  /** How often the agent reports this outcome of the task along the run. */
  function Sayings(s: State, steps: seq<Step>, t: TaskId, h: HostId, outcome: Outcome): nat
    decreases |steps|
  {
    if steps == [] || !Enabled(s, steps[0]) then 0
    else (if Says(s, steps[0], t, h, outcome) then 1 else 0) + Sayings(Apply(s, steps[0]), steps[1..], t, h, outcome)
  }

  /** In a run that loses nothing, every command handed to an agent is still with the agent, on
      its way back, or logged: none disappears and none is doubled. And every report is on its way or
      logged with the outcome that the agent gave it. */
  lemma {:induction false} CommandsAreConserved(s: State, steps: seq<Step>, z: State, t: TaskId, h: HostId)
    requires Inv(s) && Run(s, steps, z) && LosesNothing(s, steps)
    ensures Tokens(z, t, h) == Tokens(s, t, h) + Deliveries(s, steps, t, h)
    ensures Saying(z, t, h, HostUpdated) == Saying(s, t, h, HostUpdated) + Sayings(s, steps, t, h, HostUpdated)
    ensures Saying(z, t, h, HostFailed) == Saying(s, t, h, HostFailed) + Sayings(s, steps, t, h, HostFailed)
    decreases |steps|
  {
    if steps == [] {
    } else {
      StepConserves(s, steps[0], t, h);
      StepKeepsSaying(s, steps[0], t, h, HostUpdated);
      StepKeepsSaying(s, steps[0], t, h, HostFailed);
      StepKeepsInv(s, steps[0]);
      CommandsAreConserved(Apply(s, steps[0]), steps[1..], z, t, h);
    }
  }

  /** A report that completes the counters puts its verdict on the task and on its deployment. */
  lemma VerdictReachesDeployment(s: State, h: HostId, t: TaskId, outcome: Outcome)
    requires Inv(s) && Enabled(s, ReportTaken(h, t, outcome)) && t in s.db.tasks && h in s.db.hosts
    ensures var z := Apply(s, ReportTaken(h, t, outcome)).db;
            && t in z.tasks && z.tasks[t].deployment in z.deployments
            && (z.tasks[t].status in {Success, Failure}
                ==> z.deployments[z.tasks[t].deployment].status == z.tasks[t].status)
  {
    assert LoadOk(s.agents[h], h, t, s.sent, s.db.logs);
    ReportedTaskIsRunning(s, t, h);
    VerdictIsWrittenTwice(s.db, h, t, outcome);
  }

  lemma VerdictIsWrittenTwice(db: Db, h: HostId, t: TaskId, outcome: Outcome)
    requires RowsOk(db) && t in db.tasks && h in db.hosts && db.tasks[t].status == Running
    ensures var z := TakeReport(db, t, h, outcome);
            && t in z.tasks && z.tasks[t].deployment in z.deployments
            && (z.tasks[t].status in {Success, Failure}
                ==> z.deployments[z.tasks[t].deployment].status == z.tasks[t].status)
  {
    var db1 := InsertLog(db, Log(t, h, outcome));
    var tally := Tally(db1.tasks[t].tally.total, CountHosts(db1, t, HostUpdated), CountHosts(db1, t, HostFailed));
    var db2 := UpdateTaskTally(db1, t, tally);
    assert TakeReport(db, t, h, outcome) == SyncTaskStatus(db2, t);
    assert db2.tasks[t].tally == tally;
  }
}
