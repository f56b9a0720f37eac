/** A host that can no longer answer: its command or report is lost, or its patch process died before
    posting. The task then never gets a verdict. */
module LostCommands {
  import opened Wrappers
  import opened Targets
  import opened Rows
  import opened Counting
  import opened Machine
  import opened Invariants
  import opened UserSteps
  import opened StrategySteps
  import opened AgentSteps
  import opened Safety
  import opened HostDeletion
  import Progress
  import Response

  /** The strategy never posts to the host: the patch process for it died first, or is left without
      its message by a strategy that crashed, or was not even spawned before the crash. */
  predicate NeverPosts(st: Strategy, h: HostId) {
    && (forall j :: 0 <= j < |st.children| && st.children[j].host == h
          ==> Dead(st.children[j]) || (st.pc == Crashed && st.children[j].pc == Receiving))
    && (st.pc == Crashed || exists j :: 0 <= j < |st.children| && st.children[j].host == h)
  }

  /** Nothing about the task is on its way to or from the host, and nothing will be. */
  predicate Silenced(s: State, i: nat, t: TaskId, h: HostId) {
    && i < |s.strategies| && s.strategies[i].task == t
    && Load(AgentOf(s, h), t) == 0 && !Logged(s.db.logs, t, h)
    && ((t, h) in s.sent || NeverPosts(s.strategies[i], h))
  }

  // ----- no command comes up -----

  /** A patch process that posts for the task and host belongs to the one strategy of the task, and
      is the first to post. */
  lemma NobodyPosts(s: State, i: nat, t: TaskId, h: HostId, l: Step)
    requires Inv(s) && Enabled(s, l) && l.PatchPosts? && Silenced(s, i, t, h)
    ensures s.strategies[l.strategy].task != t || s.strategies[l.strategy].children[l.child].host != h
  {
    PostingIsFirst(s, l.strategy, l.child);
    assert s.strategies[l.strategy].task == t ==> l.strategy == i;
  }

  lemma OtherPostsLoadNothing(s: State, l: Step, t: TaskId, h: HostId)
    requires Enabled(s, l) && l.PatchPosts?
    requires s.strategies[l.strategy].task != t || s.strategies[l.strategy].children[l.child].host != h
    ensures Load(AgentOf(Apply(s, l), h), t) == Load(AgentOf(s, h), t)
  {
  }

  lemma AgentStepIsItsOwn(s: State, l: Step)
    requires Enabled(s, l) && (IsAgentStep(l) || l.ReportTaken?)
    ensures AgentReady(AgentOf(s, l.host), l)
    ensures Apply(s, l).agents == s.agents[l.host := StepAgent(AgentOf(s, l.host), l)]
  {
  }

  lemma AgentStepLightens(s: State, l: Step, t: TaskId, h: HostId)
    requires Enabled(s, l) && (IsAgentStep(l) || l.ReportTaken?)
    ensures Load(AgentOf(Apply(s, l), h), t) <= Load(AgentOf(s, h), t)
  {
    AgentStepIsItsOwn(s, l);
    StepLightens(AgentOf(s, l.host), l, t);
    NewAgentIsLighter(s.agents, l.host, StepAgent(AgentOf(s, l.host), l), t, h);
  }

  lemma NewAgentIsLighter(agents: map<HostId, Agent>, g: HostId, a: Agent, t: TaskId, h: HostId)
    requires Load(a, t) <= Load(AgentIn(agents, g), t)
    ensures Load(AgentIn(agents[g := a], h), t) <= Load(AgentIn(agents, h), t)
  {
  }

  lemma OthersLoadNothing(s: State, l: Step)
    requires Enabled(s, l) && !l.PatchPosts? && !IsAgentStep(l) && !l.ReportTaken?
    ensures Apply(s, l).agents == s.agents
  {
  }

  lemma LoadStaysNothing(s: State, l: Step, i: nat, t: TaskId, h: HostId)
    requires Inv(s) && Enabled(s, l) && Silenced(s, i, t, h)
    ensures Load(AgentOf(Apply(s, l), h), t) == 0
  {
    if l.PatchPosts? {
      NobodyPosts(s, i, t, h, l);
      OtherPostsLoadNothing(s, l, t, h);
    } else if IsAgentStep(l) || l.ReportTaken? {
      AgentStepLightens(s, l, t, h);
    } else {
      OthersLoadNothing(s, l);
    }
  }

  // ----- no log row comes up -----

  lemma OtherReportsLogNothing(db: Db, u: TaskId, g: HostId, outcome: Outcome, t: TaskId, h: HostId)
    requires RowsOk(db) && !Logged(db.logs, t, h) && (u != t || g != h)
    ensures !Logged(TakeReport(db, u, g, outcome).logs, t, h)
  {
    if u in db.tasks && g in db.hosts {
      TakenReport(db, u, g, outcome);
    }
  }

  lemma StrategyLogsNothing(db: Db, st: Strategy, found: seq<HostId>)
    ensures StepStrategy(db, st, found).0.logs == db.logs
  {
  }

  lemma WorkersLogNothing(s: State)
    requires !s.tw.DeletingOrphan?
    ensures StepTaskWorker(s).db.logs == s.db.logs && StepDeploymentWorker(s).db.logs == s.db.logs
  {
  }

  lemma UserLogsNothing(db: Db, l: Step)
    requires IsUserStep(l)
    ensures forall id :: id in StepUser(db, l).logs ==> id in db.logs && StepUser(db, l).logs[id] == db.logs[id]
  {
  }

  lemma OthersLogNothing(s: State, l: Step)
    requires !s.tw.DeletingOrphan? && Enabled(s, l) && !l.ReportTaken? && !IsUserStep(l)
    ensures Apply(s, l).db.logs == s.db.logs
  {
    if l.StrategySteps? {
      StrategyLogsNothing(s.db, s.strategies[l.strategy], l.found);
    } else if l.TaskWorkerSteps? || l.DeploymentWorkerSteps? {
      WorkersLogNothing(s);
    }
  }

  lemma LogStaysAway(s: State, l: Step, t: TaskId, h: HostId)
    requires RowsOk(s.db) && !s.tw.DeletingOrphan? && Enabled(s, l) && !Logged(s.db.logs, t, h)
    requires l.ReportTaken? ==> l.task != t || l.host != h
    ensures !Logged(Apply(s, l).db.logs, t, h)
  {
    if l.ReportTaken? {
      OtherReportsLogNothing(s.db, l.task, l.host, l.outcome, t, h);
    } else if IsUserStep(l) {
      UserLogsNothing(s.db, l);
      assert Apply(s, l).db == StepUser(s.db, l);
    } else {
      OthersLogNothing(s, l);
    }
  }

  /** A report in flight would be counted. */
  lemma NothingToReport(a: Agent, t: TaskId, outcome: Outcome)
    requires Load(a, t) == 0
    ensures t !in Outgoing(a, outcome)
  {
  }

  // ----- no post comes up -----

  lemma OwnStepNeverPosts(db: Db, st: Strategy, found: seq<HostId>, h: HostId)
    requires ShapeOk(st) && ShapeOk(StepStrategy(db, st, found).1) && !Over(st) && NeverPosts(st, h)
    ensures NeverPosts(StepStrategy(db, st, found).1, h)
  {
    var next := StepStrategy(db, st, found).1;
    var j :| 0 <= j < |st.children| && st.children[j].host == h;
    OwnStepKeepsDead(db, st, found, j);
    forall k | 0 <= k < |next.children| && next.children[k].host == h ensures k == j {
      assert next.snapshot.value[k] == next.snapshot.value[j];
    }
  }

  lemma OwnStepKeepsDead(db: Db, st: Strategy, found: seq<HostId>, j: nat)
    requires j < |st.children| && Dead(st.children[j])
    ensures var z := StepStrategy(db, st, found).1; j < |z.children| && z.children[j] == st.children[j]
  {
    Response.OwnStepKeepsChild(db, st, found, j);
  }

  /** A patch step changes one process that is neither dead nor without its message, or kills it. */
  lemma PatchStepNeverPosts(s: State, l: Step, i: nat, h: HostId)
    requires Enabled(s, l) && (l.PatchPosts? || l.PatchPolls? || l.PatchCrashes?)
    requires i < |s.strategies| && NeverPosts(s.strategies[i], h)
    ensures i < |Apply(s, l).strategies| && NeverPosts(Apply(s, l).strategies[i], h)
  {
    var st, z := s.strategies[i], Apply(s, l).strategies[i];
    Progress.ChildrenStay(s, l, i);
    forall k | 0 <= k < |st.children|
      ensures z.children[k].host == st.children[k].host
      ensures Dead(st.children[k]) ==> Dead(z.children[k])
      ensures st.children[k].pc == Receiving ==> Dead(z.children[k]) || z.children[k].pc == Receiving
    {
      ChildSurvives(s, l, i, k);
    }
    if st.pc != Crashed {
      var j :| 0 <= j < |st.children| && st.children[j].host == h;
      assert z.children[j].host == h;
    }
  }

  lemma ChildSurvives(s: State, l: Step, i: nat, k: nat)
    requires Enabled(s, l) && (l.PatchPosts? || l.PatchPolls? || l.PatchCrashes?) && IsChild(s, i, k)
    ensures IsChild(Apply(s, l), i, k)
    ensures var p, q := s.strategies[i].children[k], Apply(s, l).strategies[i].children[k];
            && q.host == p.host && (Dead(p) ==> Dead(q))
            && (p.pc == Receiving ==> Dead(q) || q.pc == Receiving)
  {
  }

  lemma OwnNextNeverPosts(s: State, i: nat, found: seq<HostId>, h: HostId)
    requires StrategiesOk(s) && Enabled(s, StrategySteps(i, found)) && StrategiesOk(Apply(s, StrategySteps(i, found)))
    requires NeverPosts(s.strategies[i], h)
    ensures NeverPosts(Apply(s, StrategySteps(i, found)).strategies[i], h)
  {
    var z := Apply(s, StrategySteps(i, found));
    assert StrategyOk(s.db, s.agents, s.sent, s.strategies[i]);
    assert StrategyOk(z.db, z.agents, z.sent, z.strategies[i]);
    OwnStepNeverPosts(s.db, s.strategies[i], found, h);
  }

  lemma OthersNeverPost(s: State, l: Step, i: nat, h: HostId)
    requires Enabled(s, l) && i < |s.strategies| && NeverPosts(s.strategies[i], h)
    requires !(l.StrategySteps? && l.strategy == i) && !l.PatchPosts? && !l.PatchPolls? && !l.PatchCrashes?
    ensures i < |Apply(s, l).strategies| && NeverPosts(Apply(s, l).strategies[i], h)
  {
    if l.StrategySteps? || l.StrategyCrashes? {
      Progress.OthersStay(s, l, i);
    } else if l.TaskWorkerSteps? {
      assert Apply(s, l).strategies[i] == s.strategies[i];
    } else {
      assert Apply(s, l).strategies == s.strategies;
    }
  }

  lemma StepNeverPosts(s: State, l: Step, i: nat, h: HostId)
    requires StrategiesOk(s) && Enabled(s, l) && StrategiesOk(Apply(s, l))
    requires i < |s.strategies| && NeverPosts(s.strategies[i], h)
    ensures i < |Apply(s, l).strategies| && NeverPosts(Apply(s, l).strategies[i], h)
  {
    if l.StrategySteps? && l.strategy == i {
      OwnNextNeverPosts(s, i, l.found, h);
    } else if l.PatchPosts? || l.PatchPolls? || l.PatchCrashes? {
      PatchStepNeverPosts(s, l, i, h);
    } else {
      OthersNeverPost(s, l, i, h);
    }
  }

  lemma SentStays(s: State, l: Step)
    requires Enabled(s, l)
    ensures s.sent <= Apply(s, l).sent
  {
  }

  lemma StepKeepsSilenced(s: State, l: Step, i: nat, t: TaskId, h: HostId)
    requires Inv(s) && Enabled(s, l) && Inv(Apply(s, l)) && Silenced(s, i, t, h)
    ensures Silenced(Apply(s, l), i, t, h)
  {
    assert RowsOk(s.db) && !s.tw.DeletingOrphan?;
    LoadStaysNothing(s, l, i, t, h);
    if l.ReportTaken? && l.task == t && l.host == h {
      NothingToReport(AgentOf(s, h), t, l.outcome);
      assert false;
    }
    LogStaysAway(s, l, t, h);
    SentStays(s, l);
    Progress.StrategiesOnlyGrow(s, l, i);
    TaskStays(s, l, i);
    if (t, h) !in s.sent {
      StepNeverPosts(s, l, i, h);
    }
  }

  lemma TaskStays(s: State, l: Step, i: nat)
    requires Enabled(s, l) && i < |s.strategies|
    ensures i < |Apply(s, l).strategies| && Apply(s, l).strategies[i].task == s.strategies[i].task
  {
    if l.PatchPosts? || l.PatchPolls? || l.PatchCrashes? {
      Progress.ChildrenStay(s, l, i);
    } else if l.StrategySteps? || l.StrategyCrashes? || l.TaskWorkerSteps? {
    } else {
      assert Apply(s, l).strategies == s.strategies;
    }
  }

  // ----- no verdict -----

  /** A chosen host is silenced and the task has no verdict. */
  predicate Unanswerable(s: State, i: nat, t: TaskId, hosts: seq<HostId>, h: HostId) {
    && Silenced(s, i, t, h) && h in hosts && s.strategies[i].snapshot == Some(hosts)
    && (t in s.db.tasks ==> !Judged(s.db.tasks[t].status))
  }

  /** A verdict needs a log row of every chosen host. */
  lemma ReportNeedsTheLog(s: State, g: HostId, u: TaskId, outcome: Outcome,
                          i: nat, t: TaskId, hosts: seq<HostId>, h: HostId)
    requires Inv(s) && Enabled(s, ReportTaken(g, u, outcome)) && Chose(s, i, t, hosts) && h in hosts
    requires !Judged(s.db.tasks[t].status) && !Logged(TakeReport(s.db, u, g, outcome).logs, t, h)
    ensures NoNewVerdict(s.db, TakeReport(s.db, u, g, outcome), t)
  {
    var z := TakeReport(s.db, u, g, outcome);
    if u in s.db.tasks && g in s.db.hosts {
      TakenReport(s.db, u, g, outcome);
      if u == t && Judged(z.tasks[t].status) {
        JudgingReportHasEveryLog(s, g, t, outcome, i, hosts);
        assert false;
      }
    }
  }

  lemma StepJudgesNothing(s: State, l: Step, i: nat, t: TaskId, hosts: seq<HostId>, h: HostId)
    requires Inv(s) && Enabled(s, l) && Chose(s, i, t, hosts) && h in hosts && !Judged(s.db.tasks[t].status)
    requires !Logged(Apply(s, l).db.logs, t, h)
    ensures NoNewVerdict(s.db, Apply(s, l).db, t)
  {
    if l.ReportTaken? {
      ReportNeedsTheLog(s, l.host, l.task, l.outcome, i, t, hosts, h);
    } else {
      OthersJudgeNothing(s, l, t);
    }
  }

  lemma ItsTaskIsOld(s: State, l: Step, i: nat)
    requires Inv(s) && Enabled(s, l) && i < |s.strategies|
    ensures s.strategies[i].task in Apply(s, l).db.tasks ==> s.strategies[i].task in s.db.tasks
    ensures ShapeOk(s.strategies[i])
  {
    assert StrategyOk(s.db, s.agents, s.sent, s.strategies[i]);
    StepMovesOn(s, l);
  }

  lemma StepKeepsUnanswerable(s: State, l: Step, i: nat, t: TaskId, hosts: seq<HostId>, h: HostId)
    requires Inv(s) && Enabled(s, l) && Inv(Apply(s, l)) && Unanswerable(s, i, t, hosts, h)
    ensures Unanswerable(Apply(s, l), i, t, hosts, h)
  {
    StepKeepsSilenced(s, l, i, t, h);
    ItsTaskIsOld(s, l, i);
    ChoiceStays(s, l, i);
    if t in Apply(s, l).db.tasks {
      StepJudgesNothing(s, l, i, t, hosts, h);
    }
  }

  /** Once a chosen host can no longer answer while the task has no verdict, because its command or
      its report is lost or its patch process never posts, no run gives the task a verdict. */
  lemma {:induction false} NoVerdictWithoutAnswer(s: State, steps: seq<Step>, z: State,
                                                  i: nat, t: TaskId, hosts: seq<HostId>, h: HostId)
    requires Inv(s) && Run(s, steps, z) && Unanswerable(s, i, t, hosts, h)
    ensures Unanswerable(z, i, t, hosts, h)
    decreases |steps|
  {
    if steps == [] {
    } else {
      StepKeepsInv(s, steps[0]);
      StepKeepsUnanswerable(s, steps[0], i, t, hosts, h);
      NoVerdictWithoutAnswer(Apply(s, steps[0]), steps[1..], z, i, t, hosts, h);
    }
  }

  /** A command lost on the way or by a crash of the agent, or a report lost on the way back, does
      that to its task. */
  lemma LosingSilences(s: State, l: Step, i: nat, t: TaskId, hosts: seq<HostId>, h: HostId)
    requires Inv(s) && Enabled(s, l) && Chose(s, i, t, hosts) && h in hosts && !Judged(s.db.tasks[t].status)
    requires Load(AgentOf(s, h), t) == 1
    requires || l == CommandDropped(h, t) || l == ReportLost(h, t, HostUpdated) || l == ReportLost(h, t, HostFailed)
             || (l == AgentCrashes(h) && t !in AgentOf(s, h).updatedOut && t !in AgentOf(s, h).failedOut)
    ensures Unanswerable(Apply(s, l), i, t, hosts, h)
  {
    assert h in s.agents && LoadOk(s.agents[h], h, t, s.sent, s.db.logs);
    LossUnloads(AgentOf(s, h), l, t);
    assert Apply(s, l) == WithAgent(s, h, StepAgent(AgentOf(s, h), l));
  }

  lemma LossUnloads(a: Agent, l: Step, t: TaskId)
    requires AgentReady(a, l) && Load(a, t) == 1
    requires || (l.CommandDropped? && l.task == t) || (l.ReportLost? && l.task == t)
             || (l.AgentCrashes? && t !in a.updatedOut && t !in a.failedOut)
    ensures Load(StepAgent(a, l), t) == 0
  {
  }

  /** So does the death of a patch process before it posts. */
  lemma DyingSilences(s: State, i: nat, j: nat, t: TaskId, hosts: seq<HostId>)
    requires Inv(s) && Enabled(s, PatchCrashes(i, j)) && Chose(s, i, t, hosts) && !Judged(s.db.tasks[t].status)
    requires s.strategies[i].children[j].pc in {Receiving, Posting}
    ensures Unanswerable(Apply(s, PatchCrashes(i, j)), i, t, hosts, s.strategies[i].children[j].host)
  {
    var st, h := s.strategies[i], s.strategies[i].children[j].host;
    assert StrategyOk(s.db, s.agents, s.sent, st);
    assert h == st.snapshot.value[j] && h in hosts;
    UnpostedIsNowhere(s, i, j);
    var z := Apply(s, PatchCrashes(i, j));
    forall k | 0 <= k < |z.strategies[i].children| && z.strategies[i].children[k].host == h ensures k == j {
      OneChildForEach(s, i, j, i, k);
    }
    assert z.strategies[i].children[j].host == h;
  }

  /** What has not been posted is nowhere. */
  lemma UnpostedIsNowhere(s: State, i: nat, j: nat)
    requires Inv(s) && IsChild(s, i, j) && s.strategies[i].children[j].pc in {Receiving, Posting}
    ensures var t, h := s.strategies[i].task, s.strategies[i].children[j].host;
            (t, h) !in s.sent && Load(AgentOf(s, h), t) == 0 && !Logged(s.db.logs, t, h)
  {
    var t, h := s.strategies[i].task, s.strategies[i].children[j].host;
    forall a, b ensures !Posted(s.strategies, t, h, a, b) {
      if Posted(s.strategies, t, h, a, b) {
        OneChildForEach(s, i, j, a, b);
      }
    }
    assert h in s.agents ==> LoadOk(s.agents[h], h, t, s.sent, s.db.logs);
  }
}
