/** What a log row and a verdict say is what the agents reported. */
module Outcomes {
  import opened Wrappers
  import opened Targets
  import opened Rows
  import opened Counting
  import opened Machine
  import opened Invariants
  import opened UserSteps
  import opened StrategySteps
  import opened AgentSteps
  import opened Safety
  import opened HostDeletion
  import LostCommands
  import VerdictShown

  /** The agent of the host reported this outcome of running the task's command. */
  datatype Answer = Answer(task: TaskId, host: HostId, outcome: Outcome)

  function AnswersNow(s: State, l: Step): set<Answer> {
    if l.CommandReported? && AgentOf(s, l.host).working.Some?
    then {Answer(AgentOf(s, l.host).working.value, l.host, l.outcome)} else {}
  }

  /** All such reports along a run. */
  function Answers(s: State, steps: seq<Step>): set<Answer>
    decreases |steps|
  {
    if steps == [] || !Enabled(s, steps[0]) then {}
    else AnswersNow(s, steps[0]) + Answers(Apply(s, steps[0]), steps[1..])
  }

  /** Step `k` of the run is that report, by an agent that was running the task's command. */
  ghost predicate ReportedAt(s: State, steps: seq<Step>, k: nat, m: State, a: Answer) {
    && k < |steps| && Run(s, steps[..k], m)
    && steps[k] == CommandReported(a.host, a.outcome) && AgentOf(m, a.host).working == Some(a.task)
  }

  lemma {:induction false} AnswersHaveSteps(s: State, steps: seq<Step>, z: State, a: Answer)
    requires Run(s, steps, z)
    ensures a in Answers(s, steps) <==> exists k: nat, m :: ReportedAt(s, steps, k, m, a)
    decreases |steps|
  {
    if steps == [] {
    } else {
      var next, rest := Apply(s, steps[0]), steps[1..];
      AnswersHaveSteps(next, rest, z, a);
      if a in AnswersNow(s, steps[0]) {
        assert ReportedAt(s, steps, 0, s, a);
      } else if a in Answers(next, rest) {
        var k: nat, m :| ReportedAt(next, rest, k, m, a);
        assert steps[..k + 1][1..] == rest[..k];
        assert ReportedAt(s, steps, k + 1, m, a);
      }
      if exists k: nat, m :: ReportedAt(s, steps, k, m, a) {
        var k: nat, m :| ReportedAt(s, steps, k, m, a);
        if k > 0 {
          assert steps[..k][1..] == rest[..k - 1] && steps[..k][0] == steps[0];
          assert Run(next, rest[..k - 1], m) && steps[k] == rest[k - 1];
          assert ReportedAt(next, rest, k - 1, m, a);
        }
      }
    }
  }

  // ----- reports on their way and log rows were reported -----

  ghost predicate AgentKnown(a: Agent, h: HostId, known: set<Answer>) {
    && (forall t :: t in a.updatedOut ==> Answer(t, h, HostUpdated) in known)
    && (forall t :: t in a.failedOut ==> Answer(t, h, HostFailed) in known)
  }

  ghost predicate AgentsKnown(agents: map<HostId, Agent>, known: set<Answer>) {
    forall h :: h in agents ==> AgentKnown(agents[h], h, known)
  }

  predicate LogsKnown(logs: map<LogId, Log>, known: set<Answer>) {
    forall id :: id in logs ==> Answer(logs[id].task, logs[id].host, logs[id].outcome) in known
  }

  lemma AgentStepIsKnown(a: Agent, l: Step, h: HostId, known: set<Answer>)
    requires AgentReady(a, l) && AgentKnown(a, h, known)
    ensures var now := if l.CommandReported? then {Answer(a.working.value, h, l.outcome)} else {};
            AgentKnown(StepAgent(a, l), h, known + now)
  {
  }

  lemma AgentsStayKnown(s: State, l: Step, known: set<Answer>)
    requires Enabled(s, l) && AgentsKnown(s.agents, known)
    ensures AgentsKnown(Apply(s, l).agents, known + AnswersNow(s, l))
  {
    if IsAgentStep(l) || l.ReportTaken? {
      LostCommands.AgentStepIsItsOwn(s, l);
      AgentStepIsKnown(AgentOf(s, l.host), l, l.host, known);
    } else if l.PatchPosts? {
      PostsReportNothing(s, l, known);
    } else {
      LostCommands.OthersLoadNothing(s, l);
    }
  }

  lemma PostsReportNothing(s: State, l: Step, known: set<Answer>)
    requires Enabled(s, l) && l.PatchPosts? && AgentsKnown(s.agents, known)
    ensures AgentsKnown(Apply(s, l).agents, known)
  {
  }

  lemma TakenReportIsKnown(db: Db, t: TaskId, h: HostId, outcome: Outcome, known: set<Answer>)
    requires RowsOk(db) && LogsKnown(db.logs, known) && Answer(t, h, outcome) in known
    ensures LogsKnown(TakeReport(db, t, h, outcome).logs, known)
  {
    if t in db.tasks && h in db.hosts {
      TakenReport(db, t, h, outcome);
    }
  }

  lemma LogsStayKnown(s: State, l: Step, known: set<Answer>)
    requires RowsOk(s.db) && !s.tw.DeletingOrphan? && Enabled(s, l)
    requires AgentsKnown(s.agents, known) && LogsKnown(s.db.logs, known)
    ensures LogsKnown(Apply(s, l).db.logs, known)
  {
    if l.ReportTaken? {
      TakenReportIsKnown(s.db, l.task, l.host, l.outcome, known);
    } else if IsUserStep(l) {
      LostCommands.UserLogsNothing(s.db, l);
      assert Apply(s, l).db == StepUser(s.db, l);
    } else {
      LostCommands.OthersLogNothing(s, l);
    }
  }

  // ----- an agent reports on a task once -----

  /** Copies of the command that the agent has still to report about. */
  function Undone(a: Agent, t: TaskId): nat {
    a.handlers[t] + multiset(a.queue)[t] + (if a.working == Some(t) then 1 else 0)
  }

  predicate DoneOnce(s: State, a: Answer) {
    (a.task, a.host) in s.sent && Undone(AgentOf(s, a.host), a.task) == 0
  }

  predicate SingleAnswers(known: set<Answer>) {
    forall a, b :: a in known && b in known && a.task == b.task && a.host == b.host ==> a == b
  }

  lemma StepAgentAdds(a: Agent, l: Step, t: TaskId)
    requires AgentReady(a, l)
    ensures Undone(StepAgent(a, l), t) <= Undone(a, t)
    ensures l.CommandReported? && a.working == Some(t) ==> Undone(StepAgent(a, l), t) == Undone(a, t) - 1
  {
    if l.CommandQueued? {
      QueueMoves(a.queue, l.task);
    } else if l.CommandTaken? {
      QueueMoves(a.queue, 0);
    }
  }

  lemma DoneStaysDone(s: State, l: Step, a: Answer)
    requires Inv(s) && Enabled(s, l) && DoneOnce(s, a)
    ensures DoneOnce(Apply(s, l), a)
  {
    LostCommands.SentStays(s, l);
    if IsAgentStep(l) || l.ReportTaken? {
      LostCommands.AgentStepIsItsOwn(s, l);
      StepAgentAdds(AgentOf(s, l.host), l, a.task);
    } else if l.PatchPosts? {
      PostingIsFirst(s, l.strategy, l.child);
      OtherPostsUndoNothing(s, l, a.task, a.host);
    } else {
      LostCommands.OthersLoadNothing(s, l);
    }
  }

  lemma OtherPostsUndoNothing(s: State, l: Step, t: TaskId, h: HostId)
    requires Enabled(s, l) && l.PatchPosts?
    requires s.strategies[l.strategy].task != t || s.strategies[l.strategy].children[l.child].host != h
    ensures Undone(AgentOf(Apply(s, l), h), t) == Undone(AgentOf(s, h), t)
  {
  }

  /** The command just reported about was the only copy. */
  lemma ReportedIsDone(s: State, l: Step)
    requires Inv(s) && Enabled(s, l) && l.CommandReported?
    ensures var a := Answer(AgentOf(s, l.host).working.value, l.host, l.outcome);
            !DoneOnce(s, a) && DoneOnce(Apply(s, l), a)
  {
    var t := AgentOf(s, l.host).working.value;
    assert l.host in s.agents && LoadOk(s.agents[l.host], l.host, t, s.sent, s.db.logs);
    LostCommands.AgentStepIsItsOwn(s, l);
    StepAgentAdds(AgentOf(s, l.host), l, t);
    LostCommands.SentStays(s, l);
  }

  // ----- verdicts -----

  /** What the task's status says of the hosts strategy `i` chose. */
  ghost predicate Truly(s: State, i: nat, known: set<Answer>) {
    i < |s.strategies| && s.strategies[i].snapshot.Some? && s.strategies[i].task in s.db.tasks ==>
      var t, hosts := s.strategies[i].task, s.strategies[i].snapshot.value;
      && (s.db.tasks[t].status == Success ==> forall h :: h in hosts ==> Answer(t, h, HostUpdated) in known)
      && (s.db.tasks[t].status == Failure ==>
            && (forall h :: h in hosts ==> Answer(t, h, HostUpdated) in known || Answer(t, h, HostFailed) in known)
            && exists h :: h in hosts && Answer(t, h, HostFailed) in known)
  }

  lemma LogTellsAnswer(db: Db, t: TaskId, h: HostId, known: set<Answer>)
    requires LogsKnown(db.logs, known) && Logged(db.logs, t, h)
    ensures Answer(t, h, HostUpdated) in known || Answer(t, h, HostFailed) in known
    ensures LogIds(db, t, HostFailed) == {} ==> Answer(t, h, HostUpdated) in known
  {
    var id :| id in db.logs && db.logs[id].task == t && db.logs[id].host == h;
    assert db.logs[id].outcome == HostFailed ==> id in LogIds(db, t, HostFailed);
  }

  /** The rows behind a verdict with counters that are the counts. */
  lemma CountedVerdictIsTrue(z: State, i: nat, t: TaskId, hosts: seq<HostId>, known: set<Answer>)
    requires Inv(z) && Chose(z, i, t, hosts) && LogsKnown(z.db.logs, known)
    requires forall h :: h in hosts ==> Logged(z.db.logs, t, h)
    requires z.db.tasks[t].tally.failed == CountHosts(z.db, t, HostFailed)
    ensures Truly(z, i, known)
  {
    assert StrategyOk(z.db, z.agents, z.sent, z.strategies[i]);
    forall h | h in hosts
      ensures Answer(t, h, HostUpdated) in known || Answer(t, h, HostFailed) in known
      ensures LogIds(z.db, t, HostFailed) == {} ==> Answer(t, h, HostUpdated) in known
    {
      LogTellsAnswer(z.db, t, h, known);
    }
    VerdictCountsFailures(z.db.tasks[t], z.strategies[i]);
    if z.db.tasks[t].status == Failure {
      var id :| id in LogIds(z.db, t, HostFailed);
      assert z.db.logs[id].host in hosts;
    }
  }

  lemma VerdictCountsFailures(row: Task, st: Strategy)
    requires TaskRowOk(row, st)
    ensures row.status == Success ==> row.tally.failed == 0
    ensures row.status == Failure ==> row.tally.failed > 0
  {
  }

  /** A judged task's strategy had chosen its hosts before. */
  lemma JudgedHasChosen(s: State, l: Step, i: nat)
    requires Inv(s) && Enabled(s, l) && i < |s.strategies|
    requires s.strategies[i].task in s.db.tasks && Judged(s.db.tasks[s.strategies[i].task].status)
    ensures s.strategies[i].snapshot.Some? && i < |Apply(s, l).strategies|
    ensures Apply(s, l).strategies[i].task == s.strategies[i].task
    ensures Apply(s, l).strategies[i].snapshot == s.strategies[i].snapshot
  {
    assert StrategyOk(s.db, s.agents, s.sent, s.strategies[i]);
    ChoiceStays(s, l, i);
  }

  /** A report that brings the verdict. */
  lemma NewVerdictIsTrue(s: State, l: Step, i: nat, t: TaskId, hosts: seq<HostId>, known: set<Answer>)
    requires Inv(s) && Enabled(s, l) && Inv(Apply(s, l)) && l.ReportTaken? && l.task == t && l.host in s.db.hosts
    requires Chose(s, i, t, hosts) && Chose(Apply(s, l), i, t, hosts) && Judged(Apply(s, l).db.tasks[t].status)
    requires LogsKnown(Apply(s, l).db.logs, known)
    ensures Truly(Apply(s, l), i, known)
  {
    ReportChangesTables(s, l);
    JudgingReportHasEveryLog(s, l.host, t, l.outcome, i, hosts);
    TakenCounts(s.db, t, l.host, l.outcome);
    CountedVerdictIsTrue(Apply(s, l), i, t, hosts, known);
  }

  lemma ReportChangesTables(s: State, l: Step)
    requires Enabled(s, l) && l.ReportTaken?
    ensures Apply(s, l).db == TakeReport(s.db, l.task, l.host, l.outcome)
  {
  }

  lemma TakenCounts(db: Db, t: TaskId, h: HostId, outcome: Outcome)
    requires RowsOk(db) && t in db.tasks && h in db.hosts
    ensures var z := TakeReport(db, t, h, outcome);
            t in z.tasks && z.tasks[t].tally.failed == CountHosts(z, t, HostFailed)
  {
    TakenReport(db, t, h, outcome);
  }

  lemma OldVerdictStaysTrue(s: State, l: Step, i: nat, t: TaskId, known: set<Answer>, more: set<Answer>)
    requires Inv(s) && Enabled(s, l) && Truly(s, i, known) && known <= more
    requires i < |s.strategies| && s.strategies[i].task == t && t in s.db.tasks && Judged(s.db.tasks[t].status)
    ensures Truly(Apply(s, l), i, more)
  {
    JudgedHasChosen(s, l, i);
    JudgedStaysJudged(s, l, t);
    TrulyStays(s, Apply(s, l), i, known, more);
  }

  lemma JudgedStaysJudged(s: State, l: Step, t: TaskId)
    requires Inv(s) && Enabled(s, l) && t in s.db.tasks && Judged(s.db.tasks[t].status)
    ensures t in Apply(s, l).db.tasks ==> Apply(s, l).db.tasks[t].status == s.db.tasks[t].status
  {
    assert RowsOk(s.db);
    StepMovesOn(s, l);
  }

  lemma TrulyStays(s: State, z: State, i: nat, known: set<Answer>, more: set<Answer>)
    requires Truly(s, i, known) && known <= more && i < |s.strategies| && i < |z.strategies|
    requires z.strategies[i].task == s.strategies[i].task && z.strategies[i].snapshot == s.strategies[i].snapshot
    requires var t := s.strategies[i].task;
             t in s.db.tasks && (t in z.db.tasks ==> z.db.tasks[t].status == s.db.tasks[t].status)
    ensures Truly(z, i, more)
  {
  }

  lemma StrategySnapshot(s: State, l: Step, i: nat)
    requires Inv(s) && Enabled(s, l) && i < |s.strategies| && l.ReportTaken?
    ensures Apply(s, l).strategies == s.strategies
  {
  }

  lemma NewStrategyHasNoSnapshot(s: State, l: Step, i: nat)
    requires Enabled(s, l) && |s.strategies| <= i < |Apply(s, l).strategies|
    ensures Apply(s, l).strategies[i].snapshot.None?
  {
  }

  lemma ItsTaskStays(s: State, l: Step, i: nat)
    requires Inv(s) && Enabled(s, l) && i < |s.strategies|
    ensures i < |Apply(s, l).strategies| && Apply(s, l).strategies[i].task == s.strategies[i].task
    ensures s.strategies[i].task in Apply(s, l).db.tasks ==> s.strategies[i].task in s.db.tasks
  {
    LostCommands.TaskStays(s, l, i);
    LostCommands.ItsTaskIsOld(s, l, i);
  }

  lemma StepStaysTrue(s: State, l: Step, i: nat, known: set<Answer>, more: set<Answer>)
    requires Inv(s) && Enabled(s, l) && Inv(Apply(s, l)) && Truly(s, i, known) && known <= more
    requires LogsKnown(Apply(s, l).db.logs, more)
    ensures Truly(Apply(s, l), i, more)
  {
    var z := Apply(s, l);
    if i < |z.strategies| && z.strategies[i].snapshot.Some? && z.strategies[i].task in z.db.tasks
       && Judged(z.db.tasks[z.strategies[i].task].status) {
      if i >= |s.strategies| {
        NewStrategyHasNoSnapshot(s, l, i);
        assert false;
      } else {
        ItsTaskStays(s, l, i);
        var t := s.strategies[i].task;
        if Judged(s.db.tasks[t].status) {
          OldVerdictStaysTrue(s, l, i, t, known, more);
        } else {
          VerdictComesByReport(s, l, i, t);
          NewVerdictIsTrue(s, l, i, t, z.strategies[i].snapshot.value, more);
        }
      }
    }
  }

  lemma VerdictComesByReport(s: State, l: Step, i: nat, t: TaskId)
    requires Inv(s) && Enabled(s, l) && i < |s.strategies| && t in s.db.tasks && !Judged(s.db.tasks[t].status)
    requires t in Apply(s, l).db.tasks && Judged(Apply(s, l).db.tasks[t].status)
    ensures l.ReportTaken? && l.task == t && l.host in s.db.hosts && Apply(s, l).strategies == s.strategies
  {
    if l.ReportTaken? {
      VerdictShown.ReportOfNewVerdict(s.db, l.task, l.host, l.outcome, t);
      StrategySnapshot(s, l, i);
    } else {
      OthersJudgeNothing(s, l, t);
      assert false;
    }
  }

  // ----- along every run -----

  ghost predicate AllTrue(s: State, known: set<Answer>) {
    && AgentsKnown(s.agents, known) && LogsKnown(s.db.logs, known)
    && SingleAnswers(known) && (forall a :: a in known ==> DoneOnce(s, a))
    && forall i: nat :: Truly(s, i, known)
  }

  lemma StepKeepsAnswersSingle(s: State, l: Step, known: set<Answer>)
    requires Inv(s) && Enabled(s, l) && SingleAnswers(known) && forall a :: a in known ==> DoneOnce(s, a)
    ensures SingleAnswers(known + AnswersNow(s, l))
    ensures forall a :: a in known + AnswersNow(s, l) ==> DoneOnce(Apply(s, l), a)
  {
    forall a | a in known ensures DoneOnce(Apply(s, l), a) {
      DoneStaysDone(s, l, a);
    }
    if l.CommandReported? {
      ReportedIsDone(s, l);
    }
  }

  lemma StepKeepsAllTrue(s: State, l: Step, known: set<Answer>)
    requires Inv(s) && Enabled(s, l) && Inv(Apply(s, l)) && AllTrue(s, known)
    ensures AllTrue(Apply(s, l), known + AnswersNow(s, l))
  {
    assert RowsOk(s.db) && !s.tw.DeletingOrphan?;
    var more := known + AnswersNow(s, l);
    AgentsStayKnown(s, l, known);
    LogsStayKnown(s, l, known);
    StepKeepsAnswersSingle(s, l, known);
    forall i: nat ensures Truly(Apply(s, l), i, more) {
      StepStaysTrue(s, l, i, known, more);
    }
  }

  lemma {:induction false} RunKeepsAllTrue(s: State, steps: seq<Step>, z: State, known: set<Answer>)
    requires Inv(s) && Run(s, steps, z) && AllTrue(s, known)
    ensures AllTrue(z, known + Answers(s, steps))
    decreases |steps|
  {
    if steps == [] {
      assert known + Answers(s, steps) == known;
    } else {
      StepKeepsInv(s, steps[0]);
      StepKeepsAllTrue(s, steps[0], known);
      RunKeepsAllTrue(Apply(s, steps[0]), steps[1..], z, known + AnswersNow(s, steps[0]));
      assert known + Answers(s, steps)
          == known + AnswersNow(s, steps[0]) + Answers(Apply(s, steps[0]), steps[1..]);
    }
  }

  lemma FromTheStart(s: State, steps: seq<Step>, z: State)
    requires Init(s) && Run(s, steps, z)
    ensures AllTrue(z, Answers(s, steps)) && Inv(z)
  {
    RunKeepsAllTrue(s, steps, z, {});
    RunKeepsInv(s, steps, z);
    assert {} + Answers(s, steps) == Answers(s, steps);
  }

  /** Every log row says what the agent of its host reported: some step of the run is that report, by
      an agent that was running the task's command. */
  lemma LogsAreTrue(s: State, steps: seq<Step>, z: State, id: LogId)
    requires Init(s) && Run(s, steps, z) && id in z.db.logs
    ensures var log := z.db.logs[id];
            exists k: nat, m :: ReportedAt(s, steps, k, m, Answer(log.task, log.host, log.outcome))
  {
    var log := z.db.logs[id];
    FromTheStart(s, steps, z);
    AnswersHaveSteps(s, steps, z, Answer(log.task, log.host, log.outcome));
  }

  /** So does every report on its way. */
  lemma ReportsAreTrue(s: State, steps: seq<Step>, z: State, h: HostId, t: TaskId)
    requires Init(s) && Run(s, steps, z)
    ensures t in AgentOf(z, h).updatedOut ==> exists k: nat, m :: ReportedAt(s, steps, k, m, Answer(t, h, HostUpdated))
    ensures t in AgentOf(z, h).failedOut ==> exists k: nat, m :: ReportedAt(s, steps, k, m, Answer(t, h, HostFailed))
  {
    FromTheStart(s, steps, z);
    AnswersHaveSteps(s, steps, z, Answer(t, h, HostUpdated));
    AnswersHaveSteps(s, steps, z, Answer(t, h, HostFailed));
  }

  /** An agent reports on a task once, with one outcome. */
  lemma AnswersAreSingle(s: State, steps: seq<Step>, z: State, a: Answer, b: Answer)
    requires Init(s) && Run(s, steps, z) && a in Answers(s, steps) && b in Answers(s, steps)
    requires a.task == b.task && a.host == b.host
    ensures a == b
  {
    FromTheStart(s, steps, z);
  }

  /** End to end: a success says that the agent of every chosen host reported an update and none a
      failure, a failure that every one has reported and some a failure; whether or not the hosts are
      still there. */
  lemma VerdictIsTrue(s: State, steps: seq<Step>, z: State, i: nat, t: TaskId, hosts: seq<HostId>)
    requires Init(s) && Run(s, steps, z) && Chose(z, i, t, hosts)
    ensures z.db.tasks[t].status == Success ==>
              forall h :: h in hosts ==>
                Answer(t, h, HostUpdated) in Answers(s, steps) && Answer(t, h, HostFailed) !in Answers(s, steps)
    ensures z.db.tasks[t].status == Failure ==>
              && (forall h :: h in hosts ==>
                    Answer(t, h, HostUpdated) in Answers(s, steps) || Answer(t, h, HostFailed) in Answers(s, steps))
              && exists h :: h in hosts && Answer(t, h, HostFailed) in Answers(s, steps)
  {
    FromTheStart(s, steps, z);
    assert Truly(z, i, Answers(s, steps));
  }
}
