/** A patch process whose host has reported dies after two more of its own checks, whatever the other
    processes do meanwhile. */
module Response {
  import opened Wrappers
  import opened Targets
  import opened Rows
  import opened Machine
  import opened Invariants
  import opened UserSteps
  import opened AgentSteps
  import opened Safety

  /** How often patch process `j` of strategy `i` checks the log along the run. */
  function Checks(steps: seq<Step>, i: nat, j: nat): nat {
    if steps == [] then 0 else (if steps[0] == PatchPolls(i, j) then 1 else 0) + Checks(steps[1..], i, j)
  }

  /** Checks left before the process ends, when the log holds this outcome. */
  function ChecksLeft(p: Patch, outcome: Outcome): nat {
    match p.pc
    case AskingUpdated => if outcome == HostUpdated then 1 else 2
    case AskingFailed => if outcome == HostFailed then 1 else 2
    case _ => 0
  }

  predicate CheckingOrDead(p: Patch) {
    p.pc == AskingUpdated || p.pc == AskingFailed || Dead(p)
  }

  lemma CheckComesCloser(db: Db, t: TaskId, p: Patch, outcome: Outcome)
    requires CheckingOrDead(p) && !Dead(p) && HostLogged(db, p.host, t, outcome)
    ensures var z := PollPatch(db, t, p);
            CheckingOrDead(z) && z.host == p.host && ChecksLeft(z, outcome) < ChecksLeft(p, outcome)
  {
  }

  /** A check of the success log ends the process exactly when the log holds the host's success for the
      task, and otherwise turns to the failure log; a check of that ends it exactly when the log holds
      the failure, and otherwise starts over. */
  lemma CheckEndsExactly(db: Db, t: TaskId, p: Patch)
    requires p.pc == AskingUpdated || p.pc == AskingFailed
    ensures var asked := if p.pc == AskingUpdated then HostUpdated else HostFailed;
            var found := exists id :: && id in db.logs && db.logs[id].task == t
                                      && db.logs[id].host == p.host && db.logs[id].outcome == asked;
            PollPatch(db, t, p)
            == Patch(p.host, if found then Ended else if p.pc == AskingUpdated then AskingFailed else AskingUpdated)
  {
    var asked := if p.pc == AskingUpdated then HostUpdated else HostFailed;
    assert forall id :: id in db.logs
             ==> (db.logs[id] == Log(t, p.host, asked)
                  <==> db.logs[id].task == t && db.logs[id].host == p.host && db.logs[id].outcome == asked);
  }

  // ----- the log row stays -----

  predicate HostsGo(db: Db, z: Db) {
    db.nextHost <= z.nextHost && forall h :: h in z.hosts && h < db.nextHost ==> h in db.hosts
  }

  predicate LogsStay(db: Db, z: Db) {
    forall id :: id in db.logs && db.logs[id].task in z.tasks && db.logs[id].host in z.hosts
      ==> id in z.logs && z.logs[id] == db.logs[id]
  }

  lemma TakeReportKeepsLogs(db: Db, t: TaskId, h: HostId, outcome: Outcome)
    requires RowsOk(db)
    ensures HostsGo(db, TakeReport(db, t, h, outcome)) && LogsStay(db, TakeReport(db, t, h, outcome))
  {
    if t in db.tasks && h in db.hosts {
      TakenReport(db, t, h, outcome);
      assert db.nextLog !in db.logs;
    }
  }

  lemma StrategyLogsStay(db: Db, st: Strategy, found: seq<HostId>)
    ensures HostsGo(db, StepStrategy(db, st, found).0) && LogsStay(db, StepStrategy(db, st, found).0)
  {
  }

  lemma WorkersKeepLogs(s: State, l: Step)
    requires RowsOk(s.db) && !s.tw.DeletingOrphan? && Enabled(s, l) && (l.TaskWorkerSteps? || l.DeploymentWorkerSteps?)
    ensures HostsGo(s.db, Apply(s, l).db) && LogsStay(s.db, Apply(s, l).db)
  {
  }

  lemma StepKeepsLogs(s: State, l: Step)
    requires RowsOk(s.db) && !s.tw.DeletingOrphan? && Enabled(s, l)
    ensures HostsGo(s.db, Apply(s, l).db) && LogsStay(s.db, Apply(s, l).db)
  {
    if IsUserStep(l) {
      StepUserOnlyDeletes(s.db, l);
    } else if l.ReportTaken? {
      TakeReportKeepsLogs(s.db, l.task, l.host, l.outcome);
    } else if l.StrategySteps? {
      StrategyLogsStay(s.db, s.strategies[l.strategy], l.found);
    } else if l.TaskWorkerSteps? || l.DeploymentWorkerSteps? {
      WorkersKeepLogs(s, l);
    } else {
      OthersKeepTables(s, l);
    }
  }

  lemma {:induction false} HostsOnlyGo(s: State, steps: seq<Step>, z: State)
    requires Inv(s) && Run(s, steps, z)
    ensures HostsGo(s.db, z.db)
    decreases |steps|
  {
    if steps == [] {
    } else {
      assert !s.tw.DeletingOrphan?;
      StepKeepsLogs(s, steps[0]);
      StepKeepsInv(s, steps[0]);
      HostsOnlyGo(Apply(s, steps[0]), steps[1..], z);
    }
  }

  // ----- the process comes closer to its end -----

  /** What a step does to a checking or dead patch process: its own check, a crash, or nothing. */
  predicate ChildMoves(s: State, l: Step, i: nat, j: nat, z: State)
    requires IsChild(s, i, j)
  {
    && IsChild(z, i, j) && z.strategies[i].task == s.strategies[i].task
    && var p, q := s.strategies[i].children[j], z.strategies[i].children[j];
       if l == PatchPolls(i, j) then q == PollPatch(s.db, s.strategies[i].task, p)
       else q == p || q == p.(pc := Died)
  }

  lemma PatchStepMoves(s: State, l: Step, i: nat, j: nat)
    requires IsChild(s, i, j) && CheckingOrDead(s.strategies[i].children[j]) && Enabled(s, l)
    requires l.PatchPosts? || l.PatchPolls? || l.PatchCrashes?
    ensures ChildMoves(s, l, i, j, Apply(s, l))
  {
  }

  lemma OwnStepKeepsChild(db: Db, st: Strategy, found: seq<HostId>, j: nat)
    requires j < |st.children| && CheckingOrDead(st.children[j])
    ensures var z := StepStrategy(db, st, found).1;
            z.task == st.task && j < |z.children| && z.children[j] == st.children[j]
  {
  }

  lemma StepMovesChild(s: State, l: Step, i: nat, j: nat)
    requires IsChild(s, i, j) && CheckingOrDead(s.strategies[i].children[j]) && Enabled(s, l)
    ensures ChildMoves(s, l, i, j, Apply(s, l))
  {
    if l.PatchPosts? || l.PatchPolls? || l.PatchCrashes? {
      PatchStepMoves(s, l, i, j);
    } else if l.StrategySteps? && l.strategy == i {
      OwnStepKeepsChild(s.db, s.strategies[i], l.found, j);
    } else if l.StrategySteps? || l.StrategyCrashes? || l.TaskWorkerSteps? {
      assert i < |Apply(s, l).strategies| && Apply(s, l).strategies[i].children == s.strategies[i].children;
    } else {
      assert Apply(s, l).strategies == s.strategies;
    }
  }

  /** One step keeps the process checking or dead, and its own check brings it closer. */
  lemma StepComesCloser(s: State, l: Step, i: nat, j: nat, outcome: Outcome)
    requires IsChild(s, i, j) && CheckingOrDead(s.strategies[i].children[j]) && Enabled(s, l)
    requires HostLogged(s.db, s.strategies[i].children[j].host, s.strategies[i].task, outcome)
    ensures var m := Apply(s, l);
            && IsChild(m, i, j) && m.strategies[i].task == s.strategies[i].task
            && var p, q := s.strategies[i].children[j], m.strategies[i].children[j];
               && q.host == p.host && CheckingOrDead(q)
               && ChecksLeft(q, outcome) + (if l == PatchPolls(i, j) then 1 else 0) <= ChecksLeft(p, outcome)
  {
    StepMovesChild(s, l, i, j);
    if l == PatchPolls(i, j) {
      CheckComesCloser(s.db, s.strategies[i].task, s.strategies[i].children[j], outcome);
    }
  }

  /** The process is checking or dead, and its host's outcome is logged. */
  predicate Answered(s: State, i: nat, j: nat, outcome: Outcome) {
    && IsChild(s, i, j) && CheckingOrDead(s.strategies[i].children[j])
    && HostLogged(s.db, s.strategies[i].children[j].host, s.strategies[i].task, outcome)
  }

  /** The task and the host of the process still exist. */
  predicate StillThere(db: Db, s: State, i: nat, j: nat)
    requires IsChild(s, i, j)
  {
    s.strategies[i].task in db.tasks && s.strategies[i].children[j].host in db.hosts
  }

  /** Along every run, from a state in which the host's outcome is logged to one in which the task
      and the host still exist, each check of the process brings it closer to its end. */
  lemma {:induction false} ChecksRunOut(s: State, steps: seq<Step>, z: State, i: nat, j: nat, outcome: Outcome)
    requires Inv(s) && Run(s, steps, z) && Answered(s, i, j, outcome) && StillThere(z.db, s, i, j)
    ensures IsChild(z, i, j) && CheckingOrDead(z.strategies[i].children[j])
    ensures ChecksLeft(z.strategies[i].children[j], outcome) + Checks(steps, i, j)
            <= ChecksLeft(s.strategies[i].children[j], outcome)
    decreases |steps|
  {
    if steps == [] {
    } else {
      StepKeepsInv(s, steps[0]);
      StepComesCloser(s, steps[0], i, j, outcome);
      LogIsStillThere(s, steps, z, s.strategies[i].task, s.strategies[i].children[j].host, outcome);
      ChecksRunOut(Apply(s, steps[0]), steps[1..], z, i, j, outcome);
    }
  }

  /** So it is dead after two checks at the latest. */
  lemma LoggedPatchDies(s: State, steps: seq<Step>, z: State, i: nat, j: nat, outcome: Outcome)
    requires Reachable(s) && Run(s, steps, z) && Answered(s, i, j, outcome) && StillThere(z.db, s, i, j)
    requires !Dead(s.strategies[i].children[j])
    ensures Checks(steps, i, j) <= 2
    ensures Checks(steps, i, j) == 2 ==> IsChild(z, i, j) && Dead(z.strategies[i].children[j])
  {
    ReachableInv(s);
    ChecksRunOut(s, steps, z, i, j, outcome);
  }

  lemma StaysLogged(db: Db, m: Db, z: Db, t: TaskId, h: HostId, outcome: Outcome)
    requires RowsOk(db) && LogsStay(db, m) && db.nextTask <= m.nextTask && db.nextHost <= m.nextHost
    requires TasksMoveOn(m, z) && HostsGo(m, z)
    requires HostLogged(db, h, t, outcome) && t in z.tasks && h in z.hosts
    ensures HostLogged(m, h, t, outcome)
  {
    var id :| id in db.logs && db.logs[id] == Log(t, h, outcome);
    assert t in m.tasks && h in m.hosts;
    assert m.logs[id] == Log(t, h, outcome);
  }

  /** Rows that are there at the end of the run are there after its first step. */
  lemma RestMovesOn(s: State, steps: seq<Step>, z: State)
    requires Inv(s) && steps != [] && Run(s, steps, z)
    ensures TasksMoveOn(Apply(s, steps[0]).db, z.db) && HostsGo(Apply(s, steps[0]).db, z.db)
  {
    StepKeepsInv(s, steps[0]);
    StatusOnlyMovesOn(Apply(s, steps[0]), steps[1..], z);
    HostsOnlyGo(Apply(s, steps[0]), steps[1..], z);
  }

  lemma FirstStepKeepsLogs(s: State, l: Step)
    requires Inv(s) && Enabled(s, l)
    ensures RowsOk(s.db) && LogsStay(s.db, Apply(s, l).db)
    ensures s.db.nextTask <= Apply(s, l).db.nextTask && s.db.nextHost <= Apply(s, l).db.nextHost
  {
    assert RowsOk(s.db) && !s.tw.DeletingOrphan?;
    StepKeepsLogs(s, l);
    StepMovesOn(s, l);
  }

  lemma LogIsStillThere(s: State, steps: seq<Step>, z: State, t: TaskId, h: HostId, outcome: Outcome)
    requires Inv(s) && steps != [] && Run(s, steps, z)
    requires HostLogged(s.db, h, t, outcome) && t in z.db.tasks && h in z.db.hosts
    ensures HostLogged(Apply(s, steps[0]).db, h, t, outcome)
  {
    FirstStepKeepsLogs(s, steps[0]);
    RestMovesOn(s, steps, z);
    StaysLogged(s.db, Apply(s, steps[0]).db, z.db, t, h, outcome);
  }

  // ----- a post that raises -----

  /** A post that raises leaves its process dead, one that does not leaves it checking the log; the
      command is handed over exactly when it is delivered. */
  lemma PostExactly(s: State, i: nat, j: nat, delivered: bool, raised: bool)
    requires Enabled(s, PatchPosts(i, j, delivered, raised))
    ensures var z := Apply(s, PatchPosts(i, j, delivered, raised));
            var t, h := s.strategies[i].task, s.strategies[i].children[j].host;
            && IsChild(z, i, j)
            && z.strategies[i].children[j].pc == (if raised then Died else AskingUpdated)
            && AgentOf(z, h).handlers[t] == AgentOf(s, h).handlers[t] + (if delivered then 1 else 0)
  {
  }

  /** It stays dead along every run, although its command may have been delivered. */
  lemma {:induction false} DeadStaysDead(s: State, steps: seq<Step>, z: State, i: nat, j: nat)
    requires Run(s, steps, z) && IsChild(s, i, j) && Dead(s.strategies[i].children[j])
    ensures IsChild(z, i, j) && z.strategies[i].children[j].host == s.strategies[i].children[j].host
    ensures Dead(z.strategies[i].children[j])
    decreases |steps|
  {
    if steps == [] {
    } else {
      StepMovesChild(s, steps[0], i, j);
      DeadStaysDead(Apply(s, steps[0]), steps[1..], z, i, j);
    }
  }

  lemma RaisedPostStaysDead(s: State, i: nat, j: nat, delivered: bool, steps: seq<Step>, z: State)
    requires Enabled(s, PatchPosts(i, j, delivered, true)) && Run(Apply(s, PatchPosts(i, j, delivered, true)), steps, z)
    ensures IsChild(z, i, j) && Dead(z.strategies[i].children[j])
  {
    PostExactly(s, i, j, delivered, true);
    DeadStaysDead(Apply(s, PatchPosts(i, j, delivered, true)), steps, z, i, j);
  }
}
