/** How many tasks a "once" deployment can get: the deployment worker selects unknown
    deployments, and nothing ever makes a deployment unknown again. */
module Creation {
  import opened Wrappers
  import opened Targets
  import opened Rows
  import opened Machine
  import opened Invariants
  import opened Safety
  import opened UserSteps
  import opened AgentSteps
  import opened Stored

  function TasksOf(db: Db, d: DeploymentId): set<TaskId> {
    set t | t in db.tasks && db.tasks[t].deployment == d
  }

  /** The worker has selected the deployment and not finished with it. */
  function Selected(dw: DeploymentWorker): seq<DeploymentId> {
    match dw
    case DeploymentsIdle => []
    case CreatingTask(todo) => todo
    case ReadingDue(todo) => todo
    case MarkingPending(todo, _) => todo
  }

  /** Those that still get a task in this pass. */
  function ToCreate(dw: DeploymentWorker): seq<DeploymentId> {
    match dw
    case DeploymentsIdle => []
    case CreatingTask(todo) => todo
    case ReadingDue(todo) => if todo == [] then [] else todo[1..]
    case MarkingPending(todo, _) => if todo == [] then [] else todo[1..]
  }

  predicate IsUnknown(db: Db, d: DeploymentId) {
    d in db.deployments && db.deployments[d].status == Unknown
  }

  predicate BoundOk(s: State, d: DeploymentId) {
    && s.created[d] + (if d in ToCreate(s.dw) then 1 else 0) <= 1 + s.crashes
    && (IsUnknown(s.db, d) && d !in Selected(s.dw) ==> s.created[d] <= s.crashes)
    && |TasksOf(s.db, d)| <= s.created[d]
    && (d >= s.db.nextDeployment ==> s.created[d] == 0 && d !in Selected(s.dw))
  }

  ghost predicate CreationOk(s: State) {
    && RowsOk(s.db)
    && Distinct(Selected(s.dw))
    && (s.dw.MarkingPending? && s.dw.todo != [] && s.dw.loaded != Unknown ==> !IsUnknown(s.db, s.dw.todo[0]))
    && forall d: DeploymentId :: BoundOk(s, d)
  }

  /** No deployment comes back or turns unknown. */
  predicate NeverUnknownAgain(db: Db, z: Db) {
    && db.nextDeployment <= z.nextDeployment
    && forall d :: d in z.deployments && d < db.nextDeployment ==>
         d in db.deployments && (z.deployments[d].status == Unknown ==> db.deployments[d].status == Unknown)
  }

  /** Neither does a task appear. */
  predicate OnlyLeavesUnknown(db: Db, z: Db) {
    && NeverUnknownAgain(db, z)
    && (forall t :: t in z.tasks ==> t in db.tasks && z.tasks[t].deployment == db.tasks[t].deployment)
  }

  lemma FewerTasks(db: Db, z: Db, d: DeploymentId)
    requires forall t :: t in z.tasks ==> t in db.tasks && z.tasks[t].deployment == db.tasks[t].deployment
    ensures |TasksOf(z, d)| <= |TasksOf(db, d)|
  {
    assert TasksOf(z, d) <= TasksOf(db, d);
    Counting.SubsetSize(TasksOf(z, d), TasksOf(db, d));
  }

  /** A step of anybody else. */
  lemma OtherStepKeepsBound(s: State, z: State)
    requires CreationOk(s) && RowsOk(z.db) && OnlyLeavesUnknown(s.db, z.db)
    requires z.dw == s.dw && z.created == s.created && z.crashes == s.crashes
    ensures CreationOk(z)
  {
    forall d: DeploymentId ensures BoundOk(z, d) {
      assert BoundOk(s, d);
      FewerTasks(s.db, z.db, d);
    }
    if s.dw.MarkingPending? && s.dw.todo != [] {
      assert BoundOk(s, s.dw.todo[0]);
      assert s.dw.todo[0] in Selected(s.dw);
    }
  }

  lemma StrategyLeavesUnknown(db: Db, st: Strategy, found: seq<HostId>)
    requires RowsOk(db)
    ensures OnlyLeavesUnknown(db, StepStrategy(db, st, found).0)
  {
    var z := StepStrategy(db, st, found).0;
    if st.pc.MarkDeployment? && st.deployment in db.deployments {
      assert z == WriteDeploymentStatus(db, st.deployment, st.pc.loadedStatus, Running);
    } else if st.pc.SkipDeployment? && st.deployment in db.deployments {
      assert z == WriteDeploymentStatus(db, st.deployment, st.pc.loadedStatus, Skipped);
    } else if st.pc.MarkDeployment? || st.pc.SkipDeployment? {
      assert z == db;
    } else {
      StrategyTaskWrites(db, st, found);
    }
  }

  lemma StrategyTaskWrites(db: Db, st: Strategy, found: seq<HostId>)
    requires !st.pc.MarkDeployment? && !st.pc.SkipDeployment?
    ensures var z := StepStrategy(db, st, found).0;
            && z.deployments == db.deployments && z.nextDeployment == db.nextDeployment
            && z.tasks.Keys == db.tasks.Keys
            && forall t :: t in z.tasks ==> z.tasks[t].deployment == db.tasks[t].deployment
  {
    if !st.pc.MarkTask? && !st.pc.WriteTally? && !st.pc.SkipTask? {
      assert StepStrategy(db, st, found).0 == db;
    }
  }

  lemma ReportLeavesUnknown(db: Db, t: TaskId, h: HostId, outcome: Outcome)
    requires RowsOk(db)
    ensures OnlyLeavesUnknown(db, TakeReport(db, t, h, outcome))
  {
    if t in db.tasks && h in db.hosts {
      var db1 := InsertLog(db, Log(t, h, outcome));
      var tally := Tally(db1.tasks[t].tally.total, CountHosts(db1, t, HostUpdated), CountHosts(db1, t, HostFailed));
      var db2 := UpdateTaskTally(db1, t, tally);
      assert TakeReport(db, t, h, outcome) == SyncTaskStatus(db2, t);
      assert db2.deployments == db.deployments;
    }
  }

  lemma UserLeavesUnknown(db: Db, l: Step)
    requires RowsOk(db) && IsUserStep(l)
    ensures OnlyLeavesUnknown(db, StepUser(db, l))
  {
  }

  lemma TaskWorkerLeavesUnknown(s: State)
    requires RowsOk(s.db) && !s.tw.DeletingOrphan?
    ensures OnlyLeavesUnknown(s.db, StepTaskWorker(s).db)
  {
  }

  lemma OtherStepLeavesUnknown(s: State, l: Step)
    requires RowsOk(s.db) && !s.tw.DeletingOrphan? && Enabled(s, l) && !IsDeploymentWorkerStep(l)
    ensures OnlyLeavesUnknown(s.db, Apply(s, l).db)
  {
    if l.StrategySteps? {
      StrategyLeavesUnknown(s.db, s.strategies[l.strategy], l.found);
    } else if l.ReportTaken? {
      ReportLeavesUnknown(s.db, l.task, l.host, l.outcome);
    } else if l.TaskWorkerSteps? {
      TaskWorkerLeavesUnknown(s);
    } else if IsUserStep(l) {
      UserLeavesUnknown(s.db, l);
    } else {
      assert Apply(s, l).db == s.db;
    }
  }

  /** Nothing ever writes "unknown" to an existing deployment. */
  lemma {:induction false} NothingWritesUnknown(s: State, steps: seq<Step>, z: State)
    requires Inv(s) && Run(s, steps, z)
    ensures NeverUnknownAgain(s.db, z.db)
    decreases |steps|
  {
    if steps == [] {
    } else {
      StepNeverUnknownAgain(s, steps[0]);
      StepKeepsInv(s, steps[0]);
      NothingWritesUnknown(Apply(s, steps[0]), steps[1..], z);
    }
  }

  lemma StepNeverUnknownAgain(s: State, l: Step)
    requires Inv(s) && Enabled(s, l)
    ensures NeverUnknownAgain(s.db, Apply(s, l).db)
  {
    assert RowsOk(s.db) && !s.tw.DeletingOrphan?;
    if IsDeploymentWorkerStep(l) {
      DeploymentWorkerNeverWritesUnknown(s, l);
    } else {
      OtherStepLeavesUnknown(s, l);
    }
  }

  lemma WorkerStepNeverWritesUnknown(s: State)
    ensures NeverUnknownAgain(s.db, StepDeploymentWorker(s).db)
  {
  }

  lemma DeploymentWorkerNeverWritesUnknown(s: State, l: Step)
    requires Enabled(s, l) && IsDeploymentWorkerStep(l)
    ensures NeverUnknownAgain(s.db, Apply(s, l).db)
  {
    if l.DeploymentWorkerSteps? {
      WorkerStepNeverWritesUnknown(s);
    } else {
      assert Apply(s, l).db == s.db;
    }
  }

  lemma OneMoreTask(db: Db, d: DeploymentId, e: DeploymentId)
    requires RowsOk(db)
    ensures |TasksOf(InsertTask(db, d), e)| == |TasksOf(db, e)| + (if e == d then 1 else 0)
  {
    var z := InsertTask(db, d);
    assert TasksOf(z, e) == TasksOf(db, e) + (if e == d then {db.nextTask} else {});
  }

  lemma FireKeepsBound(s: State, now: int, due: seq<DeploymentId>)
    requires CreationOk(s) && Enabled(s, DeploymentWorkerFires(now, due))
    ensures CreationOk(Apply(s, DeploymentWorkerFires(now, due)))
  {
    var z := Apply(s, DeploymentWorkerFires(now, due));
    forall d: DeploymentId ensures BoundOk(z, d) {
      assert BoundOk(s, d);
      assert d in due ==> IsUnknown(s.db, d);
    }
  }

  lemma CrashKeepsBound(s: State)
    requires CreationOk(s)
    ensures CreationOk(CrashDeploymentWorker(s))
  {
    forall d: DeploymentId ensures BoundOk(CrashDeploymentWorker(s), d) {
      assert BoundOk(s, d);
    }
  }

  lemma InsertKeepsBound(s: State)
    requires CreationOk(s) && s.dw.CreatingTask? && s.dw.todo != [] && s.dw.todo[0] in s.db.deployments
    ensures CreationOk(StepDeploymentWorker(s))
  {
    var z := StepDeploymentWorker(s);
    var h := s.dw.todo[0];
    forall d: DeploymentId ensures BoundOk(z, d) {
      assert BoundOk(s, d);
      OneMoreTask(s.db, h, d);
      HeadOrTail(s.dw.todo, d);
    }
  }

  lemma HeadOrTail(todo: seq<DeploymentId>, d: DeploymentId)
    requires todo != []
    ensures d in todo <==> d == todo[0] || d in todo[1..]
    ensures Distinct(todo) ==> todo[0] !in todo[1..] && Distinct(todo[1..])
  {
    assert todo == [todo[0]] + todo[1..];
  }

  /** The deployment at the head is done with: it is gone or no longer unknown. */
  lemma NextKeepsBound(s: State, db: Db)
    requires CreationOk(s) && s.dw != DeploymentsIdle && s.dw.todo != [] && !s.dw.CreatingTask?
    requires RowsOk(db) && OnlyLeavesUnknown(s.db, db) && !IsUnknown(db, s.dw.todo[0])
    ensures CreationOk(s.(db := db, dw := CreatingTask(s.dw.todo[1..])))
  {
    var z := s.(db := db, dw := CreatingTask(s.dw.todo[1..]));
    HeadOrTail(s.dw.todo, s.dw.todo[0]);
    forall d: DeploymentId ensures BoundOk(z, d) {
      assert BoundOk(s, d);
      FewerTasks(s.db, db, d);
      HeadOrTail(s.dw.todo, d);
    }
  }

  lemma StillKeepsBound(s: State, dw: DeploymentWorker)
    requires CreationOk(s) && Selected(dw) == Selected(s.dw) && ToCreate(dw) == ToCreate(s.dw)
    requires dw.MarkingPending? && dw.todo != [] && dw.loaded != Unknown ==> !IsUnknown(s.db, dw.todo[0])
    ensures CreationOk(s.(dw := dw))
  {
    forall d: DeploymentId ensures BoundOk(s.(dw := dw), d) {
      assert BoundOk(s, d);
    }
  }

  lemma WorkerStepKeepsBound(s: State)
    requires CreationOk(s) && s.dw != DeploymentsIdle
    ensures CreationOk(StepDeploymentWorker(s))
  {
    var todo := s.dw.todo;
    if todo == [] {
      StillKeepsBound(s, DeploymentsIdle);
    } else if s.dw.ReadingDue? {
      if todo[0] in s.db.deployments {
        StillKeepsBound(s, MarkingPending(todo, s.db.deployments[todo[0]].status));
      } else {
        NextKeepsBound(s, s.db);
      }
    } else if todo[0] !in s.db.deployments {
      CrashKeepsBound(s);
    } else if s.dw.CreatingTask? {
      InsertKeepsBound(s);
    } else {
      NextKeepsBound(s, WriteDeploymentStatus(s.db, todo[0], s.dw.loaded, Pending));
    }
  }

  lemma WorkerKeepsBound(s: State, l: Step)
    requires CreationOk(s) && Enabled(s, l) && IsDeploymentWorkerStep(l)
    ensures CreationOk(Apply(s, l))
  {
    if l.DeploymentWorkerFires? {
      FireKeepsBound(s, l.now, l.due);
    } else if l.DeploymentWorkerCrashes? {
      CrashKeepsBound(s);
    } else {
      WorkerStepKeepsBound(s);
    }
  }

  lemma OthersLeaveTheWorker(s: State, l: Step)
    requires Enabled(s, l) && !IsDeploymentWorkerStep(l)
    ensures var z := Apply(s, l); z.dw == s.dw && z.created == s.created && z.crashes == s.crashes
  {
  }

  lemma StepKeepsBound(s: State, l: Step)
    requires Inv(s) && CreationOk(s) && Enabled(s, l)
    ensures CreationOk(Apply(s, l))
  {
    if IsDeploymentWorkerStep(l) {
      WorkerKeepsBound(s, l);
    } else {
      StepKeepsInv(s, l);
      OthersLeaveTheWorker(s, l);
      OtherStepLeavesUnknown(s, l);
      OtherStepKeepsBound(s, Apply(s, l));
    }
  }

  lemma {:induction false} RunKeepsBound(s: State, steps: seq<Step>, z: State)
    requires Inv(s) && CreationOk(s) && Run(s, steps, z)
    ensures CreationOk(z)
    decreases |steps|
  {
    if steps == [] {
    } else {
      StepKeepsInv(s, steps[0]);
      StepKeepsBound(s, steps[0]);
      RunKeepsBound(Apply(s, steps[0]), steps[1..], z);
    }
  }

  /** In every run a deployment gets at most one task more than the worker has crashed, and the
      rows that exist are among those created. */
  lemma TasksAreBounded(z: State, d: DeploymentId)
    requires Reachable(z)
    ensures |TasksOf(z.db, d)| <= z.created[d] <= 1 + z.crashes
  {
    var s :| Init(s) && Leads(s, z);
    var steps :| Run(s, steps, z);
    forall e: DeploymentId ensures BoundOk(s, e) {
      assert TasksOf(s.db, e) == {};
    }
    RunKeepsBound(s, steps, z);
    assert BoundOk(z, d);
  }

  // ----- the bound is reached -----

  const TWO_STEPS := [DeploymentWorkerFires(1, [0]), DeploymentWorkerSteps]

  predicate OnlyDue(s: State) {
    s.dw == DeploymentsIdle && s.db.deployments.Keys == {0} && RowsOk(s.db) && DueOnce(s.db.deployments[0], 1)
  }

  lemma TwoStepsRun(s: State)
    requires OnlyDue(s)
    ensures var z := s.(db := InsertTask(s.db, 0), dw := ReadingDue([0]), created := s.created + multiset{0});
            Run(s, TWO_STEPS, z)
  {
    assert DueDeployments(s.db, 1) == {0};
    assert Enabled(s, DeploymentWorkerFires(1, [0]));
    assert TWO_STEPS[1..] == [DeploymentWorkerSteps] && TWO_STEPS[1..][1..] == [];
  }

  /** The worker selects the deployment and creates a task for it. */
  lemma OneTaskCreated(s: State) returns (z: State)
    requires OnlyDue(s)
    ensures Run(s, TWO_STEPS, z) && z.crashes == s.crashes && OnlyDue(CrashDeploymentWorker(z))
    ensures |TasksOf(z.db, 0)| == |TasksOf(s.db, 0)| + 1
  {
    z := s.(db := InsertTask(s.db, 0), dw := ReadingDue([0]), created := s.created + multiset{0});
    TwoStepsRun(s);
    OneMoreTask(s.db, 0, 0);
  }

  lemma AfterTwoSteps(s: State, m: State, rest: seq<Step>, z: State)
    requires Run(s, TWO_STEPS, m) && Run(CrashDeploymentWorker(m), rest, z)
    ensures Run(s, TWO_STEPS + ([DeploymentWorkerCrashes] + rest), z)
  {
    var crashAndRest := [DeploymentWorkerCrashes] + rest;
    assert crashAndRest[1..] == rest && Run(m, crashAndRest, z);
    RunConcat(s, TWO_STEPS, m, crashAndRest, z);
  }

  /** A worker that dies each time right after creating the task. */
  lemma {:induction false} CrashingRuns(s: State, n: nat) returns (steps: seq<Step>, z: State)
    requires OnlyDue(s)
    ensures OkRun(s, steps, z) && z.crashes == s.crashes + n
    ensures |TasksOf(z.db, 0)| == |TasksOf(s.db, 0)| + n + 1
    decreases n
  {
    var m := OneTaskCreated(s);
    if n == 0 {
      steps, z := TWO_STEPS, m;
    } else {
      var rest;
      rest, z := CrashingRuns(CrashDeploymentWorker(m), n - 1);
      steps := TWO_STEPS + ([DeploymentWorkerCrashes] + rest);
      AfterTwoSteps(s, m, rest, z);
    }
  }

  /** For every number of crashes some run in which users store only rows that are in order reaches
      the bound. */
  lemma BoundIsReached(n: nat)
    ensures exists z :: OkReachable(z) && z.crashes == n && |TasksOf(z.db, 0)| == n + 1
  {
    var s := State(EMPTY_DB, DeploymentsIdle, TasksIdle, [], map[], {}, multiset{}, 0);
    var first := Apply(s, DeploymentCreated(DEPLOYMENT));
    assert TasksOf(first.db, 0) == {};
    TheyAreOk();
    OkStep(s, DeploymentCreated(DEPLOYMENT), first);
    var steps, z := CrashingRuns(first, n);
    assert OkLeads(first, z);
    OkLeadsOn(s, first, z);
    assert Init(s) && OkReachable(z);
  }
}
