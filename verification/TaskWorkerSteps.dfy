/** The task worker keeps the invariant. */
module TaskWorkerSteps {
  import opened Wrappers
  import opened Targets
  import opened Rows
  import opened Machine
  import opened Invariants
  import opened Frames

  predicate IsTaskWorkerStep(l: Step) {
    l.TaskWorkerFires? || l.TaskWorkerSteps? || l.TaskWorkerCrashes?
  }

  /** Only the worker's control state changed. */
  lemma InvAtNextCall(s: State, tw: TaskWorker)
    requires Inv(s) && TaskWorkerOk(s.db, s.strategies, tw)
    ensures Inv(s.(tw := tw))
  {
    var z := s.(tw := tw);
    forall i | 0 <= i < |z.strategies| ensures StrategyOk(z.db, z.agents, z.sent, z.strategies[i]) {
      assert StrategyOk(s.db, s.agents, s.sent, s.strategies[i]);
    }
  }

  lemma TodoTail(db: Db, strategies: seq<Strategy>, todo: seq<Claim>)
    requires TodoOk(db, strategies, todo) && todo != []
    ensures TodoOk(db, strategies, todo[1..])
  {
    forall i | 0 <= i < |todo| - 1 ensures ClaimOk(db, strategies, todo[1..][i], Pending) {
      assert todo[1..][i] == todo[i + 1];
    }
  }

  /** A pending task has no strategy yet. */
  lemma PendingIsUnclaimed(s: State, t: TaskId)
    requires Inv(s) && t in s.db.tasks && s.db.tasks[t].status == Pending
    ensures Unclaimed(s.strategies, t)
  {
    forall i | 0 <= i < |s.strategies| ensures s.strategies[i].task != t {
      assert StrategyOk(s.db, s.agents, s.sent, s.strategies[i]);
    }
  }

  lemma FiringKeepsInv(s: State, pending: seq<Claim>)
    requires Inv(s) && ListsPending(pending, s.db)
    ensures Inv(s.(tw := LookingUp(pending)))
  {
    forall i | 0 <= i < |pending| ensures ClaimOk(s.db, s.strategies, pending[i], Pending) {
      assert pending[i] in pending;
      PendingIsUnclaimed(s, pending[i].task);
    }
    forall i, j | 0 <= i < j < |pending| ensures pending[i].task != pending[j].task {
      assert pending[i] in pending && pending[j] in pending;
    }
    InvAtNextCall(s, LookingUp(pending));
  }

  lemma MarkingKeepsInv(s: State)
    requires Inv(s) && s.tw.MarkingRunning? && s.tw.todo != [] && s.tw.todo[0].task in s.db.tasks
    ensures Inv(StepTaskWorker(s))
  {
    var db := WriteTaskStatus(s.db, s.tw.todo[0].task, s.tw.loaded, Running);
    MarkedStrategiesOk(s, db);
    MarkedClaimsOk(s.db, s.strategies, s.tw);
    assert StepTaskWorker(s) == s.(db := db, tw := Spawning(s.tw.todo, s.tw.rollout));
  }

  lemma MarkedStrategiesOk(s: State, db: Db)
    requires StrategiesOk(s) && TaskWorkerOk(s.db, s.strategies, s.tw)
    requires s.tw.MarkingRunning? && s.tw.todo != [] && s.tw.todo[0].task in s.db.tasks
    requires db == WriteTaskStatus(s.db, s.tw.todo[0].task, s.tw.loaded, Running)
    ensures StrategiesOk(s.(db := db, tw := Spawning(s.tw.todo, s.tw.rollout)))
  {
    assert ClaimOk(s.db, s.strategies, s.tw.todo[0], Pending);
    StrategiesFrameDb(s, db);
    forall i | 0 <= i < |s.strategies| ensures StrategyOk(db, s.agents, s.sent, s.strategies[i]) {
      assert s.(db := db).strategies[i] == s.strategies[i];
    }
  }

  lemma MarkedClaimsOk(db: Db, strategies: seq<Strategy>, tw: TaskWorker)
    requires tw.MarkingRunning? && TaskWorkerOk(db, strategies, tw) && UnclaimedOk(db.tasks, strategies)
    requires tw.todo != [] && tw.todo[0].task in db.tasks
    ensures var z := WriteTaskStatus(db, tw.todo[0].task, tw.loaded, Running);
            UnclaimedOk(z.tasks, strategies) && TaskWorkerOk(z, strategies, Spawning(tw.todo, tw.rollout))
  {
    var todo := tw.todo;
    var z := WriteTaskStatus(db, todo[0].task, tw.loaded, Running);
    assert ClaimOk(db, strategies, todo[0], Pending);
    forall i | 0 <= i < |todo| - 1 ensures ClaimOk(z, strategies, todo[1..][i], Pending) {
      assert ClaimOk(db, strategies, todo[i + 1], Pending) && todo[1..][i] == todo[i + 1];
    }
  }

  lemma SpawningKeepsInv(s: State)
    requires Inv(s) && s.tw.Spawning? && s.tw.rollout == "one_by_one"
    ensures Inv(StepTaskWorker(s))
  {
    var c := s.tw.todo[0];
    var z := StepTaskWorker(s);
    var n := |s.strategies|;
    forall i | 0 <= i < |z.strategies| ensures StrategyOk(z.db, z.agents, z.sent, z.strategies[i]) {
      if i < n {
        assert StrategyOk(s.db, s.agents, s.sent, s.strategies[i]);
      } else {
        NewStrategyOk(s, c);
      }
    }
    forall t, h | (t, h) in z.sent ensures exists i, j :: Posted(z.strategies, t, h, i, j) {
      var i, j :| Posted(s.strategies, t, h, i, j);
      assert Posted(z.strategies, t, h, i, j);
    }
    forall t | t in z.db.tasks && Unclaimed(z.strategies, t)
      ensures z.db.tasks[t].tally == NO_TALLY && z.db.tasks[t].status in {Pending, Running}
    {
      assert forall i :: 0 <= i < n ==> z.strategies[i] == s.strategies[i];
      assert Unclaimed(s.strategies, t);
    }
    var rest := s.tw.todo[1..];
    forall i | 0 <= i < |rest| ensures ClaimOk(z.db, z.strategies, rest[i], Pending) {
      assert ClaimOk(s.db, s.strategies, rest[i], Pending);
      assert rest[i] == s.tw.todo[i + 1];
    }
  }

  lemma NewStrategyOk(s: State, c: Claim)
    requires Inv(s) && ClaimOk(s.db, s.strategies, c, Running)
    ensures StrategyOk(s.db, s.agents, s.sent, NewStrategy(c))
  {
    forall id | id in s.db.logs ensures s.db.logs[id].task != c.task {
      var i, j :| Posted(s.strategies, s.db.logs[id].task, s.db.logs[id].host, i, j);
    }
  }

  lemma TaskWorkerKeepsInv(s: State, l: Step)
    requires Inv(s) && Enabled(s, l) && IsTaskWorkerStep(l)
    ensures Inv(Apply(s, l))
  {
    if l.TaskWorkerFires? {
      FiringKeepsInv(s, l.pending);
    } else if l.TaskWorkerCrashes? {
      InvAtNextCall(s, TasksIdle);
    } else if s.tw.Spawning? && s.tw.rollout == "one_by_one" {
      SpawningKeepsInv(s);
    } else if s.tw.MarkingRunning? && s.tw.todo != [] && s.tw.todo[0].task in s.db.tasks {
      MarkingKeepsInv(s);
    } else {
      if s.tw.todo != [] && !s.tw.Spawning? {
        TodoTail(s.db, s.strategies, s.tw.todo);
      }
      InvAtNextCall(s, StepTaskWorker(s).tw);
    }
  }
}
