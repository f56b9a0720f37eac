/** Strategies and their patch processes keep the invariant. */
module StrategySteps {
  import opened Wrappers
  import opened Targets
  import opened Rows
  import opened Counting
  import opened Machine
  import opened Invariants
  import opened Frames

  /** Replacing one strategy by a successor with the same task and the same posted commands. */
  predicate Succeeds(st: Strategy, z: Strategy) {
    && z.task == st.task
    && |st.children| <= |z.children|
    && forall j :: 0 <= j < |st.children| ==>
         z.children[j].host == st.children[j].host && (HasPosted(st.children[j]) ==> HasPosted(z.children[j]))
  }

  /** What a strategy's own step does to the rows: only its task's row and deployment statuses. */
  predicate OwnRowsOnly(db: Db, z: Db, t: TaskId) {
    && z.logs == db.logs && z.hosts == db.hosts && z.groups == db.groups
    && z.nextTask == db.nextTask && z.nextLog == db.nextLog && z.nextHost == db.nextHost
    && z.nextDeployment == db.nextDeployment
    && z.tasks.Keys == db.tasks.Keys && z.deployments.Keys == db.deployments.Keys
    && (forall u :: u in db.tasks && u != t ==> z.tasks[u] == db.tasks[u])
    && (t in db.tasks ==> z.tasks[t].deployment == db.tasks[t].deployment)
  }

  lemma StrategyUpdateKeepsInv(s: State, i: nat, db: Db, st: Strategy)
    requires Inv(s) && i < |s.strategies|
    requires Succeeds(s.strategies[i], st) && OwnRowsOnly(s.db, db, st.task)
    requires StrategyOk(db, s.agents, s.sent, st)
    ensures Inv(s.(db := db, strategies := s.strategies[i := st]))
  {
    var z := s.(db := db, strategies := s.strategies[i := st]);
    UniqueSurvives(s.strategies, i, st);
    SentSurvives(s.strategies, i, st, s.sent);
    OtherStrategiesOk(s, i, db, st);
    ClaimsSurvive(s, i, db, st);
  }

  lemma OtherStrategiesOk(s: State, i: nat, db: Db, st: Strategy)
    requires StrategiesOk(s) && UniqueTasks(s.strategies) && i < |s.strategies|
    requires st.task == s.strategies[i].task && OwnRowsOnly(s.db, db, st.task)
    requires StrategyOk(db, s.agents, s.sent, st)
    ensures StrategiesOk(s.(db := db, strategies := s.strategies[i := st]))
  {
    var z := s.(db := db, strategies := s.strategies[i := st]);
    forall k | 0 <= k < |z.strategies| ensures StrategyOk(db, s.agents, s.sent, z.strategies[k]) {
      if k != i {
        assert s.strategies[k].task != st.task;
        StrategyFrameDb(s.db, db, s, s.strategies[k]);
      }
    }
  }

  lemma SentSurvives(strategies: seq<Strategy>, i: nat, st: Strategy, sent: set<(TaskId, HostId)>)
    requires i < |strategies| && Succeeds(strategies[i], st) && SentOk(strategies, sent)
    ensures SentOk(strategies[i := st], sent)
  {
    var z := strategies[i := st];
    forall t, h | (t, h) in sent ensures exists a, b :: Posted(z, t, h, a, b) {
      var a, b :| Posted(strategies, t, h, a, b);
      assert Posted(z, t, h, a, b);
    }
  }

  lemma SameTasksUnclaimed(s: seq<Strategy>, i: nat, st: Strategy)
    requires i < |s| && s[i].task == st.task
    ensures forall t :: Unclaimed(s, t) <==> Unclaimed(s[i := st], t)
  {
    var z := s[i := st];
    forall t ensures Unclaimed(s, t) <==> Unclaimed(z, t) {
      if Unclaimed(z, t) {
        forall k | 0 <= k < |s| ensures s[k].task != t {
          assert z[k].task != t;
        }
      }
    }
  }

  lemma UniqueSurvives(strategies: seq<Strategy>, i: nat, st: Strategy)
    requires i < |strategies| && st.task == strategies[i].task && UniqueTasks(strategies)
    ensures UniqueTasks(strategies[i := st])
  {
  }

  /** Tasks without a strategy are not touched, so the task worker's state stays sound. */
  lemma ClaimsSurvive(s: State, i: nat, db: Db, st: Strategy)
    requires i < |s.strategies| && st.task == s.strategies[i].task && OwnRowsOnly(s.db, db, st.task)
    requires UnclaimedOk(s.db.tasks, s.strategies) && TaskWorkerOk(s.db, s.strategies, s.tw)
    ensures UnclaimedOk(db.tasks, s.strategies[i := st]) && TaskWorkerOk(db, s.strategies[i := st], s.tw)
  {
    var z := s.strategies[i := st];
    SameTasksUnclaimed(s.strategies, i, st);
    assert !Unclaimed(s.strategies, st.task);
    forall c, status | ClaimOk(s.db, s.strategies, c, status) ensures ClaimOk(db, z, c, status) {
    }
  }

  // ----- the strategy's own steps -----

  /** A step that leaves tasks and logs alone, and the children too. */
  lemma QuietStepOk(s: State, st: Strategy, db: Db, z: Strategy)
    requires StrategyOk(s.db, s.agents, s.sent, st)
    requires db == s.db.(deployments := db.deployments)
    requires z.task == st.task && z.children == st.children && ShapeOk(z)
    requires z.snapshot == st.snapshot || (st.children == [] && st.snapshot.None? && Early(z.pc))
    requires IdsOk(db, z)
    requires st.task in s.db.tasks ==> TaskRowOk(s.db.tasks[st.task], z)
    ensures StrategyOk(db, s.agents, s.sent, z)
  {
    if z.snapshot != st.snapshot {
      assert forall id :: id in s.db.logs ==> s.db.logs[id].task != st.task;
    }
    assert LogIds(db, st.task, HostUpdated) == LogIds(s.db, st.task, HostUpdated);
    assert LogIds(db, st.task, HostFailed) == LogIds(s.db, st.task, HostFailed);
  }

  /** The strategy writes its task's row before it has any child, or when it has no host at all. */
  lemma OwnWriteOk(s: State, st: Strategy, row: Task, z: Strategy)
    requires StrategyOk(s.db, s.agents, s.sent, st) && st.task in s.db.tasks
    requires z == st.(pc := z.pc) && st.children == [] && ShapeOk(z)
    requires TaskRowOk(row, z)
    ensures StrategyOk(s.db.(tasks := s.db.tasks[st.task := row]), s.agents, s.sent, z)
  {
  }

  predicate OwnStepOk(s: State, st: Strategy, db: Db, z: Strategy) {
    Succeeds(st, z) && OwnRowsOnly(s.db, db, st.task)
  }

  predicate QuietPc(pc: StrategyPc) {
    && !pc.MarkTask? && !pc.WriteTally? && !pc.SkipTask?
    && !pc.NextHost? && !pc.SendMessage? && !pc.Waiting?
  }

  predicate LoadingPc(pc: StrategyPc) {
    pc.LoadDeployment? || pc.LoadGroups? || pc.LoadHosts?
  }

  lemma LoadingShape(db: Db, st: Strategy, found: seq<HostId>)
    requires ShapeOk(st) && LoadingPc(st.pc) && FoundHosts(db, st.pc, found)
    ensures var next := StepLoading(db, st, found);
            && next.task == st.task && next.children == st.children == [] && ShapeOk(next)
            && (next.snapshot == st.snapshot || (st.snapshot.None? && Early(next.pc)))
  {
  }

  lemma QuietWritingShape(db: Db, st: Strategy)
    requires ShapeOk(st) && QuietPc(st.pc) && !LoadingPc(st.pc) && !Over(st)
    requires st.task in db.tasks ==> TaskRowOk(db.tasks[st.task], st)
    ensures var (z, next) := StepWriting(db, st);
            && z == db.(deployments := z.deployments) && z.deployments.Keys == db.deployments.Keys
            && next == st.(pc := next.pc) && ShapeOk(next)
  {
  }

  lemma QuietPcShape(db: Db, st: Strategy, found: seq<HostId>)
    requires ShapeOk(st) && QuietPc(st.pc) && FoundHosts(db, st.pc, found)
    requires st.task in db.tasks ==> TaskRowOk(db.tasks[st.task], st)
    ensures var (z, next) := StepStrategy(db, st, found);
            && z == db.(deployments := z.deployments) && z.deployments.Keys == db.deployments.Keys
            && next.task == st.task && next.children == st.children && ShapeOk(next)
            && (next.snapshot == st.snapshot || (st.children == [] && st.snapshot.None? && Early(next.pc)))
  {
    if LoadingPc(st.pc) {
      LoadingShape(db, st, found);
    } else if !Over(st) {
      QuietWritingShape(db, st);
    }
  }

  lemma QuietPcRow(db: Db, st: Strategy, found: seq<HostId>)
    requires ShapeOk(st) && QuietPc(st.pc) && st.task in db.tasks && TaskRowOk(db.tasks[st.task], st)
    ensures TaskRowOk(db.tasks[st.task], StepStrategy(db, st, found).1)
  {
  }

  lemma QuietPcIds(db: Db, st: Strategy, found: seq<HostId>)
    requires RowsOk(db) && IdsOk(db, st) && FoundHosts(db, st.pc, found) && QuietPc(st.pc)
    ensures var (z, next) := StepStrategy(db, st, found); IdsOk(z, next)
  {
  }

  lemma QuietPcOk(s: State, st: Strategy, found: seq<HostId>)
    requires RowsOk(s.db) && StrategyOk(s.db, s.agents, s.sent, st) && FoundHosts(s.db, st.pc, found)
    requires QuietPc(st.pc)
    ensures var (db, z) := StepStrategy(s.db, st, found);
            OwnStepOk(s, st, db, z) && StrategyOk(db, s.agents, s.sent, z)
  {
    var (db, z) := StepStrategy(s.db, st, found);
    QuietPcShape(s.db, st, found);
    if st.task in s.db.tasks {
      QuietPcRow(s.db, st, found);
    }
    QuietPcIds(s.db, st, found);
    QuietStepOk(s, st, db, z);
  }

  predicate TaskWritingPc(pc: StrategyPc) {
    pc.MarkTask? || pc.WriteTally? || pc.SkipTask?
  }

  lemma TaskWriteShape(db: Db, st: Strategy)
    requires ShapeOk(st) && TaskWritingPc(st.pc)
    ensures var (z, next) := StepWriting(db, st);
            next == st.(pc := next.pc) && st.children == [] && ShapeOk(next)
  {
  }

  /** The write changes the task's row only, to one the next point can count on. */
  lemma TaskWriteRow(db: Db, st: Strategy)
    requires ShapeOk(st) && TaskWritingPc(st.pc) && st.task in db.tasks && TaskRowOk(db.tasks[st.task], st)
    ensures var (z, next) := StepWriting(db, st);
            && st.task in z.tasks && z == db.(tasks := db.tasks[st.task := z.tasks[st.task]])
            && z.tasks[st.task].deployment == db.tasks[st.task].deployment && TaskRowOk(z.tasks[st.task], next)
  {
  }

  lemma WritingPcOk(s: State, st: Strategy, found: seq<HostId>)
    requires StrategyOk(s.db, s.agents, s.sent, st) && TaskWritingPc(st.pc)
    ensures var (db, z) := StepStrategy(s.db, st, found);
            OwnStepOk(s, st, db, z) && StrategyOk(db, s.agents, s.sent, z)
  {
    var (db, z) := StepStrategy(s.db, st, found);
    TaskWriteShape(s.db, st);
    if st.task in s.db.tasks {
      TaskWriteRow(s.db, st);
      OwnWriteOk(s, st, db.tasks[st.task], z);
    } else {
      QuietStepOk(s, st, db, z);
    }
  }

  lemma SpawnOk(s: State, st: Strategy, found: seq<HostId>)
    requires StrategyOk(s.db, s.agents, s.sent, st) && st.pc.NextHost?
    requires st.snapshot.Some? && |st.children| < |st.snapshot.value|
    ensures var (db, z) := StepStrategy(s.db, st, found);
            Succeeds(st, z) && db == s.db && StrategyOk(db, s.agents, s.sent, z)
  {
    var (_, z) := StepStrategy(s.db, st, found);
    assert z.children[|z.children| - 1] == Patch(st.snapshot.value[|st.children|], Receiving);
    assert forall j :: 0 <= j < |st.children| ==> z.children[j] == st.children[j];
    if st.children == [] {
      assert LogIds(s.db, st.task, HostUpdated) == {} == LogIds(s.db, st.task, HostFailed);
    }
    assert ShapeOk(z);
    if st.task in s.db.tasks {
      assert TaskRowOk(s.db.tasks[st.task], z);
    }
    assert TaskLogsOk(s.db, z);
  }

  /** A child is replaced by one for the same host that has not ended. */
  lemma ChildUpdateOk(s: State, st: Strategy, j: nat, p: Patch, pc: StrategyPc)
    requires StrategyOk(s.db, s.agents, s.sent, st) && j < |st.children|
    requires p.host == st.children[j].host
    requires p.pc == Ended ==> Logged(s.db.logs, st.task, p.host)
    requires Early(pc) == Early(st.pc) && (pc == st.pc || (st.pc.SendMessage? && pc.Waiting?))
    requires ShapeOk(st.(pc := pc, children := st.children[j := p]))
    ensures StrategyOk(s.db, s.agents, s.sent, st.(pc := pc, children := st.children[j := p]))
  {
    var z := st.(pc := pc, children := st.children[j := p]);
    assert z.children != [] && |z.children| == |st.children|;
    if st.task in s.db.tasks {
      assert TaskRowOk(s.db.tasks[st.task], z);
    }
    assert TaskLogsOk(s.db, z);
  }

  lemma LoopPcOk(s: State, st: Strategy, found: seq<HostId>)
    requires StrategyOk(s.db, s.agents, s.sent, st)
    requires st.pc.NextHost? || st.pc.SendMessage? || st.pc.Waiting?
    ensures var (db, z) := StepStrategy(s.db, st, found);
            OwnStepOk(s, st, db, z) && StrategyOk(db, s.agents, s.sent, z)
  {
    var (db, z) := StepStrategy(s.db, st, found);
    if st.pc.SendMessage? {
      var n := |st.children| - 1;
      var p := Hear(st.children[n]);
      assert z == st.(pc := Waiting, children := st.children[n := p]);
      ChildUpdateOk(s, st, n, p, Waiting);
    } else if st.pc.NextHost? && st.snapshot.Some? && |st.children| < |st.snapshot.value| {
      SpawnOk(s, st, found);
    } else {
      QuietStepOk(s, st, db, z);
    }
  }

  lemma StrategyKeepsInv(s: State, l: Step)
    requires Inv(s) && Enabled(s, l) && (l.StrategySteps? || l.StrategyCrashes?)
    ensures Inv(Apply(s, l))
  {
    var st := s.strategies[l.strategy];
    assert StrategyOk(s.db, s.agents, s.sent, st);
    if l.StrategyCrashes? {
      var z := st.(pc := Crashed);
      QuietStepOk(s, st, s.db, z);
      StrategyUpdateKeepsInv(s, l.strategy, s.db, z);
    } else {
      if QuietPc(st.pc) {
        QuietPcOk(s, st, l.found);
      } else if st.pc.NextHost? || st.pc.SendMessage? || st.pc.Waiting? {
        LoopPcOk(s, st, l.found);
      } else {
        WritingPcOk(s, st, l.found);
      }
      var (db, z) := StepStrategy(s.db, st, l.found);
      StrategyUpdateKeepsInv(s, l.strategy, db, z);
    }
  }

  // ----- patch processes -----

  lemma ChildUpdateKeepsInv(s: State, i: nat, j: nat, p: Patch)
    requires Inv(s) && IsChild(s, i, j)
    requires var c := s.strategies[i].children[j];
             && p.host == c.host && (HasPosted(c) ==> HasPosted(p))
             && !Dead(c) && (c.pc == Receiving ==> p.pc == Died) && p.pc != Receiving
             && (p.pc == Ended ==> Logged(s.db.logs, s.strategies[i].task, p.host))
    ensures Inv(WithChild(s, i, j, p))
  {
    var st := s.strategies[i];
    assert StrategyOk(s.db, s.agents, s.sent, st);
    var z := st.(children := st.children[j := p]);
    assert z == st.(pc := st.pc, children := st.children[j := p]);
    ChildShapeOk(st, j, p);
    ChildUpdateOk(s, st, j, p, st.pc);
    StrategyUpdateKeepsInv(s, i, s.db, z);
    assert WithChild(s, i, j, p) == s.(db := s.db, strategies := s.strategies[i := z]);
  }

  lemma ChildShapeOk(st: Strategy, j: nat, p: Patch)
    requires ShapeOk(st) && j < |st.children| && p.host == st.children[j].host
    requires Dead(st.children[j]) ==> Dead(p)
    requires st.children[j].pc == Receiving ==> p.pc == Died
    requires st.children[j].pc == Died ==> p.pc == Died
    requires p.pc != Receiving
    ensures ShapeOk(st.(pc := st.pc, children := st.children[j := p]))
  {
  }

  lemma PatchPollKeepsInv(s: State, i: nat, j: nat)
    requires Inv(s) && Enabled(s, PatchPolls(i, j))
    ensures Inv(Apply(s, PatchPolls(i, j)))
  {
    ChildUpdateKeepsInv(s, i, j, PollPatch(s.db, s.strategies[i].task, s.strategies[i].children[j]));
  }

  lemma PatchCrashKeepsInv(s: State, i: nat, j: nat)
    requires Inv(s) && Enabled(s, PatchCrashes(i, j))
    ensures Inv(Apply(s, PatchCrashes(i, j)))
  {
    ChildUpdateKeepsInv(s, i, j, s.strategies[i].children[j].(pc := Died));
  }

  /** A process about to post is the only one that ever posts its command. */
  lemma PostingIsFirst(s: State, i: nat, j: nat)
    requires Inv(s) && IsChild(s, i, j) && s.strategies[i].children[j].pc == Posting
    ensures (s.strategies[i].task, s.strategies[i].children[j].host) !in s.sent
  {
    var st := s.strategies[i];
    var t, h := st.task, st.children[j].host;
    forall a, b ensures !Posted(s.strategies, t, h, a, b) {
      if Posted(s.strategies, t, h, a, b) {
        OneChildForEach(s, i, j, a, b);
      }
    }
  }

  /** No two patch processes are for the same task and host. */
  lemma OneChildForEach(s: State, i: nat, j: nat, a: nat, b: nat)
    requires Inv(s) && IsChild(s, i, j) && IsChild(s, a, b)
    requires s.strategies[i].task == s.strategies[a].task
    requires s.strategies[i].children[j].host == s.strategies[a].children[b].host
    ensures a == i && b == j
  {
    var st := s.strategies[i];
    assert StrategyOk(s.db, s.agents, s.sent, st);
    assert a == i;
    assert st.snapshot.value[b] == st.snapshot.value[j];
  }

  /** Recording the post and handing the command to the agent. */
  lemma PostKeepsInv(s: State, i: nat, j: nat, delivered: bool)
    requires Inv(s) && IsChild(s, i, j) && HasPosted(s.strategies[i].children[j])
    requires (s.strategies[i].task, s.strategies[i].children[j].host) !in s.sent
    ensures var t, h := s.strategies[i].task, s.strategies[i].children[j].host;
            var z := s.(sent := s.sent + {(t, h)});
            Inv(if delivered
                then WithAgent(z, h, AgentOf(z, h).(handlers := AgentOf(z, h).handlers + multiset{t})) else z)
  {
    var t, h := s.strategies[i].task, s.strategies[i].children[j].host;
    var z := s.(sent := s.sent + {(t, h)});
    var a := AgentOf(s, h);
    var w := if delivered then WithAgent(z, h, a.(handlers := a.handlers + multiset{t})) else z;
    PostedAgentsOk(s, t, h, w);
    PostedSentOk(s.strategies, s.sent, i, j);
    PostedStrategiesOk(s, i, j, w);
  }

  lemma PostedAgentsOk(s: State, t: TaskId, h: HostId, w: State)
    requires LogsOk(s.db.logs, s.sent) && AgentsOk(s.agents, s.sent, s.db.logs) && (t, h) !in s.sent
    requires w.db == s.db && w.sent == s.sent + {(t, h)}
    requires var a := AgentOf(s, h);
             w.agents == s.agents || w.agents == s.agents[h := a.(handlers := a.handlers + multiset{t})]
    ensures AgentsOk(w.agents, w.sent, w.db.logs)
    ensures forall g: HostId, u: TaskId :: (u, g) != (t, h)
              ==> Load(AgentIn(w.agents, g), u) == Load(AgentIn(s.agents, g), u)
  {
    assert !Logged(s.db.logs, t, h);
    assert Load(AgentOf(s, h), t) == 0 by {
      if h in s.agents {
        assert LoadOk(s.agents[h], h, t, s.sent, s.db.logs);
      }
    }
    forall g, u: TaskId | g in w.agents ensures LoadOk(w.agents[g], g, u, w.sent, w.db.logs) {
      if g in s.agents {
        assert LoadOk(s.agents[g], g, u, s.sent, s.db.logs);
      }
    }
  }

  lemma PostedSentOk(strategies: seq<Strategy>, sent: set<(TaskId, HostId)>, i: nat, j: nat)
    requires SentOk(strategies, sent) && i < |strategies| && j < |strategies[i].children|
    requires HasPosted(strategies[i].children[j])
    ensures SentOk(strategies, sent + {(strategies[i].task, strategies[i].children[j].host)})
  {
    assert Posted(strategies, strategies[i].task, strategies[i].children[j].host, i, j);
  }

  lemma PostedStrategiesOk(s: State, i: nat, j: nat, w: State)
    requires Inv(s) && IsChild(s, i, j)
    requires w.db == s.db && w.strategies == s.strategies && s.sent <= w.sent
    requires (s.strategies[i].task, s.strategies[i].children[j].host) !in s.sent
    requires forall g: HostId, u: TaskId :: (u, g) != (s.strategies[i].task, s.strategies[i].children[j].host)
               ==> Load(AgentIn(w.agents, g), u) == Load(AgentIn(s.agents, g), u)
    ensures StrategiesOk(w)
  {
    var t, h := s.strategies[i].task, s.strategies[i].children[j].host;
    forall k | 0 <= k < |w.strategies| ensures StrategyOk(w.db, w.agents, w.sent, w.strategies[k]) {
      var st := s.strategies[k];
      assert StrategyOk(s.db, s.agents, s.sent, st);
      if k == i {
        assert h == st.snapshot.value[j];
        assert h in st.snapshot.value;
      } else {
        assert st.task != t;
        StrategyFrame(s.db, s.db, s.agents, w.agents, s.sent, w.sent, st);
      }
    }
  }

  lemma PatchPostKeepsInv(s: State, i: nat, j: nat, delivered: bool, raised: bool)
    requires Inv(s) && Enabled(s, PatchPosts(i, j, delivered, raised))
    ensures Inv(Apply(s, PatchPosts(i, j, delivered, raised)))
  {
    var p := s.strategies[i].children[j].(pc := if raised then Died else AskingUpdated);
    PostingIsFirst(s, i, j);
    ChildUpdateKeepsInv(s, i, j, p);
    PostKeepsInv(WithChild(s, i, j, p), i, j, delivered);
  }
}
