/** Steps that leave a task alone keep everything its strategy relies on. */
module Frames {
  import opened Wrappers
  import opened Targets
  import opened Rows
  import opened Counting
  import opened Machine
  import opened Invariants

  /** From `db` to `z` the task's row is untouched or deleted, and its log rows are untouched
      except for those of deleted hosts. */
  predicate KeepsTask(db: Db, z: Db, t: TaskId) {
    && db.nextTask <= z.nextTask && db.nextHost <= z.nextHost
    && (t in z.tasks ==> t in db.tasks && z.tasks[t] == db.tasks[t])
    && (forall h :: h in z.hosts && h < db.nextHost ==> h in db.hosts)
    && (forall id :: id in z.logs && z.logs[id].task == t ==> id in db.logs && db.logs[id] == z.logs[id])
    && (t in z.tasks ==>
          forall id :: id in db.logs && db.logs[id].task == t && db.logs[id].host in z.hosts
            ==> id in z.logs && z.logs[id] == db.logs[id])
  }

  ghost predicate KeepsLoads(agents: map<HostId, Agent>, z: map<HostId, Agent>, t: TaskId) {
    forall h :: Load(AgentIn(z, h), t) <= Load(AgentIn(agents, h), t)
  }

  lemma StrategyFrame(db: Db, z: Db, agents: map<HostId, Agent>, agents': map<HostId, Agent>,
                      sent: set<(TaskId, HostId)>, sent': set<(TaskId, HostId)>, st: Strategy)
    requires StrategyOk(db, agents, sent, st)
    requires KeepsTask(db, z, st.task) && KeepsLoads(agents, agents', st.task) && sent <= sent'
    ensures StrategyOk(z, agents', sent', st)
  {
    var t := st.task;
    if t in z.tasks && st.snapshot.Some? && st.children != [] && AllPresent(z, st.snapshot.value) {
      assert AllPresent(db, st.snapshot.value);
      assert LogIds(z, t, HostUpdated) == LogIds(db, t, HostUpdated);
      assert LogIds(z, t, HostFailed) == LogIds(db, t, HostFailed);
    }
    forall j | 0 <= j < |st.children| && st.children[j].pc == Ended
      ensures t !in z.tasks || st.children[j].host !in z.hosts || Logged(z.logs, t, st.children[j].host)
    {
      var h := st.children[j].host;
      assert h == st.snapshot.value[j];
      if t in z.tasks && h in z.hosts {
        assert h in st.snapshot.value;
        assert h < db.nextHost && Logged(db.logs, t, h);
        var id :| id in db.logs && db.logs[id].task == t && db.logs[id].host == h;
        assert id in z.logs;
      }
    }
  }

  /** Nothing about the agents changed. */
  lemma StrategyFrameDb(db: Db, z: Db, s: State, st: Strategy)
    requires StrategyOk(db, s.agents, s.sent, st) && KeepsTask(db, z, st.task)
    ensures StrategyOk(z, s.agents, s.sent, st)
  {
    StrategyFrame(db, z, s.agents, s.agents, s.sent, s.sent, st);
  }

  lemma StrategiesFrameDb(s: State, z: Db)
    requires StrategiesOk(s) && forall i :: 0 <= i < |s.strategies| ==> KeepsTask(s.db, z, s.strategies[i].task)
    ensures StrategiesOk(s.(db := z))
  {
    forall i | 0 <= i < |s.strategies| ensures StrategyOk(z, s.agents, s.sent, s.strategies[i]) {
      StrategyFrameDb(s.db, z, s, s.strategies[i]);
    }
  }

  /** Rows were only deleted, or changed outside the tables of tasks and logs. */
  predicate OnlyDeletes(db: Db, z: Db) {
    && db.nextTask <= z.nextTask && db.nextHost <= z.nextHost && db.nextDeployment <= z.nextDeployment
    && db.nextLog <= z.nextLog
    && (forall t :: t in z.tasks ==> t in db.tasks && z.tasks[t] == db.tasks[t])
    && (forall h :: h in z.hosts && h < db.nextHost ==> h in db.hosts)
    && (forall id :: id in z.logs ==> id in db.logs && db.logs[id] == z.logs[id])
    && (forall id :: id in db.logs && db.logs[id].task in z.tasks && db.logs[id].host in z.hosts
          ==> id in z.logs && z.logs[id] == db.logs[id])
  }

  lemma OnlyDeletesKeepsAgents(s: State, z: Db)
    requires AgentsOk(s.agents, s.sent, s.db.logs) && OnlyDeletes(s.db, z)
    ensures AgentsOk(s.agents, s.sent, z.logs)
  {
    forall h, t: TaskId | h in s.agents ensures LoadOk(s.agents[h], h, t, s.sent, z.logs) {
      assert LoadOk(s.agents[h], h, t, s.sent, s.db.logs);
      assert Logged(z.logs, t, h) ==> Logged(s.db.logs, t, h);
    }
  }

  lemma OnlyDeletesKeepsClaims(s: State, z: Db)
    requires UnclaimedOk(s.db.tasks, s.strategies) && TaskWorkerOk(s.db, s.strategies, s.tw)
    requires OnlyDeletes(s.db, z)
    ensures UnclaimedOk(z.tasks, s.strategies) && TaskWorkerOk(z, s.strategies, s.tw)
  {
    forall c, status | ClaimOk(s.db, s.strategies, c, status) ensures ClaimOk(z, s.strategies, c, status) {
    }
  }

  lemma OnlyDeletesKeepsInv(s: State, z: Db)
    requires Inv(s) && OnlyDeletes(s.db, z) && RowsOk(z)
    ensures Inv(s.(db := z))
  {
    StrategiesFrameDb(s, z);
    OnlyDeletesKeepsAgents(s, z);
    OnlyDeletesKeepsClaims(s, z);
  }
}
