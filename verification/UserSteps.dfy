/** Users, and the deployment worker, keep the invariant. */
module UserSteps {
  import opened Wrappers
  import opened Targets
  import opened Rows
  import opened Machine
  import opened Invariants
  import opened Frames

  predicate IsUserStep(l: Step) {
    || l.DeploymentCreated? || l.DeploymentEdited? || l.DeploymentsDeleted?
    || l.HostCreated? || l.HostEdited? || l.HostsDeleted? || l.GroupsChanged?
  }

  /** The steps that change rows. */
  predicate ChangesTables(l: Step) {
    IsUserStep(l) || l.DeploymentWorkerSteps? || l.TaskWorkerSteps? || l.StrategySteps? || l.ReportTaken?
  }

  lemma OthersKeepTables(s: State, l: Step)
    requires Enabled(s, l) && !ChangesTables(l)
    ensures Apply(s, l).db == s.db
  {
  }

  lemma CascadeOnlyDeletes(db: Db, cut: Db)
    requires RowsOk(db)
    requires cut.nextTask == db.nextTask && cut.nextHost == db.nextHost && cut.nextLog == db.nextLog
    requires cut.nextDeployment == db.nextDeployment
    requires cut.deployments.Keys <= db.deployments.Keys && cut.hosts.Keys <= db.hosts.Keys
    requires cut.tasks.Keys <= db.tasks.Keys && cut.logs == db.logs
    requires forall t :: t in cut.tasks ==> cut.tasks[t] == db.tasks[t]
    ensures RowsOk(Cascade(cut)) && OnlyDeletes(db, Cascade(cut))
  {
  }

  lemma StepUserOnlyDeletes(db: Db, l: Step)
    requires RowsOk(db) && IsUserStep(l)
    ensures RowsOk(StepUser(db, l)) && OnlyDeletes(db, StepUser(db, l))
  {
    match l
    case DeploymentsDeleted(gone) => CascadeOnlyDeletes(db, db.(deployments := db.deployments - gone));
    case HostsDeleted(gone) => CascadeOnlyDeletes(db, db.(hosts := db.hosts - gone));
    case _ =>
  }

  lemma UserKeepsInv(s: State, l: Step)
    requires Inv(s) && Enabled(s, l) && IsUserStep(l)
    ensures Inv(Apply(s, l))
  {
    StepUserOnlyDeletes(s.db, l);
    OnlyDeletesKeepsInv(s, StepUser(s.db, l));
  }

  predicate IsDeploymentWorkerStep(l: Step) {
    l.DeploymentWorkerFires? || l.DeploymentWorkerSteps? || l.DeploymentWorkerCrashes?
  }

  /** The worker's own control state is not part of the invariant. */
  lemma InvIgnoresDeploymentWorker(s: State, z: State)
    requires Inv(s)
    requires z == s.(dw := z.dw, created := z.created, crashes := z.crashes)
    ensures Inv(z)
  {
    forall i | 0 <= i < |z.strategies| ensures StrategyOk(z.db, z.agents, z.sent, z.strategies[i]) {
      assert StrategyOk(s.db, s.agents, s.sent, s.strategies[i]);
    }
  }

  lemma NewTaskClaimsOk(db: Db, strategies: seq<Strategy>, tw: TaskWorker, d: DeploymentId)
    requires UnclaimedOk(db.tasks, strategies) && TaskWorkerOk(db, strategies, tw)
    ensures UnclaimedOk(InsertTask(db, d).tasks, strategies) && TaskWorkerOk(InsertTask(db, d), strategies, tw)
  {
    forall c, status | ClaimOk(db, strategies, c, status) ensures ClaimOk(InsertTask(db, d), strategies, c, status) {
    }
  }

  lemma NewTaskKeepsInv(s: State, d: DeploymentId)
    requires Inv(s) && d in s.db.deployments
    ensures Inv(s.(db := InsertTask(s.db, d)))
  {
    StrategiesFrameDb(s, InsertTask(s.db, d));
    NewTaskClaimsOk(s.db, s.strategies, s.tw, d);
  }

  lemma DeploymentWorkerKeepsInv(s: State, l: Step)
    requires Inv(s) && Enabled(s, l) && IsDeploymentWorkerStep(l)
    ensures Inv(Apply(s, l))
  {
    var z := Apply(s, l);
    var rows := s.(db := z.db);
    if l.DeploymentWorkerSteps? && s.dw.CreatingTask? && s.dw.todo != [] && s.dw.todo[0] in s.db.deployments {
      NewTaskKeepsInv(s, s.dw.todo[0]);
    } else {
      OnlyDeletesKeepsInv(s, z.db);
    }
    InvIgnoresDeploymentWorker(rows, z);
  }

  // ----- what users do, column by column -----

  /** A new deployment starts as unknown under a fresh id; an edit changes every column but the status;
      nothing else about deployments changes. */
  lemma DeploymentsStored(db: Db, d: DeploymentId, row: Deployment)
    requires RowsOk(db)
    ensures var z := StepUser(db, DeploymentCreated(row));
            && db.nextDeployment !in db.deployments && z.nextDeployment == db.nextDeployment + 1
            && z == db.(deployments := z.deployments, nextDeployment := z.nextDeployment)
            && z.deployments == db.deployments[db.nextDeployment
                 := Deployment(row.filters, row.rollout, row.schedule, row.scheduleTime, Unknown)]
    ensures d in db.deployments ==>
              var z := StepUser(db, DeploymentEdited(d, row));
              && z == db.(deployments := z.deployments)
              && z.deployments == db.deployments[d
                   := Deployment(row.filters, row.rollout, row.schedule, row.scheduleTime, db.deployments[d].status)]
  {
  }

  lemma HostsStored(db: Db, h: HostId, row: Host, groups: map<GroupId, Group>)
    requires RowsOk(db)
    ensures var z := StepUser(db, HostCreated(row));
            && db.nextHost !in db.hosts && z.nextHost == db.nextHost + 1
            && z == db.(hosts := z.hosts, nextHost := z.nextHost) && z.hosts == db.hosts[db.nextHost := row]
    ensures h in db.hosts ==>
              var z := StepUser(db, HostEdited(h, row)); z == db.(hosts := z.hosts) && z.hosts == db.hosts[h := row]
    ensures var z := StepUser(db, GroupsChanged(groups)); z == db.(groups := z.groups) && z.groups == groups
  {
  }

  /** Deleting deployments takes exactly their tasks and the log rows of these with them. */
  lemma DeploymentsGo(db: Db, gone: set<DeploymentId>)
    requires RowsOk(db)
    ensures var z := StepUser(db, DeploymentsDeleted(gone));
            && (forall d :: d in z.deployments <==> d in db.deployments && d !in gone)
            && (forall d :: d in z.deployments ==> z.deployments[d] == db.deployments[d])
            && (forall t :: t in z.tasks <==> t in db.tasks && db.tasks[t].deployment !in gone)
            && (forall t :: t in z.tasks ==> z.tasks[t] == db.tasks[t])
            && (forall id :: id in z.logs <==> id in db.logs && db.tasks[db.logs[id].task].deployment !in gone)
            && (forall id :: id in z.logs ==> z.logs[id] == db.logs[id])
            && z.hosts == db.hosts && z.groups == db.groups
  {
  }

  /** Deleting hosts takes exactly their log rows with them. */
  lemma HostsGo(db: Db, gone: set<HostId>)
    requires RowsOk(db)
    ensures var z := StepUser(db, HostsDeleted(gone));
            && (forall h :: h in z.hosts <==> h in db.hosts && h !in gone)
            && (forall h :: h in z.hosts ==> z.hosts[h] == db.hosts[h])
            && (forall id :: id in z.logs <==> id in db.logs && db.logs[id].host !in gone)
            && (forall id :: id in z.logs ==> z.logs[id] == db.logs[id])
            && z.tasks == db.tasks && z.deployments == db.deployments && z.groups == db.groups
  {
  }

  // ----- what can happen at any moment -----

  /** Users and crashes are never held up. */
  lemma UsersAreFree(s: State, row: Deployment, host: Host, gone: set<nat>, groups: map<GroupId, Group>)
    ensures Enabled(s, DeploymentCreated(row)) && Enabled(s, DeploymentsDeleted(gone))
    ensures forall d :: d in s.db.deployments ==> Enabled(s, DeploymentEdited(d, row))
    ensures Enabled(s, HostCreated(host)) && Enabled(s, HostsDeleted(gone)) && Enabled(s, GroupsChanged(groups))
    ensures forall h :: h in s.db.hosts ==> Enabled(s, HostEdited(h, host))
  {
  }

  lemma CrashesAreFree(s: State, i: nat, j: nat, h: HostId)
    ensures Enabled(s, DeploymentWorkerCrashes) && Enabled(s, TaskWorkerCrashes) && Enabled(s, AgentCrashes(h))
    ensures i < |s.strategies| && !Over(s.strategies[i]) ==> Enabled(s, StrategyCrashes(i))
    ensures IsChild(s, i, j) && !Dead(s.strategies[i].children[j]) ==> Enabled(s, PatchCrashes(i, j))
  {
  }

  /** A command or report under way can move on or be lost. */
  lemma MessagesAreFree(s: State, h: HostId, t: TaskId)
    ensures t in AgentOf(s, h).handlers ==>
              Enabled(s, CommandDropped(h, t)) && (|AgentOf(s, h).queue| < 500 ==> Enabled(s, CommandQueued(h, t)))
    ensures t in AgentOf(s, h).updatedOut ==>
              Enabled(s, ReportTaken(h, t, HostUpdated)) && Enabled(s, ReportLost(h, t, HostUpdated))
    ensures t in AgentOf(s, h).failedOut ==>
              Enabled(s, ReportTaken(h, t, HostFailed)) && Enabled(s, ReportLost(h, t, HostFailed))
  {
  }

  /** A crash of the agent takes what it holds, and leaves what it has sent. */
  lemma AgentCrashExactly(s: State, h: HostId)
    requires Enabled(s, AgentCrashes(h))
    ensures AgentOf(Apply(s, AgentCrashes(h)), h)
            == Agent(multiset{}, [], None, AgentOf(s, h).updatedOut, AgentOf(s, h).failedOut)
  {
  }
}
