/** The workers as they are written: methods over the shared tables. Between any two repository
    calls the other processes may run, and each method is shown to be a run of the machine. */
module Server {
  import opened Wrappers
  import opened Targets
  import opened Rows
  import opened Counting
  import opened Machine
  import opened Invariants
  import opened Safety
  import opened Creation
  import opened Interference

  class Server {
    var db: Db
    // Where each process stands; the table component is not used.
    var processes: State

    function View(): State
      reads this
    {
      processes.(db := db)
    }

    // ----- the repository, one call each -----

    /** `Repo.all/1`: the ids of a query in some order. */
    method ListRows(ids: set<nat>) returns (rows: seq<nat>)
      ensures Lists(rows, ids)
    {
      rows := [];
      var rest := ids;
      while rest != {}
        invariant Distinct(rows) && rest <= ids
        invariant forall x :: x in rows <==> x in ids && x !in rest
        decreases rest
      {
        var x :| x in rest;
        rows := rows + [x];
        rest := rest - {x};
      }
    }

    method ListPending() returns (claims: seq<Claim>)
      ensures ListsPending(claims, db)
    {
      var ids := ListRows(PendingTasks(db));
      claims := [];
      for k := 0 to |ids|
        invariant |claims| == k
        invariant forall j :: 0 <= j < k ==>
                    ids[j] in db.tasks && claims[j] == Claim(ids[j], db.tasks[ids[j]].deployment)
      {
        assert ids[k] in ids;
        claims := claims + [Claim(ids[k], db.tasks[ids[k]].deployment)];
      }
      forall t | t in PendingTasks(db) ensures Claim(t, db.tasks[t].deployment) in claims {
        var j :| 0 <= j < |ids| && ids[j] == t;
        assert claims[j] == Claim(t, db.tasks[t].deployment);
      }
      forall c | c in claims ensures c.task in PendingTasks(db) && c.deployment == db.tasks[c.task].deployment {
        var j :| 0 <= j < |claims| && claims[j] == c;
        assert ids[j] in ids;
      }
    }

    /** Inserting a task raises when the deployment is gone. */
    method CreateTask(d: DeploymentId) returns (raised: bool)
      modifies this`db
      ensures raised <==> d !in old(db).deployments
      ensures db == if raised then old(db) else InsertTask(old(db), d)
    {
      raised := d !in db.deployments;
      if !raised {
        var task := Task(d, NO_TALLY, Pending);
        db := db.(tasks := db.tasks[db.nextTask := task], nextTask := db.nextTask + 1);
      }
    }

    /** Updating a stale row raises. */
    method PutDeploymentStatus(d: DeploymentId, loaded: Status, status: Status) returns (raised: bool)
      modifies this`db
      ensures raised <==> d !in old(db).deployments
      ensures db == if raised then old(db) else WriteDeploymentStatus(old(db), d, loaded, status)
    {
      raised := d !in db.deployments;
      if !raised && loaded != status {
        db := db.(deployments := db.deployments[d := db.deployments[d].(status := status)]);
      }
      assert !raised && loaded == status ==> db.deployments[d := db.deployments[d]] == db.deployments;
    }

    method PutTaskStatus(t: TaskId, loaded: Task, status: Status) returns (raised: bool)
      modifies this`db
      ensures raised <==> t !in old(db).tasks
      ensures db == if raised then old(db) else WriteTaskStatus(old(db), t, loaded, status)
    {
      raised := t !in db.tasks;
      if !raised && loaded.status != status {
        db := db.(tasks := db.tasks[t := db.tasks[t].(status := status)]);
      }
      assert !raised && loaded.status == status ==> db.tasks[t := db.tasks[t]] == db.tasks;
    }

    /** Nothing is sent when the tally is the loaded one; otherwise a stale row raises. */
    method PutTaskTally(t: TaskId, loaded: Task, tally: Tally) returns (raised: bool)
      modifies this`db
      ensures raised <==> loaded.tally != tally && t !in old(db).tasks
      ensures db == if raised || loaded.tally == tally then old(db) else WriteTaskTally(old(db), t, loaded, tally)
    {
      raised := loaded.tally != tally && t !in db.tasks;
      if !raised && loaded.tally != tally {
        db := db.(tasks := db.tasks[t := db.tasks[t].(tally := tally)]);
      }
    }

    /** The other processes run. Callers learn the contract only. */
    method Interfere(ghost start: State, ghost who: Actor)
      requires Continues(start, View())
      modifies this
      ensures Continues(start, View())
      ensures Undisturbed(old(View()), View(), who)
      ensures TasksMoveOn(old(db), db) && NeverUnknownAgain(old(db), db)
    {
      ContinuesInv(start, View());
      assert OthersRun(View(), [], View(), who);
      AfterInterference(View(), View(), who);
    }

    /** The call just made is step `l` of the machine, taken from `before`. */
    method Advance(ghost start: State, before: State, l: Step)
      requires Continues(start, before) && Enabled(before, l) && db == Apply(before, l).db
      modifies this`processes
      ensures View() == Apply(before, l) && Continues(start, View())
      ensures TasksMoveOn(before.db, db) && NeverUnknownAgain(before.db, db)
    {
      ContinuesInv(start, before);
      OneStepLeads(before, l);
      LeadsOn(start, before, Apply(before, l));
      processes := Apply(before, l);
    }

    method AdvanceDeploymentWorker(ghost start: State, before: State)
      requires Continues(start, before) && before.dw != DeploymentsIdle && db == StepDeploymentWorker(before).db
      modifies this`processes
      ensures View() == StepDeploymentWorker(before) && Continues(start, View())
      ensures TasksMoveOn(before.db, db) && NeverUnknownAgain(before.db, db)
    {
      Advance(start, before, DeploymentWorkerSteps);
    }

    method AdvanceTaskWorker(ghost start: State, before: State)
      requires Continues(start, before) && before.tw != TasksIdle && db == StepTaskWorker(before).db
      modifies this`processes
      ensures View() == StepTaskWorker(before) && Continues(start, View())
      ensures TasksMoveOn(before.db, db) && NeverUnknownAgain(before.db, db)
    {
      Advance(start, before, TaskWorkerSteps);
    }

    // ----- `TaskModule`, in one transaction -----

    method UpdateStatuses(t: TaskId, d: DeploymentId, status: Status)
      modifies this`db
      ensures db == UpdateDeploymentStatus(UpdateTaskStatus(old(db), t, status), d, status)
    {
      if t in db.tasks {
        var _ := PutTaskStatus(t, db.tasks[t], status);
      }
      if d in db.deployments {
        var _ := PutDeploymentStatus(d, db.deployments[d].status, status);
      }
    }

    /** `TaskModule.sync_task_status/1` */
    method SyncStatus(t: TaskId)
      modifies this`db
      ensures db == SyncTaskStatus(old(db), t)
    {
      if t in db.tasks {
        var task := db.tasks[t];
        var data := task.tally;
        if data.total == data.updated + data.failed && data.failed > 0 {
          UpdateStatuses(t, task.deployment, Failure);
        }
        if data.total == data.updated + data.failed && data.failed == 0 {
          UpdateStatuses(t, task.deployment, Success);
        }
      }
    }

    /** A report taken by the server: log it, count, write the result, draw the verdict. */
    method Take(t: TaskId, h: HostId, outcome: Outcome)
      modifies this`db
      ensures db == TakeReport(old(db), t, h, outcome)
    {
      if t in db.tasks && h in db.hosts {
        LogAndCount(t, Log(t, h, outcome));
        SyncStatus(t);
      }
    }

    /** `create_task_log/1`, the two counts and `update_task_result/2` */
    method LogAndCount(t: TaskId, log: Log)
      requires t in db.tasks
      modifies this`db
      ensures var logged := InsertLog(old(db), log);
              var updated, failed := CountHosts(logged, t, HostUpdated), CountHosts(logged, t, HostFailed);
              db == UpdateTaskTally(logged, t, Tally(logged.tasks[t].tally.total, updated, failed))
    {
      db := db.(logs := db.logs[db.nextLog := log], nextLog := db.nextLog + 1);
      ghost var logged := db;
      var updated, failed := CountHosts(db, t, HostUpdated), CountHosts(db, t, HostFailed);
      var _ := PutTaskTally(t, db.tasks[t], Tally(db.tasks[t].tally.total, updated, failed));
      assert logged.tasks[t := logged.tasks[t]] == logged.tasks;
    }

    // ----- `DeploymentWorker.handle_info(:fire, state)` -----

    /** A pass that does not crash creates exactly one task for each deployment that was due when
        it started and none for others, and leaves no due deployment unknown. A pass that crashes is
        counted as one crash. */
    method FireDeploymentWorker(now: int) returns (crashed: bool)
      requires Reachable(View()) && View().dw == DeploymentsIdle
      modifies this
      ensures Leads(old(View()), View()) && View().dw == DeploymentsIdle
      ensures View().crashes == old(View()).crashes + (if crashed then 1 else 0)
      ensures !crashed ==>
                forall d ::
                  (&& d in old(db).deployments
                   && old(db).deployments[d].status == Unknown && old(db).deployments[d].schedule == "once"
                   && old(db).deployments[d].scheduleTime < now)
                  ==> d !in db.deployments || db.deployments[d].status != Unknown
      ensures !crashed ==>
                forall d ::
                  var due := && d in old(db).deployments
                             && old(db).deployments[d].status == Unknown && old(db).deployments[d].schedule == "once"
                             && old(db).deployments[d].scheduleTime < now;
                  View().created[d] == old(View()).created[d] + (if due then 1 else 0)
    {
      ghost var start := View();
      var due := StartDeploymentPass(now);
      ListedOnce(due, DueDeployments(db, now));
      crashed := HandleDueDeployments(start, due);
      if !crashed {
        AllDueHandled(start.db, db, due, now);
        AdvanceDeploymentWorker(start, View());
      }
    }

    lemma AllDueHandled(first: Db, last: Db, due: seq<DeploymentId>, now: int)
      requires Lists(due, DueDeployments(first, now)) && forall j :: 0 <= j < |due| ==> !IsUnknown(last, due[j])
      ensures forall d ::
                (&& d in first.deployments
                 && first.deployments[d].status == Unknown && first.deployments[d].schedule == "once"
                 && first.deployments[d].scheduleTime < now)
                ==> d !in last.deployments || last.deployments[d].status != Unknown
    {
      forall d | d in DueDeployments(first, now) ensures !IsUnknown(last, d) {
        assert d in due;
      }
      forall d | (&& d in first.deployments
                  && first.deployments[d].status == Unknown && first.deployments[d].schedule == "once"
                  && first.deployments[d].scheduleTime < now)
        ensures d !in last.deployments || last.deployments[d].status != Unknown
      {
        assert d in DueDeployments(first, now);
      }
    }

    lemma {:induction false} ListedOnce(rows: seq<nat>, ids: set<nat>)
      requires Lists(rows, ids)
      ensures multiset(rows) == multiset(ids)
    {
      if rows == [] {
        assert ids == {};
      } else {
        assert rows == [rows[0]] + rows[1..] && rows[0] !in rows[1..];
        ListedOnce(rows[1..], ids - {rows[0]});
      }
    }

    method StartDeploymentPass(now: int) returns (due: seq<DeploymentId>)
      requires Reachable(View()) && View().dw == DeploymentsIdle
      modifies this
      ensures Continues(old(View()), View()) && db == old(db)
      ensures View() == old(View()).(dw := CreatingTask(due))
      ensures Lists(due, DueDeployments(db, now)) && forall j :: 0 <= j < |due| ==> due[j] < db.nextDeployment
    {
      var start := View();
      StandingLeads(start);
      ContinuesRows(start, start);
      due := ListRows(DueDeployments(db, now));
      assert forall j :: 0 <= j < |due| ==> due[j] in due;
      Advance(start, start, DeploymentWorkerFires(now, due));
    }

    method HandleDueDeployments(ghost start: State, due: seq<DeploymentId>) returns (crashed: bool)
      requires Continues(start, View()) && View().dw == CreatingTask(due)
      requires forall j :: 0 <= j < |due| ==> due[j] < db.nextDeployment
      modifies this
      ensures Continues(start, View()) && View().dw == if crashed then DeploymentsIdle else CreatingTask([])
      ensures View().crashes == old(View()).crashes + (if crashed then 1 else 0)
      ensures !crashed ==> forall j :: 0 <= j < |due| ==> !IsUnknown(db, due[j])
      ensures !crashed ==> View().created == old(View()).created + multiset(due)
    {
      var k := 0;
      crashed := false;
      while k < |due| && !crashed
        invariant 0 <= k <= |due|
        invariant Continues(start, View()) && old(db).nextDeployment <= db.nextDeployment
        invariant View().dw == if crashed then DeploymentsIdle else CreatingTask(due[k..])
        invariant View().crashes == old(View()).crashes + (if crashed then 1 else 0)
        invariant !crashed ==> forall j :: 0 <= j < k ==> !IsUnknown(db, due[j])
        invariant !crashed ==> View().created == old(View()).created + multiset(due[..k])
        decreases |due| - k
      {
        ghost var before := db;
        crashed := HandleDueDeployment(start, due, k);
        DueStaysHandled(before, db, due[..k]);
        assert due[..k + 1] == due[..k] + [due[k]];
        k := k + 1;
      }
      assert due[..|due|] == due;
    }

    lemma DueStaysHandled(before: Db, after: Db, due: seq<DeploymentId>)
      requires NeverUnknownAgain(before, after)
      requires forall j :: 0 <= j < |due| ==> due[j] < before.nextDeployment && !IsUnknown(before, due[j])
      ensures forall j :: 0 <= j < |due| ==> !IsUnknown(after, due[j])
    {
    }

    /** Create the task, then write "pending" to the deployment. */
    method HandleDueDeployment(ghost start: State, due: seq<DeploymentId>, k: nat) returns (crashed: bool)
      requires k < |due| && Continues(start, View()) && View().dw == CreatingTask(due[k..])
      modifies this
      ensures Continues(start, View()) && NeverUnknownAgain(old(db), db)
      ensures View().dw == if crashed then DeploymentsIdle else CreatingTask(due[k + 1..])
      ensures View().crashes == old(View()).crashes + (if crashed then 1 else 0)
      ensures !crashed ==> !IsUnknown(db, due[k]) && View().created == old(View()).created + multiset{due[k]}
    {
      Interfere(start, TheDeploymentWorker);
      var s := View();
      var d := due[k];
      crashed := CreateTask(d);
      AdvanceDeploymentWorker(start, s);
      if !crashed {
        crashed := MarkDeploymentPending(start, due, k);
      }
    }

    /** `update_deployment_status(deployment.id, "pending")`: load the row, then write it. */
    method MarkDeploymentPending(ghost start: State, due: seq<DeploymentId>, k: nat) returns (crashed: bool)
      requires k < |due| && Continues(start, View()) && View().dw == ReadingDue(due[k..])
      modifies this
      ensures Continues(start, View()) && NeverUnknownAgain(old(db), db)
      ensures View().dw == if crashed then DeploymentsIdle else CreatingTask(due[k + 1..])
      ensures View().crashes == old(View()).crashes + (if crashed then 1 else 0)
      ensures !crashed ==> !IsUnknown(db, due[k]) && View().created == old(View()).created
    {
      Interfere(start, TheDeploymentWorker);
      var d := due[k];
      crashed := false;
      if d in db.deployments {
        var loaded := db.deployments[d].status;
        ContinuesRows(start, View());
        AdvanceDeploymentWorker(start, View());
        crashed := WritePending(start, due, k, loaded);
      } else {
        AdvanceDeploymentWorker(start, View());
      }
    }

    method WritePending(ghost start: State, due: seq<DeploymentId>, k: nat, loaded: Status) returns (crashed: bool)
      requires k < |due| && Continues(start, View()) && View().dw == MarkingPending(due[k..], loaded)
      requires due[k] in db.deployments && db.deployments[due[k]].status == loaded && due[k] < db.nextDeployment
      modifies this
      ensures Continues(start, View()) && NeverUnknownAgain(old(db), db)
      ensures View().dw == if crashed then DeploymentsIdle else CreatingTask(due[k + 1..])
      ensures View().crashes == old(View()).crashes + (if crashed then 1 else 0)
      ensures !crashed ==> !IsUnknown(db, due[k]) && View().created == old(View()).created
    {
      Interfere(start, TheDeploymentWorker);
      var before := View();
      crashed := PutDeploymentStatus(due[k], loaded, Pending);
      AdvanceDeploymentWorker(start, before);
    }

    // ----- `TaskWorker.handle_info(:fire, state)` -----

    /** After a pass that does not crash, no task that was pending at its start still is: each is
        running or further, or gone. */
    method FireTaskWorker() returns (crashed: bool)
      requires Reachable(View()) && View().tw == TasksIdle
      modifies this
      ensures Leads(old(View()), View()) && View().tw == TasksIdle
      ensures !crashed ==>
                forall t ::
                  t in old(db).tasks && old(db).tasks[t].status == Pending
                  ==> t !in db.tasks || db.tasks[t].status != Pending
    {
      ghost var start := View();
      var claims := StartTaskPass();
      crashed := HandlePendingTasks(start, claims);
      if !crashed {
        AllHandled(start.db, db, claims);
        AdvanceTaskWorker(start, View());
      }
    }

    method StartTaskPass() returns (claims: seq<Claim>)
      requires Reachable(View()) && View().tw == TasksIdle
      modifies this
      ensures Continues(old(View()), View()) && db == old(db) && View().tw == LookingUp(claims)
      ensures ListsPending(claims, db) && forall j :: 0 <= j < |claims| ==> claims[j].task < db.nextTask
    {
      var start := View();
      StandingLeads(start);
      ContinuesRows(start, start);
      claims := ListPending();
      assert forall j :: 0 <= j < |claims| ==> claims[j] in claims;
      Advance(start, start, TaskWorkerFires(claims));
    }

    method HandlePendingTasks(ghost start: State, claims: seq<Claim>) returns (crashed: bool)
      requires Continues(start, View()) && View().tw == LookingUp(claims)
      requires forall j :: 0 <= j < |claims| ==> claims[j].task < db.nextTask
      modifies this
      ensures Continues(start, View()) && View().tw == if crashed then TasksIdle else LookingUp([])
      ensures !crashed ==> forall j :: 0 <= j < |claims| ==> NotPending(db, claims[j].task)
    {
      var k := 0;
      crashed := false;
      while k < |claims| && !crashed
        invariant 0 <= k <= |claims|
        invariant Continues(start, View()) && old(db).nextTask <= db.nextTask
        invariant View().tw == if crashed then TasksIdle else LookingUp(claims[k..])
        invariant !crashed ==> forall j :: 0 <= j < k ==> NotPending(db, claims[j].task)
        decreases |claims| - k
      {
        ghost var before := db;
        ghost var rollout, seen;
        crashed, rollout, seen := HandlePendingTask(start, claims, k);
        ClaimsStayHandled(before, db, claims[..k]);
        k := k + 1;
      }
    }

    lemma ClaimsStayHandled(before: Db, after: Db, claims: seq<Claim>)
      requires TasksMoveOn(before, after)
      requires forall j :: 0 <= j < |claims| ==> claims[j].task < before.nextTask && NotPending(before, claims[j].task)
      ensures forall j :: 0 <= j < |claims| ==> NotPending(after, claims[j].task)
    {
    }

    lemma AllHandled(first: Db, last: Db, claims: seq<Claim>)
      requires ListsPending(claims, first)
      requires forall j :: 0 <= j < |claims| ==> NotPending(last, claims[j].task)
      ensures forall t :: t in PendingTasks(first) && t in last.tasks ==> last.tasks[t].status != Pending
    {
      forall t | t in PendingTasks(first) ensures NotPending(last, t) {
        var j :| 0 <= j < |claims| && claims[j] == Claim(t, first.tasks[t].deployment);
      }
    }

    predicate NotPending(db: Db, t: TaskId) {
      t in db.tasks ==> db.tasks[t].status != Pending
    }

    /** Look the deployment up, then delete the task or mark it as running and spawn. */
    method HandlePendingTask(ghost start: State, claims: seq<Claim>, k: nat)
      returns (crashed: bool, ghost rollout: Option<string>, ghost seen: State)
      requires k < |claims| && Continues(start, View()) && View().tw == LookingUp(claims[k..])
      requires claims[k].task < db.nextTask
      modifies this
      ensures Continues(start, View()) && TasksMoveOn(old(db), db)
      ensures View().tw == if crashed then TasksIdle else LookingUp(claims[k + 1..])
      ensures !crashed ==> NotPending(db, claims[k].task)
      ensures |View().strategies|
              == old(|View().strategies|) + (if !crashed && rollout == Some("one_by_one") then 1 else 0)
      ensures rollout.Some? ==> ReadRollout(start, seen, claims[k].deployment, rollout.value)
    {
      Interfere(start, TheTaskWorker);
      var c := claims[k];
      seen := View();
      rollout, crashed := None, false;
      if c.deployment !in db.deployments {
        AdvanceTaskWorker(start, View());
        DeleteOrphan(start, claims, k);
      } else {
        var read := db.deployments[c.deployment].rollout;
        rollout := Some(read);
        AdvanceTaskWorker(start, View());
        crashed := ClaimAndSpawn(start, claims, k, read);
      }
    }

    /** The deployment's row held this rollout in a state the run went through. */
    ghost predicate ReadRollout(start: State, seen: State, d: DeploymentId, rollout: string) {
      Continues(start, seen) && d in seen.db.deployments && seen.db.deployments[d].rollout == rollout
    }

    method ClaimAndSpawn(ghost start: State, claims: seq<Claim>, k: nat, rollout: string) returns (crashed: bool)
      requires k < |claims| && Continues(start, View()) && View().tw == ReadingTask(claims[k..], rollout)
      requires claims[k].task < db.nextTask
      modifies this
      ensures Continues(start, View()) && TasksMoveOn(old(db), db)
      ensures View().tw == if crashed then TasksIdle else LookingUp(claims[k + 1..])
      ensures !crashed ==> NotPending(db, claims[k].task)
      ensures |View().strategies| == old(|View().strategies|) + (if !crashed && rollout == "one_by_one" then 1 else 0)
      ensures !crashed && rollout == "one_by_one" ==>
                View().strategies[|View().strategies| - 1]
                == Strategy(claims[k].task, claims[k].deployment, LoadDeployment, None, [])
    {
      crashed := ClaimTask(start, claims, k, rollout);
      if !crashed {
        Spawn(start, claims, k, rollout);
      }
    }

    /** `delete_task(task.id)` finds no row: deleting the deployment has deleted the task. */
    method DeleteOrphan(ghost start: State, claims: seq<Claim>, k: nat)
      requires k < |claims| && Continues(start, View()) && View().tw == ReadingOrphan(claims[k..])
      modifies this
      ensures Continues(start, View()) && TasksMoveOn(old(db), db)
      ensures View().tw == LookingUp(claims[k + 1..])
      ensures claims[k].task !in db.tasks
      ensures |View().strategies| == old(|View().strategies|)
    {
      Interfere(start, TheTaskWorker);
      ContinuesInv(start, View());
      assert claims[k].task !in db.tasks;
      AdvanceTaskWorker(start, View());
    }

    /** `update_task_status(task.id, "running")`: load the row, then write it. */
    method ClaimTask(ghost start: State, claims: seq<Claim>, k: nat, rollout: string) returns (crashed: bool)
      requires k < |claims| && Continues(start, View()) && View().tw == ReadingTask(claims[k..], rollout)
      modifies this
      ensures Continues(start, View()) && TasksMoveOn(old(db), db)
      ensures View().tw == if crashed then TasksIdle else Spawning(claims[k..], rollout)
      ensures !crashed ==> NotPending(db, claims[k].task)
      ensures |View().strategies| == old(|View().strategies|)
    {
      Interfere(start, TheTaskWorker);
      var t := claims[k].task;
      crashed := false;
      if t in db.tasks {
        var loaded := db.tasks[t];
        ContinuesRows(start, View());
        AdvanceTaskWorker(start, View());
        crashed := WriteRunning(start, claims, k, rollout, loaded);
      } else {
        AdvanceTaskWorker(start, View());
      }
    }

    method WriteRunning(ghost start: State, claims: seq<Claim>, k: nat, rollout: string, loaded: Task)
      returns (crashed: bool)
      requires k < |claims| && Continues(start, View())
      requires View().tw == MarkingRunning(claims[k..], rollout, loaded)
      requires claims[k].task in db.tasks && db.tasks[claims[k].task] == loaded && claims[k].task < db.nextTask
      modifies this
      ensures Continues(start, View()) && TasksMoveOn(old(db), db)
      ensures View().tw == if crashed then TasksIdle else Spawning(claims[k..], rollout)
      ensures !crashed ==> NotPending(db, claims[k].task)
      ensures |View().strategies| == old(|View().strategies|)
    {
      Interfere(start, TheTaskWorker);
      var before := View();
      crashed := PutTaskStatus(claims[k].task, loaded, Running);
      AdvanceTaskWorker(start, before);
    }

    /** Spawn the strategy process when the rollout is one by one. */
    method Spawn(ghost start: State, claims: seq<Claim>, k: nat, rollout: string)
      requires k < |claims| && Continues(start, View()) && View().tw == Spawning(claims[k..], rollout)
      modifies this
      ensures Continues(start, View()) && TasksMoveOn(old(db), db)
      ensures View().tw == LookingUp(claims[k + 1..])
      ensures |View().strategies| == old(|View().strategies|) + (if rollout == "one_by_one" then 1 else 0)
      ensures rollout == "one_by_one" ==>
                View().strategies[|View().strategies| - 1]
                == Strategy(claims[k].task, claims[k].deployment, LoadDeployment, None, [])
    {
      Interfere(start, TheTaskWorker);
      AdvanceTaskWorker(start, View());
    }
  }
}
