/** The shared tables, and what the context and task modules do to them in one transaction. */
module Rows {
  import opened Wrappers
  import opened Targets

  type DeploymentId = nat
  type TaskId = nat
  type LogId = nat

  /** Values of `deployments.last_status` and `tasks.status`. */
  datatype Status = Unknown | Pending | Running | Success | Failure | Skipped

  /** The two terminal log types: host_updated_successfully and host_failed_to_update. */
  datatype Outcome = HostUpdated | HostFailed

  /** The JSON document in `tasks.result`. */
  datatype Tally = Tally(total: nat, updated: nat, failed: nat)

  const NO_TALLY := Tally(0, 0, 0)

  datatype Deployment = Deployment(
    filters: Filters,
    rollout: string,
    schedule: string,
    scheduleTime: int,
    status: Status)

  datatype Task = Task(deployment: DeploymentId, tally: Tally, status: Status)
  datatype Log = Log(task: TaskId, host: HostId, outcome: Outcome)

  /** Identifiers come from sequences and are never used twice. */
  datatype Db = Db(
    deployments: map<DeploymentId, Deployment>,
    tasks: map<TaskId, Task>,
    logs: map<LogId, Log>,
    groups: map<GroupId, Group>,
    hosts: map<HostId, Host>,
    nextDeployment: DeploymentId,
    nextTask: TaskId,
    nextLog: LogId,
    nextHost: HostId)

  /** A changeset writes a column only when the new value differs from the loaded one. */
  function Changed<T(==)>(loaded: T, current: T, wanted: T): T {
    if loaded == wanted then current else wanted
  }

  function WriteTaskStatus(db: Db, t: TaskId, loaded: Task, wanted: Status): Db
    requires t in db.tasks
  {
    var row := db.tasks[t];
    db.(tasks := db.tasks[t := row.(status := Changed(loaded.status, row.status, wanted))])
  }

  function WriteTaskTally(db: Db, t: TaskId, loaded: Task, wanted: Tally): Db
    requires t in db.tasks
  {
    var row := db.tasks[t];
    db.(tasks := db.tasks[t := row.(tally := Changed(loaded.tally, row.tally, wanted))])
  }

  function WriteDeploymentStatus(db: Db, d: DeploymentId, loaded: Status, wanted: Status): Db
    requires d in db.deployments
  {
    var row := db.deployments[d];
    db.(deployments := db.deployments[d := row.(status := Changed(loaded, row.status, wanted))])
  }

  // ----- whole transactions: the row read is the row written -----

  function UpdateTaskStatus(db: Db, t: TaskId, status: Status): Db {
    if t in db.tasks then WriteTaskStatus(db, t, db.tasks[t], status) else db
  }

  function UpdateTaskTally(db: Db, t: TaskId, tally: Tally): Db {
    if t in db.tasks then WriteTaskTally(db, t, db.tasks[t], tally) else db
  }

  function UpdateDeploymentStatus(db: Db, d: DeploymentId, status: Status): Db {
    if d in db.deployments then WriteDeploymentStatus(db, d, db.deployments[d].status, status) else db
  }

  function InsertTask(db: Db, d: DeploymentId): Db {
    db.(tasks := db.tasks[db.nextTask := Task(d, NO_TALLY, Pending)], nextTask := db.nextTask + 1)
  }

  function InsertLog(db: Db, log: Log): Db {
    db.(logs := db.logs[db.nextLog := log], nextLog := db.nextLog + 1)
  }

  function LogIds(db: Db, t: TaskId, outcome: Outcome): set<LogId> {
    set id | id in db.logs && db.logs[id].task == t && db.logs[id].outcome == outcome
  }

  /** `count_updated_hosts/1` and `count_failed_hosts/1` */
  function CountHosts(db: Db, t: TaskId, outcome: Outcome): nat {
    |LogIds(db, t, outcome)|
  }

  /** `is_host_updated_successfully/2` and `is_host_failed_to_update/2` */
  predicate HostLogged(db: Db, h: HostId, t: TaskId, outcome: Outcome) {
    exists id :: id in db.logs && db.logs[id] == Log(t, h, outcome)
  }

  function SyncTaskStatus(db: Db, t: TaskId): Db {
    if t !in db.tasks then db
    else
      var task := db.tasks[t];
      var done := task.tally.total == task.tally.updated + task.tally.failed;
      var db1 := if done && task.tally.failed > 0
                 then UpdateDeploymentStatus(UpdateTaskStatus(db, t, Failure), task.deployment, Failure) else db;
      if done && task.tally.failed == 0
      then UpdateDeploymentStatus(UpdateTaskStatus(db1, t, Success), task.deployment, Success) else db1
  }

  /** What the management server does with one agent report. A report about a task or a host
      that is gone changes nothing. */
  function TakeReport(db: Db, t: TaskId, h: HostId, outcome: Outcome): Db {
    if t in db.tasks && h in db.hosts then
      var db1 := InsertLog(db, Log(t, h, outcome));
      var tally := Tally(db1.tasks[t].tally.total, CountHosts(db1, t, HostUpdated), CountHosts(db1, t, HostFailed));
      SyncTaskStatus(UpdateTaskTally(db1, t, tally), t)
    else db
  }

  // ----- deletion, with the cascades of the foreign keys -----

  function Cascade(db: Db): Db {
    var tasks := map t | t in db.tasks && db.tasks[t].deployment in db.deployments :: db.tasks[t];
    var logs := map id | id in db.logs && db.logs[id].task in tasks && db.logs[id].host in db.hosts :: db.logs[id];
    db.(tasks := tasks, logs := logs)
  }

  function DeleteDeployments(db: Db, gone: set<DeploymentId>): Db {
    Cascade(db.(deployments := db.deployments - gone))
  }

  function DeleteHosts(db: Db, gone: set<HostId>): Db {
    Cascade(db.(hosts := db.hosts - gone))
  }

  function DeleteTask(db: Db, t: TaskId): Db {
    Cascade(db.(tasks := db.tasks - {t}))
  }

  // ----- queries -----

  predicate DueOnce(d: Deployment, now: int) {
    d.status == Unknown && d.schedule == "once" && d.scheduleTime < now
  }

  function DueDeployments(db: Db, now: int): set<DeploymentId> {
    set d | d in db.deployments && DueOnce(db.deployments[d], now)
  }

  function PendingTasks(db: Db): set<TaskId> {
    set t | t in db.tasks && db.tasks[t].status == Pending
  }

  predicate Distinct<T(==)>(s: seq<T>) {
    forall i, j :: 0 <= i < j < |s| ==> s[i] != s[j]
  }

  /** `rows` lists the query's rows once each, in some order. */
  predicate Lists<T(==)>(rows: seq<T>, ids: set<T>) {
    Distinct(rows) && (forall x :: x in rows ==> x in ids) && (forall x :: x in ids ==> x in rows)
  }
}
