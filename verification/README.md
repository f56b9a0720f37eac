# Scuti, modelled and verified in Dafny

Scuti patches fleets of hosts. A deployment selects hosts by filters; a periodic worker turns a due
deployment into a task; a second worker claims the task and spawns a strategy process; the strategy
patches the selected hosts one after another through short-lived patch processes; each patch process
sends one signed command to the host's agent and polls for the agent's report; the reports are
counted into a verdict on the task and on the deployment. All of these run concurrently over shared
database rows.

The project models that protocol as one state machine whose steps are single repository calls,
messages and crashes, proves what every run of it keeps, and shows that the workers and the strategy,
written as methods over shared tables with interference between any two calls, are runs of the
machine. Around it stand the components the protocol relies on: the filter language and the query
builder, the signed form of a command, the agent's queue, host liveness, team membership and slugs.

## The parts

| file | what it holds |
|---|---|
| `Rows.dfy` | the tables, changeset writes, cascading deletes, counting, `TakeReport`, `SyncTaskStatus` |
| `Machine.dfy` | processes, agents, steps, runs, reachable states |
| `Invariants.dfy` | the invariant `Inv` of all reachable states |
| `Counting.dfy`, `Frames.dfy`, `UserSteps.dfy`, `TaskWorkerSteps.dfy`, `StrategySteps.dfy`, `AgentSteps.dfy` | why every step keeps it |
| `Safety.dfy` | what follows for every run: verdicts, one strategy per task, one patch at a time, counters, task status |
| `Creation.dfy` | how many tasks a deployment can get |
| `Outcomes.dfy` | log rows and verdicts say what the agents reported |
| `Origins.dfy` | where strategies and tasks come from: the rollout asked for, the schedule reached |
| `Provenance.dfy` | why a deployment has the status it shows |
| `StatusOrder.dfy` | exactly when a deployment's status moves backward |
| `VerdictShown.dfy` | when a deployment shows the verdict of its task |
| `LostCommands.dfy` | a host that can no longer answer keeps its task from a verdict |
| `HostDeletion.dfy` | what deleting a chosen host does to verdicts, past and future |
| `Conservation.dfy` | where a posted command is |
| `Progress.dfy` | a strategy neither gets stuck nor works for ever |
| `Termination.dfy` | a rollout finishes: what makes its strategy raise, and how many steps it takes otherwise |
| `Response.dfy` | a patch process whose host has reported dies |
| `Snapshot.dfy` | the hosts a strategy patches are the hosts the filters ask for |
| `Stored.dfy` | rows that requests and changesets accept, and runs in which users store only such rows |
| `Races.dfy` | runs of one deployment with one host that show the late status writes and a verdict |
| `Interference.dfy`, `Server.dfy`, `StrategyProcess.dfy` | the workers and the strategy as methods that refine the machine |
| `Text.dfy`, `SqlLike.dfy`, `FilterGrammar.dfy`, `Targets.dfy`, `Spaces.dfy` | filters: grammar, splitting, LIKE, the folded queries, white space |
| `Fifo.dfy`, `AgentProcess.dfy`, `SignedForm.dfy` | the agent: queue, handler, worker, signed text |
| `TeamSync.dfy`, `HostLiveness.dfy`, `Slug.dfy` | membership, liveness, slugs |

A state of the machine (`Machine.State`) holds the tables, a program counter for the deployment
worker, one for the task worker and one for each strategy, the patch processes each strategy has
spawned, one agent per host (commands in HTTP handlers, a channel of capacity 500, the command being
run, reports on their way), and three history variables: which commands were posted, how many tasks
each deployment was given, and how often the deployment worker crashed. `Machine.Enabled` and
`Machine.Apply` give the steps; users may create, edit and delete deployments, hosts and groups at
any moment, and every process may crash at any point. Lemmas that say `requires Inv(s)` hold in every
reachable state, by `Safety.ReachableInv`. Theorems about all runs allow users to store any rows;
runs that are exhibited store only rows that requests and changesets accept (`Stored.OkReachable`).

## Assumptions

- The report endpoint has an empty body in the repository
  (`lib/scuti_web/controllers/agent_controller.ex:33-34`). The model takes its place with a client
  that, in one transaction per report, inserts the log row, counts both kinds of log rows, writes the
  result and syncs the status, using the functions the task module offers for this. A report about a
  task or host that no longer exists is ignored. Heartbeats likewise call `mark_host_as_online`.
- One agent runs behind each host row, and an agent is reached only under its own host's address.
  Identifiers are never used twice. A command reaches its agent at most once.
- A changeset writes the columns whose value differs from the loaded one. An update with nothing to
  write is not sent; one that is sent for a deleted row raises, and the process dies. A status write
  carries a fresh run time, taken to differ from the loaded one. A missing foreign key raises on
  insert. Rows satisfy the validations of their changesets.
- Comparing a column with nil in a query raises. `like` is SQL LIKE as in section 8.5 of
  ISO/IEC 9075-2, with a backslash as escape character, and labels are never null.
- Reading an Elixir charlist as bytes raises on a character above 255, JSON decoding inverts JSON
  encoding, and the keyed hash is any function of key and bytes.
- `String.downcase` maps each character as some table says; ASCII letters and digits go to their
  lower case.

## What turned out

- **A verdict says what the log says exactly as long as no chosen host has been deleted**, since
  deleting a host deletes its log rows (`HostDeletion.VerdictTellsExactly`). And if a chosen host is
  deleted before the verdict, the task never gets one (`HostDeletion.NoVerdictAfterDeletion`).
- **Deployment status is not monotone.** A step lowers it in exactly two cases
  (`StatusOrder.StatusFallsExactly`): the deployment worker, which writes "pending" only after it has
  created the task, writes it over a later status; or a strategy writes "running" over a verdict.
  The first happens without any crash, over "running" and even over "success"
  (`Races.PendingCanComeLate`). The second needs a second task of the deployment, hence a crash of
  the deployment worker (`StatusOrder.RunningOverVerdictNeedsCrash`), and then happens
  (`Races.RunningCanComeLate`). No deployment returns to "unknown".
- **Each crash of the deployment worker can cost one more task**, and the bound is reached
  (`Creation.BoundIsReached`).
- **The task worker's branch that deletes a task never finds a row**: the foreign key has already
  deleted the task with its deployment.
- **Synchronising a team raises on the first removal**, since deleting rows gives a count and nil,
  which neither clause of the `case` matches. The table is then left with one user removed and nobody
  added. `TeamSync.SyncMeetsRequestExactly` says exactly when the outcome still is what was asked for.
- **An underscore in a tag is a wildcard** of LIKE, and the label grammar allows it in every word
  (`Spaces.UnderscoreIsWildcard`, `Spaces.UnderscoreMatchesOther`); the pattern means "contains the
  tag" exactly for tags without `%`, `_` and backslash.
- **A lost command or report leaves its task without a verdict for ever**, and so does a patch process
  that dies before it posts (`LostCommands.NoVerdictWithoutAnswer`): nothing posts a command twice.
- **A deployment shows the verdict of its only task until a late "pending" takes its place**, exactly
  (`VerdictShown.VerdictStaysShownExactly`); one verdict replaces another only if the deployment has a
  second task (`StatusOrder.VerdictOverVerdictNeedsCrash`).
- **White space before a tag changes what it means, always.** The grammar accepts it after a comma;
  the query builder does not trim, so the tag is compared with the labels, white space included,
  whatever key it names (`Spaces.SpacesKeepClauseExactly`, `Spaces.SpacesChangeSelectionExactly`).
- **Silent hosts can stay online a second longer** than threshold plus period, because stored times
  are truncated to seconds; 121 seconds cannot be lowered for any period
  (`HostLiveness.BoundIsOptimal`). A report that arrives while a sweep that selected the host is under
  way is overruled by the sweep (`HostLiveness.ReportDuringSweepExactly`).
- **A command with a field that is not ASCII is not accepted in general**: the server then raises or
  signs other bytes than the agent.

## Model

| member | source | states |
|---|---|---|
| `Safety.VerdictIsExact` | lib/scuti/module/task_module.ex:123-144 | In every reachable state, for a rollout none of whose chosen hosts was deleted: the task is "success" if and only if it chose some host and each chosen host has exactly one log row, which says updated; it is "failure" if and only if each chosen host has exactly one log row and one of them says failed; and there are no log rows about other hosts. |
| `Outcomes.VerdictIsTrue` | agent/core/controller/update_worker.go:42-64 | In every run from the start: with "success" the agent of every chosen host reported an update of this task and none a failure; with "failure" every one has reported and some a failure; whether or not the hosts still exist. |
| `Outcomes.LogsAreTrue` | agent/core/controller/update_worker.go:42-64 | Each log row has a step of the run in which the agent of its host, running the command of its task, reported the outcome it holds. |
| `Outcomes.ReportsAreTrue` | agent/core/controller/update_worker.go:42-64 | So has each report on its way, successes and failures apart. |
| `Outcomes.AnswersAreSingle` | agent/core/controller/update_worker.go:22-65 | An agent reports on a task at most once, with one outcome. |
| `Safety.ReachableInv` | lib/scuti/worker/one_by_one_strategy.ex:11-69 | Every reachable state of all processes together satisfies the invariant. |
| `Safety.StepKeepsInv` | lib/scuti/worker/one_by_one_strategy.ex:11-69 | No single repository call, message, user action or crash breaks the invariant. |
| `Counting.CountsAreHosts` | lib/scuti/context/task_context.ex:253-272 | With one log row per host the two row counts never exceed the number of hosts, and when they reach it every host has a row (a pigeonhole argument). |
| `Safety.EveryHostReported` | lib/scuti/context/task_context.ex:253-272 | The two counts add up to the number of chosen hosts if and only if every chosen host has exactly one terminal row. |
| `Safety.SomeHostFailed` | lib/scuti/context/task_context.ex:265-272 | Some failure row is counted if and only if some chosen host has failed. |
| `Conservation.VerdictReachesDeployment` | lib/scuti/module/task_module.ex:129-139 | After a report is taken for an existing task and host, a verdict on the task is also the status of its deployment. |
| `Provenance.StatusHasCause` | lib/scuti/module/deployment_module.ex:96-111 | In every reachable state a deployment is pending only if a task was created for it, running only if a strategy for it was spawned, and shows success, failure or skipped only if one of its tasks shows the same. |
| `StatusOrder.StatusFallsExactly` | lib/scuti/worker/deployment_worker.ex:52-62 | For every enabled step and deployment: the status falls in the order unknown, pending, running, verdict if and only if the step is the worker's "pending" written over a later status by a worker that had loaded something else, or a strategy's "running" written over a verdict by a strategy that had loaded something else. |
| `StatusOrder.MonotoneExactly` | lib/scuti/module/deployment_module.ex:96-111 | Along every run the status of a deployment never falls if and only if the run holds no such late write; then it also ends no lower than it began. |
| `StatusOrder.RunningOverVerdictNeedsCrash` | lib/scuti/worker/one_by_one_strategy.ex:15-22 | "running" is written over a verdict only for a deployment with two tasks, and only after the deployment worker has crashed. |
| `StatusOrder.VerdictOverVerdictNeedsCrash` | lib/scuti/module/task_module.ex:129-139 | One verdict of a deployment is replaced by another only if the deployment has two tasks, and only after the deployment worker has crashed. |
| `VerdictShown.VerdictIsShown` | lib/scuti/module/task_module.ex:129-139 | In every reachable state a deployment whose only task has a verdict shows that verdict or "pending"; without a crash of the deployment worker no deployment has two tasks. |
| `VerdictShown.VerdictStaysShownExactly` | lib/scuti/worker/deployment_worker.ex:56-62 | Along every run from a verdict of the only task: the deployment shows it at the end if and only if it did at first and no late write happened. |
| `HostDeletion.VerdictTellsExactly` | lib/scuti/module/task_module.ex:123-144 | For every strategy that chose its hosts: the verdict agrees with the log rows of the hosts if and only if no chosen host has been deleted or there is no verdict. |
| `HostDeletion.DeletionBreaksVerdict` | lib/scuti/module/task_module.ex:123-144 | Deleting any chosen host after the verdict leads to a reachable state in which they disagree. |
| `HostDeletion.SomeVerdictFails` | lib/scuti/module/task_module.ex:123-144 | Such a state is reached by a run in which users store only rows that requests and changesets accept. |
| `HostDeletion.NoVerdictAfterDeletion` | lib/scuti/module/task_module.ex:129-139 | Once a chosen host has been deleted while the task has no verdict, no run gives it one. |
| `LostCommands.NoVerdictWithoutAnswer` | lib/scuti/worker/patch_task.ex:40-61 | Once a chosen host can no longer answer while the task has no verdict, since its command or report is lost or its patch process died before posting, or was left without its message or unspawned by a crash of the strategy, no run gives the task a verdict. |
| `LostCommands.LosingSilences` | agent/core/controller/update_worker.go:22-65 | A dropped command, a lost report, and a crash of the agent that holds the command do that. |
| `LostCommands.DyingSilences` | lib/scuti/worker/patch_task.ex:11-40 | The death of a patch process before it posts does that. |
| `Provenance.StrategyServesItsTask` | lib/scuti/worker/task_worker.ex:37-52 | Every strategy is for the deployment its task belongs to. |
| `Safety.OneStrategyPerTask` | lib/scuti/worker/task_worker.ex:35-55 | No run, crashes included, has two strategy processes for one task. |
| `Origins.StrategiesAreOneByOne` | lib/scuti/worker/task_worker.ex:38-52 | In every run from the start a strategy runs for a task only if the worker, claiming that task, read the rollout "one_by_one" in the row of its deployment. |
| `Origins.SpawnsExactly` | lib/scuti/worker/task_worker.ex:50-53 | A step adds a strategy if and only if the worker is about to spawn for that rollout; it adds one, for its claim, at its first point. |
| `Safety.OneByOne` | lib/scuti/worker/one_by_one_strategy.ex:48-61 | The hosts contacted are a duplicate-free prefix of the snapshot in order, and each but the last has a log row for the task or its patch process raised (or the host or task was deleted). |
| `Safety.OneLivePatchPerTask` | lib/scuti/worker/wait_for_process.ex:11-21 | Two living patch processes are never for the same task. |
| `Safety.CommandsAreSingle` | lib/scuti/worker/patch_task.ex:33-48 | The command for a task and host exists at most once, whether as a command with the agent or as a report on its way; if it exists it was posted and not yet logged; and the host has at most one log row for the task. |
| `Safety.PostedOnce` | lib/scuti/worker/patch_task.ex:40-46 | A patch process that posts is the first ever to post to its host for its task. |
| `Safety.CountersAreConserved` | lib/scuti/module/task_module.ex:149-163 | Updated plus failed never exceeds the recorded total, and while no chosen host is deleted the counters are the numbers of log rows. |
| `Safety.NoReportBeforeTheTotal` | lib/scuti/worker/one_by_one_strategy.ex:33-46 | Until the strategy has recorded its total, no command of the task is posted, under way or logged and its counters are zero, so its read-modify-write loses no report. |
| `Safety.SkippedIsExact` | lib/scuti/worker/one_by_one_strategy.ex:63-68 | In every run from the start a task is "skipped" if and only if a step of the run wrote that to it; its strategy chose no host; and a strategy that ended with no host has written it. |
| `Safety.StepSkips` | lib/scuti/worker/one_by_one_strategy.ex:63-68 | A step makes a task skipped only by writing that, and only a strategy that chose no host does. |
| `Safety.VerdictHasRollout` | lib/scuti/module/task_module.ex:129-139 | A task with a verdict has a strategy that spawned a patch process: a total of zero never gives "success". |
| `Safety.StatusOnlyMovesOn` | lib/scuti/module/task_module.ex:81-96 | Along every run a task goes from pending to running to one of success, failure and skipped, never back, and a deleted task never returns. |
| `Safety.OrphansAreGone` | lib/scuti/worker/task_worker.ex:40-44 | When the deployment is missing at lookup the task is gone too, so the worker deletes nothing. |
| `Creation.TasksAreBounded` | lib/scuti/worker/deployment_worker.ex:35-66 | In every run the tasks of a deployment, and the tasks ever created for it, number at most one more than the crashes of the deployment worker. |
| `Origins.TasksWereDue` | lib/scuti/context/deployment_context.ex:268-275 | In every run from the start each task belongs to a deployment that some firing of the worker listed while its row held the status unknown, the schedule "once" and a schedule time before the time of the firing. |
| `Creation.BoundIsReached` | lib/scuti/worker/deployment_worker.ex:37-62 | For every number of crashes some run in which users store only rows that requests and changesets accept reaches that bound. |
| `Stored.TheyAreOk` | lib/scuti/model/deployment.ex:51-87 | The deployment, the group and the host of the runs shown have what their changesets require and the filters, labels and names that the requests ask for. |
| `Creation.NothingWritesUnknown` | lib/scuti/module/deployment_module.ex:54-111 | Along every run no existing deployment turns "unknown" and no deleted one returns. |
| `Creation.OneMoreTask` | lib/scuti/module/task_module.ex:16-37 | Creating a task adds one to the tasks of its deployment and none to others. |
| `Conservation.CommandsAreConserved` | agent/core/controller/update_worker.go:22-65 | Along a run that loses nothing, the copies of a command with the agent, its reports on the way and its log rows grow by exactly the deliveries; and for each outcome the reports on the way and the log rows of that outcome grow by exactly the reports the agent made of it. |
| `Conservation.StepConserves` | agent/core/controller/listen.go:45-45 | One step that loses nothing keeps that sum, plus one for a delivery. |
| `Races.PendingCanComeLate` | lib/scuti/worker/deployment_worker.ex:52-62 | Without any crash, and with users storing only rows that are accepted, a deployment is seen running and then pending again, and in another run a success and then pending again. |
| `Races.RunningCanComeLate` | lib/scuti/worker/one_by_one_strategy.ex:15-22 | After one crash of the deployment worker, and with users storing only rows that are accepted, a deployment is seen a success and then running. |
| `Termination.RolloutFinishes` | lib/scuti/worker/one_by_one_strategy.ex:11-69 | A strategy that nobody kills, whose deployment is neither deleted nor given filters that raise, never raises, whatever else users and processes do. With n chosen hosts each found alive at most k times it takes at most 16 + 3n + kn steps; when it has taken so many, and whenever it cannot step, it has ended with exactly one dead patch process for each chosen host, in order. |
| `Termination.AnsweredRolloutFinishes` | lib/scuti/worker/one_by_one_strategy.ex:11-69 | When each patch process dies, or the outcome of its host is logged, before it is found alive more than k times, and it checks the log at least once between two polls after that, the strategy takes at most 16 + 3n + (k + 3)n steps and then, and whenever it cannot step, has ended as above. |
| `Termination.NeverRaises` | lib/scuti/worker/one_by_one_strategy.ex:11-46 | The first half of that, along every run. |
| `UserSteps.DeploymentsStored` | lib/scuti/module/deployment_module.ex:54-91 | A new deployment starts as unknown under a fresh id; an edit sets every column but the status. |
| `UserSteps.DeploymentsGo` | priv/repo/migrations/20230305001447_create_tasks.exs:15-15 | Deleting deployments takes exactly their tasks and the log rows of these with them. |
| `UserSteps.HostsGo` | priv/repo/migrations/20230305002608_create_tasks_log.exs:11-12 | Deleting hosts takes exactly their log rows with them. |
| `Termination.FoundAliveThriceMore` | lib/scuti/worker/wait_for_process.ex:11-21 | A patch process that checks the log at least once between two polls of its strategy is found alive at most three times after the outcome of its host is logged. |
| `Progress.WorkingStepsAreBounded` | lib/scuti/worker/one_by_one_strategy.ex:48-68 | Along every run a strategy with n hosts takes at most 16 + 3n steps besides polls of a living patch process. |
| `Progress.NeverStuck` | lib/scuti/worker/wait_for_process.ex:11-21 | A strategy that is not over can always step; when its step is only a poll, the process it waits for is alive and can step itself. |
| `Response.LoggedPatchDies` | lib/scuti/worker/patch_task.ex:52-61 | Along every run, once the outcome of its host is logged and while host and task exist, a patch process is dead after two more of its checks, whatever the other processes do. |
| `Response.ChecksRunOut` | lib/scuti/worker/patch_task.ex:52-61 | Each of those checks lowers the number of checks left, and no step of another process raises it. |
| `Response.CheckEndsExactly` | lib/scuti/worker/patch_task.ex:52-61 | A check of the success log ends the process if and only if the log holds a success of its host for its task, and else turns to the failure log; a check of that ends it if and only if it holds a failure, and else starts over. |
| `Response.PostExactly` | lib/scuti/worker/patch_task.ex:40-48 | A post that raises leaves its process dead, another leaves it checking; the command is handed over if and only if it is delivered. |
| `Response.RaisedPostStaysDead` | lib/scuti/worker/patch_task.ex:40-48 | After a post that raises the process is dead along every run, delivered or not. |
| `Progress.FinishedMeansAllHosts` | lib/scuti/worker/one_by_one_strategy.ex:48-68 | A strategy that ran to its end has spawned one patch process for each chosen host, in order, all of them dead; with no host the task is skipped. |
| `Progress.StepUsesWork` | lib/scuti/worker/one_by_one_strategy.ex:48-68 | Every own step lowers the measure, except the poll of a living patch process, which changes nothing. |
| `Snapshot.SnapshotIsTheSelection` | lib/scuti/worker/one_by_one_strategy.ex:12-13 | As long as nobody changes the groups, the hosts or the filters of the deployment before they are read, other edits and later ones at will, the snapshot a strategy takes lists exactly the hosts the filters ask for, each once; until then it has contacted nobody; with filters that raise it takes none. |
| `Snapshot.LoadingRaisesExactly` | lib/scuti/context/deployment_context.ex:151-186 | Loading the hosts raises exactly when the filter whose query is being built holds a bare column name. |
| `Server.Server.FireDeploymentWorker` | lib/scuti/worker/deployment_worker.ex:28-70 | The pass is a run of the machine; without a crash it creates exactly one task for each deployment whose row at its start held the status unknown, the schedule "once" and a schedule time before now, none for others, and leaves none of those unknown. |
| `Server.Server.HandleDueDeployment` | lib/scuti/worker/deployment_worker.ex:37-66 | One round: the task is created, then the status written; a crash counts as one. |
| `Server.Server.FireTaskWorker` | lib/scuti/worker/task_worker.ex:28-58 | The pass is a run of the machine; without a crash no task that was pending at its start still is: each is running or further, or gone. |
| `Server.Server.ClaimAndSpawn` | lib/scuti/worker/task_worker.ex:46-53 | The task is no longer pending; with the one-by-one rollout exactly one strategy process is added, for this task and deployment, at its first point; with any other rollout, or a crash, none. |
| `Server.Server.HandlePendingTask` | lib/scuti/worker/task_worker.ex:37-55 | One round: a strategy process is added if and only if the rollout read in the deployment's row is "one_by_one" and nothing crashes. |
| `Server.Server.DeleteOrphan` | lib/scuti/worker/task_worker.ex:41-44 | The task without a deployment is already gone. |
| `Server.Server.SyncStatus` | lib/scuti/module/task_module.ex:123-144 | Changes the rows as `Rows.SyncTaskStatus` says, the function the verdict theorems are about. |
| `Server.Server.Take` | lib/scuti/module/task_module.ex:42-62 | One report: log row, counts, result and status, as `Rows.TakeReport` says. |
| `StrategyProcess.StrategyProcess.Handle` | lib/scuti/worker/one_by_one_strategy.ex:11-69 | The whole strategy, disturbed between any two calls, is a run of the machine. It raises when the deployment is missing at its first read or has filters that raise, and otherwise only if the deployment has been deleted. When it ends it has spawned one patch process for each of the hosts the filters ask for, in order, all dead, and with no host an existing task is skipped. |
| `StrategyProcess.StrategyProcess.LoadTargets` | lib/scuti/context/deployment_context.ex:126-190 | The three reads in order. Without the deployment there is no host list; otherwise it raises if and only if the filters it read do, and lists exactly the hosts they ask for in the groups and hosts it read, each once. |
| `StrategyProcess.StrategyProcess.RecordTotal` | lib/scuti/worker/one_by_one_strategy.ex:33-46 | While the task is there it raises if and only if there is no host list, and otherwise the recorded total is the number of hosts. |
| `StrategyProcess.StrategyProcess.PatchHosts` | lib/scuti/worker/one_by_one_strategy.ex:48-61 | Spawns, sends and waits host by host; it stops early only because a patch process outlives the polls granted. |
| `StrategyProcess.StrategyProcess.AwaitProcess` | lib/scuti/worker/wait_for_process.ex:11-21 | Returns when the patch process is dead, or says that it is still alive. |
| `Targets.SelectsExactlyTheWanted` | lib/scuti/context/deployment_context.ex:126-190 | The two folded queries return exactly the hosts whose group belongs to the team and meets every group tag and which meet every host tag; they raise exactly when a tag is a bare column name. |
| `Targets.ReduceKeepsEachTag` | lib/scuti/context/deployment_context.ex:151-186 | The fold raises exactly when some tag does, and otherwise the query keeps its clauses and gains those of the tags and no others. |
| `Targets.FirstItems` | lib/scuti/context/deployment_context.ex:153-155 | What the first two items of a split at "=" say about the tag as text. |
| `Targets.CommaIntersects` | lib/scuti/context/deployment_context.ex:152-186 | Joining two pairs of filters with commas selects the intersection, and raises if and only if one of them does. |
| `Targets.OnlyTheTagsMatter` | lib/scuti/context/deployment_context.ex:152-186 | Order and repetition of tags do not change the selection. |
| `Targets.AcceptedFiltersNeverRaise` | lib/scuti/service/validator_service.ex:156-161 | For filters the validator accepts no clause is left without a value. |
| `Spaces.SpacesKeepClauseExactly` | lib/scuti/context/deployment_context.ex:152-186 | For every tag and every white space of the grammar, in both filters: the clause is the same with and without the white space if and only if there is none. |
| `Spaces.SpacesChangeSelectionExactly` | lib/scuti/context/deployment_context.ex:152-186 | For every tag the grammar accepts and every white space there are rows and a filter, all of which requests and changesets accept unless the filter is longer than its column, that select the same hosts with and without the white space if and only if there is none; for the hosts filter and for the groups filter. |
| `Spaces.UnderscoreIsWildcard` | lib/scuti/service/validator_service.ex:156-161 | The validator accepts an underscore in any word, and no tag with one there means "contains the tag". |
| `Spaces.UnderscoreMatchesOther` | lib/scuti/context/deployment_context.ex:161-162 | On accepted labels: the tag a_=b matches aX=b, which does not contain it. |
| `FilterGrammar.IsLabelsExactly` | lib/scuti/service/validator_service.ex:156-161 | The regular expression, read declaratively with the final newline that "$" admits, accepts exactly the empty string, the lone newline and the strings whose comma-separated pieces are a word, "=" and a non-empty value, with white space allowed in front of every piece but the first. |
| `FilterGrammar.WordClass` | lib/scuti/service/validator_service.ex:157-157 | A word character is a digit, a capital or small ASCII letter or the underscore, by code point. |
| `FilterGrammar.SpaceClass` | lib/scuti/service/validator_service.ex:157-157 | White space is blank, tab, line feed, vertical tab, form feed and carriage return. |
| `FilterGrammar.AcceptedPiecesHaveValues` | lib/scuti/service/validator_service.ex:156-161 | Every piece of an accepted filter holds an equals sign, unless the filter is blank. |
| `SqlLike.TagMeansSubstring` | lib/scuti/context/deployment_context.ex:161-162 | The pattern of a tag means "contains the tag" for all labels if and only if the tag has no `%`, `_` or backslash. |
| `SqlLike.EmptyTagMatchesAll` | lib/scuti/context/deployment_context.ex:183-184 | The empty tag matches every label. |
| `Text.SplitThenJoin` | lib/scuti/context/deployment_context.ex:152-153 | Joining the pieces gives the text back, and no piece holds the separator. |
| `Text.SplitConcat` | lib/scuti/context/deployment_context.ex:152-153 | Splitting a text with a separator in the middle gives the pieces of both sides. |
| `Fifo.FirstInFirstOut` | agent/core/controller/update_worker.go:22-65 | Along any run in which the agent does not crash, what it held at first and then accepted is what it reported and then holds, in order, and the channel never exceeds 500. |
| `Fifo.AcceptedIsReportedThenHeld` | agent/cmd/server.go:122-122 | From the start: accepted commands = reported, then running, then queued. |
| `AgentProcess.AgentProcess.Listen` | agent/core/controller/listen.go:19-50 | Answers 400 if and only if the body does not decode or the token is not the keyed hash of the text rebuilt from it, and then changes nothing; any other request is recorded as accepted and its message sent, with 202, or, when the channel holds 500, left waiting behind those that came before. |
| `AgentProcess.AgentProcess.UpdateWorker` | agent/core/controller/update_worker.go:18-66 | With requests coming in meanwhile: in the end the k-th report of all answers the k-th request accepted of all, a request whose body decodes and whose own token validated; its task is that of the command, its outcome that of the upgrade; nothing is left in the channel or waiting. |
| `AgentProcess.AgentProcess.HandleMessage` | agent/core/controller/update_worker.go:22-65 | One turn: the oldest accepted request without a report gets the next one, and the first waiting handler gets its room. |
| `AgentProcess.SendAndListen` | lib/scuti/worker/patch_task.ex:20-46 | A command with ASCII fields signed with the agent's secret is accepted with that token and comes last. |
| `SignedForm.TextsAgree` | agent/core/module/agent.go:183-197 | The agent's formatted string is the server's interpolated one, for every body. |
| `SignedForm.BytesAgreeExactly` | lib/scuti/worker/patch_task.ex:33-35 | Charlist bytes and UTF-8 bytes are the same if and only if the text is ASCII. |
| `SignedForm.AcceptedExactlyWhenAscii` | agent/core/module/agent.go:183-197 | With equal secrets the agent accepts exactly the server's token and no other, whatever the keyed hash is, if and only if all fields are ASCII. |
| `SignedForm.OneTokenAtMost` | agent/core/module/agent.go:196-196 | For every keyed hash, secret and command at most one token is accepted: the hash of the rebuilt text. |
| `SignedForm.OnlyTheSignedToken` | agent/core/module/agent.go:183-197 | For ASCII fields a token is accepted if and only if it is the one the server signs with. |
| `SignedForm.CharlistIsCodePoints` | lib/scuti/worker/patch_task.ex:73-73 | A charlist gives its code points as bytes, and raises if and only if one is above 255. |
| `SignedForm.Utf8RoundTrip` | agent/core/module/agent.go:200-202 | Decoding the bytes of a character gives its code point back, and the first byte tells their number. |
| `SignedForm.ParseInvertsExactly` | lib/scuti/worker/patch_task.ex:63-74 | Reading the signed text back gives the fields if and only if no field holds a double quote. |
| `SignedForm.SignedTextIsUnambiguous` | lib/scuti/worker/patch_task.ex:63-74 | Two bodies without quotes in their fields that sign the same text are the same command. |
| `TeamSync.MembershipTable.SyncTeamMembers` | lib/scuti/module/team_module.ex:39-87 | As written: with someone to remove, the rows of the first such user go and the call raises; otherwise everyone missing is added, last first in the result; a missing team raises and changes nothing. When it returns, every user is in the team as often as the request names them, unknown uuids aside, and other teams are untouched; for an existing team it returns if and only if nobody was in it more often than that. |
| `TeamSync.FutureIdsCount` | lib/scuti/module/team_module.ex:46-49 | A user is requested as often as there are positions whose uuid is theirs; unknown uuids count for nothing. |
| `TeamSync.TeamUsersInOrder` | lib/scuti/context/user_context.ex:356-374 | The team's users are its rows' users, all of them, in table order. |
| `TeamSync.SubtractIsOnePass` | lib/scuti/module/team_module.ex:51-55 | Elixir's list difference keeps the order: it is one pass that drops the first occurrences. |
| `TeamSync.IntendedCounts` | lib/scuti/module/team_module.ex:51-80 | What the code sets out to do: a user ends with the requested number of rows if held at most as often as requested, else with none; other teams keep their rows. |
| `TeamSync.SecondSync` | lib/scuti/module/team_module.ex:51-55 | A second intended sync removes nobody, and adds nobody if and only if no requested user was held more often than requested. |
| `TeamSync.SyncMeetsRequestExactly` | lib/scuti/module/team_module.ex:64-71 | As written, every user ends with the requested number of rows if and only if nobody is to be removed, or one user is to be dropped and nothing else is to change; other teams are untouched. |
| `TeamSync.SubtractCount` | lib/scuti/module/team_module.ex:51-55 | Elixir's list difference is multiset difference. |
| `TeamSync.MembershipTable.RemoveUserFromTeam` | lib/scuti/context/user_context.ex:288-295 | Afterwards the user is not in the team, however often before; every other count is as before; the number given is by how much the table shrank. |
| `TeamSync.MembershipTable.AddUserToTeam` | lib/scuti/context/user_context.ex:275-283 | Afterwards the user is in the team once more than before and every other count is as before, unless the team is missing, when it raises and nothing changes. |
| `HostLiveness.PunctualHostStaysOnline` | lib/scuti/worker/host_worker.ex:27-40 | A host that reports at least every 120 seconds is online after every event, however reports fall between the reads and writes of sweeps. |
| `HostLiveness.SilentHostGoesOffline` | lib/scuti/context/host_context.ex:126-143 | A host last reported at r is offline at every time from the second of r plus 121 seconds plus one sweep period plus one sweep duration on. |
| `HostLiveness.SilentHostOnWholeSeconds` | lib/scuti/context/host_context.ex:126-143 | If reports and sweeps fall on whole seconds, 120 instead of 121 is enough. |
| `HostLiveness.OnlineExactly` | lib/scuti/context/host_context.ex:126-143 | After any sweeps a host without a further report is online if and only if it was online and no sweep read the clock more than 120 seconds after the stored time of its report. |
| `HostLiveness.BoundIsOptimal` | lib/scuti/context/host_context.ex:127-134 | For every report, period, delay and margin some regular schedule of sweeps leaves the host online up to the margin before that bound: 121 cannot be lowered. |
| `HostLiveness.ReportDuringSweepExactly` | lib/scuti/context/host_context.ex:136-140 | A host that reports, however often, between the read and the write of a sweep is online afterwards if and only if the sweep had not selected it. |
| `HostLiveness.HostTable.MarkHostsAsOffline` | lib/scuti/context/host_context.ex:126-143 | With hosts reporting or being deleted between any two writes: every host online at the query and reported before the threshold is offline at the end unless it has reported since, no other host is touched, the number of those hosts is returned, and the sweep raises only on one of them deleted meanwhile. |
| `HostLiveness.HostTable.MarkHostAsOnline` | lib/scuti/module/host_module.ex:76-101 | No sweep within the next 120 seconds selects the host; an unknown host changes nothing. |
| `Slug.SlugIsItsWords` | lib/scuti/service/slug_service.ex:13-20 | The pipeline of replacements gives the maximal alphanumeric runs of the lower-cased text, in order, joined by single dashes. |
| `Slug.DowncaseAscii` | lib/scuti/service/slug_service.ex:15-15 | In a text of ASCII letters, digits and dashes capitals become small and nothing else changes. |
| `Slug.AlnumClass` | lib/scuti/service/slug_service.ex:16-16 | The characters kept are the digits and small ASCII letters, by code point. |
| `Slug.SlugIsNormalAndStable` | lib/scuti/service/slug_service.ex:13-20 | A slug has only a-z, 0-9 and dashes, none leading, trailing or doubled, and is its own slug. |
| `Slug.FixedPointsAreNormal` | lib/scuti/service/slug_service.ex:13-20 | A text is its own slug if and only if it has that form. |

## Left out

- Bodies of the agent's HTTP endpoints on the server: they are empty in the repository.
- HTTP, JSON, the keyed hash, base64, logging and the package upgrade: foreign code; a post may be delivered, rejected or raise, and its outcome is a parameter.
- Spontaneous crashes inside the methods of `Server` and `StrategyProcess`: the machine has them at every step, the methods raise only where a call raises.
- The patch process as a class: it has no fields; its steps are `PatchPosts` and `PatchPolls` of the machine.
- `Termination.RolloutFinishes`: how often a patch process is found alive is a parameter; that an agent ever answers is not claimed.
- `StrategyProcess.StrategyProcess.Handle`: takes the number of polls it may spend as a parameter, since the wait for a patch process is unbounded.
- `Server.Server.Take`: several database calls of the assumed client as one transaction.
- Hosts that have never reported: their null time never compares as older, so no sweep selects them.
- Membership rows for deleted users, and concurrent syncs of the same team.
- The scripts and patch type of a task's payload beyond their place in the signed text.
- The strategies all_at_once, percent and count, and recursive schedules: they have no behaviour in the repository.
- Locks: no caller, and taking one never looks for an existing row.
- Controllers, sessions, permissions, settings, installation, views and metadata tables: they check fields and read or write single rows outside the rollout.
