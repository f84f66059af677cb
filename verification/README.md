# Watchlight: verified core

Watchlight checks hosts and URLs on a schedule, journals the results and turns failures into incidents. This project
models its core in Dafny and proves what the parts promise one another:

- **The scheduler.** A min-heap of states that a map shares by reference; dispatch, completions and config events
  change both in place (`HeapOrder`, `StateHeap`, `SchedulerCore`, `Scheduler`). The heap operations of Go's
  `container/heap` are written out over the repository's own `Less`, `Swap`, `Push` and `Pop`.
- **The pipeline around it.** One scheduling loop, N workers, a results buffer of capacity N and one consumer, joined
  by unbuffered channels with ordered closes, as a step system over all interleavings (`Pipeline*`). The heap and the
  map refine it: driven by any environment that never has a config recreated while its job is outstanding, they stay in
  order and show the run's table, and every run that never recreates is such an environment's, up to ties
  (`SchedulerRuns`). When a config is sent, and what of it is reported, is in `PipelineTiming`, `PipelinePromptness`
  and `PipelineOrigins`; `Overlaps` and `Recreation` are about the runs that do recreate.
- **Live reconfiguration.** The service stores a change and sends the diff of the enabled jobs; the scheduler's table
  is a cache of the store (`Commands`, `ConfigDiff`, `Service`, `Reconfiguration`, `Toggling`). `CommandEffects` tells
  each operation by its input: when it is accepted, what is read afterwards, what is announced.
- **Incidents.** The stored incidents are an incremental index over the history of handled results (`Incidents`,
  `IncidentTables`, `IncidentStore`, `ResultProcessor`, `IncidentHistory`, `IncidentIndex`, `RunIncidents`).
- **The aggregate and its stored form.** Monitors, their configs, their normalised values and their tables (`Text`,
  `ValueObjects`, `NormalForms`, `Configs`, `Monitors`, `Tables`, `StoredMonitors`, `StoredJobs`, `StoredCounts`,
  `MonitorStore`).

`dafny verify dfyconfig.toml` verifies the project.

## Reading the model

Objects the program updates in place are classes (`StateHeap`, `Scheduler`, `Monitor`, `MonitorStore`, `Incident`,
`IncidentStore`, `ResultProcessor`, `Service`). Each method is specified by a function on values, and the theorems are
about those functions and about runs of steps. The table under "Model" lists the main results first, up to
`ValueObjects.SecondsRoundTrip`, and then what they rest on, module by module.

What comes from outside is a parameter: identifiers (`NewIDs`, `configID`, `resultID`, `incidentID`), clock readings
(`at`, `now`), the random draw of the jitter (`Listed.draw`), the outcome of a check (`CheckOutcome`), whether the
database refuses a journal entry (`refused`), which sends lose to the end of a request (`dropped`), how many sends a
dispatch makes before it is cancelled (`budget`), who moves next (`Environment`), and `net.ParseIP` (`parsesIP`). Map
iteration and row orders that the program leaves open are arbitrary choices. Strings are ASCII. Identifiers are
numbers, ordered as their texts are.

Where the obvious property is false of the code, the model keeps the code, and the exact condition is proved:

- A completion that comes when its config's state is already on the heap puts it there twice. `Scheduler.ApplyEvent`
  keeps the structural invariant exactly when the completion is not stale, and
  `PipelineSafety.NoOverlapIffNeverRecreates` says which runs keep the flags truthful and so take no stale completion:
  those that never create a config again while a job of it is outstanding. `SchedulerRuns.Drive` carries these runs
  over to the scheduler's objects. The other runs do overlap checks: `Overlaps.RecreationAlwaysOverlaps` finds two
  outstanding jobs of the config after the next dispatch, whatever the run, and
  `Overlaps.OverlapFreeIffNeverRecreates` makes it an equivalence over runs.
  `Recreation.RecreationOverlaps` and `Recreation.RecreationGoesStale` are the run that is not safe,
  `Recreation.BreakHeap` is what it does to the heap, and `Toggling.TogglingRecreates` brings it about by disabling a
  check and enabling it again.
- A dispatch with more than 2N + 1 jobs, counting those outstanding, gets stuck until it is cancelled
  (`PipelineCapacity.DispatchCompletesIffItFits`, `PipelineCapacity.JammedForGood`), because the consumer cannot hand
  its event to a loop that is sending.
- An event dropped at the end of a request leaves the scheduler out of date
  (`ConfigDiff.AgreesIffNothingDropped`, `Reconfiguration.ServeInStep`).
- `New` accepts two checks with the same scheme, path and method; only the table's UNIQUE constraint refuses them
  (`Monitors.NewIsSoundIffInputsDiffer`, `Commands.InsertedKeysDiffer`).
- Seconds above 9,223,372,036 are accepted and wrap around (`ValueObjects.SecondsRoundTrip`), and storage truncates
  what is then no whole number of seconds. The theorems about operations hold for all second counts, with stored
  monitors held "as stored" (`StoredMonitors.AsStored`); the scheduler keeps agreeing with the store exactly while the
  counts given to enabled configs make whole seconds (`StoredCounts.WholeIffLands`, `Reconfiguration.ServeInStep`,
  `Reconfiguration.OverflowFallsOutOfStep`), and a start finds a jitter window for every job exactly when every enabled
  config is stored with a positive interval (`Reconfiguration.WindowsIffPositive`). Only lower bounds of intervals and
  timeouts need counts that fit.
- `NewHost` strips one trailing dot, so a host given with two is not in the form its comment describes; white space
  other than spaces and tabs can be left at the end of a host or a path (`ValueObjects.HostRoundTrip`,
  `ValueObjects.PathRoundTrip`). A path that ends in a colon is refused when two slashes follow it, which would have
  been cut (`NormalForms.PathAccepts`). The comments promise a normal form; the model follows the code.

## Model

| member | source | states |
|---|---|---|
| SchedulerRuns.Drive | internal/services/scheduler/scheduler.go:91-246 | whatever the environment does, cancellation included, as long as it never has a config created again while its job is outstanding: after any number of steps the scheduler's heap, map and states are in order and show the table of the pipeline run they went through |
| SchedulerRuns.TakeStep | internal/services/scheduler/scheduler.go:142-246 | each step of the pipeline, taken on the objects, leaves them showing the table the step system says; the guard of dispatch and the job to send agree with it; the objects stay in order exactly unless the completion taken is stale |
| SchedulerRuns.WantingIsLawful | internal/services/scheduler/scheduler.go:142-182 | every run that never recreates is wanted by an environment Drive admits |
| SchedulerRuns.WantingIsFollowed | internal/services/scheduler/scheduler.go:142-182 | and what the scheduler goes through under it is that run, until a pop takes another of equally due states |
| PipelineSafety.NoOverlapIffNeverRecreates | internal/services/scheduler/scheduler.go:171-246 | a run keeps at most one job of each config outstanding and every in-flight flag truthful, in every state, exactly when it never recreates a config whose job is outstanding |
| PipelineSafety.CompletionsAreNeverStale | internal/services/scheduler/scheduler.go:184-192 | in such a run no completion offered is stale, which is the condition under which the heap stays well formed |
| Overlaps.OverlapFreeIffNeverRecreates | internal/services/scheduler/scheduler.go:171-246 | in an uncancelled run whose dispatches have completed, no config ever has two jobs outstanding exactly when no config event recreates a config whose job is outstanding |
| Overlaps.RecreationAlwaysOverlaps | internal/services/scheduler/scheduler.go:171-246 | whenever a config is recreated while its job is outstanding, two jobs of it are outstanding once the next dispatch has completed |
| Overlaps.OverlapsIffRecreated | internal/services/scheduler/scheduler.go:171-246 | after any run that never recreated, a config event whose dispatch fits, o + K <= 2N + 1, ends that dispatch with two jobs of some config exactly when it recreates |
| Recreation.RecreationOverlaps | internal/services/scheduler/scheduler.go:171-246 | a run from a start in which a config is deleted and created again while its job is out ends with two jobs of it outstanding |
| Recreation.RecreationGoesStale | internal/services/scheduler/scheduler.go:171-246 | the same run goes on to a completion of a mapped state that waits on the heap |
| Recreation.BreakHeap | internal/services/scheduler/scheduler.go:184-192 | on the scheduler's own objects that run ends with wrong back-indices in the heap |
| Toggling.TogglingDeletesAndCreates | internal/monitor/service.go:177-224 | disabling and enabling a stored monitor's ping check sends exactly a deletion and then a creation of the same job under the same identifier |
| Toggling.TogglingRecreates | internal/monitor/service.go:177-224 | so usual operations, with no event lost, bring the scheduler to recreate a config while its job is outstanding |
| PipelineTiming.NeverTooEarly | internal/services/scheduler/scheduler.go:171-192 | between two consecutive sends of a config with no config event in between, the check of the first job ended at some step of the run, its result was handled, and the second send began no earlier than that step's time plus the interval |
| PipelinePromptness.NeverTooLate | internal/services/scheduler/scheduler.go:171-192 | if the last thing the loop did with a config was to apply its completion, an uncut dispatch hands its job to a worker exactly if the interval has passed since then |
| PipelinePromptness.DueIsSent | internal/services/scheduler/scheduler.go:142-182 | and while the loop waits, with room for what is due, the timer starts such a dispatch |
| PipelinePromptness.UpdatesArePrompt | internal/services/scheduler/scheduler.go:216-232 | after any run that never recreates, an update of a config with no job outstanding, or the creation of a new one, has the dispatch that follows hand the new job to a worker, at the event's own time |
| PipelinePromptness.UpdatesInFlightWait | internal/services/scheduler/scheduler.go:227-232 | an event of a config whose job is outstanding leaves it in flight with the new job, and the dispatch that follows sends none of it |
| PipelinePromptness.CreationsKeepTime | internal/services/scheduler/scheduler.go:199-206 | creating a known config keeps its due time and flag: the dispatch that follows sends the new job exactly if the config waited and was due already |
| PipelineOrigins.HandledAreReports | internal/services/scheduler/scheduler.go:281-350 | every result handled in a run is the report of the check of the job with its ticket that ended at some step of the run: checked at that step's time, with the outcome's reachability, status code, error, response time and keywords, and unreachable with an error where there was no checker or no answer |
| PipelineTiming.IntervalInForce | internal/services/scheduler/scheduler.go:227-232 | an update takes its interval at the next completion or send, in flight or not, until the next config event |
| PipelineCapacity.DispatchCompletesIffItFits | internal/services/scheduler/scheduler.go:76-79 | run until nothing more can happen, an uncut dispatch has completed if o + K <= 2N + 1 and is stuck otherwise; its steps are bounded; K due entries of the table, o outstanding jobs, N workers |
| PipelineCapacity.DispatchesInRuns | internal/services/scheduler/scheduler.go:171-182 | in a run from the start that never recreates, every dispatch has a continuation that comes to rest, completed if o + K <= 2N + 1 and jammed otherwise |
| PipelineCapacity.JammedForGood | internal/services/scheduler/scheduler.go:176-180 | a jam lasts until the dispatch is cancelled |
| PipelineSafety.HandledExactlyOnce | internal/services/scheduler/scheduler.go:281-350 | in every run each result handled belongs to a received job, none is handled twice, and when done closes all were handled and nothing is left |
| PipelineSafety.NeverTouchesClosed | internal/services/scheduler/scheduler.go:109-169 | in every run no channel is sent on after its close or closed twice, and the loop never receives the close of events |
| PipelineDrain.ShutdownDrains | internal/services/scheduler/scheduler.go:109-169 | so every continuation takes boundedly many steps, and one that cannot go on has closed done with every received job handled and nothing left |
| PipelineDrain.ShutdownIsReached | internal/services/scheduler/scheduler.go:109-182 | and from every state of every run, once cancelled, some continuation makes schedule return and closes done and events, with every received job handled and nothing left |
| Reconfiguration.SchedulerAgreesWithStore | internal/monitor/service.go:22-224 | in every state reached by undisturbed operations and any scheduler steps, folding the pending events over the scheduler's jobs gives the union of the jobs of all stored monitors, up to Equal |
| Reconfiguration.ServeInStep | internal/monitor/service.go:22-224 | a service operation keeps scheduler and store in step exactly when none of its events is dropped and the counts it gives to enabled configs make whole seconds, each given the other |
| StoredCounts.WholeIffLands | internal/monitor/service.go:22-198 | an operation leaves the enabled configs of its monitor with whole seconds exactly when the counts the command gives to enabled configs make whole seconds |
| Reconfiguration.FittingIsUndisturbed | internal/monitor/service.go:22-224 | a history on second counts that fit, with no event dropped, meets the condition of the agreement, and keeps a sound store sound |
| Reconfiguration.OverflowFallsOutOfStep | internal/monitor/vo.go:33-35 | one second above the bound: create succeeds, the scheduler is told another interval than is stored, and the stored one has a negative jitter window |
| Reconfiguration.WindowsIffPositive | internal/services/scheduler/scheduler.go:255-259 | the random draws of a start are all possible exactly when every enabled config is stored with a positive interval |
| ConfigDiff.AgreesIffNothingDropped | internal/monitor/service.go:200-206 | and with some sends lost, the registry agrees with the jobs after exactly when none was lost |
| ConfigDiff.DiffIsCorrect | internal/monitor/service.go:208-224 | the diff's events, in any order, turn a registry that agrees with the jobs before into one that agrees with the jobs after |
| ConfigDiff.DiffIsMinimal | internal/monitor/service.go:208-224 | one event for each config that differs and none for any other |
| Commands.PerformIsFaithful | internal/monitor/service.go:22-198 | an operation that succeeds, on whatever second counts, leaves a well-shaped store holding the monitor as it left it in memory, up to what storage keeps of its durations, and touches no other; counts that fit are kept and every pace stays sound |
| Commands.EveryStoredMonitorIsSound | internal/monitor/service.go:22-198 | after any sequence of operations every stored monitor keeps the aggregate's invariants, and every pace is sound while the second counts given fit |
| CommandEffects.AcceptedExactly | internal/monitor/service.go:22-198 | when each operation is accepted, in terms of its input and the stored rows: the monitor and config are there, every field given is acceptable, no other monitor has the host, no other check of the monitor has the scheme, path and method |
| CommandEffects.RefusedExactly | internal/monitor/service.go:22-198 | and with which error it is refused otherwise: that of the first thing amiss |
| CommandEffects.PerformTakes | internal/monitor/service.go:22-198 | what each operation makes of the monitor read before it: the name and host given and kept where not given, the config added, changed or removed and the others as they were, the new monitor as asked for |
| CommandEffects.PerformIsRead | internal/monitor/service.go:22-198 | what is read afterwards is just that, up to the durations storage keeps and the order of HTTP configs; a deleted monitor is not found |
| CommandEffects.OthersReadTheSame | internal/monitor/service.go:22-198 | no operation changes what is read of another monitor |
| CommandEffects.HostIsAnnounced | internal/monitor/service.go:37-64 | an update to another host sends an update with the new host for every enabled config and nothing else; any other update sends nothing |
| CommandEffects.PerformAnnounces | internal/monitor/service.go:200-224 | the events of any operation carry, for what is created or updated, the job an enabled config and the monitor's host describe field by field; deletions are of configs no longer enabled; whatever becomes enabled or stops being so is mentioned |
| StoredMonitors.CreateThenGet | internal/storage/sqlite/monitors.go:18-254 | create then get returns the monitor with the durations storage keeps and its HTTP configs in identifier order, so, but for that order, the same monitor exactly when its durations are whole seconds |
| StoredJobs.StoredJobsAgree | internal/storage/sqlite/monitors.go:601-662 | a monitor's jobs in memory and as stored agree exactly when its enabled configs have whole seconds |
| RunIncidents.RunIncidents | internal/services/resultprocessor/resultprocessor.go:37-128 | in every run of the pipeline, once its results are handled, a monitor has an open incident exactly while, for some config, the last report the journal took was unreachable or carried an error, and its reasons are exactly those configs' |
| RunIncidents.RunReasons | internal/services/resultprocessor/resultprocessor.go:99-128 | each reason has the error, the type, the time and the journal identifier of that last report, and the time of the first report of the unbroken run of failed checks it ends |
| RunIncidents.RunOutages | internal/storage/sqlite/incident.go:126-143 | the monitor's incident rows record, one to one and in order, the maximal stretches of reports in which some config's last report was of a failed check, with the times of the reports that began and ended them |
| IncidentIndex.IncidentEqualsHistory | internal/services/resultprocessor/resultprocessor.go:37-97 | after any history a monitor has an open incident exactly when some config's latest result is a failure, and its reasons are exactly those configs' |
| IncidentIndex.ReasonTellsStreak | internal/services/resultprocessor/resultprocessor.go:99-117 | each reason starts at the first failure of the config's unbroken streak and tells of its latest failure |
| IncidentIndex.IncidentsAreOutages | internal/storage/sqlite/incident.go:126-143 | a monitor's incident rows are its maximal down times, one to one and in order, with the times of the results that opened and ended them |
| IncidentIndex.ResolvedNeverChanges | internal/storage/sqlite/incident.go:126-180 | rows stay in place, and a resolved one, with its reasons, is the same in every later state |
| Schedulers.Scheduler.Dispatch | internal/services/scheduler/scheduler.go:171-182 | keeps the invariant, terminates, and sends exactly the jobs of the due states in due order, or that prefix of them the cancellation leaves |
| Schedulers.Scheduler.ApplyEvent | internal/services/scheduler/scheduler.go:184-192 | a completion sets the next due time to its own time plus the current interval; the structural invariant survives exactly when the completion is not stale |
| Schedulers.Scheduler.ApplyConfigEvent | internal/services/scheduler/scheduler.go:194-246 | every kind of config event, in flight or not, known or not, keeps the invariant and changes that one entry of the table; when it is sent after that, the results on prompt updates say over whole runs |
| ValueObjects.HostRoundTrip | internal/monitor/vo.go:131-172 | parsing a printed host gives it back, exactly unless it is no IPv6 address and ends in a dot or white space |
| ValueObjects.PathRoundTrip | internal/monitor/vo.go:182-189 | normalising twice is normalising once, exactly unless the path ends in white space |
| NormalForms.PathExactly | internal/monitor/vo.go:182-189 | exactly the texts made of white space, slashes, the path's own text, slashes and white space are accepted as that path, if no blank and no :// stands between the white space |
| NormalForms.PathAccepts | internal/monitor/vo.go:182-189 | so every canonical path is had from every such way of writing it, except that a final colon before two slashes is refused |
| NormalForms.PathRefusedExactly | internal/monitor/vo.go:182-189 | what is refused is what has :// anywhere or a blank inside |
| NormalForms.HostExactly | internal/monitor/vo.go:131-151 | exactly the texts that write a host are accepted, as that host in lower case: a bracketed IPv6 address, or a text without brackets in front, colon, slash, space or tab, either with at most one dot cut and white space around |
| ValueObjects.SecondsRoundTrip | internal/monitor/vo.go:53-55 | seconds survive as a duration exactly up to 9,223,372,036 |
| StateHeaps.StateHeap.Swap | internal/services/scheduler/heap.go:32-36 | exchanges two entries and both back-indices, keeping members and links |
| StateHeaps.StateHeap.Push | internal/services/scheduler/heap.go:25-30 | appends a new member whose back-index is its position |
| StateHeaps.StateHeap.Pop | internal/services/scheduler/heap.go:15-23 | drops the last entry, with back-index -1, and nothing else |
| StateHeaps.StateHeap.Up | internal/services/scheduler/heap.go:11-36 | restores the order above an entry that is out of order with its parent only |
| StateHeaps.StateHeap.Down | internal/services/scheduler/heap.go:11-36 | restores the order below an entry that is out of order with its children only, and tells whether it moved |
| StateHeaps.StateHeap.Init | internal/services/scheduler/scheduler.go:106 | orders any linked heap, with the same members |
| StateHeaps.StateHeap.HeapPush | internal/services/scheduler/scheduler.go:191 | adds one member to a well-formed heap and keeps it so; a state already in it breaks the back-indices |
| StateHeaps.StateHeap.HeapPop | internal/services/scheduler/scheduler.go:174 | removes the root of a well-formed heap, which is the earliest due, and nothing else |
| StateHeaps.StateHeap.Remove | internal/services/scheduler/scheduler.go:242-244 | removes exactly the state at an index of a well-formed heap |
| StateHeaps.StateHeap.Fix | internal/services/scheduler/scheduler.go:230-232 | makes the heap well-formed again after one state's due time changed, with the same members |
| Schedulers.Scheduler.BuildEntries | internal/services/scheduler/scheduler.go:248-267 | builds one fresh state per config, later ones replacing earlier ones, due at its clock reading plus its draw |
| Schedulers.Scheduler.Start | internal/services/scheduler/scheduler.go:91-107 | a start establishes the structural invariant: linked back-indices, order, distinct entries, the heap holding exactly the mapped states not in flight |
| Schedulers.Scheduler.PopRoot | internal/services/scheduler/scheduler.go:173-175 | takes a due state that is earliest among the waiting ones, flags it, and keeps the invariant |
| Schedulers.Scheduler.SleepUntilNext | internal/services/scheduler/scheduler.go:269-279 | an hour when nothing waits; otherwise exactly up to the earliest waiting due time, at least zero |
| SchedulerCore.StartTableFilesListed | internal/services/scheduler/scheduler.go:248-267 | after a start every listed config is filed under its own identifier, due within its draw, and none is in flight |
| SchedulerCore.DispatchIsSortedDuePrefix | internal/services/scheduler/scheduler.go:171-182 | a dispatch that is not cut short pops each due state exactly once, in non-decreasing due time, and changes nothing else |
| SchedulerCore.DispatchTable | internal/services/scheduler/scheduler.go:171-182 | an uncut dispatch leaves one table, in whatever order it pops states due at the same time |
| PipelineSafety.ConservedKept | internal/services/scheduler/scheduler.go:281-350 | every step keeps each received job at exactly one place: a worker, the buffer, or the handled results |
| PipelineSafety.NoOverlapKept | internal/services/scheduler/scheduler.go:171-246 | every step that does not recreate a config with an outstanding job keeps checks from overlapping and flags truthful |
| PipelineSafety.NoOverlapBroken | internal/services/scheduler/scheduler.go:207-214 | a step that does recreate one leaves a flag untruthful at once |
| PipelineCapacity.QuietDispatchIsJammed | internal/services/scheduler/scheduler.go:176-180 | the only way to get stuck: the loop waits for a worker, all workers for the full buffer, the consumer for the loop |
| PipelineCapacity.JammedStays | internal/services/scheduler/scheduler.go:176-180 | in a jam before cancellation nothing is possible but to cancel and to wait |
| PipelineDrain.DrainNeverSticks | internal/services/scheduler/scheduler.go:281-350 | once schedule has returned, some goroutine can go on until the pipeline has finished |
| Services.Service.SyncScheduler | internal/monitor/service.go:208-224 | sends a complete diff, in any map order, less the sends that lose to the request's context |
| Services.Service.Create | internal/monitor/service.go:22-35 | creates, stores, announces and returns a monitor, or fails without any change |
| Services.Service.Update | internal/monitor/service.go:37-64 | renames or moves a monitor, announces its changed jobs and returns it as changed, or fails without any change |
| Services.Service.Delete | internal/monitor/service.go:95-106 | deletes a monitor and announces the end of its jobs, or fails without any change |
| Services.Service.AddHTTPCheck | internal/monitor/service.go:108-129 | adds a check, announces its job and returns the config appended, or fails without any change |
| Services.Service.UpdateHTTPCheck | internal/monitor/service.go:131-153 | changes a check and announces what became of its job, or fails without any change |
| Services.Service.RemoveHTTPCheck | internal/monitor/service.go:155-175 | removes a check and announces the end of its job, or fails without any change |
| Services.Service.UpdatePing | internal/monitor/service.go:177-198 | changes the ping check and announces what became of its job, or fails without any change |
| Services.Service.Get | internal/monitor/service.go:66-77 | the stored monitor, down exactly while it has an open incident and up otherwise |
| Services.Service.List | internal/monitor/service.go:79-93 | exactly the stored monitors with a ping config, each as Get returns it; it fails exactly over an HTTP config whose monitor has none |
| Reconfiguration.StartAgrees | internal/services/scheduler/scheduler.go:91-107 | the table a start builds agrees with the union of the stored monitors' jobs |
| Reconfiguration.RunInStep | internal/services/scheduler/scheduler.go:142-246 | no step of the scheduler takes it out of step |
| Reconfiguration.WindowsArePositive | internal/services/scheduler/scheduler.go:255-259 | on a sound store every jitter window is positive, so the random draw cannot panic |
| Reconfiguration.FirstDueInWindow | internal/services/scheduler/scheduler.go:255-264 | each config is first due in [listing, listing + min(interval, 30s)) |
| Reconfiguration.WindowExactly | internal/services/scheduler/scheduler.go:256-257 | the window admits exactly the draws below the interval and below thirty seconds |
| Commands.StoreTakesAddition | internal/storage/sqlite/monitors.go:664-691 | the store refuses an accepted addition only for an identifier in use |
| Commands.StoreTakesUpdates | internal/storage/sqlite/monitors.go:601-662 | the store never refuses an accepted update |
| Commands.InsertedKeysDiffer | internal/storage/sqlite/migrations.go:45 | the UNIQUE constraint refuses the duplicates that New lets pass |
| StoredCounts.CountsStay | internal/storage/sqlite/monitors.go:18-102 | after any sequence of operations the stored counts are those of int64 durations |
| StoredJobs.JobsSplit | internal/monitor/monitor.go:164-175 | all enabled jobs are those of one monitor and, apart from them, those of the others |
| StoredJobs.ProjectAllIsUnion | internal/monitor/monitor.go:164-175 | every stored monitor can be read, and the enabled jobs are exactly the union of the monitors' projections |
| StoredJobs.HeldIsShaped | internal/storage/sqlite/migrations.go:28-45 | every monitor the store holds keeps the aggregate's invariants and has whole seconds |
| StoredMonitors.ReadHolds | internal/storage/sqlite/monitors.go:141-254 | the reader returns the monitor the tables hold, its HTTP configs in identifier order |
| StoredMonitors.HeldIsRead | internal/storage/sqlite/monitors.go:141-254 | what the tables hold of a monitor determines what the reader returns |
| StoredMonitors.InsertHolds | internal/storage/sqlite/monitors.go:18-102 | a created monitor is held as storage gives it back |
| StoredMonitors.ReplacedHolds | internal/storage/sqlite/monitors.go:631-662 | storing a changed config leaves the tables holding the changed aggregate, the config as storage gives it back |
| StoredMonitors.AddedHolds | internal/storage/sqlite/monitors.go:664-691 | storing a new config leaves the tables holding the grown aggregate, the config as storage gives it back |
| StoredMonitors.RemovedHolds | internal/storage/sqlite/monitors.go:693-713 | removing one always finds its row and leaves the tables holding the smaller aggregate |
| StoredMonitors.StoredAsIsIffWhole | internal/storage/sqlite/monitors.go:601-662 | storage keeps a monitor exactly when all its durations are whole seconds, and gives back whole seconds in any case |
| MonitorStores.GroupedRows | internal/storage/sqlite/monitors.go:339-345 | grouping rows ordered by monitor and identifier gives each monitor its rows in identifier order |
| MonitorStores.CollectMonitors | internal/storage/sqlite/monitors.go:299-333 | the first loop finds each joined monitor once, in identifier order |
| MonitorStores.AttachChecks | internal/storage/sqlite/monitors.go:353-403 | the second loop gives each monitor its own configs in order, and fails exactly on a config whose monitor was not found |
| MonitorStores.ListHasEveryMonitor | internal/storage/sqlite/monitors.go:276-415 | the list has every monitor with a ping config, in identifier order, each as GetMonitor returns it |
| MonitorStores.MonitorStore.CreateMonitor | internal/storage/sqlite/monitors.go:18-102 | all rows, or none and an error |
| MonitorStores.MonitorStore.UpdateMonitor | internal/storage/sqlite/monitors.go:104-131 | name and host where given, or an error and no change |
| MonitorStores.MonitorStore.DeleteMonitor | internal/storage/sqlite/monitors.go:256-274 | the monitor and its configs gone, or an error and no change |
| MonitorStores.MonitorStore.GetMonitor | internal/storage/sqlite/monitors.go:141-254 | the row loop rebuilds the monitor |
| MonitorStores.MonitorStore.GetMonitorList | internal/storage/sqlite/monitors.go:276-415 | one monitor per joined row, in identifier order, each as GetMonitor returns it |
| MonitorStores.MonitorStore.ListEnabledCheckConfigs | internal/storage/sqlite/monitors.go:417-551 | one job for each enabled config and no other, in any row order |
| MonitorStores.MonitorStore.UpdatePingConfig | internal/storage/sqlite/monitors.go:601-629 | the one row changed, or an error and no change |
| MonitorStores.MonitorStore.UpdateHTTPConfig | internal/storage/sqlite/monitors.go:631-662 | the one row changed, or an error and no change |
| MonitorStores.MonitorStore.AddHTTPConfig | internal/storage/sqlite/monitors.go:664-691 | the one row added, or an error and no change |
| MonitorStores.MonitorStore.RemoveHTTPConfig | internal/storage/sqlite/monitors.go:693-713 | the one row removed, or an error and no change |
| MonitorTables.InsertKeepsSchema | internal/storage/sqlite/monitors.go:18-102 | creating keeps the unique hosts, one ping config per monitor, the unique checks and the foreign keys |
| MonitorTables.UpdateKeepsSchema | internal/storage/sqlite/monitors.go:104-131 | so does updating a monitor |
| MonitorTables.WithoutKeepsSchema | internal/storage/sqlite/monitors.go:256-274 | and deleting one with its configs |
| MonitorTables.StoreKeepsSchema | internal/storage/sqlite/monitors.go:631-662 | and changing an HTTP config |
| MonitorTables.AddKeepsSchema | internal/storage/sqlite/monitors.go:664-691 | and adding one |
| RunIncidents.HandleEach | internal/services/resultprocessor/resultprocessor.go:37-97 | handling a run's results in the order handed over, some refused by the journal, leaves the journal with those taken and the tables with what the history says |
| IncidentIndex.ResultKeepsIndex | internal/services/resultprocessor/resultprocessor.go:37-97 | handling a result succeeds and keeps the incident tables equal to the function of the history |
| IncidentHistory.FailingIsLatest | internal/services/resultprocessor/resultprocessor.go:53-92 | the failing configs, kept up result by result, are those whose latest handled result is a failure |
| IncidentHistory.StreakIsUnbroken | internal/monitor/incident.go:53-58 | a streak starts with a failure, has no recovery after it, and was not failing before |
| IncidentHistory.StretchesInTurn | internal/services/resultprocessor/resultprocessor.go:53-92 | a monitor's down times are disjoint, in order, and only the last may go on |
| IncidentHistory.StretchesCoverDown | internal/services/resultprocessor/resultprocessor.go:53-92 | and they are maximal: a result leaves the monitor down exactly when one of them covers it |
| ResultProcessors.Journal.SaveCheckResult | internal/storage/sqlite/monitors.go:553-599 | appends a result or refuses it without change; a headless one is always refused |
| ResultProcessors.ResultProcessor.HandleCheckResult | internal/services/resultprocessor/resultprocessor.go:37-145 | an unjournaled result changes nothing; a journaled one is a success exactly if it was reachable and carried no error, and moves the monitor's incident by the four-case transition, or fails and leaves it |
| IncidentStores.IncidentStore.Save | internal/storage/sqlite/incident.go:117-187 | upsert, delete and re-insert in one transaction; a broken constraint changes nothing |
| IncidentStores.InsertReasons | internal/storage/sqlite/incident.go:168-180 | the loop of inserts, in any order, succeeds exactly when no two reasons share a config |
| IncidentStores.IncidentStore.GetOpenByMonitor | internal/storage/sqlite/incident.go:14-115 | the monitor's open incident with all its reason rows, or none |
| IncidentStores.IncidentStore.ListMonitorIDsWithOpenIncident | internal/storage/sqlite/incident.go:189-221 | exactly the monitors for which an open incident is found |
| IncidentTables.SaveKeepsSchema | internal/storage/sqlite/incident.go:117-187 | a save keeps the primary key, one open incident per monitor, and no reason rows without an incident |
| IncidentTables.SaveThenGet | internal/storage/sqlite/incident.go:14-187 | an open incident is read back unchanged exactly when its reasons are keyed by their own configs and no other incident of the monitor is open; no earlier reason row is left over |
| IncidentTables.SavedIsResolved | internal/storage/sqlite/incident.go:126-143 | a resolved incident is no longer found open |
| IncidentTables.SaveLeavesOthers | internal/storage/sqlite/incident.go:117-187 | a save touches no other monitor's open incident and no other incident's reasons |
| Incidents.Incident.RecordFailure | internal/monitor/incident.go:53-58 | the reason is replaced but keeps the start of the streak |
| Incidents.Incident.RecoverReason | internal/monitor/incident.go:66-73 | removes the reason, closing the incident if it was the last; an absent one is an error and changes nothing |
| Incidents.Incident.RemoveReason | internal/monitor/incident.go:79-85 | the same for a removed config, where an absent reason is no error |
| Incidents.Incident.TryClose | internal/monitor/incident.go:87-93 | closes exactly when no reason is left |
| Incidents.StaysKeyed | internal/monitor/incident.go:35-73 | opening, failing and recovering keep the reasons filed under their own configs |
| Incidents.StaysOpenWhileFailing | internal/monitor/incident.go:35-93 | an incident is resolved exactly when its last reason goes |
| Monitors.BuildHTTPConfigs | internal/monitor/http_config.go:116-126 | all configs in input order, or the error of the first input refused |
| Monitors.New | internal/monitor/monitor.go:18-58 | the first error in the order name, host, ping config, HTTP configs, or the monitor with the drawn identifiers |
| Monitors.NewIsSoundIffInputsDiffer | internal/monitor/monitor.go:18-58 | a new monitor keeps the aggregate's invariants exactly when no two of the HTTP checks asked for have the same scheme, path and method in normal form, which is not checked here; counts that fit give it a sound pace |
| Monitors.NewAcceptsDuplicates | internal/monitor/monitor.go:45-48 | the same check given twice passes |
| Monitors.PingUpdateStaysSound | internal/monitor/monitor.go:102-109 | keeps every invariant of the aggregate on whatever second counts, and its pace when they fit |
| Monitors.HTTPUpdateStaysSound | internal/monitor/monitor.go:111-133 | keeps every invariant, distinct keys included, on whatever second counts, and the pace when they fit |
| Monitors.AdditionStaysSound | internal/monitor/monitor.go:135-151 | keeps every invariant, distinct keys included, on whatever second counts, and the pace when they fit |
| Monitors.RemovalStaysSound | internal/monitor/monitor.go:153-162 | keeps every invariant of the aggregate and its pace |
| Monitors.ProjectedJobs | internal/monitor/monitor.go:164-175 | with distinct identifiers the projection holds exactly the enabled configs' jobs, each under its own identifier |
| Monitors.Monitor.UpdatePingConfig | internal/monitor/monitor.go:102-109 | replaces the ping config, or is rejected and leaves the monitor unchanged |
| Monitors.Monitor.UpdateHTTPConfig | internal/monitor/monitor.go:111-133 | replaces the config in its place, or is rejected and leaves the monitor unchanged |
| Monitors.Monitor.AddHTTPConfig | internal/monitor/monitor.go:135-151 | appends the config, or is rejected and leaves the monitor unchanged |
| Monitors.Monitor.RemoveHTTPConfig | internal/monitor/monitor.go:153-162 | removes the config, keeping the order of the others, or is rejected and leaves the monitor unchanged |
| Monitors.Monitor.JobProjection | internal/monitor/monitor.go:164-175 | the loop computes the projection |
| Configs.NewHTTPIsSound | internal/monitor/http_config.go:46-90 | a created config has a canonical path, and no keywords with HEAD; it has the seconds asked for exactly when they fit, and then a sound pace |
| Configs.UpdatedHTTPIsSound | internal/monitor/http_config.go:150-228 | an update keeps a config well shaped, and its pace sound when the counts given fit |
| Configs.NewPingIsSound | internal/monitor/ping_config.go:35-65 | a created ping config has a non-zero port; it has the seconds asked for exactly when they fit, and then a sound pace |
| Configs.UpdatedPingIsSound | internal/monitor/ping_config.go:97-144 | an update keeps a ping config well shaped, and its pace sound when the counts given fit |
| Configs.HTTPUpdateTakes | internal/monitor/http_config.go:150-228 | an accepted update takes over, as parsed, exactly the fields given, and doing it again changes nothing |
| Configs.NewPingExactly | internal/monitor/ping_config.go:35-65 | which inputs create a ping config, and each of its fields: port 443 and enabled unless told otherwise |
| Configs.NewHTTPExactly | internal/monitor/http_config.go:46-90 | which inputs create an HTTP config, and each of its fields, keywords and attempts included |
| NormalForms.SchemeExactly | internal/monitor/http_config.go:139-148 | http and https in any case, between white space, and nothing else |
| NormalForms.MethodExactly | internal/monitor/http_config.go:128-137 | GET and HEAD in any case, between white space, and nothing else |
| Jobs.EqualIsCanonicalEquality | internal/monitor/job.go:73-82 | two jobs are Equal exactly when their canonical forms are the same, so never across job types |
| ValueObjects.HostRoundTripPlain | internal/monitor/vo.go:131-172 | with no white space but spaces and tabs in the input, exactly unless it ends in a dot |
| ValueObjects.AuthorityIsInjective | internal/monitor/vo.go:167-172 | different hosts print differently |
| ValueObjects.PathIsCanonical | internal/monitor/vo.go:182-189 | every accepted path has a leading slash and no other at either end |
| ValueObjects.PathRoundTripPlain | internal/monitor/vo.go:182-189 | with no white space but spaces and tabs in the input, always |

## Left out

- Checkers, address parsing, HTTP handlers, loggers, configuration files and command-line wiring: network, transport and glue.
- `PingJob.Target` and `HTTPJob.Target`: rendering by `net` and `net/url`. The `other == nil` branch of `Equal`: jobs are values, so there is no nil one.
- `Stop` waiting for `done`, and the second context that cuts running checks short: a check that returns, cut short or not, is the step `CheckReturns`. That checks and handler calls return is assumed by the capacity and drain theorems, which speak of runs that cannot go on.
- The write timeout and errors of the result handler inside the pipeline: the consumer logs an error and goes on as after a success, so one step covers both.
- `New` turning zero workers into ten: runs start with at least one worker.
- Fairness of `select`: between cancellation and the return of `schedule` the loop may keep choosing other ready cases, so the bound on the drain is stated from that return, and before it that some continuation returns (`PipelineDrain.ShutdownIsReached`).
- The close of the config-event channel: nobody closes it while the scheduler runs, and the loop would only stop listening to it.
- The heap after a stale completion: it holds a state twice and its back-indices are wrong, which the table of the step system cannot show, so runs past that point are not modelled. The theorems about which states are dispatched, how many and when require a run that never recreates (`SchedulerRuns.Drive`, `PipelineTiming.NeverTooEarly`, `PipelineCapacity.DispatchesInRuns`), or speak of the dispatch right after a recreation, when the heap is still in order (`Overlaps`); conservation, the order of closes, the drain and the agreement of jobs hold of every run of the step system, but say nothing of what a broken heap would send.
- Overflow of `time.Time` and of instants plus durations: instants are unbounded.
- Concurrent service requests on one monitor: operations are serial, and the next may start while events of the last are still in the channel. The channel's capacity, which only makes senders wait, is not modelled.
- The error of two constraints broken by one insert: the model reports the primary key first.
- Foreign keys from results and incidents to monitors and configs, and the deletion of a monitor's results and incidents with it: a result whose monitor or config is gone is one the journal refuses. Histories have no deletions.
- Failures of a storage write after a result was journaled: no agreement is promised there, and none is stated.
- Precision of stored timestamps and JSON encoding: stored times are read back as written, and keywords as the same slice, nil staying nil.
- SQL text, transactions as such and prepared statements: a command is one atomic change of the tables or none.
- IncidentIndex.ResolvedNeverChanges: speaks of changes made by handled results, the only writer of incidents in the service.
- `RemoveReason` in histories: no caller in the repository uses it; its own contract is proved.
- Unicode case folding and white space: strings are ASCII.
- `MaxAttempts` retries, confirmation counts and notifications: stored or planned, not in the code.
