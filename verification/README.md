# Value-stream simulator: a verified model

This project models the parts of the value-stream simulator whose correctness depends on several pieces of code at
once, and proves what they promise. It has three parts.

**The job service and the run coordinator.** `Jobs`, `JobTable` and `JobStore` are the service's job store: per-model
states, the append-only outcome log with cursors, submission ids, byte budgets and expiry. `Scheduling` and `Scheduler`
are the model scheduler with its bounded set of active jobs, its queue and its re-entrant callbacks. `WebClient` is the
Python client's polling loop, and `ServedClient` runs it against the whole system. `Retention` says how long a job is
kept. `Protocol` puts the application's store, one executor per run, a channel that may lose any request or reply, and
the service with all its other clients into one transition system; `ProtocolInvariant` to `ProtocolTheorems` prove what
holds in every state that any finite run of it reaches, and `ProtocolProgress` what an executor gets done.
`SwappedReads` is the same system with the coordinator's two reads swapped, and shows what then goes wrong.

**The result cache and its budget.** `ResultCache`, `Workspaces` and `WorkspaceInvariant` describe the application's
store as a value; `Eviction`, `StoreOperations`, `WorkspaceEffects`, `WorkspaceBehaviour`, `RunSteps` and `ExecuteSteps`
prove what each operation keeps and what it changes. `WorkspaceStore` and `Coordinator` are the classes that change it
in place, each method proved to do what the value does.

**The task ledger of the simulation.** `TaskLedger` and `Tasks` are the event log of a task and its losses, `Work` and
`Workers` the story points, `Pool` and `TaskStores` the resource pool and the stores, `Workflow` the stage graph with
all its tasks, `WorkflowProgress` why it never gets stuck, `WorkflowLinks` its tie to the pool's owners and to the
clock, `Summary`, `Metrics`, `Backlog` and `StageBacklog` what is computed from a finished simulation.

## How things are represented

- Identifiers are numbers given out in order; only their freshness is used. Fingerprints and derived identifiers are
  injective, so a request stands for its own digest and a simulation input for its own cache key.
- A simulation is a function of task list, model and seed. Task lists, models and outputs are opaque values; the size
  of an output is a number that comes with it.
- Clock readings are parameters. Times, points and values are reals. Depreciation is any function of time that is 1 at
  0, never negative, and stays at 0 once it is there.
- Errors are values (`Result`, `Option`), never preconditions, except where the source's own callers exclude them.
- In the protocol, a request that is delivered but not answered is an event of the service followed by a lost reply;
  a delayed or repeated delivery is an event of the service alone.

## Findings

- Recording a model's end with both a result and an error, or with another model's index, raises after the state has
  been written and before the log has: the job is then inconsistent, and only then (`Jobs.FinishModelInvIff`,
  `Jobs.BothOrOtherIsRejected`). Workers
  echo the index they are given, so the coordinator never sees this.
- Registering a run whose results are all cached reserves nothing, and a requirement of zero makes the cache pruning
  discard every result that is not referenced, awaited or asked for, however much room there is
  (`Eviction.FullHitPurges`).
- The order in which the coordinator reads status and page is needed: swapped, a run can fail for outcomes the service
  has (`SwappedReads.PageBeforeStatusCanMiss`).
- A failed QA run raises on negative points exactly when less work was done than it takes back
  (`Work.RegressionRaisesIff`); tasks reach QA complete, so it never does.
- Thinning a series divides by zero for a limit from 0 to 3 when the series is longer (`Metrics.ReducePoints`), and a
  negative limit keeps all points; the documented bound holds for limits of at least 4.
- The first random assignment on a limited pool uses up the pool's source: resources not drawn until then never join
  the pool (`Pool.PoolManager.RequestRandom`).
- A task put into a store after its alarm has been processed raises, but stays in the store
  (`TaskStores.TaskStore.Put`).
- The documentation of `_prune` (job store) promises to remove excess jobs too, and that of `create` an error for a
  repeated submission id; the code does neither, and the model follows the code. `Task.end` takes a resource id and
  does not record it.

## Model

| member | source | states |
|---|---|---|
| `Jobs.NewJobInv` | src/value_stream/service/job_store.py:137-141 | a new job has all its models queued, an empty log and nothing terminal |
| `Jobs.StartModelInv` | src/value_stream/service/job_store.py:225-231 | a queued model runs afterwards and the job with it; anything else is refused and changes nothing; log and other models stay |
| `Jobs.RecordKeepsLog` | src/value_stream/service/job_store.py:285-294 | appending one outcome keeps cursors 1..n and the bijection between log and terminal models |
| `Jobs.FinishModelInvIff` | src/value_stream/service/job_store.py:259-295 | ending a model keeps the job consistent if and only if its outcome passes the wire schema or it had ended already |
| `Jobs.StoredIffFits` | src/value_stream/service/job_store.py:263-294 | read off the definitions: a result is stored exactly when it fits all three limits; otherwise the model fails as too large and nothing is charged |
| `Jobs.RejectedFinish` | src/value_stream/service/schemas.py:189-202 | an outcome the schema rejects leaves a terminal model the log does not mention |
| `Jobs.BothOrOtherIsRejected` | src/value_stream/service/job_store.py:280-293 | two such inputs: a report with both a result and an error, and one with another model's index, each leave a job that is inconsistent |
| `Jobs.CancelInv` | src/value_stream/service/job_store.py:303-318 | cancelling ends exactly the open models as cancelled, logs each once, and changes no job that has ended |
| `Jobs.CountsSumToTotal` | src/value_stream/service/job_store.py:184-196 | the counts a status reports sum to the number of models |
| `Jobs.TerminalIffNothingLeft` | src/value_stream/service/job_store.py:233-242 | a job is terminal exactly when its status counts no queued and no running model |
| `Jobs.CompletedMeansAllSucceeded` | src/value_stream/service/job_store.py:239-242 | the final status is completed iff all succeeded, with errors iff some failed and none was cancelled, cancelled iff some was cancelled; the log then has one entry per model |
| `Jobs.AfterIsSuffix` | src/value_stream/service/job_store.py:210-213 | the outcomes after a cursor are the rest of the log from that position |
| `Jobs.PagesConcatenate` | src/value_stream/service/job_store.py:200-213 | following the next cursor from page to page loses and repeats nothing while the log grows |
| `JobTable.PruneInv` | src/value_stream/service/job_store.py:73-86 | expiry keeps budgets, ids and jobs consistent and changes no job it keeps |
| `JobTable.PruneRemovesExpired` | src/value_stream/service/job_store.py:76-86 | at any reading of the clock a job is kept if and only if it has not ended or the reading is before its end plus the time to live; a submission id goes exactly with its job |
| `JobTable.CreateInv` | src/value_stream/service/job_store.py:127-142 | creation stays within the limits on jobs, bytes and open jobs |
| `JobTable.RefusedWhenFull` | src/value_stream/service/job_store.py:127-142 | a new job is refused if and only if a limit is reached: on the jobs kept, on the sizes of the results in their logs, or on the jobs with work left |
| `JobTable.ReserveInv` | src/value_stream/service/job_store.py:161-171 | every submission keeps ids and jobs one to one and only extends existing jobs |
| `JobTable.RetryIsIdempotent` | src/value_stream/service/job_store.py:163-167 | the same submission returns its job, however full the store, exactly until the job has been ended for its time to live; other content conflicts; later the job is not found again |
| `JobTable.CreationIsFresh` | src/value_stream/service/job_store.py:168-171 | read off the definitions: a created job is new and is named by its submission id and by no other |
| `JobTable.FinishInv` | src/value_stream/service/job_store.py:259-295 | stored sizes respect the per-job and total byte limits, and the model ended is terminal |
| `JobTable.CancelJobInv` | src/value_stream/service/job_store.py:303-318 | a cancelled job has no open model and the store stays consistent |
| `JobTable.ReportIsTrue` | src/value_stream/service/job_store.py:182-198 | each figure of a status report is the number of models in that state or of outcomes in the log with that status; the final status can be read off the figures |
| `Retention.KeptForItsTime` | src/value_stream/service/job_store.py:73-86 | an ended job is kept, unchanged and under its submission id, by any events of the service whose readings are before its end plus the time to live |
| `Retention.AnswersForItsTime` | src/value_stream/service/job_store.py:88-104 | during that time the job answers and its submission returns it; at the first reading after, it is gone and its submission makes a new job or is refused |
| `Retention.EndIsReading` | src/value_stream/service/job_store.py:233-242 | the end of a job is the reading at which its last model ended or it was cancelled, and no other event ends it |
| `JobStore.InMemoryJobStore.PruneJobs` | src/value_stream/service/job_store.py:73-86 | the loop removes exactly the jobs ended for their time to live, and their submission ids |
| `JobStore.InMemoryJobStore.Create` | src/value_stream/service/job_store.py:127-142 | refuses exactly when a limit is reached, else adds one job under a new id |
| `JobStore.InMemoryJobStore.Reserve` | src/value_stream/service/job_store.py:144-171 | finds a job exactly while it is kept, refuses or creates as the deduplication rule says, keeping the invariant |
| `JobStore.InMemoryJobStore.Status` | src/value_stream/service/job_store.py:182-198 | answers exactly while the job is kept; every figure is the number of models or log entries it names, and the final status follows from them |
| `JobStore.InMemoryJobStore.GetPage` | src/value_stream/service/job_store.py:210-213 | answers exactly while the job is kept, with the log from the cursor on and its length as the next cursor |
| `JobStore.InMemoryJobStore.Start` | src/value_stream/service/job_store.py:225-231 | starts a queued model once; anything else is refused or unknown |
| `JobStore.InMemoryJobStore.Finish` | src/value_stream/service/job_store.py:259-295 | records one outcome within the limits; raises exactly when the schema rejects it, and then the store is inconsistent |
| `JobStore.InMemoryJobStore.CloseIfDone` | src/value_stream/service/job_store.py:239-242 | sets the final status and end time exactly when no model is open |
| `JobStore.InMemoryJobStore.Cancel` | src/value_stream/service/job_store.py:303-318 | the loop ends every open model and no other |
| `WebClient.Execute` | src/value_stream/client/web/client.py:78-115 | on a job that between requests is only extended or expires for good, reading page before status, with the re-read, ends on a terminal job holding every outcome; a completed job gives result i for model i; nothing is ever omitted |
| `WebClient.Collect` | src/value_stream/client/web/client.py:86-97 | after a page, results and errors are those of the whole log read so far, and no index is out of range |
| `WebClient.Summarize` | src/value_stream/client/web/client.py:108-115 | the omitted-outcome and omitted-result errors cannot be raised |
| `WebClient.CollectedFromTerminal` | src/value_stream/client/web/client.py:89-94 | what was collected from a terminal job is exactly its succeeded and its failed models |
| `ServedClient.SystemIsObservable` | src/value_stream/client/web/client.py:78-104 | in any run of the whole system, coordinator and other clients included, what a client sees of a job is one job that is only extended or expires for good |
| `ServedClient.AcceptedIsOwn` | src/value_stream/service/job_store.py:161-171 | an accepted submission has a kept job with the very content submitted |
| `ServedClient.SubmitAndWait` | src/value_stream/client/web/client.py:57-115 | from submission to reply in any run of the whole system: refused for want of capacity, or result i is the simulation of input i of the client's own request, with failed models told apart; no result is omitted, misplaced or out of range |
| `Scheduling.InOrderWithout` | src/value_stream/service/scheduler.py:207-210 | dropping a waiting job keeps the others in order of submission |
| `Scheduling.CoreSteps` | src/value_stream/service/scheduler.py:173-178 | whatever others do to the store, the scheduler's account of its jobs stays right |
| `Scheduling.ForgetCore` | src/value_stream/service/scheduler.py:76-80 | a job gives up its slot only when all its models are terminal in the store or it has expired |
| `Scheduling.StartCore` | src/value_stream/service/scheduler.py:81-93 | starting the head of the queue keeps order, the bound on active jobs, and every other job's place |
| `SchedulerSteps.FinishSteps` | src/value_stream/service/scheduler.py:173-180 | a worker's own report always ends its model and touches no other |
| `Scheduler.ModelScheduler.Submit` | src/value_stream/service/scheduler.py:46-53 | a job starts at once exactly when a slot is free, and then nobody was waiting; else it joins the end of the queue; refused when closed |
| `Scheduler.ModelScheduler.StartJob` | src/value_stream/service/scheduler.py:55-68 | callbacks attached to models that are done already run at once, re-enter, and lose nothing |
| `Scheduler.ModelScheduler.ForgetFinished` | src/value_stream/service/scheduler.py:70-93 | unless the job is finished nothing changes; if it is, its slot is refilled until none is free or nobody waits; the recursion terminates |
| `Scheduler.ModelScheduler.AdmitNext` | src/value_stream/service/scheduler.py:86-93 | the head of the queue is started unless cancelled or expired, and the queue gets shorter |
| `Scheduler.ModelScheduler.Callback` | src/value_stream/service/scheduler.py:67-80 | the last callback of a job releases it; no completion is lost |
| `Scheduler.ModelScheduler.Cancel` | src/value_stream/service/scheduler.py:198-220 | the job has ended in the store and left the queue, none of its models waits for a worker any more, order and bounds are kept |
| `Scheduler.ModelScheduler.Close` | src/value_stream/service/scheduler.py:222-233 | afterwards every job ever handed in has ended or expired, whatever other threads call before, between and after its cancellations |
| `Scheduler.ModelScheduler.OtherCall` | src/value_stream/service/scheduler.py:46-53 | a call from another thread while the scheduler is closed keeps it consistent and hands in no job |
| `Scheduler.ModelScheduler.WorkerStep` | src/value_stream/service/scheduler.py:110-113 | a model begins or ends in another thread without disturbing anyone's callbacks |
| `ResultCache.PruneKeysPrefix` | src/value_stream/app/storage.py:649-653 | a cached result goes only if every evictable one used less recently goes |
| `ResultCache.PruneKeysMinimal` | src/value_stream/app/storage.py:649-653 | putting the last evicted result back would leave too little room |
| `ResultCache.PruningIsMinimalPrefix` | src/value_stream/app/storage.py:630-653 | for a positive requirement the shortest least-recently-used prefix of evictable results goes, or all of them; order and contents of the rest stay |
| `ResultCache.TouchUses` | src/value_stream/app/storage.py:190 | using a cached result puts it last in the order of use and leaves all others in the order they were in |
| `ResultCache.LastUsedGoesLast` | src/value_stream/app/storage.py:649-653 | for a positive requirement the result used last goes only when every other one that may go does |
| `WorkspaceInvariant.PruneCacheInv` | src/value_stream/app/storage.py:639-653 | no pruning touches a result that a run names or an active run still counts on |
| `WorkspaceInvariant.KeptIsNeeded` | src/value_stream/app/storage.py:639-648 | a result is exempt from pruning exactly when some run names it or an active run has its key |
| `WorkspaceInvariant.RemoveRunInv` | src/value_stream/app/storage.py:591-597 | discarding a closed run that is neither baseline nor latest keeps the store consistent |
| `Eviction.PruneHistoryTrims` | src/value_stream/app/storage.py:582-599 | cutting history discards only closed, unpinned runs that are neither baseline nor latest |
| `Eviction.HistoryInOrder` | src/value_stream/app/storage.py:592-597 | the history is cut from its oldest end |
| `Eviction.HistoryMinimal` | src/value_stream/app/storage.py:592-599 | it is cut to one below its limit, or until nothing evictable is left |
| `Eviction.CandidatesAreEvictable` | src/value_stream/app/storage.py:614-624 | the candidates are all evictable runs of all workspaces, each once, oldest first, those of one age in the order they are kept in |
| `Eviction.EvictsInOrder` | src/value_stream/app/storage.py:625-630 | candidates are discarded in their order |
| `Eviction.OldestGoesFirst` | src/value_stream/app/storage.py:614-630 | of two evictable runs of any workspaces the one created earlier is never spared while the other goes |
| `Eviction.MakingRoom` | src/value_stream/app/storage.py:423-434 | pinned, baseline, latest and active runs survive; when memory is still full, every run left is protected or active and every result left is named, awaited or asked for |
| `Eviction.FullHitPurges` | src/value_stream/app/storage.py:418-424 | with nothing missing, exactly the results named, awaited or asked for stay cached |
| `StoreOperations.HitsRemain` | src/value_stream/app/storage.py:418-424 | the results counted as cached at registration are still cached when the run is added |
| `StoreOperations.NewRunOk` | src/value_stream/app/storage.py:419-452 | a new run's reservation covers every index it will send to the service |
| `StoreOperations.RegisterInv` | src/value_stream/app/storage.py:382-463 | registration refuses, returns the earlier run of the request, or adds one active run; budgets, one active run per workspace, pins and references stay right |
| `StoreOperations.SameRequestSameRun` | src/value_stream/app/storage.py:335-359 | a request id finds its run exactly while the workspace keeps it |
| `StoreOperations.CreateInv` | src/value_stream/app/storage.py:98-110 | creating a workspace stays within the limit and keeps every reference |
| `StoreOperations.DeleteTaskSetInv` | src/value_stream/app/storage.py:205-221 | a task set in use is never deleted |
| `StoreOperations.SaveEditorInv` | src/value_stream/app/storage.py:236-286 | an edit keeps the task sets of runs, and a baseline always belongs to the current task set |
| `StoreOperations.CompareInv` | src/value_stream/app/storage.py:548-580 | pinning stays within its limit; baseline, latest and current stay consistent; deleting clears every reference |
| `StoreOperations.DeleteWorkspaceInv` | src/value_stream/app/storage.py:160-171 | a workspace goes with exactly its own runs, all of them closed, and with exactly the results no remaining run names or awaits; the store stays consistent |
| `WorkspaceBehaviour.RegisterAgain` | src/value_stream/app/storage.py:382-386 | registering a request again returns its run and changes nothing, however full or busy the store; other content under its id conflicts |
| `WorkspaceBehaviour.SecondEditConflicts` | src/value_stream/app/storage.py:207-221 | read off the definitions: of two edits or deletions from one revision only the first succeeds |
| `WorkspaceBehaviour.SameSpecSameTasks` | src/value_stream/app/storage.py:250-277 | saving a specification again reuses its task set and keeps baseline and latest |
| `WorkspaceEffects.CachedReadUses` | src/value_stream/app/storage.py:181-191 | a cached result is read exactly when it is there, and is the one used last afterwards |
| `WorkspaceEffects.RunReadUses` | src/value_stream/app/storage.py:497-514 | a run's result is found by scenario exactly when the run has one, and is the one used last afterwards |
| `WorkspaceEffects.RetainUses` | src/value_stream/app/storage.py:476-495 | a result is retained if and only if it fits its own and the run's limit and, when new, the reservation; it is then filed under its scenario, used last, and charged once |
| `WorkspaceEffects.UsedLastGoesLast` | src/value_stream/app/storage.py:632-653 | to make room the result used last goes only when all others go that no run needs |
| `WorkspaceEffects.CreateEffect` | src/value_stream/app/storage.py:98-110 | a workspace is refused exactly when there are as many as may be; a new one is empty and has a new id |
| `WorkspaceEffects.DeleteWorkspaceReply` | src/value_stream/app/storage.py:160-166 | deletion is refused exactly when the workspace is missing or one of its runs is active |
| `WorkspaceEffects.DeleteTaskSetEffect` | src/value_stream/app/storage.py:205-221 | a task set is deleted, and nothing else, if and only if the revision is current, the task set is there, not the current one, and used by no run |
| `WorkspaceEffects.SaveEditorEffect` | src/value_stream/app/storage.py:236-286 | the specification's task set becomes the current one, added only when none has that specification; baseline and latest are dropped exactly when the current task set changes; refused exactly for a stale revision, invalid or over-size input, or too many task sets |
| `WorkspaceEffects.CompareEffect` | src/value_stream/app/storage.py:548-580 | what pinning, unpinning, choosing a baseline and deleting change, and exactly when each is refused, with pins counted as runs |
| `WorkspaceEffects.HistoryRoom` | src/value_stream/app/storage.py:582-599 | there is room for one more run exactly when fewer runs are active, pinned, baseline or latest than may be kept |
| `WorkspaceEffects.RoomEffect` | src/value_stream/app/storage.py:423-434 | making room spares active, pinned, baseline and latest runs and the results asked for; if it was not enough, nothing else is left |
| `WorkspaceEffects.RegisterEffect` | src/value_stream/app/storage.py:387-463 | when a new run is admitted and why it is not, including the pause between interactive requests; its inputs, what it will send to the service, its reservation and where it shows |
| `WorkspaceEffects.UsedIs` | src/value_stream/app/storage.py:423-430 | the memory in use is the sizes of all cached results plus what the runs have reserved |
| `WorkspaceEffects.FinishShows` | src/value_stream/app/storage.py:523-532 | a finished run becomes the baseline if and only if a scenario succeeded, it was not superseded, there is none yet and its task set is the current one; a manual one that succeeded, was not superseded and is not the baseline becomes the latest; nothing else changes |
| `RunSteps.CursorsAfter` | src/value_stream/app/coordinator.py:171-174 | nonzero outcome cursors stay exactly 1..last without repeats |
| `RunSteps.ReservationSuffices` | src/value_stream/app/storage.py:488-491 | the exceeded-reservation error cannot be raised |
| `RunSteps.CompleteOutcomeInv` | src/value_stream/app/coordinator.py:161-174 | completing an outcome keeps the store consistent; the only failure is an over-size result, and it changes nothing |
| `RunSteps.CompleteOutcomeAgrees` | src/value_stream/app/storage.py:476-495 | helper: a retained result that is true keeps the cache in agreement with the simulation |
| `RunSteps.CloseInv` | src/value_stream/app/storage.py:516-532 | closing a run releases its reservation and names only runs of its own workspace |
| `RunSteps.FailOpenRunOk` | src/value_stream/app/coordinator.py:302-304 | failing keeps every outcome recorded before and marks all others failed |
| `ExecuteSteps.CompleteOne` | src/value_stream/app/coordinator.py:161-174 | exactly the one outcome is marked, with its status, error and cursor, and its result filed and counted; refused exactly when the result is over the limits |
| `ExecuteSteps.CompleteHitsSound` | src/value_stream/app/coordinator.py:190-198 | all cache hits are still there when the run reads them and are completed as succeeded |
| `ExecuteSteps.ApplyPageSound` | src/value_stream/app/coordinator.py:228-243 | each outcome of a page is recorded under its own scenario through the renumbering, with its status and error code; no index is invalid and no other outcome changes |
| `ExecuteSteps.ReadIsSkipped` | src/value_stream/app/coordinator.py:228-230 | outcomes read before are skipped when they are read again |
| `ServiceHistory.ServeKeeps` | src/value_stream/service/job_store.py:144-318 | every event of the service keeps results true to the submitted models and only extends what clients have seen |
| `ServiceHistory.StartWorkRecords` | src/value_stream/service/job_store.py:225-231 | a worker that takes up a queued model of a kept job makes it running, and changes nothing else of the job |
| `ServiceHistory.EndWorkRecords` | src/value_stream/service/job_store.py:259-295 | a worker's report adds one outcome: the result if it fits the limit on one result, on the job and on the whole store, else the error that says why |
| `ServiceHistory.ResubmissionNeverConflicts` | src/value_stream/service/job_store.py:161-171 | a run's resubmission never conflicts, and returns its job until the job has been ended for its time to live |
| `ProtocolSteps.RequestInputs` | src/value_stream/app/coordinator.py:202-209 | the m-th submitted model is simulated on exactly the input of the scenario it stands for |
| `ProtocolSteps.SubmitInv` | src/value_stream/app/coordinator.py:219-222 | submitting, again or for the first time, sends the same id and content and never conflicts |
| `ProtocolSteps.AcceptInv` | src/value_stream/app/coordinator.py:221-225 | the job a run learns of was created for that run's own request, and is never replaced |
| `ProtocolSteps.StatusReplyInv` | src/value_stream/app/coordinator.py:226 | a terminal status stays true of the job while the page is on its way |
| `ProtocolSteps.PageCloses` | src/value_stream/app/coordinator.py:226-264 | because status is read before the page, log read so far and page account for every model of an ended job |
| `ProtocolSteps.PageReplyInv` | src/value_stream/app/coordinator.py:227 | a page holds only outcomes the run has not recorded, true to its own scenarios |
| `ProtocolClosing.ApplyInv` | src/value_stream/app/coordinator.py:228-264 | applying a page never finds an outcome missing; only an over-size result can fail the run |
| `ProtocolClosing.BeginInv` | src/value_stream/app/coordinator.py:190-216 | a launched run completes its hits first and closes as completed when that is all |
| `ProtocolClosing.UnavailableInv` | src/value_stream/app/coordinator.py:265-279 | a lost request or reply leaves the run to be tried again, at once or after it is resumed |
| `ProtocolClosing.FailInv` | src/value_stream/app/coordinator.py:281-306 | a failing run keeps earlier outcomes, marks the rest failed and closes |
| `ProtocolClosing.CancelByUserInv` | src/value_stream/app/coordinator.py:318-324 | cancelling or superseding a run, whatever its executor is doing, keeps the invariant |
| `ProtocolClosing.ResumeByUserInv` | src/value_stream/app/coordinator.py:336-339 | resuming an active run without executor keeps the invariant; otherwise it does nothing |
| `ProtocolUsers.RegisterStep` | src/value_stream/app/coordinator.py:119-122 | a run registered while everything else goes on is launched once, linked to its own submission |
| `ProtocolTheorems.StepInv` | src/value_stream/app/coordinator.py:176-339 | every step of users, executors, channel and service keeps the invariant and only advances runs and jobs |
| `ProtocolTheorems.RunsInv` | src/value_stream/app/coordinator.py:176-339 | so does every finite run of the system: a recorded outcome never changes, a run's job is chosen once, a closed run stays closed |
| `ProtocolTheorems.ReachedInv` | src/value_stream/app/coordinator.py:176-339 | every state the system can reach from nothing, by any interleaving, satisfies the invariant |
| `ProtocolTheorems.NothingIsTakenBack` | src/value_stream/app/coordinator.py:161-174 | from any reachable state on, recorded outcomes, chosen jobs, cursors, closed runs and logs are never changed or taken back |
| `ProtocolTheorems.LimitsHold` | src/value_stream/app/storage.py:387-434 | in every reachable state the sizes of cached results plus reservations, the numbers of workspaces, of runs, of pinned and of active runs are within their limits, at most one run of a workspace is active, and baseline, latest and task sets are live |
| `ProtocolTheorems.ServiceLimitsHold` | src/value_stream/service/job_store.py:127-142 | in every reachable state the service's jobs, the sizes of their results and the jobs with work left are within their limits |
| `ProtocolTheorems.OnlyExpectedErrors` | src/value_stream/app/coordinator.py:231-264 | in no run does an executor fail for missing outcomes, an invalid index, a conflict, a cache miss or its reservation |
| `ProtocolTheorems.ResultsAreOwn` | src/value_stream/app/storage.py:510-514 | in every reachable state a scenario's result is available iff it succeeded, and equals simulating the run's own tasks, model and seed |
| `ProtocolTheorems.RecordedForGood` | src/value_stream/app/storage.py:497-514 | once recorded, an outcome and its result read the same as long as the run is kept |
| `ProtocolTheorems.FinalStateIsVerdict` | src/value_stream/app/coordinator.py:248-264 | a closed run is completed iff all its scenarios succeeded, with errors iff some failed and none was cancelled, cancelled iff some was |
| `ProtocolTheorems.RecordedAsReported` | src/value_stream/app/coordinator.py:228-245 | each scenario sent to the service is recorded with the state its own model has in the job |
| `ProtocolTheorems.OneExecutorPerRun` | src/value_stream/app/coordinator.py:124-140 | an executor is started only for an active run that has none |
| `ProtocolTheorems.CancellationReachesTheJob` | src/value_stream/app/coordinator.py:223-225 | helper: where a requested cancellation takes the executor next, and that its call ends the job if it is still kept |
| `ProtocolTheorems.CancellationComesFirst` | src/value_stream/app/coordinator.py:220-227 | once a cancellation is asked for, however the system goes on, the request stands and the executor reads no status or page of a job with work left |
| `ProtocolProgress.SubmissionTakes` | src/value_stream/app/coordinator.py:219-222 | a submission either gets the run a job the service keeps, with the run's own content, or fails it as rejected |
| `ProtocolProgress.RoundReads` | src/value_stream/app/coordinator.py:226-264 | a round of status and page records every outcome the job has so far, with its status and error code; with an ended job the run closes as the job did, else it shows the job's state and goes on; it fails for an over-size result only |
| `ProtocolProgress.LossTakes` | src/value_stream/app/coordinator.py:265-279 | a lost call leaves everything recorded as it was and the run reconnecting, to be tried again or, when it has lasted, paused |
| `ProtocolProgress.ResumeTakes` | src/value_stream/app/coordinator.py:326-339 | a paused run that is resumed is back in its loop with the same job, cursor and outcomes |
| `ProtocolProgress.BeginTakes` | src/value_stream/app/coordinator.py:187-216 | a launched run has its cache hits recorded as successes; it completes when that is all, fails when its request is too large, else enters the loop |
| `ProtocolProgress.FailTakes` | src/value_stream/app/coordinator.py:281-306 | a failing run closes as failed: what was recorded stays, every other outcome carries its error |
| `ProtocolProgress.CancelTakes` | src/value_stream/app/coordinator.py:308-324 | cancelling marks an active run, as superseded too when a newer one takes its place, and gives it an executor; a closed or unknown run is left alone |
| `ProtocolProgress.RegisterTakes` | src/value_stream/app/coordinator.py:119-122 | exactly the request that creates a run launches it |
| `ProtocolProgress.EditsTake` | src/value_stream/app/storage.py:223-286 | read off the definitions: users' other requests reach the store as they are and touch neither service nor executors |
| `ProtocolProgress.NoRunIsStuck` | src/value_stream/app/coordinator.py:218-306 | from every reachable state, wherever an active run's executor is, paused or not, the system can go on so that the run closes |
| `SwappedReads.PageThenStatusMisses` | src/value_stream/app/coordinator.py:226-264 | were the page read before the status, any executor that has all outcomes so far of a job with work left could still fail its run for missing outcomes |
| `SwappedReads.PageBeforeStatusCanMiss` | src/value_stream/app/coordinator.py:226-264 | such a failed run is reachable from the empty system with the two reads swapped; with the reads as they are none is |
| `WorkspaceStore.InMemoryWorkspaceStore.PruneCache` | src/value_stream/app/storage.py:632-653 | the loop with its running total removes what the rule says, keeping the store consistent |
| `WorkspaceStore.InMemoryWorkspaceStore.PruneHistory` | src/value_stream/app/storage.py:582-599 | the loop discards what the rule says and reports whether there is room |
| `WorkspaceStore.InMemoryWorkspaceStore.PruneForCapacity` | src/value_stream/app/storage.py:601-630 | the loop evicts in order of age, pruning after each, until there is room |
| `WorkspaceStore.InMemoryWorkspaceStore.Create` | src/value_stream/app/storage.py:92-110 | adds an empty workspace unless the limit is reached |
| `WorkspaceStore.InMemoryWorkspaceStore.DeleteWorkspace` | src/value_stream/app/storage.py:151-171 | refused while a run is active; else workspace, runs and unreferenced results go |
| `WorkspaceStore.InMemoryWorkspaceStore.DeleteTaskSet` | src/value_stream/app/storage.py:193-221 | refused on a stale revision, for a task set in use, or when missing |
| `WorkspaceStore.InMemoryWorkspaceStore.SaveEditor` | src/value_stream/app/storage.py:223-286 | an edit is applied as a whole or not at all |
| `WorkspaceStore.InMemoryWorkspaceStore.Previous` | src/value_stream/app/storage.py:335-359 | finds the run of a request; other content under its id conflicts |
| `WorkspaceStore.InMemoryWorkspaceStore.Register` | src/value_stream/app/storage.py:361-463 | registration as a whole, with what it may do to the other runs |
| `WorkspaceStore.InMemoryWorkspaceStore.MissingFrom` | src/value_stream/app/storage.py:418 | the indices whose result is not cached, in order |
| `WorkspaceStore.InMemoryWorkspaceStore.RetainResult` | src/value_stream/app/storage.py:465-495 | a result is charged to the reservation only when it is new to the cache |
| `WorkspaceStore.InMemoryWorkspaceStore.CachedResult` | src/value_stream/app/storage.py:181-191 | reading a cached result makes it the most recently used |
| `WorkspaceStore.InMemoryWorkspaceStore.GetResult` | src/value_stream/app/storage.py:497-514 | a run's result by scenario, or not found |
| `WorkspaceStore.InMemoryWorkspaceStore.Finish` | src/value_stream/app/storage.py:516-532 | a successful run that was not superseded becomes baseline or latest |
| `WorkspaceStore.InMemoryWorkspaceStore.Comparison` | src/value_stream/app/storage.py:534-580 | pin, unpin, baseline and delete with their refusals |
| `Coordinator.RunCoordinator.Launch` | src/value_stream/app/coordinator.py:124-140 | the run has an executor and is no longer paused |
| `Coordinator.RunCoordinator.CancelRun` | src/value_stream/app/coordinator.py:308-324 | an active run is marked for cancellation and has an executor to carry it out; the whole system stays consistent |
| `Coordinator.RunCoordinator.Resume` | src/value_stream/app/coordinator.py:326-339 | an active run has an executor afterwards, and never a second one |
| `Coordinator.RunCoordinator.Begin` | src/value_stream/app/coordinator.py:187-216 | the stretch from launch to the first request is the protocol's first step |
| `Coordinator.RunCoordinator.Apply` | src/value_stream/app/coordinator.py:228-264 | the stretch from a page's arrival on is the protocol's step; nothing but an over-size result can fail in it |
| `Coordinator.RunCoordinator.Unavailable` | src/value_stream/app/coordinator.py:265-279 | a lost reply leaves the run reconnecting, or paused without executor |
| `Coordinator.RunCoordinator.Fail` | src/value_stream/app/coordinator.py:281-306 | a failing run ends as the protocol says, with the store consistent |
| `Coordinator.RunCoordinator.CompleteOutcome` | src/value_stream/app/coordinator.py:142-174 | an outcome is recorded once, its result retained first |
| `Coordinator.RunCoordinator.CompleteHits` | src/value_stream/app/coordinator.py:190-198 | the loop over the cache keys completes the hits and stops at the first failure |
| `Coordinator.RunCoordinator.ApplyPage` | src/value_stream/app/coordinator.py:228-243 | the loop over a page skips what was read and stops at the first failure |
| `Coordinator.RunCoordinator.FailRest` | src/value_stream/app/coordinator.py:302-304 | the loop marks every open outcome as failed |
| `TaskLedger.StageOver` | src/value_stream/resources/resource.py:115-121 | one stage ends and the next begins at the same instant, without gap, charged once over its whole span |
| `TaskLedger.TakenUp` | src/value_stream/workflow/resource_operator.py:125-130 | what a store's get records the monitor's resume takes back |
| `TaskLedger.StageDelivered` | src/value_stream/workflow/task_store.py:105-122 | delivery closes the log at the instant the last stage ends |
| `TaskLedger.LossesTelescope` | src/value_stream/task/task.py:61-80 | in a gap-free log the end losses telescope to the share of value lost since the epoch began |
| `TaskLedger.DeliveredLoss` | src/value_stream/task/task.py:219-220 | the end losses of a delivered task sum to delivered over initial value, less one |
| `TaskLedger.StartsIff` | src/value_stream/task/task_history.py:54-79 | a start is recorded if and only if the log stays orderly with it: time not going back, nothing after the task's end, no stage started twice |
| `TaskLedger.EndsIff` | src/value_stream/task/task_history.py:104-141 | an end is recorded if and only if its stage is the one started last, with its duration and its change of value |
| `TaskLedger.ResumesIff` | src/value_stream/task/task_history.py:143-164 | only the last end can be taken back, by its own stage, and that stage is then open again |
| `TaskLedger.TerminatesIff` | src/value_stream/task/task_history.py:188-208 | the task's last event is recorded once, and not back in time |
| `Tasks.TaskHistory.Start` | src/value_stream/task/task_history.py:34-79 | refuses going back in time, a closed log, or a stage already started |
| `Tasks.TaskHistory.End` | src/value_stream/task/task_history.py:81-141 | ends only the stage that was started last |
| `Tasks.TaskHistory.Resume` | src/value_stream/task/task_history.py:143-164 | removes exactly the matching end |
| `Tasks.TaskHistory.Terminate` | src/value_stream/task/task_history.py:166-208 | closes the log once |
| `Tasks.Task.Start` | src/value_stream/task/task.py:169-185 | records a start with the task's own rework mark |
| `Tasks.Task.Resume` | src/value_stream/task/task.py:187-193 | takes back the end of a stage |
| `Tasks.Task.End` | src/value_stream/task/task.py:135-167 | charges the change of value since the last event to the stage that ends |
| `Tasks.Task.Terminate` | src/value_stream/task/task.py:195-220 | fixes the delivered value at the time of the terminal event |
| `Work.SpreadConserves` | src/value_stream/task/task.py:109-133 | increments plus leftover equal the points applied; points are never exceeded |
| `Work.SpreadIsGreedy` | src/value_stream/resources/developer.py:45-53 | a task is worked on only when all before it are complete |
| `Work.SlicesConserve` | src/value_stream/resources/developer.py:28-53 | over any interruptions, time worked and time still needed add up to remaining points over efficiency |
| `Work.VisitCompletes` | src/value_stream/resources/developer.py:50-53 | a visit that runs to its end completes every task with nothing left over |
| `Work.RegressionRaisesIff` | src/value_stream/resources/qa_tester.py:43-47 | taking work back raises exactly when less was done; on finished tasks it never does |
| `Workers.DoTask` | src/value_stream/task/task.py:106-133 | one task takes what it needs and passes on the rest |
| `Workers.Developer.DoWork` | src/value_stream/resources/developer.py:43-53 | the points worked in a stretch of time fill the tasks in order |
| `Workers.QATester.TakeBack` | src/value_stream/resources/qa_tester.py:43-47 | a failed test leaves each finished task with the cost of its remedy to be done, and raises nothing |
| `TaskStores.TaskStore.Put` | src/value_stream/workflow/task_store.py:30-60 | tasks are logged on entry; the alarm goes off exactly when the limit is reached, later tasks are turned away or raise |
| `TaskStores.TaskStore.Get` | src/value_stream/workflow/task_store.py:62-74 | tasks leave in the order they came, logged on exit |
| `TaskStores.TaskStore.SetAlarm` | src/value_stream/workflow/task_store.py:76-95 | refused, with nothing changed, when the limit is not above what is there or the signal has gone off; otherwise armed, also after an earlier alarm |
| `Pool.PoolManager.RequestNext` | src/value_stream/workflow/pool_manager.py:99-125 | nobody waits while a resource is free or can be drawn; who is granted one is remembered as owner |
| `Pool.PoolManager.RequestOwner` | src/value_stream/workflow/pool_manager.py:92-99 | rework goes to the remembered owner, or is an error |
| `Pool.PoolManager.RequestRandom` | src/value_stream/workflow/pool_manager.py:75-90 | any listed resource; the first such request uses up a limited source |
| `Pool.PoolManager.Release` | src/value_stream/workflow/pool_manager.py:127-137 | whoever waited longest is served first |
| `WorkflowProofs.RouteCardOk` | src/value_stream/workflow/sdlc_workflow.py:75-93 | routing never meets a log in the wrong state; work ends and the next place is entered at one instant, marked as rework after a failure |
| `WorkflowProofs.BeginCardOk` | src/value_stream/simulation/default_simulation_policy.py:59-68 | a task coming back to development always has a known owner, and gets that developer |
| `WorkflowProofs.FinishCardOk` | src/value_stream/resources/qa_tester.py:43-47 | helper: finished development completes a task; a failed test takes back its share of the points and never makes them negative |
| `WorkflowTheorems.InitialInv` | src/value_stream/workflow/sdlc_workflow.py:72-75 | helper: the state when the alarm is set satisfies the invariant, for any one or more submitted tasks |
| `WorkflowTheorems.StepInv` | src/value_stream/workflow/sdlc_workflow.py:72-93 | no event of the workflow is ever refused: no wrong log state, unknown owner, negative points, or arrival after the alarm |
| `WorkflowTheorems.TakeEffect` | src/value_stream/workflow/resource_operator.py:118-144 | tasks are taken in the order they came; with a cadence deployments are collected, without one every task goes on at once |
| `WorkflowTheorems.RoutedAtOnce` | src/value_stream/resources/resource.py:115-121 | no time passes between the end of work and the routing of its tasks |
| `WorkflowTheorems.ReleaseEffect` | src/value_stream/workflow/resource_operator.py:146-158 | a release hands everything collected to one resource, in order |
| `WorkflowTheorems.RouteEffect` | src/value_stream/workflow/sdlc_workflow.py:75-93 | tested work goes on to deployment, a failed test back to development, a failed deployment back to be deployed, support out; each joins the end of its store |
| `WorkflowTheorems.ArrivalEffect` | src/value_stream/workflow/task_store.py:30-60 | support work joins the end of the first store as a task of its own |
| `WorkflowTheorems.RunInv` | src/value_stream/workflow/sdlc_workflow.py:72-93 | the invariant holds after any run of the workflow |
| `WorkflowTheorems.ReachedInv` | src/value_stream/workflow/sdlc_workflow.py:72-93 | every state the workflow can reach from a submission satisfies the invariant |
| `WorkflowTheorems.OnePlaceEach` | src/value_stream/workflow/sdlc_workflow.py:72-93 | every task is in exactly one place, once; beyond development there are submitted tasks only |
| `WorkflowTheorems.AlarmIsExact` | src/value_stream/workflow/task_store.py:105-122 | the delivery signal has fired exactly when all submitted tasks are delivered, and carries each once |
| `WorkflowTheorems.DeliveredTaskLoss` | src/value_stream/task/task_history.py:118-164 | a delivered task is complete, its log gap-free, and its losses add up to the value it lost |
| `WorkflowTheorems.SameDeveloper` | src/value_stream/workflow/pool_manager.py:92-125 | all development visits of a submitted task are by one developer |
| `WorkflowProgress.DeliveryStaysPossible` | src/value_stream/workflow/sdlc_workflow.py:72-99 | from every state the workflow can reach some run delivers all submitted tasks and sets off the alarm: no task is ever stuck |
| `WorkflowLinks.OwnerLookupNeverFails` | src/value_stream/workflow/pool_manager.py:92-125 | in any run, a task waiting to be developed again has an owner the pool remembers, and that is who developed it every time before |
| `WorkflowLinks.RunAgrees` | src/value_stream/workflow/pool_manager.py:113-124 | over any run, what the pool remembers as owners and what happened to the tasks agree |
| `WorkflowLinks.VisitTakesItsTime` | src/value_stream/resources/resource.py:83-110 | in a visit interrupted any number of times, each for any while, the clock moves beyond the interruptions by the time worked and the task by what is worked in it; time worked and time still needed add up to what was needed |
| `Summary.ProcessResults` | src/value_stream/simulation/simulation.py:106-146 | totals over all tasks, the loss relative to the initial total (0 when that is 0), and all events |
| `Summary.EventsAreLogs` | src/value_stream/simulation/simulation.py:132 | the reported events are the tasks' logs, each whole and in order |
| `Summary.CarriedOk` | src/value_stream/simulation/simulation.py:120-129 | in any run the alarm carries each submitted task once, with its own terms, a gap-free closed log, and the value it had when delivered |
| `Summary.ReportedLossIsMean` | src/value_stream/simulation/simulation.py:120-137 | in any run of the workflow whose alarm has gone off, the reported loss is the mean of the submitted tasks' loss sums weighted with their initial values, each task once, and 0 when nothing was worth anything |
| `Summary.ReportRun` | src/value_stream/simulation/simulation.py:87-106 | the totals computed from what the alarm carries are that mean, the initial value plus the weighted losses, and the logs of exactly those tasks |
| `Metrics.ReducePoints` | src/value_stream/app/metrics.py:29-52 | an ordered selection within a limit of at least 4, made in the smallest blocks that allow four points each: every block keeps its first and last point and a point at or below and at or above each one dropped; all points for a negative limit; fails exactly for a limit from 0 to 3 on a longer series |
| `Backlog.BacklogSeries` | src/value_stream/app/metrics.py:109-117 | the series gives at each logged time the sum of all records up to it; the error is raised exactly when that is negative somewhere |
| `Backlog.BacklogIsWaiting` | src/value_stream/resources/resource_tracker.py:136-160 | for a log the simulation writes it is the number of requests issued and not yet granted |
| `StageBacklog.BacklogNeverNegative` | src/value_stream/workflow/resource_operator.py:174-187 | in any run of the workflow a stage's backlog is what was waiting, and the error cannot be raised |

## Left out

- HTTP routes, middleware, response parsing and service start-up: the gateway is a channel that delivers, loses, or
  rejects; a rejected call fails the run.
- Subprocesses, timeouts and the JSON exchange with workers: a model's run eventually yields at most one of result and
  error for its own index.
- Threads inside the scheduler's lock: other threads act between any two of its steps. A `Cancel` is one step with its
  call of the store; what may come between the two is modelled between calls only.
- The coordinator's `close` and the cancellation of executors at shutdown.
- The coordinator's executor suspends at every call of the service, so it is a transition system; its stretches between
  two suspensions that change outcomes are methods proved to be the system's steps.
- The simulation's generators (`resource_operator`, `resource.operate`, `sdlc_workflow`) suspend likewise and are steps
  of a transition system over values; aliasing of task objects between stores and operators is not modelled there.
- Run records and job records are entries of maps under their ids, not shared objects.
- The preview and interactive checks before registration (`start_run`, lines 52 to 118): registration is modelled for
  any task set of the workspace and any scenarios with distinct ids.
- Sizes of inputs and of request bodies: whether they fit is a parameter of the operation.
- The SimPy kernel, the order of events at one instant, and the stack of suspended work: the clock does not go back and
  an interruption splits work into slices.
- Owner lookup in the deployment pool, which for batches depends on the order of events at one instant.
- An alarm signal that two stores share: a store's signal is its own, and whether it has gone off before is given.
- Tasks submitted with type support: they never reach delivery.
- Cyclic assignment, which the default policy never chooses.
- Random draws of failures and efficiencies: any outcome may happen, and nothing is claimed about how often work is
  repeated.
- Sweep expansion, the wire codec, CSV export, insights and stage shares: library calls and field-by-field copies.
- The browser interface and the plots.
