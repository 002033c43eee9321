# The k6-operator: what its reconcilers, merges and argument pipeline guarantee

The k6-operator runs distributed k6 tests on Kubernetes. This project models the three parts of it in which
behaviour spans many functions and many calls, and proves what they guarantee for every run and every input:

1. **The life of a TestRun** (`TestRunModel`, `TestRunInvariants`, `TestRunSteps`, `TestRunTheorems`,
   `TestRunBeginnings`, `TestRunOutcomes`, `TestRunDecisions`, `TestRunWitnesses`, `TestRunController`, on top of `Conditions`, `MergeProperties`, `TestRunStatus`,
   `Aggregation`). A reconcile reads the persisted status, acts on jobs, services, pods and the cloud, proposes a new
   status and merges it into the refetched one. `TestRunModel.Reconcile` is that step as a function of the world
   (status, cluster, log of effects, clock) and an oracle that answers every call: it may fail, and it may fail after
   it took effect. The classes of `TestRunController` and `TestRunStatus` work as the source does, by updating fields
   and condition lists step by step, and are proved to compute exactly that function; the theorems are about all runs
   of it. `TestRunDecisions` says when exactly a run moves to a stage, and when exactly something happens in the
   cluster or the cloud, in terms of the answers alone and without the functions of the model; `TestRunWitnesses` holds
   a run into each state that the theorems warn of.
2. **The PrivateLoadZone (PLZ) worker and its poller** (`Poller`, `PlzModel`, `PlzTheorems`, `PlzController`,
   `PlzOutcomes`, `PlzTestRuns`). Goroutines, the channel, contexts, restarts of the operator, users and reconciles are interleaved
   steps, and so are the calls that turn an ID from the cloud into a TestRun.
3. **The arguments of k6** (`K6Cli`, `ArchiveArgs`, `Segmentation`, `KubeExpansion`, `Sorting`, `CloudArgs`,
   `CloudArgsTheorems`, `RunnerCommand`, `RunnerShapes`, `RunnerTheorems`): the parser, the execution segments, and the way of a tag or an environment
   variable from the cloud through the escape, the kubelet's expansion and a shell to k6.

Where the code does not do what one would want, the model keeps the code, and the result says exactly when it does:

- A poller that is started again after it was stopped can always be driven into closing its channel twice, which ends
  the operator (`Poller.SafeExactly`). That happens in some run exactly if a PLZ may carry another finalizer besides
  the operator's, such as the one that a deletion in the foreground adds (`PlzTheorems.PollersSafeExactly`, with the
  run in `PlzTheorems.StartedAgain`).
- A first registration whose Update of the PLZ fails leaves a worker stored, and no PLZ of that name is registered any
  more until the operator restarts (`PlzTheorems.CanRegisterExactly`, with a run in `PlzTheorems.WedgedRun`).
- A PLZ deleted between receiving its finalizer and being marked as registered keeps the finalizer forever if the
  operator restarts meanwhile (`PlzTheorems.CanBeRemovedExactly`).
- A poller may run although its PLZ is gone, in some run, exactly if PLZs may carry other finalizers
  (`PlzTheorems.PolledForSomebodyExactly`).
- The reconcile that first detects cloud output has no cloud client. It uses one all the same if the second inspection
  succeeds at least five seconds later, or if it cannot store what it found and the run is more than five minutes old;
  a null threshold and a cloud reply without a configuration are not survived either
  (`TestRunTheorems.PanicsExactly`).
- A test run that the cloud created is lost, so that another one may be created, exactly if its reply has no
  configuration or the patch right after it does not take effect (`TestRunTheorems.CreatedRunKept`).
- A creation of runner jobs that was interrupted is never resumed: stage created can still be reached exactly if the
  first job is not there and the jobs can be built (`TestRunTheorems.CanLaunchExactly`).
- An aborted PLZ run is finished without waiting for its runners, although a comment in the source says they are
  waited for (`TestRunTheorems.AbortDoesNotWait`).
- Teardown counts as executed even if it reached no runner or failed there (`TestRunTheorems.TeardownReachesRunner`).
- A cloud run gets at most one TestRun in all runs exactly if no TestRun is deleted: one that was cleaned up while the
  cloud still lists its ID may be created again, and only then (`PlzTestRuns.AtMostOnceExactly`,
  `PlzTestRuns.CreatedAgainAfterDeletion`).
- The merge of conditions may report news without changing anything (`MergeProperties.FlagWithoutChange`).
- Arguments for `k6 archive` lose tags and variables whose names look like certain flags
  (`CloudArgsTheorems.WorkerArgsParse`, with an input in `CloudArgsTheorems.DroppedTag`).
- The name of a script file is not escaped on its way through the kubelet: k6 gets it as it is, in every environment,
  exactly if it holds no `$$` and no closed `$(` (`RunnerTheorems.ScriptReachesExactly`).

## Assumptions

- One reconcile at a time for a resource; reads see the latest writes; the spec of a TestRun does not change.
- Only the operator writes status, and nobody else deletes its jobs and services. A user may delete the resource.
- Only the initializer job of a TestRun makes the pod that is inspected, and lists of services and jobs are complete.
- Each reconcile of a TestRun has two instants at which it may write conditions; both lie after those of earlier
  reconciles. No creation timestamp is zero.
- A condition list has one entry per type when it is read from the API server. A patch of the status replaces the
  whole list (JSON merge patch, section 2 of RFC 7396).
- `meta.SetStatusCondition` is a library function: it edits the first condition of the type, replaces its transition
  time only if the status changes, and appends a condition of a new type.
- A crash of the operator acts as a call whose answer is lost, followed by a restart.
- PLZ names are unique, since workers are stored by name; a deletion timestamp is never taken back; users neither set
  nor take off the operator's finalizer. A deletion with foreground propagation adds a finalizer of its own at that
  moment. A user's deletion that falls inside a PLZ reconcile acts as one that follows it, with the Update inside
  refused.
- A goroutine looks up `poller.ctx` in one step of its own, at any time before its select.
- The kubelet expands commands as the Kubernetes API describes for the fields `command` and `env` of a container:
  `$(NAME)` is replaced if the variable exists, `$$` becomes `$`, everything else stays. Names of Kubernetes objects
  hold no `$`; file names and paths of scripts may.
- A Go map is iterated in any order; `sort.Strings` sorts by characters.

## Model

| member | source | states |
|---|---|---|
| Conditions.ConditionList.SetIfNewer | pkg/types/conditions.go:29-66 | The in-place loop yields the step-by-step merge, runs the callback on every proposed condition in order, and returns true iff a condition was accepted or the callback says so |
| MergeProperties.UpdateRefinesMap | pkg/types/conditions.go:10-22 | On a list with unique types, an update is a pointwise map update: the time changes only with the status, types stay unique |
| MergeProperties.MergeNormalForm | pkg/types/conditions.go:33-63 | The merged list is the old list with each entry resolved in place, followed by the new types in order of proposal |
| MergeProperties.MergeRefinesMap | pkg/types/conditions.go:33-63 | The in-place merge equals the map merge: absent adds, newer and not Unknown sets, else keeps; and the returned flag is exact for maps |
| MergeProperties.MergedAt | pkg/types/conditions.go:40-60 | What a reader sees of one type after a merge: the proposed condition if there was none, or if it is later, not Unknown and of another status, and else the old one; and the flag is true iff some proposed type is new, or later and not Unknown |
| MergeProperties.OldEntryMerged | pkg/types/conditions.go:48-58 | An entry keeps its place; a later one of its type sets status and reason, and the time only with the status |
| Conditions.ReasonsNamed | pkg/types/conditions.go:68-100 | Every reason is the name of type and status, but for the three types that are undecided before a run starts |
| MergeProperties.MergeIgnoresOrder | pkg/types/conditions.go:33-63 | Two proposals with the same conditions in different order lead to the same map and the same flag |
| MergeProperties.MergeIdempotent | pkg/types/conditions.go:33-63 | Merging the same proposal a second time leaves the very same list |
| MergeProperties.FlagWithoutChange | pkg/types/conditions.go:47-55 | Without the flag nothing changes; the list stays the same iff every accepted condition repeats the status and reason that are stored |
| MergeProperties.FlagWithoutChangeExample | pkg/types/conditions.go:51-53 | A concrete proposal that is reported as newer and changes nothing |
| MergeProperties.MergeAllAdvances | pkg/types/conditions.go:29-66 | For any sequence of proposals: no condition is lost, duplicated or moved, none goes back to Unknown, no transition time goes back, and status and time change together |
| MergeProperties.UniqueExactly | pkg/types/conditions.go:33-63 | For all lists, repeated types included: the result has unique types iff the list had and no new type is proposed twice |
| TestRunStatus.AcceptsOnlyLaterStages | api/v1alpha1/k6conditions.go:151-187 | A proposed stage is accepted iff it ranks strictly later than the current one; finished and error rank last and are final |
| TestRunStatus.TestRunStatus.Initialize | api/v1alpha1/k6conditions.go:61-101 | Builds the initial conditions, with the cloud conditions and the run ID of the spec for a PLZ run |
| TestRunStatus.TestRunStatus.SetIfNewer | api/v1alpha1/k6conditions.go:130-190 | Conditions, run ID, aggregation variables and stage become the merged record, and the result says whether anything newer was accepted |
| TestRunStatus.CallbackResult | api/v1alpha1/k6conditions.go:131-149 | The captured callback takes the run ID once, only with CloudTestRunCreated proposed, and the aggregation variables without raising the flag |
| TestRunStatus.MergeRecordRefines | api/v1alpha1/k6conditions.go:130-190 | On unique lists the whole status merge equals the merge of its map view |
| TestRunStatus.RecordMergedExactly | api/v1alpha1/k6conditions.go:130-190 | Stage, run ID and aggregation variables after a merge, and the flag: the stage iff it comes later, the ID iff there is none and CloudTestRunCreated is proposed, the variables iff there are none and any condition is proposed, the latter without raising the flag |
| TestRunStatus.ProposalsOnlyProgress | api/v1alpha1/k6conditions.go:130-190 | For any proposals: the stage rank never falls, finished and error absorb, run ID and aggregation variables are written at most once, and conditions only advance |
| Aggregation.Decode | pkg/cloud/aggregation.go:29-49 | Decodes to the five named variables, or fails exactly if the number of values is wrong |
| Aggregation.DecodeOfEncode | pkg/cloud/aggregation.go:20-49 | Encoded settings decode iff no duration holds the separator, and then to the five variables with exactly the encoded values |
| TestRunController.TestRunReconciler.UpdateStatus | internal/controller/testrun_controller.go:417-455 | Decodes the refetched object, merges the proposal into its list, patches: the stored and the in-memory status after every answer of the API server |
| TestRunController.TestRunReconciler.CreateStarterIfNotExists | internal/controller/job_helper.go:11-29 | Creates the starter unless it exists, and says whether it did, for every answer including a lost one |
| TestRunController.TestRunReconciler.CreateStopperIfNotExists | internal/controller/job_helper.go:11-29 | The same for the stopper |
| TestRunController.TestRunReconciler.StopJobs | internal/controller/k6_stop.go:20-74 | Creates the stopper with all hosts, then proposes stopped, TestRunRunning False and CloudTestRunAborted True |
| TestRunController.TestRunReconciler.InitializeJobs | internal/controller/k6_initialize.go:21-47 | Creates the initializer job, whatever the answer |
| TestRunController.TestRunReconciler.RunValidations | internal/controller/k6_initialize.go:49-126 | Inspects, compares maxVUs (truncated to int32) with the parallelism, classifies the run; ready iff all went well, with the status in memory in any case |
| TestRunController.TestRunReconciler.SetupCloudTest | internal/controller/k6_initialize.go:130-179 | Waits, creates the cloud test run and proposes its ID and aggregation variables; panics on a missing name and script, a null threshold, a missing client, or a reply without a configuration |
| TestRunController.TestRunReconciler.LaunchTest | internal/controller/k6_create.go:100-142 | Creates one runner job and then its service, for every point of failure |
| TestRunController.TestRunReconciler.CreateJobSpecs | internal/controller/k6_create.go:66-98 | Does nothing if the first job is there, else launches runners 1 to parallelism in order up to the first failure |
| TestRunController.TestRunReconciler.CreateJobs | internal/controller/k6_create.go:21-64 | Moves to created only if every runner was launched in this very call |
| TestRunController.TestRunReconciler.Hostnames | internal/controller/common.go:129-157 | The ready hosts in listed order; with abortOnUnready an error iff some host is not ready, else all of them |
| TestRunController.TestRunReconciler.RunSetup | internal/controller/common.go:163-186 | Setup runs on the first host, and its data goes to the hosts in order up to the first failure |
| TestRunController.TestRunReconciler.StartJobs | internal/controller/k6_start.go:33-143 | Counts running pods, waits for all services, runs setup for PLZ, creates the starter and proposes started |
| TestRunController.TestRunReconciler.FinishJobs | internal/controller/k6_finish.go:17-70 | True iff the jobs are listed and at least as many of them as there are runners have no active pod |
| TestRunController.TestRunReconciler.StoppedJobs | internal/controller/k6_stopped_jobs.go:50-88 | True iff the services are listed and no runner says it is running or gives an unreadable answer |
| TestRunController.TestRunReconciler.KillJobs | internal/controller/k6_stopped_jobs.go:94-127 | Deletes the listed runner jobs; a failed deletion counts as well |
| TestRunController.TestRunReconciler.OnEmpty | internal/controller/testrun_controller.go:130-177 | Stage "": validation, initial conditions, and the three ways on |
| TestRunController.TestRunReconciler.OnInitialization | internal/controller/testrun_controller.go:179-234 | Stage initialization, with both uses of the cloud client: the event after five minutes and the creation |
| TestRunController.TestRunReconciler.RunTeardown | internal/controller/common.go:188-194 | Asks the first host that answers; that there is none, or that it fails, goes unnoticed |
| TestRunController.TestRunReconciler.OnStarted | internal/controller/testrun_controller.go:242-317 | Stage started: teardown for PLZ runs, counting for the others, then stopped |
| TestRunController.TestRunReconciler.OnStopped | internal/controller/testrun_controller.go:319-368 | Stage stopped: the kill of an aborted PLZ run falls through to finalisation |
| TestRunController.TestRunReconciler.Finalize | internal/controller/testrun_controller.go:339-368 | Waits five seconds, reports the end to the cloud and moves to finished |
| TestRunController.TestRunReconciler.Reconcile | internal/controller/testrun_controller.go:68-383 | The whole reconcile, abort check in every stage included, equals the transition function of the model |
| TestRunSteps.ReconcileKeeps | internal/controller/testrun_controller.go:97-383 | Every reconcile, with any answers and failures, keeps the invariant of status, history, cluster and log |
| TestRunSteps.ReachableInv | internal/controller/testrun_controller.go:68-383 | The invariant holds in every reachable world |
| TestRunTheorems.StatusChangesBounded | internal/controller/testrun_controller.go:97-455 | In every run, stage, condition statuses, run ID and aggregation variables together change at most eleven times |
| TestRunDecisions.MovesExactly | internal/controller/testrun_controller.go:97-383 | For every reachable state and all answers, a reconcile moves the stored status to a stage iff all that the stage waits for holds: started iff exactly as many pods run as there are runners, every service answers, a PLZ run is set up and the starter is there; stopped iff the runners are done or torn down, or the run is aborted and the stopper is there; error iff the arguments are invalid or the script is unfit; and so on for each stage |
| TestRunDecisions.EventsExactly | internal/controller/testrun_controller.go:97-383 | For every reachable state, all answers and every event: a reconcile causes it iff what it needs holds, hosts, indices and IDs included; so the starter comes only while all pods run and all services answer, and the cloud is told of an end only of stopped runs with cloud output |
| TestRunOutcomes.AbortsExactly | internal/controller/k6_stop.go:20-74 | An abort stores stage stopped, TestRunRunning False and CloudTestRunAborted True iff the stopper is there and the status can be stored; it creates the stopper iff there is none, and changes nothing else |
| TestRunOutcomes.StartsExactly | internal/controller/k6_start.go:33-143 | In stage created: the status, the cluster and the events after a reconcile, in terms of the set of running pods, the services that answer, setup and the starter |
| TestRunOutcomes.StopsExactly | internal/controller/testrun_controller.go:281-317 | A started run outside PLZ waits for its jobs: the status after a reconcile, in terms of the set of jobs without active pods and of the second check for an abort; in all other cases it stays as it is |
| TestRunOutcomes.TearsDownExactly | internal/controller/testrun_controller.go:253-317 | A started PLZ run waits for its runners and then for teardown: what is stored, and whom teardown is asked of |
| TestRunOutcomes.FirstReadyHost | internal/controller/common.go:188-194 | The host that is asked to run teardown is the first listed one that answers |
| TestRunOutcomes.FinishesExactly | internal/controller/testrun_controller.go:319-368 | In stage stopped: whether jobs are killed, the cloud is told and stage finished is stored, and with which conditions |
| TestRunOutcomes.CleansUpExactly | internal/controller/testrun_controller.go:370-377 | In stages error and finished the TestRun is deleted iff it is to be cleaned up, and nothing else happens |
| TestRunBeginnings.InitializesExactly | internal/controller/testrun_controller.go:130-177 | In stage "": which conditions and stage are stored after each combination of answers, and when the initializer comes |
| TestRunBeginnings.ValidatesExactly | internal/controller/k6_initialize.go:49-179 | In stage initialization: the status after a reconcile, with the error for a failed inspection outside PLZ or too few VUs (as a signed 32-bit number), the conditions of a run with and without cloud output, and the run ID of a creation |
| TestRunBeginnings.LaunchesExactly | internal/controller/k6_create.go:21-142 | In stage initialized: which jobs and services come, in turn, and that stage created is stored iff all of them did in this reconcile |
| TestRunTheorems.StatusOnlyMovesOn | api/v1alpha1/k6conditions.go:130-190 | Over all stored statuses of a run: stage rank never falls, finished and error absorb, run ID and aggregation variables never change once set |
| TestRunTheorems.RunningTracksStage | api/v1alpha1/k6conditions.go:13-17 | In every stored status TestRunRunning is True iff the stage is started, False in stopped and finished, Unknown before started |
| TestRunTheorems.RunIDTracksCreation | internal/controller/k6_initialize.go:106-175 | CloudTestRunCreated is True iff there is a run ID; a cloud run from initialized on has one; ID and variables stem from one creation in the cloud |
| TestRunTheorems.FinishedMeansFinalized | internal/controller/testrun_controller.go:319-368 | Finalized True implies finished; a finished cloud run is finalized, and the cloud accepted a finish call with its non-empty ID |
| TestRunTheorems.StoppedMeansTeardownOrAbort | internal/controller/testrun_controller.go:253-317 | A stopped or finished PLZ run executed teardown or was aborted; TeardownExecuted implies an invocation after a check that found no runner running |
| TestRunTheorems.TeardownReachesRunner | internal/controller/testrun_controller.go:253-280 | Exactly when a reconcile of a started PLZ run stores TeardownExecuted True; in that case teardown ran on a runner iff some service of the cluster answers and the request succeeds |
| TestRunWitnesses.TeardownReachesNobody | internal/controller/testrun_controller.go:264-273 | A run in which teardown is marked as executed and nothing ran |
| TestRunTheorems.RunnersFormPrefix | internal/controller/k6_create.go:66-142 | At every step the created jobs are 1..k and the services 1..k or 1..k-1; created and started mean both are complete |
| TestRunTheorems.StarterComesLast | internal/controller/k6_start.go:61-131 | A starter is created after all jobs and services, with each host exactly once, and for PLZ after setup data reached each of them |
| TestRunTheorems.OneStarter | internal/controller/job_helper.go:11-29 | No run creates a second starter |
| TestRunTheorems.InterruptedStays | internal/controller/k6_create.go:70-98 | Whatever follows an interrupted creation: no job or service is ever added, also after the run is stopped, and only an abort leaves the stage |
| TestRunTheorems.CanLaunchExactly | internal/controller/k6_create.go:21-98 | From stage initialized some continuation reaches created iff the first runner job is not there and runner jobs can be built |
| TestRunWitnesses.InterruptedCreation | internal/controller/k6_create.go:92-98 | A run with one job and no service from which no continuation reaches created |
| TestRunTheorems.RunnerJobsBuild | pkg/cloud/aggregation.go:20-49 | As long as the durations the cloud sent hold no separator, the stored aggregation variables never stop a runner job from being built |
| TestRunTheorems.FinishedExactly | internal/controller/k6_finish.go:35-70 | With one job per runner listed, counting says finished iff no job is active |
| TestRunTheorems.AbortDoesNotWait | internal/controller/testrun_controller.go:320-368 | While runners still run, an aborted PLZ run is finished by this reconcile iff the patch works and a cloud run can be finalized |
| TestRunWitnesses.AbortedWhileRunning | internal/controller/testrun_controller.go:320-368 | A run in which an aborted PLZ run is finished while its runner still runs |
| TestRunTheorems.PanicsExactly | internal/controller/testrun_controller.go:97-234 | In every reachable state, a reconcile panics iff it validates a run with cloud output and then sends an event without a client (failed update, over five minutes old), or reaches the creation of the cloud test run without a client, with a null threshold, or with a reply that has no configuration |
| TestRunWitnesses.EventWithoutClient | internal/controller/testrun_controller.go:181-196 | A run into the first case: the update fails five minutes on |
| TestRunWitnesses.CreationWithoutClient | internal/controller/k6_initialize.go:143-160 | A run into the second: creation without a client |
| TestRunWitnesses.CreationWithoutConfig | internal/controller/k6_initialize.go:159-169 | A run into the last: a reply without a configuration |
| TestRunTheorems.CreatedRunKept | internal/controller/k6_initialize.go:159-175 | A test run that the cloud created is the run of the TestRun iff its reply held a configuration and the patch right after it took effect |
| TestRunWitnesses.CreationLost | internal/controller/k6_initialize.go:159-175 | A run in which a created test run is lost by a failed patch |
| Poller.TestRunPoller.Start | pkg/cloud/conn/poller.go:51-80 | A new context and one more loop, or nothing if it is polling |
| Poller.TestRunPoller.Stop | pkg/cloud/conn/poller.go:85-95 | Cancels the current context; nothing if it is not polling |
| Poller.TestRunPoller.StartFactory | pkg/plz/worker.go:71-85 | Start and one consumer of the channel, or nothing |
| Poller.TestRunPoller.StopFactory | pkg/plz/worker.go:88-92 | Stops the poller |
| Poller.TestRunPoller.Select | pkg/cloud/conn/poller.go:66-78 | The loop waits with the context that the poller has at that moment |
| Poller.TestRunPoller.OnInterval | pkg/cloud/test_runs.go:54-72 | A poll hands its list to the send loop under the context of that moment; after a failed poll the loop goes back to its select |
| Poller.TestRunPoller.OnDone | pkg/cloud/test_runs.go:40-42 | Closes the channel, which panics if it was closed before |
| Poller.StepKeepsSingle | pkg/cloud/conn/poller.go:51-95 | Every interleaved step keeps a poller that was started once safe: one loop, one consumer, at most one close, no send after it |
| Poller.LooksUpLatest | pkg/cloud/conn/poller.go:66-78 | In every history, a loop goes on to wait or to send under the context that the poller has at that moment, which is cancelled unless the poller runs |
| Poller.ReceivedIsPrefix | pkg/cloud/test_runs.go:54-72 | Until it is stopped, what consumers received is a prefix of the concatenated polls, in order and without gaps |
| Poller.SingleStartIsSafe | pkg/cloud/conn/poller.go:51-95 | All that for every interleaving without a start after a stop, and what was received stays received |
| Poller.RestartCanPanic | pkg/cloud/conn/poller.go:66-79 | Any poller with a second start has a continuation of goroutine steps and Stop that panics |
| Poller.SafeExactly | pkg/cloud/conn/poller.go:51-95 | For every history: a panic is possible without further starts iff the poller was started more than once |
| PlzController.Zone.UpdateCondition | api/v1alpha1/plzconditions.go:40-42 | With a value receiver, an update reaches the caller's list iff the condition is already in it |
| PlzController.PrivateLoadZoneReconciler.AddWorker | pkg/plz/workers.go:14-20 | Stores the worker iff none is stored |
| PlzController.PrivateLoadZoneReconciler.Register | internal/controller/plz_controller.go:84-113 | The first reconcile: worker, registration, storing, finalizer, for every point of failure |
| PlzController.PrivateLoadZoneReconciler.Remove | internal/controller/plz_controller.go:117-137 | Stop, deregistration, removal of the finalizer, and the worker forgotten only if the Update is known to have worked |
| PlzController.PrivateLoadZoneReconciler.UpdateStatus | internal/controller/plz_controller.go:175-217 | Refetch, merge and patch of the registered condition, for every answer |
| PlzController.PrivateLoadZoneReconciler.Reconcile | internal/controller/plz_controller.go:57-164 | The whole PLZ reconcile, over a list of poller objects, equals the transition function of the model |
| PlzTheorems.StepKeeps | internal/controller/plz_controller.go:57-164 | Every step of operator, users and goroutines keeps the invariant of PLZ, workers, pollers and log |
| PlzTheorems.RegisteredMeans | internal/controller/plz_controller.go:76-112 | Registered implies that the cloud took the registration of this very object, and that the finalizer is there or was taken off while another one keeps the object |
| PlzTheorems.OnePollerRuns | internal/controller/plz_controller.go:117-160 | At most one poller of a name runs, and it belongs to the stored worker |
| PlzTheorems.FinalizerGoesLast | internal/controller/plz_controller.go:117-135 | A finalizer goes only by a reconcile of a deleted object that stops the factory and tries to deregister; right after it no poller runs |
| PlzTheorems.RemovalsFollowStops | internal/controller/plz_controller.go:117-135 | In the log of every run each removal directly follows its stop and its deregistration |
| PlzTheorems.PollersAreSafe | internal/controller/plz_controller.go:57-164 | Without other finalizers: over all interleavings, restarts and failures every poller starts once at most, cannot panic, closes its channel at most once and hands over a prefix of its polls |
| PlzTheorems.StartedAgain | internal/controller/plz_controller.go:117-160 | A run, with a deletion in the foreground, in which a stopped poller is started again |
| PlzTheorems.PollersSafeExactly | internal/controller/plz_controller.go:57-164 | All pollers of all runs are safe iff PLZs cannot have other finalizers |
| PlzTheorems.PolledForSomebodyExactly | internal/controller/plz_controller.go:116-160 | In all runs a poller only runs while the PLZ is there with the finalizer, iff PLZs cannot have other finalizers |
| PlzTheorems.PolledForNobody | internal/controller/plz_controller.go:140-160 | A run without failures, with a deletion in the foreground, that ends with a running poller and no PLZ |
| PlzTestRuns.PLZWorker.Handle | pkg/plz/worker.go:207-269 | One call is a run of its steps: it creates the TestRun iff the look-up finds none, its data can be prepared and the creation works, and deletes what was stored without arguments |
| PlzTestRuns.CreatedAgainAfterDeletion | pkg/plz/worker.go:207-269 | Over all interleavings of calls, failures and restarts: between two creations for one ID its TestRun was deleted |
| PlzTestRuns.AtMostOnceExactly | pkg/plz/worker.go:207-269 | In all runs each ID leads to one TestRun at most, iff TestRuns are not deleted |
| PlzTestRuns.CreatedTwice | pkg/plz/worker.go:217-220 | A run in which an ID that is still listed after the clean-up gets a second TestRun |
| PlzTheorems.CanRegisterExactly | internal/controller/plz_controller.go:76-114 | Without a restart, a PLZ can still become registered iff it has the finalizer or no worker is stored |
| PlzOutcomes.ReconcilesExactly | internal/controller/plz_controller.go:57-164 | In any run: the object, the stored worker, the pollers and the log after one reconcile, in terms of deletion, finalizer, mark, worker and the answers |
| PlzTheorems.WedgedRun | internal/controller/plz_controller.go:99-110 | A run into the state in which registration is barred |
| PlzTheorems.OrphanedRun | internal/controller/plz_controller.go:116-138 | A run into the state in which the finalizer stays forever |
| PlzTheorems.CanBeRemovedExactly | internal/controller/plz_controller.go:116-138 | The finalizer of a deleted PLZ can still go iff it is marked as registered or its worker is in memory |
| K6Cli.LastArgV | pkg/types/k6cli.go:22-41 | Where the values of a flag end: at the next flag, at a stray empty element, or after an empty first value |
| K6Cli.ParseCLI | pkg/types/k6cli.go:20-89 | The index-jumping parser equals the one-pass automaton over tokens, error included |
| K6Cli.GroupsPartition | pkg/types/k6cli.go:48-86 | On success the groups concatenate to the arguments, each a flag with values that are no flags |
| K6Cli.ErrorsExactly | pkg/types/k6cli.go:26-34 | Parsing fails iff some token is neither a flag nor right after a flag nor a non-empty one after a non-empty value |
| K6Cli.CloudOutExactly | pkg/types/k6cli.go:64-69 | Cloud output is seen iff -o or --out is directly followed by cloud |
| ArchiveArgs.GroupKeptExactly | pkg/types/k6cli.go:53-79 | A flag and its values are passed on iff the flag begins with none of the four prefixes and is none of the seven words of the switch; it asks for cloud output iff it is -o or --out and the first value is cloud |
| ArchiveArgs.ArchiveArgsExactly | pkg/types/k6cli.go:48-86 | Of all arguments without an error, exactly the tokens whose nearest flag is such a flag are passed on, in order |
| ArchiveArgs.CloudOutputExactly | pkg/types/k6cli.go:64-69 | Cloud output is seen iff the word cloud directly follows -o or --out, in these words |
| ArchiveArgs.ErrorKeepsBefore | pkg/types/k6cli.go:80-89 | An error names the offending token and comes with the result of the arguments before it |
| K6Cli.ParseHomomorphism | pkg/types/k6cli.go:48-86 | Parsing a and then b, where b starts with a flag, joins the two results |
| K6Cli.ParseIdempotent | pkg/types/k6cli.go:48-86 | The kept arguments parse to themselves, without cloud output |
| Segmentation.NewCommandFragments | pkg/segmentation/segmentation.go:15-46 | The two fragments of a runner, or an error iff the index exceeds the parallelism |
| Segmentation.SegmentReadsBack | pkg/segmentation/segmentation.go:28-45 | The segment text reads back as the exact fractions (index-1)/total and index/total |
| Segmentation.SequenceReadsBack | pkg/segmentation/segmentation.go:21-45 | The sequence text reads back as total+1 points in which the two endpoints of each segment stand next to each other with the same text |
| Segmentation.PointsTile | pkg/segmentation/segmentation.go:21-37 | The points rise strictly from 0 to 1 in steps of exactly 1/total |
| Segmentation.SegmentsPartition | pkg/segmentation/segmentation.go:15-46 | Every point of [0,1) lies in the segment of exactly one runner |
| KubeExpansion.ExpandOfEscape | pkg/cloud/apitypes.go:151-156 | Expansion undoes the escape for every text and every set of container variables |
| KubeExpansion.ExpandSkipsEscaped | pkg/cloud/apitypes.go:151-156 | The same with any text behind the escaped one |
| KubeExpansion.EscapeConcat | pkg/cloud/apitypes.go:154-156 | Escaping a concatenation escapes its parts |
| KubeExpansion.SurvivesExactly | pkg/cloud/apitypes.go:95-104 | A value that is not escaped survives every environment iff it holds no $$ and no closed $( |
| Sorting.ListedOnce | pkg/cloud/apitypes.go:242-250 | Keys in ascending order are listed in one way only, whatever order the map was iterated in |
| Sorting.LessExactly | pkg/cloud/apitypes.go:242-250 | A key comes before another one iff at their first difference it ends or has the smaller character |
| CloudArgs.TestRunData.PreprocessTags | pkg/cloud/apitypes.go:229-256 | Overwrites load_zone and lists every tag with non-empty key and value in key order, escaped |
| CloudArgs.TestRunData.AddRunnerEnvVars | pkg/cloud/apitypes.go:87-115 | Appends the option, aggregation, secret and host variables in order |
| CloudArgs.TestRunData.Preprocess | pkg/cloud/apitypes.go:80-149 | Fails, changing nothing, iff there is not exactly one zone; else K6_CLOUDRUN_LOAD_ZONE holds the zone, K6_CLOUDRUN_DISTRIBUTION its label and K6_CLOUDRUN_TEST_RUN_ID the ID, K6_CLOUDRUN_INSTANCE_ID is gone, the tag load_zone holds the zone, everything else is the user's, and all pairs are listed in key order |
| CloudArgs.ConfiguresExactly | pkg/cloud/apitypes.go:87-115 | Which variables configure k6, by name and value: user agent, blacklists, the five of the aggregation if they decode, those of the secrets and the host, and no others |
| CloudArgs.PlzK6Args | pkg/plz/worker.go:168-181 | The arguments of the worker, by appends |
| CloudArgsTheorems.PairHandling | pkg/types/k6cli.go:53-79 | How the parser treats a pair that it takes for a flag depends on the raw key only |
| CloudArgsTheorems.WorkerArgsParse | pkg/plz/worker.go:168-181 | For all tags and variables the worker's arguments parse without error as cloud output; they reach k6 archive complete iff no key begins like a dropped flag |
| CloudArgsTheorems.ValidatedArgs | pkg/plz/worker.go:184-230 | Preprocessing, the worker's arguments and the parser in a row: for all data with one load zone there is no error and cloud output is seen |
| CloudArgsTheorems.DroppedTag | pkg/types/k6cli.go:59-62 | A tag that does not reach k6 archive: the one named --user-agent |
| RunnerCommand.NewRunnerCommand | pkg/resources/jobs/runner.go:17-81 | The command of a runner container, or an error for a bad index or script |
| RunnerShapes.ContainerWords | pkg/resources/jobs/runner.go:17-81 | There is a command iff the script is valid and the index is in range; and all its words: scuttle iff enabled, k6 run, quiet and paused unless they are switched off, the two tags, the three flags of PLZ runs and only of them, the instance variable iff there is a run ID too, and the check for a local file before it all |
| RunnerTheorems.CheckSurvives | pkg/types/script.go:88-93 | The shell text that checks for the script is unchanged by expansion |
| RunnerTheorems.CheckedCommandRuns | pkg/types/script.go:88-115 | Behind the check a command runs with exactly its arguments if the script exists, and the container exits with 1 otherwise |
| RunnerTheorems.PairsExpand | pkg/cloud/apitypes.go:139-146 | Every escaped pair expands to plain key=value, for all characters and environments |
| RunnerShapes.PairsListed | pkg/cloud/apitypes.go:131-147 | Each tag with a key and a value is there once, in ascending order of the keys, as --tag and key=value, and each variable as -e and key=value |
| RunnerTheorems.LogExpands | pkg/plz/worker.go:164-181 | In the log output only the token reference is replaced |
| RunnerTheorems.RunnerRuns | pkg/resources/jobs/runner.go:17-81 | What any runner container does after expansion, for any script, word by word: nothing if the expansion of the file name is missing; behind the check, a command from .spec.arguments is handed to a shell as the expansion of its joined text; else k6 runs with the expanded name and arguments among the operator's own words, which stay as they are |
| RunnerTheorems.ScriptReachesExactly | pkg/resources/jobs/runner.go:52-55 | In every environment in which the script is found, k6 gets its very name, iff the name holds nothing that expansion changes |
| RunnerTheorems.UserPairsReachK6 | pkg/plz/worker.go:164-203 | End to end: the worker's arguments pass validation as cloud output, and k6 gets each tag and variable as exactly key=value |
| RunnerTheorems.RunnerOfData | pkg/plz/worker.go:164-203 | From the data of a test run to its containers: one zone is needed and enough for valid arguments, each runner up to the parallelism gets a command, and wherever the archive is there k6 is run with exactly these words, the pairs of every tag and variable and the token among them |

## Left out

- Results and requeue times of reconciles, log messages, and the contents of events sent to the cloud; that sending an event takes a client is modelled.
- Liveness: several stages may wait forever, so only safety and bounded change are stated.
- The HTTP and Kubernetes clients, `inspectTestRun`, `GetTestRunState` and token loading beyond their outcomes: oracles.
- The branch of `createJobIfNotExists` for a job that appears between look-up and creation: excluded by reads that see the latest writes.
- Informer caches, overlap of leaders, users who edit the status, and truncation of times to seconds.
- Fields of pods, jobs and services, probes, volumes, labels, Istio variables: copied without decisions.
- `complete` of the PLZ worker beyond name, parallelism, script and arguments, and the events that `handle` sends; the registry of workers is a map with put-if-absent.
- The overlap of `OnInterval` with `Start` and `Stop` between a tick and the answer of the poll: the poll counts as one step at its end, after which the context is read.
- TestRunController.TestRunReconciler.InitializeJobs: the shell text of the initializer is not interpreted.
- RunnerTheorems.RunnerRuns: what the shell makes of the text of a command from `.spec.arguments` is not modelled.
- `ParseScript` and the splitting of `.spec.arguments` at whitespace: the script and the list of arguments are inputs.
- CloudArgs.TestRunData.AddRunnerEnvVars: the list of reserved variables that the cloud may set is empty in the source, so none are added.
