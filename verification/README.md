# A verified model of the Go workers on Temporal Core

The repository runs Temporal workflows and activities in Go on top of Temporal Core. This project models
the parts of it whose correctness is hard to see by reading one function, and proves what they promise
for all inputs, all user code and all interleavings:

- the deterministic **workflow interpreter**: coroutines, write-once chained futures, signal channels,
  updates, queries, the scheduler `drive` and the pending loop of `activate`;
- the **cache of executions** and the **lanes** that order the activations of a run;
- the **completion pipeline**, the **workflow run loop** and the **activity run loop** around it;
- the **payload codec walk**;
- the **wake and gRPC pump** of the bridge.

## How the project is built

Each part has a model on values (functions, and for concurrent parts a step relation over which every
interleaving is a list of steps), lemmas about that model, and classes that update fields in place with
the loops of the source and are proved equal to the model, method by method.

| part | model and lemmas | in place |
|---|---|---|
| futures | Futures, FutureGraph | FutureObjects (linked objects) |
| interpreter | Interpreter, Activation; Meaning, Scheduling, Invariants, Preservation, Runs, Progress, Guarantees, JobAccounts, JobOrder, UpdatePriority, Eviction | Execution (`WorkflowExecution`) |
| cache | WorkerCache | `RunCache` |
| lanes | Lanes | `RunTurns` |
| pipeline | Pipeline | `CompletionPipeline` (64-bit arithmetic) |
| workflow loop | WorkflowLoop (poller, processors, lanes, pipeline and loop together), WorkflowEffects, WorkflowDrain | RunLoop (`WorkflowRunLoop`) |
| activity loop | ActivityLoop (poller, handlers, pipeline and loop together), ActivityEffects, ActivityDrain | ActivityRunLoop (`RunLoop`) |
| codec | PayloadCodec | `Walker` |
| bridge | Wake | `BridgeOwner` |

User code is arbitrary. A coroutine is a control point, and the environment of a workflow maps the
memory its coroutines share, the control point and the answer to the last API call to the next API call.
It need not terminate, so slices and `drive` run on fuel; running out of fuel is the outcome `Starved`,
and Scheduling.FuelIrrelevant says that two amounts of fuel that suffice give the same result.

In the concurrent models only what the source does under a mutex, or as one channel operation, is one
step. In particular a turn's `done` channel is closed before the mutex is taken to release it, a result
can be finalized before its goroutine takes the next ticket, and the step that drains the response queue
runs after the wake generation was captured. The classes of these parts carry the list of their steps as
ghost state, so the lemmas about all step lists hold of the objects.

## Results that are not what one might expect

- **Future graphs.** A `set` panics exactly when the futures it would complete are not a tree of unready
  futures (FutureGraph.SetPanicsExactly). Two futures chained to the same two sources are enough
  (FutureGraph.DiamondPanics).
- **Job order.** Reordering the jobs of an activation changes nothing when the resolutions apply to
  distinct sequences; a child's start and its result in one activation are not distinct, and the wrong
  order fails (JobOrder.ChildStartMustComeFirst).
- **Sequence numbers** are 32-bit. They are pairwise distinct exactly until they wrap around
  (Guarantees.NumbersDistinctUntilWrap).
- **Codec.** A payload list that is encoded as an empty list counts as an unset field and is never
  decoded. The round trip restores a message exactly when no list of it is encoded as an empty list
  (PayloadCodec.RoundTripExactly). That singletons stay singletons is needed only for the walk to
  succeed, not for restoring the message.
- **Pipeline.** `outstanding` can be below `active` (Pipeline.OutstandingBelowActive), and the default
  capacity falls back from twice the limit to the limit itself when doubling wraps around
  (Pipeline.DefaultOutstanding).
- **Finalizers.** A rejected ticket is finalized at once, except one without a submission function, which
  is refused before its finalizer is looked at (Pipeline.CompletionPipeline.Enqueue).

## Model

| member | source | states |
|---|---|---|
| Futures.SetAllConcat | internal/workflowworker/context.go:409-420 | Completing two lists of futures in one go is completing the first and, unless that panics, the second. |
| Futures.SetAllOneOutcome | internal/workflowworker/context.go:409-420 | A walk hands out only the value and error it was started with, also when it panics midway. |
| FutureGraph.SetCompletesReachable | internal/workflowworker/context.go:382-420 | On any chain graph, cycles included, a `set` that does not panic makes exactly the reachable futures ready, with one value and error and cleared lists, and changes nothing else. |
| FutureGraph.SetPanicsExactly | internal/workflowworker/context.go:382-420 | `set` succeeds if and only if everything reachable is unready and is reached by one link only. |
| FutureGraph.DiamondPanics | internal/workflowworker/context.go:382-420 | A concrete acyclic graph with two paths to one future, on which `set` panics. |
| FutureGraph.SetAllFrame | internal/workflowworker/context.go:409-420 | A successful walk depends only on the futures it completes and leaves all others alone. |
| FutureGraph.SetAllCommutes | internal/workflowworker/context.go:409-420 | Two walks that succeed one after the other succeed in the other order with the same result. |
| FutureGraph.CompletedAreManual | internal/workflowworker/context.go:382-420 | What a walk completes beyond its own targets are futures that user code made; runtime futures are only completed by the runtime. |
| FutureObjects.FutureImpl.Set | internal/workflowworker/context.go:409-420 | `set` on linked objects terminates and does to them what the walk does to the store they make up, also when it panics midway. |
| FutureObjects.FutureImpl.Chain | internal/workflowworker/context.go:382-396 | Panics when already set, takes over a ready future's outcome at once, and otherwise adds one link. |
| Meaning.UserCodeHears | internal/workflowworker/context.go:329-365 | A slice begins with user code hearing exactly what it was answered, and the call it makes decides how the slice goes on. |
| Meaning.GetBlocksUntilReady | internal/workflowworker/context.go:435-444 | `Get` on an unready future blocks until that very future is ready, whatever else happens. |
| Meaning.BlockedGetIsLateGet | internal/workflowworker/context.go:339-351 | A coroutine that blocked in `Get` goes on as if it called `Get` only once the future is ready, with its value and error. |
| Meaning.BlockedReceiveIsTold | internal/workflowworker/signal.go:77-83 | A coroutine that blocked in `Receive` is told the signal its waiter was given. |
| Meaning.WokenReceiverIsTold | internal/workflowworker/signal.go:47-83 | The oldest blocked receiver is told the next signal. |
| Meaning.ReadyWaiterIsSkipped | internal/workflowworker/signal.go:47-59 | A waiter that is ready already is passed over. |
| Meaning.ReceiveAndDeliverCommute | internal/workflowworker/signal.go:47-83 | A signal reaches a receiver alike whether it or the receiver comes first. |
| Meaning.ReceiveTakesOldest | internal/workflowworker/signal.go:61-83 | `Receive` hands out the oldest signal not received yet, or blocks when there is none. |
| Meaning.ReceiveAsyncTakesOldest | internal/workflowworker/signal.go:85-113 | `ReceiveAsync` hands out that signal or none, and `Len` counts the signals delivered and not received. |
| Meaning.TimerRoundTrip | internal/workflowworker/context.go:131-148 | `NewTimer` gives the coroutine a future and Core the duration, and firing the number in that command completes that future; a negative duration is refused without a number. |
| Meaning.ActivityRoundTrip | internal/workflowworker/context.go:150-188 | The same for an activity and its result; which requests are refused, and that a local resolution is an error. |
| Meaning.LocalActivityRoundTrip | internal/workflowworker/context.go:190-232 | The same for a local activity, with its four timeouts. |
| Meaning.ChildRoundTrip | internal/workflowworker/context.go:234-302 | Two futures: the start completes one with the child's IDs, then the result completes the other; the result before the start is an error. |
| Meaning.ChildCall | internal/workflowworker/context.go:234-302 | Which child requests are refused, with two failed futures, and what is scheduled otherwise. |
| Meaning.NewFutureIsFresh | internal/workflowworker/context.go:95-101 | A new future is unready and settable by its maker; `IsReady` tells of any future whether it is. |
| Meaning.SetThenGet | internal/workflowworker/context.go:367-380 | What was set is what `Get` returns, in any coroutine. |
| Meaning.SetTwicePanics | internal/workflowworker/context.go:409-412 | A ready future cannot be set again. |
| Meaning.ChainThenSet | internal/workflowworker/context.go:382-396 | A chained future gets the outcome of the other one, when it is completed or at once. |
| Meaning.GoStartsCoroutine | internal/workflowworker/context.go:82-94 | A new coroutine has its creator's priority and starts at its beginning. |
| Meaning.ReturnMeans | internal/workflowworker/worker.go:375-390 | The return of the root completes or fails the workflow, that of an update handler answers its update, any other does nothing. |
| Meaning.PanicMeans | internal/workflowworker/worker.go:596-631 | A panic fails the workflow, but for one of a high-priority coroutine, which is an error of `drive`. |
| Meaning.LastHandlerWins | internal/workflowworker/update.go:38-47 | The handler registered last for a name is the one in the table; other names and the other table stay. |
| Scheduling.FuelIrrelevant | internal/workflowworker/worker.go:596-631 | The result of `drive` does not depend on the fuel of the model. |
| Scheduling.DriveQuiesces | internal/workflowworker/worker.go:596-631 | After `drive` without error on a live execution no coroutine is current and every coroutine is done or waits for an unready future. |
| Scheduling.DriveIdle | internal/workflowworker/worker.go:596-631 | `drive` on a terminal or quiescent execution changes nothing. |
| Scheduling.DriveTwice | internal/workflowworker/worker.go:596-631 | `drive` is idempotent. |
| Activation.PassLeavesUnmatched | internal/workflowworker/worker.go:473-484 | The jobs left over by a pass are jobs that still match nothing; a second pass at once would apply none of them. |
| Activation.PassBound | internal/workflowworker/worker.go:473-499 | The pending loop makes at most one pass per pending job, and one more only when the execution was not at rest. |
| Runs.DeliverSkipsNobody | internal/workflowworker/signal.go:47-59 | In a reachable state the oldest waiter is unready, so a signal goes to it and to nobody else, or into the buffer. |
| Runs.TryApplyKeeps | internal/workflowworker/worker.go:511-594 | Applying a resolution keeps all invariants and retires its operation. |
| Runs.ResolutionReachesItsFuture | internal/workflowworker/worker.go:511-594 | A resolution completes exactly the future of its own operation and retires it, each status with its own value or error; a child that started gets its started future only. |
| Runs.NoFaultMeansCompleted | internal/workflowworker/worker.go:668-701 | The result of an activity or child has no error if and only if it completed. |
| Runs.UnmatchedExactly | internal/workflowworker/worker.go:511-594 | A job stays pending if and only if it is a resolution of a number that is not outstanding, and is an error if and only if it does not fit its operation. |
| Runs.ActivateKeeps | internal/workflowworker/worker.go:432-509 | A successful activation keeps all invariants of an execution. |
| Preservation.SliceKeeps | internal/workflowworker/context.go:96-302 | Whatever API calls user code makes in one slice keep all invariants. |
| Guarantees.RunIntegrity | internal/workflowworker/worker.go:432-509 | Every reachable execution satisfies the invariants, and its activations together returned exactly what was emitted. |
| Guarantees.OutcomesAreFinal | internal/workflowworker/context.go:409-420 | A ready future keeps its value and error through every activation, also one that fails or panics. |
| Guarantees.ActivatedRests | internal/workflowworker/worker.go:500-509 | A successful activation ends terminal or quiescent, with its commands handed out. |
| Guarantees.OneTerminalCommand | internal/workflowworker/worker.go:375-390 | Over its whole life an execution returns at most one complete or fail command, and after it only accepting or rejecting update responses and query responses. |
| Guarantees.UpdateResponses | internal/workflowworker/update.go:162-190 | The responses to one update form a prefix of a rejection, or of an acceptance and then one completion or rejection; there are none without the job. |
| Guarantees.FirstResponseAtOnce | internal/workflowworker/update.go:162-190 | The activation that carries an update job returns its acceptance or rejection. |
| Guarantees.SignalsConserved | internal/workflowworker/signal.go:47-113 | In every run the signals handed out and then those buffered are all signals of that name in job order, no receiver waits while one is buffered, and each receiver that waited holds the signal it was handed. |
| Guarantees.EveryOperationOnce | internal/workflowworker/worker.go:633-636 | Until wrap-around the commands carry 1, 2, 3, ..., each number is outstanding or was resolved, once, and outstanding results are unready and pairwise distinct. |
| Guarantees.NumbersDistinctUntilWrap | internal/workflowworker/worker.go:633-636 | Sequence numbers are pairwise distinct if and only if there are at most 2^32 of them. |
| Eviction.RemoveWaiterAt | internal/workflowworker/signal.go:115-124 | Exactly the first occurrence of the waiter is removed, the others keep their order. |
| Eviction.EvictionConservesSignals | internal/workflowworker/signal.go:61-83 | Whichever receivers leave their channels when a run is evicted, exactly the others still wait, on unready futures, and every delivered signal is still accounted for. |
| JobOrder.JobOrderIndependence | internal/workflowworker/worker.go:445-509 | Reorderings of an activation's jobs that keep the order of same-name signals, of updates and of queries give the same commands and the same state. |
| JobOrder.ChildStartMustComeFirst | internal/workflowworker/worker.go:552-590 | The result of a child before its start is an error, after its start it is not. |
| UpdatePriority.UpdatesRunFirst | internal/workflowworker/worker.go:463-506 | The handler of every accepted update is a new coroutine, in job order, and gets its first slice in that order before any ordinary coroutine is resumed. |
| UpdatePriority.OrdinaryRunsLater | internal/workflowworker/worker.go:602-626 | Read the other way: when an ordinary coroutine is resumed, each new handler has run before. |
| UpdatePriority.BodiesInJobOrder | internal/workflowworker/update.go:162-190 | Starting updates replies to each, in job order, and adds one high-priority handler with the decoded arguments per acceptable update. |
| UpdatePriority.AcceptedExactly | internal/workflowworker/update.go:162-190 | An update is accepted, and its handler added, if and only if it is registered, its arguments decode and its validator, if it is to run, passes; otherwise it is rejected and nothing is added. |
| JobAccounts.SortingLosesNothing | internal/workflowworker/worker.go:445-462 | Every job is sorted into exactly one list, by its kind, and each list keeps the order. |
| JobAccounts.EveryResolutionApplies | internal/workflowworker/worker.go:473-499 | A successful activation retired exactly the operations that its jobs resolve, each as often as they do. |
| JobAccounts.QueriesSeeTheEnd | internal/workflowworker/query.go:62-77 | The last commands are the answers to the queries, one each and in order, on the state the activation ends with. |
| JobAccounts.HandlersRegisterFirst | internal/workflowworker/worker.go:463-471 | Before the first update is looked at the workflow has run to rest once; in later activations only signals come before updates. |
| JobAccounts.GivesUpExactly | internal/workflowworker/worker.go:487-498 | With jobs left over, the loop gives up if and only if nothing applied and `drive` scheduled nothing. |
| JobAccounts.StoppedRefuses | internal/workflowworker/worker.go:433-438 | A stopped or unstarted execution refuses every activation unchanged. |
| Execution.WorkflowExecution.Drive | internal/workflowworker/worker.go:596-631 | The two-priority loop over the growing list of coroutines computes the model's `drive`. |
| Execution.WorkflowExecution.RunSlice | internal/workflowworker/worker.go:405-430 | One slice of a coroutine, up to blocking, returning or panicking. |
| Execution.WorkflowExecution.TryApplyJob | internal/workflowworker/worker.go:511-594 | Applies a resolution, reports it unmatched or in error without any change, or panics. |
| Execution.WorkflowExecution.ApplyPass | internal/workflowworker/worker.go:474-484 | The in-place filter leaves exactly the unmatched jobs, in order, at the front of the buffer. |
| Execution.WorkflowExecution.ApplyPending | internal/workflowworker/worker.go:473-499 | The pending loop terminates and computes the model's loop. |
| Execution.WorkflowExecution.SortJobs | internal/workflowworker/worker.go:445-462 | One loop delivers the signals and separates queries, updates and resolutions, each in order. |
| Execution.WorkflowExecution.ActivateJobs | internal/workflowworker/worker.go:432-509 | The whole activation, with each of its ways to fail. |
| Execution.WorkflowExecution.DeliverSignal | internal/workflowworker/signal.go:47-59 | The loop over waiters. |
| Execution.WorkflowExecution.ReceiveSignal | internal/workflowworker/signal.go:61-83 | Takes the oldest buffered signal or queues a waiter and blocks. |
| Execution.WorkflowExecution.EvictReceiver | internal/workflowworker/signal.go:115-124 | The search and in-place removal of a waiter. |
| Execution.WorkflowExecution.ExecuteChildWorkflow | internal/workflowworker/context.go:234-302 | Refuses invalid requests without a sequence number; otherwise registers the operation and emits one command. |
| Execution.WorkflowExecution.StartUpdateJob | internal/workflowworker/update.go:162-190 | Rejects an unknown, undecodable or invalid update, otherwise accepts it and adds its handler. |
| WorkerCache.CachedExecutionsAreRuns | internal/workflowworker/worker.go:226-272 | However many runs are interleaved, a cached execution is exactly the run of its workflow on its own activations since initialization, unless a panic came out of a resolution. |
| WorkerCache.OneRunAtATime | internal/workflowworker/worker.go:226-272 | An activation concerns its own run only; double initialization leaves the execution as it was; errors and evictions remove it. |
| WorkerCache.CompletionIsOfActivation | internal/workflowworker/worker.go:226-272 | Which execution a task activates and with which jobs; the completion carries exactly the commands of that activation. |
| WorkerCache.CoreGetsTheRun | internal/workflowworker/worker.go:226-272 | For an intact cached run, the commands in its completions since initialization, put together, are the outputs of its workflow on the jobs of those tasks. |
| WorkerCache.RunCache.HandleActivation | internal/workflowworker/worker.go:226-272 | The map update of `handleActivationLocked`, with the recovery at worker.go:809-817. |
| Lanes.MutualExclusion | internal/workflowworker/worker.go:863-899 | In every interleaving at most one activation of a run is between `wait` and the closing of its turn. |
| Lanes.DispatchOrder | internal/workflowworker/worker.go:863-899 | Activations of a run are processed in dispatch order, each after every earlier one was closed, across deletion and re-creation of the lane. |
| Lanes.OldestMayPass | internal/workflowworker/worker.go:884-888 | The oldest turn of a run that has not been closed is never blocked in `wait`. |
| Lanes.NoLeak | internal/workflowworker/worker.go:890-899 | `refs` counts the unreleased turns of a lane, and a lane without any has a cached run. |
| Lanes.LaneIsMadeAnew | internal/workflowworker/worker.go:863-899 | A run in which a lane is deleted with its last turn and the next activation of the same run gets a new one. |
| Lanes.ReleaseKeeps | internal/workflowworker/worker.go:890-899 | Releasing under the mutex keeps the invariants; a lane is only deleted when all its turns have been released. |
| Lanes.DeletedExactly | internal/workflowworker/worker.go:890-899 | A release deletes the lane if and only if no reference is left, its run is not cached and it is the current lane. |
| Lanes.CachedIsLastSaid | internal/workflowworker/worker.go:901-920 | A run is cached if and only if the last of its activations to cache or evict it cached it. |
| Lanes.RunTurns.ReserveRunTurn | internal/workflowworker/worker.go:863-882 | Appends a turn to the current lane of the run, or to a new one. |
| Lanes.RunTurns.MayPassWait | internal/workflowworker/worker.go:884-888 | `wait` returns exactly when the predecessor's `done` is closed. |
| Lanes.RunTurns.DropReference | internal/workflowworker/worker.go:893-898 | The part of the release under the mutex. |
| Pipeline.Accounting | internal/completionpipe/completionpipe.go:115-183 | In every interleaving `active` is within the limit and equal to it while tickets queue, started tickets and then the queue are the accepted ones in order, and `outstanding` and `totalWeight` are the count and weight of unfinalized tickets within their bounds. |
| Pipeline.WeightIsOffered | internal/completionpipe/completionpipe.go:115-144 | Each accepted ticket weighs the size it was offered with, or one when that is zero, and `totalWeight` is the sum over unfinalized ones. |
| Pipeline.RefusedExactly | internal/completionpipe/completionpipe.go:115-133 | When a request is refused, and for which reason, in terms of the slots and bytes held. |
| Pipeline.BoundsOfNew | internal/completionpipe/completionpipe.go:59-103 | Both bounds of a new pipeline for every list of options: the last one of a kind counts, 64 MiB by default. |
| Pipeline.NoOverflow | internal/completionpipe/completionpipe.go:115-183 | No counter leaves the 64-bit range. |
| Pipeline.DefaultOutstanding | internal/completionpipe/completionpipe.go:84-103 | The default capacity, for every limit. |
| Pipeline.DrainBound | internal/completionpipe/completionpipe.go:146-183 | Without new tickets any sequence of steps is bounded by the work left. |
| Pipeline.NeverStuck | internal/completionpipe/completionpipe.go:146-183 | As long as a ticket is not submitted, received and finalized, some step is possible. |
| Pipeline.DrainedIsComplete | internal/completionpipe/completionpipe.go:146-183 | When no step is left every accepted ticket was submitted, received and finalized exactly once and all counters are zero. |
| Pipeline.OutstandingBelowActive | internal/completionpipe/completionpipe.go:152-168 | A run in which `outstanding` is 0 while `active` is 1. |
| Pipeline.CompletionPipeline.Enqueue | internal/completionpipe/completionpipe.go:115-144 | Accepts or names the reason, in overflow-free 64-bit arithmetic; says which rejections finalize at once. |
| Pipeline.CompletionPipeline.FinishAndTakeNext | internal/completionpipe/completionpipe.go:171-183 | Ends one ticket and starts the oldest queued one in one critical section. |
| Pipeline.CompletionPipeline.Outstanding | internal/completionpipe/completionpipe.go:109-113 | Zero exactly when every accepted ticket has been finalized. |
| WorkflowLoop.AcceptedAreAttemptedOrActive | internal/workflowworker/runloop.go:117-152 | At any time the activations taken by the loop are its enqueue attempts plus the active processors, which stay within the limit. |
| WorkflowLoop.DrainIsComplete | internal/workflowworker/runloop.go:72-77 | When the loop finishes, every activation that Core returned had one enqueue attempt, every accepted ticket was settled once, every turn was released and only lanes of cached runs remain. |
| WorkflowEffects.PollEventMeans | internal/workflowworker/runloop.go:79-140 | An activation is run, with the next turn of its run, or failed when it cannot be decoded or is one too many. |
| WorkflowEffects.ProcessorResultMeans | internal/workflowworker/runloop.go:142-152 | The completion of a processor is attempted once, with its size and its own turn; a turn is given up when there is no completion or no room. |
| WorkflowEffects.ErrorsAreReported | internal/workflowworker/runloop.go:161-179 | The loop reports exactly the errors of its steps, in order; which steps are errors is written out. |
| WorkflowEffects.DrainingStopsPolling | internal/workflowworker/runloop.go:172-179 | The poller's context is cancelled exactly when the loop drains. |
| WorkflowLoop.RunsAreSerial | internal/workflowworker/worker.go:828-861 | A turn is given up only after its completion was submitted, was refused or did not exist, and before any later activation of the run gets past `wait`. |
| WorkflowDrain.NeverStuck | internal/workflowworker/runloop.go:53-77 | A draining loop that has not finished can always move: a ticket, a turn, a processor, the poller or the loop itself. |
| WorkflowDrain.DrainBound | internal/workflowworker/runloop.go:53-77 | Without new activations from Core the parts together take a bounded number of steps, in any order. |
| WorkflowDrain.DrainFinishes | internal/workflowworker/runloop.go:53-77 | From every reachable draining state the loop can finish without a further activation; with the two rows above, it always does. |
| WorkflowLoop.StepKeeps | internal/workflowworker/runloop.go:53-159 | Every step of poller, loop, processors, lanes and tickets keeps the parts in agreement. |
| WorkflowLoop.PipePart | internal/workflowworker/worker.go:828-861 | A step of the whole is at most one step of the pipeline. |
| WorkflowLoop.LanesPart | internal/workflowworker/worker.go:798-899 | A step of the whole is at most one step of the lanes. |
| RunLoop.WorkflowRunLoop.HandleEvent | internal/workflowworker/runloop.go:79-115 | Poll events, with failed completions for undecodable payloads. |
| RunLoop.WorkflowRunLoop.DispatchActivation | internal/workflowworker/runloop.go:117-140 | Over the limit the activation is failed and the loop drains, otherwise a turn is reserved. |
| RunLoop.WorkflowRunLoop.HandleResult | internal/workflowworker/runloop.go:142-152 | One attempt per processor result. |
| RunLoop.WorkflowRunLoop.EnqueueWorkflowCompletion | internal/workflowworker/worker.go:828-861 | The turn goes with the ticket, or is given up by the loop. |
| RunLoop.WorkflowRunLoop.BeginDraining | internal/workflowworker/runloop.go:161-179 | Records errors in order and stops polling once. |
| RunLoop.WorkflowRunLoop.Finished | internal/workflowworker/runloop.go:72-77 | The exit test; when it holds the drain is complete. |
| ActivityLoop.CounterIsExact | internal/activityworker/worker.go:250-338 | `activeExecutions` is the number of entries of `running` that have not ended, within the limit, and zero once draining has begun. |
| ActivityLoop.OneAttemptThenSilence | internal/activityworker/worker.go:329-412 | Handler result, cancellation, drain or rejection: an activity has exactly one completion attempt, and after it neither a second one nor a heartbeat. |
| ActivityLoop.DrainIsComplete | internal/activityworker/runloop.go:75-105 | When the loop finishes `running` is empty, every activity has ended and every accepted ticket was settled once. |
| ActivityEffects.PollEventMeans | internal/activityworker/runloop.go:107-175 | Which tasks start an activity, which end one by cancellation, which are answered, and which are errors. |
| ActivityEffects.HandlerResultMeans | internal/activityworker/runloop.go:177-190 | The result of a handler ends its activity with its own completion, unless it has ended. |
| ActivityEffects.CancelOneMeans | internal/activityworker/worker.go:314-327 | Each live activity that a drain meets is ended with a cancellation of its own. |
| ActivityEffects.HandlersMean | internal/activityworker/worker.go:282-295 | A heartbeat is recorded exactly while its activity lives, and a handler offers what it returned. |
| ActivityEffects.ForgetsOnlyItsOwn | internal/activityworker/worker.go:406-411 | A finalizer drops the entry of its token only when it is its own. |
| ActivityEffects.ErrorsAreReported | internal/activityworker/runloop.go:81-105 | The loop reports exactly the errors of its steps, in order; which steps are errors is written out. |
| ActivityEffects.DrainingStopsPolling | internal/activityworker/runloop.go:92-105 | The poller's context is cancelled exactly when the loop drains. |
| ActivityDrain.NeverStuck | internal/activityworker/runloop.go:56-79 | A draining loop that has not finished can always move, also when handlers never return. |
| ActivityDrain.DrainBound | internal/activityworker/runloop.go:56-79 | Without new tasks and handler results a draining loop takes a bounded number of steps, in any order. |
| ActivityDrain.DrainFinishes | internal/activityworker/runloop.go:56-79 | From every reachable draining state the loop can finish without further input; with the two rows above, it always does. |
| ActivityLoop.StepKeeps | internal/activityworker/runloop.go:56-197 | Every step keeps map, flags, counter, log and tickets in agreement. |
| ActivityLoop.CancelNextKeeps | internal/activityworker/worker.go:314-327 | Going through the map in any order while entries disappear leaves nothing running. |
| ActivityRunLoop.RunLoop.EnqueueActivityCompletion | internal/activityworker/worker.go:395-438 | Nothing for an activity that has ended; otherwise one attempt, and the entry leaves the map at once when it is refused. |
| ActivityRunLoop.RunLoop.StartTask | internal/activityworker/worker.go:250-295 | Refuses beyond the limit and for a token still in the map. |
| ActivityRunLoop.RunLoop.HandlePolledTask | internal/activityworker/runloop.go:146-175 | Starts, cancels, or answers a start with a cancellation while draining. |
| ActivityRunLoop.RunLoop.HandleActivityResult | internal/activityworker/runloop.go:177-190 | A result whose activity has left the map is ignored. |
| ActivityRunLoop.RunLoop.CancelRunning | internal/activityworker/worker.go:314-327 | One round of the loop over the map. |
| ActivityRunLoop.RunLoop.RecordHeartbeat | internal/activityworker/worker.go:349-356 | Recorded exactly while the activity has not ended. |
| ActivityRunLoop.RunLoop.Finished | internal/activityworker/runloop.go:75-79 | The exit test; when it holds nothing runs any more. |
| PayloadCodec.RoundTrip | internal/converter/payload_codec.go:57-179 | With a codec whose decoding undoes its encoding, whatever their states and the map orders, decoding restores every message that was encoded. |
| PayloadCodec.EveryMessageRoundTrips | internal/converter/payload_codec.go:57-179 | With a codec that never fails and keeps singletons single, every message is encoded and restored. |
| PayloadCodec.RoundTripExactly | internal/converter/payload_codec.go:64-117 | Without codec state: an encoded message is restored if and only if none of its payload lists was encoded as an empty list. |
| PayloadCodec.MessageIsMade | internal/converter/payload_codec.go:64-117 | A successful walk changes payload fields only, each by one call of the codec; search attributes, scalars and keys stay. |
| PayloadCodec.TransformedOnce | internal/converter/payload_codec.go:64-179 | The codec is given each payload field outside search attributes exactly once, as one batch, and on failure none twice. |
| PayloadCodec.WalkIsPlain | internal/converter/payload_codec.go:57-179 | The walk refines a recursive definition without order or state. |
| PayloadCodec.MapOrderDoesNotMatter | internal/converter/payload_codec.go:119-147 | With a codec without state, success and result do not depend on the order in which maps are visited. |
| PayloadCodec.RepliesExactly | internal/converter/payload_codec.go:149-179 | A list field accepts the payloads of a reply in their order unless one is nil, a singular field a reply of exactly one. |
| PayloadCodec.FailureStops | internal/converter/payload_codec.go:64-179 | A walk that fails has made the fields before the failing one, left those after it, and left a failing payload field as it was, at every level. |
| PayloadCodec.WalkCalls | internal/converter/payload_codec.go:57-179 | The state of the codec goes from each call to the next, also when the walk fails. |
| PayloadCodec.Walker.TransformMessagePayloads | internal/converter/payload_codec.go:64-80 | The loop over fields, which stops at the first error with the earlier fields transformed. |
| PayloadCodec.Walker.TransformPayloadList | internal/converter/payload_codec.go:149-168 | Any number of payloads, none of them nil. |
| PayloadCodec.Walker.TransformSinglePayload | internal/converter/payload_codec.go:170-179 | Exactly one payload. |
| PayloadCodec.Walker.TransformMapPayloads | internal/converter/payload_codec.go:119-147 | The loop over the collected keys. |
| Wake.NoLostWakeup | internal/corebridge/bridge.go:509-539 | A driver asleep on the current generation: every response queued, or taken only after its step, has its signal yet to come, and that signal wakes it. |
| Wake.NoIdleWakeup | internal/corebridge/bridge.go:625-666 | A driver that captured a generation is not woken, but for the timer, until a response is signalled or the bridge closes. |
| Wake.CaptureIsCurrent | internal/corebridge/bridge.go:625-636 | Capturing takes the current generation, which ends with the next signal. |
| Wake.ProgressIsRetried | internal/corebridge/bridge.go:1001-1024 | After a response was taken Core is asked again; only a pump without progress lets its driver sleep. |
| Wake.ClosingWakesAll | internal/corebridge/bridge.go:479-507 | Closing the bridge, and a panic of its owner, wake whoever sleeps. |
| Wake.WakingStartsAfresh | internal/corebridge/bridge.go:638-666 | A driver that is woken, timed out or abandoned starts afresh, and nothing else moves. |
| Wake.QuietStepTookAll | internal/corebridge/bridge.go:1026-1048 | A step that got nowhere, with no signal since the capture, has taken every response that was signalled. |
| Wake.InFlightConserved | internal/corebridge/bridge.go:1026-1069 | `grpcCallsInFlight` is the number of calls whose response has not been taken, at most 64. |
| Wake.NoStrayResponse | internal/corebridge/bridge.go:1031-1033 | The error branch for a response with no call in flight is unreachable. |
| Wake.StepKeeps | internal/corebridge/bridge.go:509-745 | Every step of drivers, owner and calls keeps the invariant. |
| Wake.BridgeOwner.PumpGRPC | internal/corebridge/bridge.go:1026-1069 | Both loops terminate under any interference, and without a new signal every signalled response has been taken. |
| Wake.BridgeOwner.Deliver | internal/corebridge/bridge.go:737-745 | The response is queued before the signal. |

## Left out

- Fuel: an activation of user code that never blocks does not return in the source; in the model it is starved, and nothing is said about it.
- User code only names futures of its own execution; calls with a context of another coroutine, after the coroutine ended, or with invalid targets for results are not modelled.
- User code does not run during `stop` in the model: a coroutine that is evicted just ends, after its receiver has left its channel.
- Validators and query handlers may read futures and signal buffers and change the memory of the workflow, but not call the API that emits commands.
- Error texts and stack traces, namespaces, task queues, headers and retry policies in commands: kept as tags or left out.
- The decoding of results in `Get` and `Receive`: the model hands out the payload itself.
- Continued use of an execution after a panic out of a resolution: WorkerCache keeps such an execution cached, as the source does, but no guarantee is claimed for it.
- A second update job with the same protocol instance ID: Guarantees.UpdateResponses speaks of instances that are begun once.
- External `Shutdown` during `Run`, which replaces the lane map while it is in use; and `finish` and Core's own shutdown after the loops.
- Execution.WorkflowExecution.Set: names futures by their index in a store; updating linked objects in place is FutureObjects.FutureImpl.Set.
- WorkflowDrain.DrainBound: counts neither an activation's caching and evicting of its run nor the time that activations and submissions take; fairness of the Go scheduler is not modelled.
- PayloadCodec.Walker.TransformMessagePayloads: nested messages are values, so two fields that alias one message object are not captured; a nil top-level message is not modelled.
- Lanes: an activation without a run ID takes no turn; it is in WorkflowLoop but not in Lanes.
- WorkflowLoop and WorkerCache are separate: what an activation does to the cached run is in WorkerCache, when it happens is in WorkflowLoop and Lanes.
- Wake: the 50 ms fallback timer is a step that may happen at any time; progress that is not announced by a gRPC response relies on it. Owner requests other than driver steps, scratch buffers and the wire formats are left out.
- Generated protobuf code, the WASM module, gRPC, TLS, WASI, option normalization, reflection-based handler invocation, refused handler registrations and the public wrapper packages.
