# fh-cluster: a Dafny model of the worker-pool supervisor

fh-cluster supervises a pool of identical Node.js worker processes. The
exported `fhCluster(workerFunc, optionalNumWorkers, optionalBackoffStrategy)`
picks a worker count and a backoff strategy from optional arguments, forks the
pool in the master process (or runs the worker body in a worker process), and
re-forks a worker after every exit, after a delay taken from a shared backoff
strategy that an hourly interval resets. Bound tasks are logical tasks pinned
to a preferred worker id; a reconciliation pass (`setUpBoundTasks`) starts
each unassigned or orphaned task on a listening worker by sending it a message
that carries the task's start event id.

The model is pure and functional:

- `JsValues` (js_values.dfy): the JavaScript values the supervisor inspects
  (missing, null, boolean, integer number, string, function, object),
  truthiness, `typeof`, and lodash `_.functions`.
- `FhCluster` (fh_cluster.dfy): the two validity predicates, lodash `_.find`
  as "first valid of [optional, default]", `start`, and the exported entry
  point `Launch`. The process role is a boolean, the CPU count a parameter,
  and the calls on `cluster` are returned as an ordered effect log.
- `ExitBackoff` (exit_backoff.dfy): the exit handler and the backoff reset
  interval as a state machine over explicit timer events, counting calls of
  `strategy.next()`, `strategy.reset()` and `cluster.fork()`.
- `BoundTasks` (bound_tasks.dfy): one reconciliation pass as a relation
  `PassOk` between the tasks before, the tasks after and the ordered send log,
  a method `SetUpBoundTasks` that produces an outcome satisfying it, and the
  properties every outcome has. `lib/bound_tasks.js` is not part of this
  model; the pass is the behaviour its unit tests pin down.
- `BoundTaskConfig` (bound_task_config.dfy): validation of bound-task
  descriptors as the supervisor's unit tests require it.
  `lib/fh_cluster.js` takes a backoff strategy as its third argument and
  performs no such validation, so this validator stands on its own.
- `FhClusterExamples`, `BoundTasksExamples`: the unit tests' scenarios.

`test/unit/test_bound_tasks.js:112-144` and `:247-277` move a task from a
dead worker to a different listening worker, so the pass may bind a task to
any listening worker when its preferred one is not listening; its preferred
one always wins when it listens. Which other worker is chosen is left open:
`PassOk` admits every choice, and all properties hold for every choice.

## Model

| member | source | states |
|---|---|---|
| FhCluster.FindFirst | lib/fh_cluster.js:26-29 | `_.find` yields nothing iff no candidate passes the predicate; otherwise it yields a passing candidate all of whose predecessors fail |
| FhCluster.IsValidNumWorkers | lib/fh_cluster.js:78-80 | a worker count is valid iff it is a number greater than 0; missing values, strings, 0 and negatives are invalid |
| FhCluster.ResolveNumWorkers | lib/fh_cluster.js:29 | the effective count is the optional argument when valid, else the CPU count, and undefined only when the CPU count is 0; any defined count is positive |
| FhCluster.IsValidBackoffStrategy | lib/fh_cluster.js:82-86 | a supplied strategy is valid iff it is an object or a function whose `next` and `reset` properties (own or inherited, the same lodash assumption as under "## Left out") are functions |
| FhCluster.ResolveBackoffStrategy | lib/fh_cluster.js:22-26 | the strategy in use is the supplied one when valid, else the exponential strategy with initial delay 500 and maximum delay 5000; it is always valid |
| FhCluster.Start | lib/fh_cluster.js:37-45 | the master forks exactly `numWorkers` times (none for an undefined or non-positive count) and never runs the worker body; a worker runs the body exactly once and forks nothing |
| FhCluster.Launch | lib/fh_cluster.js:21-35 | the strategy is the caller's when valid and the default otherwise; the worker count is the optional count when valid, otherwise the CPU count, and none only when the argument is invalid and there are no CPUs; the master forks the optional count when valid and the CPU count otherwise; a worker only runs its body; `listening` and `exit` handlers are registered and one reset interval is armed |
| ExitBackoff.Initial | lib/fh_cluster.js:27 | set-up arms exactly one reset interval, with nothing forked or pending |
| ExitBackoff.Step | lib/fh_cluster.js:54-66 | corrected: an event is rejected exactly when it fires a retry that was never scheduled or a reset interval that is not live; accepted events keep a single live reset interval |
| ExitBackoff.Run | lib/fh_cluster.js:54-76 | corrected: a run of events keeps a single live reset interval |
| ExitBackoff.RunAccounting | lib/fh_cluster.js:55-65 | over any run, `next()` is called once per exit, one fork happens per fired retry, pending retries grow by exits minus fired retries, and `reset()` is called once per fired reset interval |
| ExitBackoff.OneForkPerExit | lib/fh_cluster.js:55-64 | once every retry a run scheduled has fired, the run forked exactly once and called `next()` exactly once per exit |
| ExitBackoff.RearmAsWritten | lib/fh_cluster.js:63 | as written, a re-arm keeps the held handle, clears exactly the held interval, adds exactly the fresh one and advances the next handle by one |
| ExitBackoff.RearmAsWrittenN | lib/fh_cluster.js:68-76 | as written, every interval armed by a retry stays live after any number of further retries |
| ExitBackoff.AsWrittenTwoRetriesLeaveTwoIntervals | lib/fh_cluster.js:63 | as written, two retries after set-up leave two reset intervals live |
| ExitBackoff.Rearm | lib/fh_cluster.js:68-75 | the corrected re-arm clears the held interval and holds a fresh one, so exactly one reset interval stays live |
| ExitBackoff.RearmN | lib/fh_cluster.js:68-75 | after any number of corrected re-arms exactly one reset interval is live, the most recently armed one |
| FhClusterExamples.MasterWithOneWorker | test/unit/test_fh_cluster.js:55-75 | as master with count 1: exactly one fork, the app function is never called, and an `exit` handler is set |
| FhClusterExamples.WorkerRunsBody | test/unit/test_fh_cluster.js:82-87 | as a worker the app function is called |
| FhClusterExamples.FunctionStrategyIsKept | lib/fh_cluster.js:82-86 | a function value whose `next` and `reset` properties are functions is kept as the strategy; a function without them falls back to the default |
| FhClusterExamples.TwoWorkers | test/unit/test_fh_cluster.js:94-98 | count 2 forks exactly twice |
| FhClusterExamples.InvalidCountsForkPerCpu | test/unit/test_fh_cluster.js:101-131 | a missing count, `'eleventy'` and `-4` each fork once per CPU |
| FhClusterExamples.OneExitOneFork | lib/fh_cluster.js:55-64 | one exit and its retry call `next()` once and fork once |
| BoundTasks.SetUpBoundTasks | test/unit/test_bound_tasks.js:64-144 | a pass outcome always exists: every rebound task gets one message, each to a listening worker, and the outcome satisfies the pass relation |
| BoundTasks.SendsGoToListening | test/unit/test_bound_tasks.js:112-144 | every message goes to a listening worker; a dead worker receives nothing |
| BoundTasks.OneSendPerRebind | test/unit/test_bound_tasks.js:193-245 | a pass sends exactly as many messages as it rebinds tasks |
| BoundTasks.SendOrigin | test/unit/test_bound_tasks.js:15-35 | each message carries the start event id of a task the pass rebinds and goes to the worker that task is now bound to |
| BoundTasks.RebindIsSent | test/unit/test_bound_tasks.js:64-84 | every task the pass rebinds is bound to a worker and gets a message with its start event id addressed to that worker |
| BoundTasks.NoRebindNoSend | test/unit/test_bound_tasks.js:86-110 | a pass that rebinds no task sends nothing |
| BoundTasks.NoListenerChangesNothing | test/unit/test_bound_tasks.js:146-175 | with no listening worker, or no workers table, nothing is sent and every task, stale assignment included, is kept |
| BoundTasks.AllBoundAfterPass | test/unit/test_bound_tasks.js:64-144 | after a pass that found a listening worker every task is on a listening worker, on its preferred one whenever it needed a worker and that one listens |
| BoundTasks.OnlyOrphansMove | test/unit/test_bound_tasks.js:247-277 | a pass keeps preferred ids and start event ids, and leaves tasks on live workers untouched |
| BoundTasks.Idempotent | test/unit/test_bound_tasks.js:86-110 | a second pass over the same worker states changes nothing and sends nothing |
| BoundTasksExamples.NoWorkers | test/unit/test_bound_tasks.js:48-62 | without a workers table nothing is sent |
| BoundTasksExamples.UnassignedTaskIsSent | test/unit/test_bound_tasks.js:64-84 | an unassigned task whose preferred worker listens gets one message with its start event id and is bound to that worker |
| BoundTasksExamples.AssignedAndAliveIsLeftAlone | test/unit/test_bound_tasks.js:86-110 | a task on a listening worker gets no message and keeps its worker |
| BoundTasksExamples.DeadWorkerTaskMoves | test/unit/test_bound_tasks.js:112-144 | a task on dead worker 1 moves to listening worker 2 with one message; worker 1 receives nothing |
| BoundTasksExamples.AllDeadThenOneListens | test/unit/test_bound_tasks.js:146-186 | all dead: no message and the stale worker is kept; once worker 2 listens, one message and the task moves to it |
| BoundTasksExamples.SameWorkerGetsBoth | test/unit/test_bound_tasks.js:193-216 | two tasks preferring listening worker 1 get two messages, in task order, and both are bound to it |
| BoundTasksExamples.EachToItsPreferredWorker | test/unit/test_bound_tasks.js:218-245 | tasks whose preferred workers listen each get one message at their own worker |
| BoundTasksExamples.OnlyOrphanMoves | test/unit/test_bound_tasks.js:247-277 | the live task gets no message; the orphan moves to worker 1, which receives exactly one message |
| BoundTaskConfig.ValidateTask | test/unit/test_fh_cluster.js:137-217 | a descriptor is accepted iff its preferred worker id is a number not above the worker count, its worker function is a function and its start event id a non-empty string; a rejection names a field that fails, and a bad preferred worker id is always the one named |
| BoundTaskConfig.ValidateTasks | test/unit/test_fh_cluster.js:133-218 | a descriptor list is accepted iff every descriptor is, yielding one task per descriptor; otherwise the error is that of the first rejected descriptor |
| BoundTaskConfig.ValidatedTasksAreWellFormed | test/unit/test_fh_cluster.js:170-185 | every accepted task prefers a worker id no larger than the worker count, has a non-empty start event id and starts unassigned |
| BoundTaskConfig.RejectedDescriptors | test/unit/test_fh_cluster.js:137-217 | a missing or string `preferredWorkerId`, `preferredWorkerId` 3 with two workers, a missing `workerFunction` and an empty `startEventId` are each rejected naming that field |

## Findings

| source | as written | input that shows it | evidently intended | confidence | as-written member | corrected member |
|---|---|---|---|---|---|---|
| lib/fh_cluster.js:63 | every retry passes the handle of the interval armed at set-up to `resetBackoffResetInterval` and drops the handle it returns, so only that first interval is ever cleared and each retry leaves one more hourly `reset()` interval running | two worker exits whose retries both fire: intervals 1 and 2 are both live | one pending quiet-period interval, cleared and re-armed on every retry | high; not executed | ExitBackoff.AsWrittenTwoRetriesLeaveTwoIntervals | ExitBackoff.RearmN |

The rest of the model (`ExitBackoff.Step`) uses the corrected `ExitBackoff.Rearm`.

## Left out

- Real time: `setTimeout`, `setInterval` and `clearInterval` become explicit events; the delay before a retry and the one-hour period are not modelled.
- The delays of the backoff strategy and their exponential growth up to the ceiling: `backoff.ExponentialStrategy` belongs to a library outside this model, so only the number of `next()` and `reset()` calls is counted.
- FhCluster.IsValidBackoffStrategy: `_.functions` is read as listing enumerable function properties, own or inherited, for supplied objects, supplied functions and the default strategy alike, so the library's exponential strategy (whose `next` and `reset` are inherited) passes the check; the lodash version that decides this is not part of this model, and under an own-properties-only `_.functions` the default strategy would fail it.
- ExitBackoff.Step: uses the corrected re-arm of the Findings row, so its single-live-interval guarantee holds of the intended code; as written, `lib/fh_cluster.js:63` lets reset intervals pile up (see `ExitBackoff.RearmAsWrittenN`).
- ExitBackoff.Run: inherits the corrected re-arm from `ExitBackoff.Step`; as written, live reset intervals pile up over a run. Its call and fork accounting (`ExitBackoff.RunAccounting`) does not depend on the re-arm.
- The Node `cluster` module, handler registration and `os.cpus()`: the role is a boolean, the CPU count a parameter, and the registered handlers are a list of event names.
- The argument passed to the worker body (`cluster.worker`): the effect log records only that the body was called.
- The `listening` handler and the exit handler's log line only print (lib/fh_cluster.js:47-52, 58-60); printing is not modelled.
- Non-integer and NaN numbers: numbers are integers.
- The return value of a worker's `send`: every message is taken as accepted, as the tests' stubs do for the matching start event id; a refused send leaving the task unassigned is not modelled.
- The bound task's `workerFunction` callback and its invocation on binding are not modelled; the task keeps only its preferred worker id, start event id and assigned worker.
- An assigned worker that is missing from the workers table counts as not listening; the JavaScript code could still read the state of the stale worker object.
- BoundTaskConfig.ValidateTask: no lower bound is imposed on `preferredWorkerId`, since only the upper bound is asserted; validation happening before any fork is not modelled either.
- The check order of descriptor fields (`preferredWorkerId`, `workerFunction`, `startEventId`) is a choice; the tests make only one field invalid at a time.
- Triggering a reconciliation pass from the `listening` event: `lib/fh_cluster.js` does not do it, and the pass is modelled on its own.
