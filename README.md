# JobSystem lifecycle bookkeeping in Dafny

This project models `JobSystem`, an in-process job execution service. Callers
submit jobs (`execute`), delay their dispatch by one of four hour tiers
(`scheduledExecution`), cancel them (`cancelJob`) and ask for the lifecycle
state of a job by its id (`getJobState`). Behind that interface, a worker pool
runs the jobs. A drainer thread takes finished jobs off the pool's completion
queue, a small pool fires one timeout task per dispatched job, and a `Timer`
fires the delayed dispatches.

The model is a sequential state machine. Background work becomes atomic steps
that the environment may take at any point: a timer firing, a timeout firing,
and a job finishing. The last of these joins the worker's completion and the
drainer's handling of it into one step (see "## Left out").

- `job_spec.dfy`, module `JobSpec`: the pure specification.
  - A `Snapshot` holds the object's fields: `scheduledJobs`, `jobMap`,
    `runningThreads`, the timeout and the pool size.
  - It also holds the environment's pending work: armed timer tasks,
    completion signals the drainer has not taken yet, and armed timeout tasks.
  - Each operation and each background step is one function on snapshots.
  - `Inv` is the invariant the bookkeeping keeps.
  - `Future` is the three-valued `Handle` (`Pending`, `Done`, `Cancelled`);
    `Future.cancel(true)` is `CancelHandle`.
- `job_system.dfy`, module `JobSystems`: the `JobSystem` class.
  - Its fields are the Java fields. Ghost fields hold the environment's
    pending work.
  - Every method changes the fields in place, keeps `Valid()`, and ensures
    that the new `Snap()` is the matching `JobSpec` step applied to the old one.
  - The getters and `GetJobState` are functions over the fields.
  - Six client methods follow the tests in `src/JobSystemTest.java`, with
    explicit background steps in place of the sleeps.
    `ThreadCountScenario` follows `Test_Number_Of_Threads`.
    `ScheduledCancelScenario` goes further than the tests: it cancels a
    scheduled job and then fires its timer.
- `job_traces.dfy`, module `JobTraces`: runs of the machine. These are arbitrary
  interleavings of caller operations and background steps, with induction
  lemmas about every run.
- `job_properties.dfy`, module `JobProperties`: properties that relate a few
  calls. They cover the cancellation order, the finish/timeout race and the
  resolver.

Three behaviours of the code that a caller might not expect, all kept in
the model:

- A caller might expect a cancelled scheduled job never to run. `cancelJob`
  on a scheduled job only removes the id from `scheduledJobs`
  (src/JobSystem.java:160-161). It does not stop the timer task, so the job
  is still dispatched under the same id when the timer fires
  (src/JobSystem.java:129-132). Until then its state is "No such job".
- `setTimeOutMillisec` stores any value, with no positivity check
  (src/JobSystem.java:172-174).
- The drainer removes an id from `runningThreads` only when its handle was not
  cancelled (src/JobSystem.java:64-66). A job the caller cancels therefore stays
  in the running set until its timeout fires. The resolver still reports it as
  "interrupted", because it checks for a cancelled handle before it checks the
  running set.

Fresh UUIDs: each minting operation takes a parameter `newId`. The operation
requires that `newId` is unknown to the registry, to the scheduled set and to
the armed timer tasks. This stands for the collision-freedom of
`UUID.randomUUID()`.

A null job or a null `TimeFrame` is `None` of an `Option`. The constructor's
`IllegalArgumentException` is the `None` result of `JobSystem.Create` and of
`JobSpec.Init`.

## Model

| member | source | states |
|---|---|---|
| JobSpec.CancelHandle | src/JobSystem.java:164 | cancellation succeeds exactly on a pending handle and leaves it cancelled; a done or cancelled handle is left unchanged and the call reports false |
| JobSpec.Hours | src/JobSystem.java:144-154 | the four tiers carry 1, 2, 6 and 12 hours |
| JobSpec.DelayMillis | src/JobSystem.java:133 | the timer delay is a whole number of hours of 3,600,000 ms, the tier's hours, between 1 and 12 hours |
| JobSpec.Message | src/JobSystem.java:229-242 | each state has its own literal string, and the string parses back to that state, so the five strings are pairwise distinct |
| JobSpec.Resolve | src/JobSystem.java:224-243 | the answer follows the precedence scheduled, unregistered, cancelled handle, running set, complete: each of the five answers holds exactly when its condition holds and no earlier one does, so a cancelled id is interrupted even while running |
| JobSpec.Init | src/JobSystem.java:40-48 | construction fails exactly when the thread count or the timeout is non-positive; otherwise the timeout and pool size are the arguments, the invariant holds and every id reads "No such job" |
| JobSpec.Dispatch | src/JobSystem.java:96-110 | dispatch registers a pending handle, adds the id to the running set, arms one completion signal and one timeout task carrying the current timeout, and keeps the invariant |
| JobSpec.ExecuteStep | src/JobSystem.java:82-92 | a null job yields no id and changes nothing; otherwise the fresh id is returned, is registered with a pending handle, is running, reads "running", and the scheduled set is untouched |
| JobSpec.ScheduleStep | src/JobSystem.java:118-136 | a null job or tier yields no id and changes nothing; otherwise the fresh id joins only the scheduled set (count grows by one), reads "scheduled", its timer is armed with the tier's delay, and the registry is untouched |
| JobSpec.CancelStep | src/JobSystem.java:158-168 | a scheduled id is removed and true is returned, and it then reads "No such job" with its timer still armed; otherwise a registered id reports true exactly when its handle was pending, and the handle becomes cancelled; an unknown id reports false and nothing changes |
| JobSpec.SetTimeOutStep | src/JobSystem.java:172-174 | the timeout becomes the argument, unchecked, and nothing else changes |
| JobSpec.SetThreadsStep | src/JobSystem.java:179-181 | the pool size becomes the argument and nothing else changes |
| JobSpec.FireStep | src/JobSystem.java:129-132 | a fired timer removes the id from the scheduled set and dispatches it under the same id, which then reads "running" |
| JobSpec.FinishStep | src/JobSystem.java:63-66 | completion turns a pending handle into done and removes the id from the running set; a cancelled handle stays cancelled and the running set is kept; the registry keys are kept |
| JobSpec.TimeoutStep | src/JobSystem.java:99-102 | the timeout removes the id from the running set and cancels a pending handle; a done handle is left done |
| JobTraces.Step | src/JobSystem.java:104 | every step keeps the invariant, never removes a registry key and never changes a done or cancelled handle |
| JobTraces.InvariantHoldsOnEveryTrace | src/JobSystem.java:8-12 | along every run, scheduled ids are unregistered, the running set is inside the registry, and an id is running exactly while its job has neither completed nor timed out |
| JobTraces.ConstructedSystemsKeepInvariant | src/JobSystem.java:40-48 | every state reachable from a successful construction satisfies the invariant |
| JobTraces.RegistryOnlyGrows | src/JobSystem.java:9 | along every run the registry keys only grow and done or cancelled handles never change |
| JobTraces.RegisteredIdNeverUnknown | src/JobSystem.java:231-233 | once dispatched, an id never again reads "No such job" |
| JobTraces.StepKeepsTerminalState | src/JobSystem.java:235-242 | no single step moves a job out of "complete" or "interrupted" |
| JobTraces.TerminalStatesAreFinal | src/JobSystem.java:235-242 | along every run "complete" and "interrupted" are final states |
| JobTraces.UnknownUntilTimerFires | src/JobSystem.java:160-161 | a scheduled job cancelled before its timer fires reads "No such job" and keeps its timer armed for as long as the timer does not fire |
| JobTraces.IssuedIdsAreKept | src/JobSystem.java:125-131 | every id handed out keeps an armed timer task or a registry entry along every run |
| JobProperties.StateFollowsHandle | src/JobSystem.java:224-243 | under the invariant, the state of a registered id is decided by its handle alone: pending is running, done is complete, cancelled is interrupted |
| JobProperties.CancelTwiceFails | src/JobSystem.java:158-168 | a second cancellation straight after the first always reports false |
| JobProperties.CancelDispatchedJob | src/JobSystemTest.java:115-127 | cancelling a running or complete job succeeds exactly when it was running, and leaves it interrupted if it succeeded and complete otherwise |
| JobProperties.CancelledScheduledJobStillRuns | src/JobSystem.java:127-132 | cancelling a scheduled job succeeds and it reads "No such job", but its timer still fires and the job then reads "running" |
| JobProperties.FinishTimeoutRace | src/JobSystem.java:99-102 | whichever of completion and timeout comes first, the id leaves the running set exactly once; completion first leaves it complete, timeout first leaves it interrupted |
| JobProperties.InterruptedWhileInRunningSet | src/JobSystem.java:235-240 | a running job the caller cancels reads "interrupted" although it is still in the running set, and the drainer leaves it there |
| JobSystems.JobSystem.constructor | src/JobSystem.java:44-48 | the object starts with empty sets and map, the given timeout and pool size, and its invariant holds |
| JobSystems.JobSystem.Create | src/JobSystem.java:40-48 | no object exactly when an argument is non-positive; otherwise a new object whose timeout getter returns the argument |
| JobSystems.JobSystem.Dispatch | src/JobSystem.java:96-110 | the fields become the dispatch step of the old state |
| JobSystems.JobSystem.Execute | src/JobSystem.java:82-92 | null job: no id, nothing changes; otherwise the fresh id, which reads "running"; the whole new state is the execute step |
| JobSystems.JobSystem.ScheduledExecution | src/JobSystem.java:118-136 | null job or tier: no id, nothing changes; otherwise the fresh id reads "scheduled" and the scheduled count grows by one |
| JobSystems.JobSystem.FireScheduled | src/JobSystem.java:129-132 | any armed timer may fire, cancelled or not; afterwards the id reads "running" |
| JobSystems.JobSystem.Finish | src/JobSystem.java:63-66 | the fields become the finish step of the old state |
| JobSystems.JobSystem.TimeoutFire | src/JobSystem.java:99-102 | the fields become the timeout step of the old state |
| JobSystems.JobSystem.CancelJob | src/JobSystem.java:158-168 | a scheduled id: true, and it then reads "No such job"; an unknown id: false and nothing changes; the whole new state and result are the cancel step |
| JobSystems.JobSystem.SetTimeOutMillisec | src/JobSystem.java:172-174 | the timeout getter returns the value set |
| JobSystems.JobSystem.SetThreadsThreshold | src/JobSystem.java:179-194 | the pool size getter returns the value set |
| JobSystems.JobSystem.GetJobState | src/JobSystem.java:224-243 | "scheduled" exactly for a scheduled id, "No such job" exactly for an id neither scheduled nor registered; on a valid object a registered, unscheduled id is running, complete or interrupted exactly when its handle is pending, done or cancelled |
| JobSystems.JobSystem.GetJobStateMessage | src/JobSystem.java:224-243 | the string returned is the message of the resolved state and parses back to it |

The getters `GetThreadsThreshold`, `GetTimeOutMillisec`, `GetNumOfScheduledJobs`
and `GetNumberOfRunningThreads` (src/JobSystem.java:192-218) are functions
over the fields. The setters' and scheduled execution's contracts state their
values.

## Left out

- The threads, the `Timer`, the executors and the completion service
  (src/JobSystem.java:49-52). The model keeps only their pending work, as ghost
  fields, with one atomic step each.
- The drainer's endless loop and blocking `take()` (src/JobSystem.java:60-71).
  The model has only the loop body, as a step that runs once per completion
  signal.
- A job whose `Runnable` throws. In the source, `f.get()` then throws
  `ExecutionException` (src/JobSystem.java:65-67): the drainer prints the stack
  trace and skips `runningThreads.remove`. Such an id reads "Job's running!"
  until its timeout fires and "Job's complete" after that. The model assumes
  every job returns normally. `Inv`'s clause "an id is in the running set
  exactly while its job has neither completed nor timed out" depends on that.
  The drainer's `InterruptedException` path is left out too.
- JobSpec.FinishStep: it joins two threads' work into one step. First the
  worker completes the future; later the drainer takes the signal and removes
  the id from the running set (src/JobSystem.java:63-66). In the source there
  is a window between the two. In it, the handle is done but the id is still in
  `runningThreads`: `getJobState` reads "Job's running!", and `cancelJob`
  returns false and leaves the job "running". That window is not modelled.
  Three properties depend on the joined step: `Inv`'s running-set clause,
  `JobProperties.StateFollowsHandle` and `JobProperties.CancelDispatchedJob`.
  The same goes for the handle clauses of `JobSystems.JobSystem.GetJobState`.
  In that window the test at src/JobSystemTest.java:120-125 can fail.
- Concurrency hazards: `execute` submits the job before it registers it
  (src/JobSystem.java:98-106), and the `HashMap`/`HashSet` fields are not
  thread-safe. Every operation here is atomic.
- Wall-clock time and sleeps. Delays and timeouts are recorded numbers; the
  environment chooses whether completion or the timeout comes first.
- `UUID.randomUUID()`: the fresh id is a parameter, required unknown to the
  system.
- What a `Runnable` does: a job is only present or absent.
- Java's 32-bit `int` and 64-bit `long`: all numbers are unbounded integers.
  No value the source computes comes near the limits; the largest delay is
  43,200,000 ms.
- JobSystems.JobSystem.SetThreadsThreshold: the value is stored as given.
  `ThreadPoolExecutor.setCorePoolSize`, which it delegates to, is not part of
  this model, so its own argument checks are not modelled.
- src/Main.java, a demo loop that prints, is not part of this model.
