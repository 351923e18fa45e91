/**
 * The bookkeeping of JobSystem (src/JobSystem.java) as a pure state machine.
 *
 * A `Snapshot` holds every field of a JobSystem object that the lifecycle
 * bookkeeping touches, plus three pieces of environment state that live in
 * the Java thread pools and the Timer: the timer tasks still outstanding,
 * the completion signals the drainer has not yet taken, and the timeout
 * tasks still outstanding.  Each public operation and each piece of
 * background work is one step function over snapshots.
 */
module JobSpec {

  /** A job identifier; the source mints them as UUID strings. */
  type JobId = string

  datatype Option<T> = None | Some(value: T)

  /** A non-null `Runnable`.  What a job does when it runs is not part of this model. */
  datatype Runnable = Work

  /** The status of the `Future` that the worker pool hands back for a dispatched job. */
  datatype Handle = Pending | Done | Cancelled

  /**
   * `Future.cancel(true)`: takes effect, and reports true, only on a job
   * that has neither completed nor been cancelled; otherwise the handle is
   * left as it is and the call reports false.
   */
  function CancelHandle(h: Handle): (r: (Handle, bool))
    ensures r.1 <==> h == Pending
    ensures r.0 != Pending
    ensures h != Pending ==> r.0 == h
    ensures r.1 ==> r.0 == Cancelled
  {
    if h == Pending then (Cancelled, true) else (h, false)
  }

  // ---------------------------------------------------------------------
  // Delay tiers

  /** The enum `JobSystem.TimeFrame`. */
  datatype TimeFrame = OneHour | TwoHours | SixHours | TwelveHours

  const HourToMilliFactor: nat := 3600000

  /** The `time` value each enum constant is built with. */
  function Hours(tf: TimeFrame): (h: nat)
    ensures h in {1, 2, 6, 12}
  {
    match tf
    case OneHour => 1
    case TwoHours => 2
    case SixHours => 6
    case TwelveHours => 12
  }

  /** The delay handed to `Timer.schedule`: `time.time * HOUR_TO_MILLI_FACTOR`. */
  function DelayMillis(tf: TimeFrame): (ms: nat)
    ensures ms % HourToMilliFactor == 0 && ms / HourToMilliFactor == Hours(tf)
    ensures HourToMilliFactor <= ms <= 12 * HourToMilliFactor
  {
    Hours(tf) * HourToMilliFactor
  }

  // ---------------------------------------------------------------------
  // Job states

  /** The five answers of `getJobState`. */
  datatype JobState = Scheduled | NoSuchJob | Interrupted | Running | Complete

  /**
   * Reads a state back from the string `getJobState` returned, by the five
   * literal strings of the source.
   */
  function ParseMessage(m: string): Option<JobState>
  {
    if m == "Job is scheduled for later execution." then Some(Scheduled)
    else if m == "No such job exist." then Some(NoSuchJob)
    else if m == "Job was interrupted!" then Some(Interrupted)
    else if m == "Job's running!" then Some(Running)
    else if m == "Job's complete" then Some(Complete)
    else None
  }

  /**
   * The literal string `getJobState` returns for each state.  The five
   * strings are pairwise different, so a caller can tell the states apart.
   */
  function Message(st: JobState): (m: string)
    ensures ParseMessage(m) == Some(st)
  {
    match st
    case Scheduled => "Job is scheduled for later execution."
    case NoSuchJob => "No such job exist."
    case Interrupted => "Job was interrupted!"
    case Running => "Job's running!"
    case Complete => "Job's complete"
  }

  /**
   * The state resolver of `getJobState`: the first match in the order
   * scheduled, unregistered, cancelled handle, running, complete.
   */
  function Resolve(scheduled: set<JobId>, jobMap: map<JobId, Handle>, running: set<JobId>, id: JobId): (st: JobState)
    ensures st == Scheduled <==> id in scheduled
    ensures st == NoSuchJob <==> id !in scheduled && id !in jobMap
    ensures st == Interrupted <==> id !in scheduled && id in jobMap && jobMap[id] == Cancelled
    ensures st == Running <==> id !in scheduled && id in jobMap && jobMap[id] != Cancelled && id in running
    ensures st == Complete <==> id !in scheduled && id in jobMap && jobMap[id] != Cancelled && id !in running
  {
    if id in scheduled then Scheduled
    else if id !in jobMap then NoSuchJob
    else if jobMap[id] == Cancelled then Interrupted
    else if id in running then Running
    else Complete
  }

  // ---------------------------------------------------------------------
  // The state

  datatype Snapshot = Snapshot(
    scheduled: set<JobId>,         // scheduledJobs
    jobMap: map<JobId, Handle>,    // jobMap, id -> Future
    running: set<JobId>,           // runningThreads
    timers: map<JobId, nat>,       // Timer tasks not yet fired, id -> delay in ms
    completions: set<JobId>,       // completion signals the drainer has not taken yet
    timeouts: map<JobId, int>,     // timeout tasks not yet fired, id -> timeout in ms
    timeOut: int,                  // timeOutMillisec
    threads: int)                  // the worker pool's core size

  function StateOf(s: Snapshot, id: JobId): JobState
  {
    Resolve(s.scheduled, s.jobMap, s.running, id)
  }

  /** An identifier a UUID draw may return: nothing in the system knows it yet. */
  predicate Fresh(s: Snapshot, id: JobId)
  {
    id !in s.jobMap && id !in s.scheduled && id !in s.timers
  }

  /**
   * What the bookkeeping keeps true between steps:
   * a scheduled id has its timer task outstanding and is never registered;
   * the running set, the undrained completion signals and the outstanding
   * timeout tasks are all about registered ids; a pending handle still has
   * its completion signal and its timeout task ahead of it; a completed
   * handle has been drained; and an id is in the running set exactly when
   * its job has not completed and its timeout has not fired.
   */
  ghost predicate Inv(s: Snapshot)
  {
    && s.scheduled <= s.timers.Keys
    && s.timers.Keys !! s.jobMap.Keys
    && s.running <= s.jobMap.Keys
    && s.completions <= s.jobMap.Keys
    && s.timeouts.Keys <= s.jobMap.Keys
    && (forall id :: id in s.jobMap && s.jobMap[id] == Pending ==> id in s.completions && id in s.timeouts)
    && (forall id :: id in s.jobMap && s.jobMap[id] == Done ==> id !in s.completions)
    && (forall id :: id in s.jobMap ==> (id in s.running <==> s.jobMap[id] != Done && id in s.timeouts))
  }

  // ---------------------------------------------------------------------
  // Construction

  /**
   * The constructor: `None` stands for the IllegalArgumentException thrown
   * on a non-positive thread count or timeout.
   */
  function Init(threadsThreshold: int, timeOutMillisec: int): (r: Option<Snapshot>)
    ensures r.None? <==> threadsThreshold <= 0 || timeOutMillisec <= 0
    ensures r.Some? ==> Inv(r.value)
    ensures r.Some? ==> r.value.timeOut == timeOutMillisec && r.value.threads == threadsThreshold
    ensures r.Some? ==> forall id :: StateOf(r.value, id) == NoSuchJob
  {
    if threadsThreshold <= 0 || timeOutMillisec <= 0 then None
    else Some(Snapshot({}, map[], {}, map[], {}, map[], timeOutMillisec, threadsThreshold))
  }

  // ---------------------------------------------------------------------
  // Caller-facing operations

  /**
   * The private `execute(job, uniqueID)`: submit to the worker pool (a
   * pending handle and, later, one completion signal), arm a timeout task
   * with the timeout currently configured, register the handle, and add
   * the id to the running set.
   */
  function Dispatch(s: Snapshot, id: JobId): (r: Snapshot)
    requires id !in s.jobMap && id !in s.timers
    ensures r.jobMap == s.jobMap[id := Pending] && r.running == s.running + {id}
    ensures r.scheduled == s.scheduled && r.timers == s.timers
    ensures r.timeouts == s.timeouts[id := s.timeOut] && r.completions == s.completions + {id}
    ensures Inv(s) ==> Inv(r)
  {
    s.(jobMap := s.jobMap[id := Pending],
       running := s.running + {id},
       completions := s.completions + {id},
       timeouts := s.timeouts[id := s.timeOut])
  }

  /**
   * The public `execute(job)`: a null job yields null and changes nothing.
   * The source draws its UUID only for a non-null job; `newId` is required
   * fresh in both cases, which a caller can always arrange, and is unused
   * when the job is null.
   */
  function ExecuteStep(s: Snapshot, job: Option<Runnable>, newId: JobId): (r: (Snapshot, Option<JobId>))
    requires Fresh(s, newId)
    ensures job.None? ==> r == (s, None)
    ensures job.Some? ==> r.1 == Some(newId) && newId in r.0.jobMap && r.0.jobMap[newId] == Pending
    ensures job.Some? ==> newId in r.0.running && StateOf(r.0, newId) == Running
    ensures job.Some? ==> r.0.scheduled == s.scheduled && r.0.jobMap.Keys == s.jobMap.Keys + {newId}
    ensures Inv(s) ==> Inv(r.0)
  {
    if job.None? then (s, None) else (Dispatch(s, newId), Some(newId))
  }

  /**
   * `scheduledExecution(job, time)`: a null job or a null tier yields null and
   * changes nothing; otherwise the fresh id goes into the scheduled set only
   * and a timer task is armed with the tier's delay.
   */
  function ScheduleStep(s: Snapshot, job: Option<Runnable>, time: Option<TimeFrame>, newId: JobId): (r: (Snapshot, Option<JobId>))
    requires Fresh(s, newId)
    ensures job.None? || time.None? ==> r == (s, None)
    ensures job.Some? && time.Some? ==> r.1 == Some(newId) && StateOf(r.0, newId) == Scheduled
    ensures job.Some? && time.Some? ==> r.0.scheduled == s.scheduled + {newId} && |r.0.scheduled| == |s.scheduled| + 1
    ensures job.Some? && time.Some? ==> r.0.timers == s.timers[newId := DelayMillis(time.value)]
    ensures r.0.jobMap == s.jobMap && r.0.running == s.running
    ensures Inv(s) ==> Inv(r.0)
  {
    if job.None? || time.None? then (s, None)
    else (s.(scheduled := s.scheduled + {newId}, timers := s.timers[newId := DelayMillis(time.value)]), Some(newId))
  }

  /**
   * `cancelJob(id)`: the scheduled set is consulted first (removal, report
   * true, the timer task stays armed); then the registry (cancel the handle
   * and report what the handle reports); an unknown id reports false.
   */
  function CancelStep(s: Snapshot, id: JobId): (r: (Snapshot, bool))
    ensures id in s.scheduled ==> r.1 && r.0 == s.(scheduled := s.scheduled - {id})
    ensures id !in s.scheduled && id in s.jobMap ==>
      && (r.1 <==> s.jobMap[id] == Pending)
      && r.0 == s.(jobMap := s.jobMap[id := CancelHandle(s.jobMap[id]).0])
    ensures id !in s.scheduled && id !in s.jobMap ==> r == (s, false)
    ensures r.0.jobMap.Keys == s.jobMap.Keys && r.0.running == s.running && r.0.timers == s.timers
    ensures Inv(s) ==> Inv(r.0)
    ensures Inv(s) && id in s.scheduled ==> StateOf(r.0, id) == NoSuchJob && id in r.0.timers
    ensures id !in s.scheduled && r.1 ==> StateOf(r.0, id) == Interrupted
  {
    if id in s.scheduled then (s.(scheduled := s.scheduled - {id}), true)
    else if id in s.jobMap then
      var (h, ok) := CancelHandle(s.jobMap[id]);
      (s.(jobMap := s.jobMap[id := h]), ok)
    else (s, false)
  }

  /** `setTimeOutMillisec`: stored as given, with no positivity check. */
  function SetTimeOutStep(s: Snapshot, ms: int): (r: Snapshot)
    ensures r.timeOut == ms && r == s.(timeOut := ms)
  {
    s.(timeOut := ms)
  }

  /** `setThreadsThreshold`: the new core size of the worker pool. */
  function SetThreadsStep(s: Snapshot, n: int): (r: Snapshot)
    ensures r.threads == n && r == s.(threads := n)
  {
    s.(threads := n)
  }

  // ---------------------------------------------------------------------
  // Background work, one atomic step each

  /**
   * The timer task body: remove the id from the scheduled set (a no-op if
   * it was cancelled meanwhile) and dispatch it under the same id.
   */
  function FireStep(s: Snapshot, id: JobId): (r: Snapshot)
    requires id in s.timers && id !in s.jobMap
    ensures id !in r.scheduled && id !in r.timers && r.scheduled == s.scheduled - {id}
    ensures id in r.jobMap && r.jobMap[id] == Pending && StateOf(r, id) == Running
    ensures r.jobMap.Keys == s.jobMap.Keys + {id}
    ensures Inv(s) ==> Inv(r)
  {
    Dispatch(s.(scheduled := s.scheduled - {id}, timers := s.timers - {id}), id)
  }

  /**
   * A worker completes the job (a handle cancelled before that stays
   * cancelled) and the drainer takes its completion signal, removing the id
   * from the running set unless the handle was cancelled.
   */
  function FinishStep(s: Snapshot, id: JobId): (r: Snapshot)
    requires id in s.completions && id in s.jobMap
    ensures id !in r.completions && r.jobMap.Keys == s.jobMap.Keys
    ensures s.jobMap[id] != Cancelled ==> r.jobMap == s.jobMap[id := Done] && r.running == s.running - {id}
    ensures s.jobMap[id] == Cancelled ==> r.jobMap == s.jobMap && r.running == s.running
    ensures r.scheduled == s.scheduled && r.timers == s.timers && r.timeouts == s.timeouts
    ensures Inv(s) ==> Inv(r)
  {
    if s.jobMap[id] == Cancelled then s.(completions := s.completions - {id})
    else s.(jobMap := s.jobMap[id := Done], running := s.running - {id}, completions := s.completions - {id})
  }

  /**
   * The timeout task body: remove the id from the running set, then cancel
   * the handle, which changes nothing if the job already completed.
   */
  function TimeoutStep(s: Snapshot, id: JobId): (r: Snapshot)
    requires id in s.timeouts && id in s.jobMap
    ensures id !in r.running && id !in r.timeouts && r.running == s.running - {id}
    ensures r.jobMap == s.jobMap[id := if s.jobMap[id] == Pending then Cancelled else s.jobMap[id]]
    ensures r.scheduled == s.scheduled && r.timers == s.timers && r.completions == s.completions
    ensures Inv(s) ==> Inv(r)
  {
    s.(running := s.running - {id},
       jobMap := s.jobMap[id := CancelHandle(s.jobMap[id]).0],
       timeouts := s.timeouts - {id})
  }
}
