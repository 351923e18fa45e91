/**
 * The JobSystem object of src/JobSystem.java: its fields updated in place by
 * the caller-facing methods and by the background steps, each method proved
 * against the matching step function of JobSpec.
 */
module JobSystems {
  import opened JobSpec

  class JobSystem {
    var scheduledJobs: set<JobId>
    var jobMap: map<JobId, Handle>
    var runningThreads: set<JobId>
    var timeOutMillisec: int
    /** The core size of the worker pool, which the source keeps inside the pool itself. */
    var threadsThreshold: int

    /** Timer tasks armed by scheduledExecution and not yet fired, with their delay. */
    ghost var timers: map<JobId, nat>
    /** Completion signals the drainer has not taken yet. */
    ghost var completions: set<JobId>
    /** Timeout tasks armed at dispatch and not yet fired, with their timeout. */
    ghost var timeoutTasks: map<JobId, int>

    ghost function Snap(): Snapshot
      reads this
    {
      Snapshot(scheduledJobs, jobMap, runningThreads, timers, completions, timeoutTasks,
               timeOutMillisec, threadsThreshold)
    }

    ghost predicate Valid()
      reads this
    {
      Inv(Snap())
    }

    /** The body of the Java constructor once both arguments have passed its check. */
    constructor (threadsThreshold: int, timeOutMillisec: int)
      requires threadsThreshold > 0 && timeOutMillisec > 0
      ensures Valid()
      ensures Snap() == Init(threadsThreshold, timeOutMillisec).value
    {
      this.runningThreads := {};
      this.jobMap := map[];
      this.scheduledJobs := {};
      this.timeOutMillisec := timeOutMillisec;
      this.threadsThreshold := threadsThreshold;
      this.timers := map[];
      this.completions := {};
      this.timeoutTasks := map[];
    }

    /**
     * `new JobSystem(threadsThreshold, timeOutMillisec)`: `None` stands for
     * the IllegalArgumentException on a non-positive argument.
     */
    static method Create(threadsThreshold: int, timeOutMillisec: int) returns (r: Option<JobSystem>)
      ensures r.None? <==> threadsThreshold <= 0 || timeOutMillisec <= 0
      ensures r.Some? ==> fresh(r.value) && r.value.Valid()
      ensures r.Some? ==> r.value.Snap() == Init(threadsThreshold, timeOutMillisec).value
      ensures r.Some? ==> r.value.GetTimeOutMillisec() == timeOutMillisec
    {
      if threadsThreshold <= 0 || timeOutMillisec <= 0 {
        return None;
      }
      var sys := new JobSystem(threadsThreshold, timeOutMillisec);
      return Some(sys);
    }

    /**
     * The private overload `execute(job, uniqueID)`: submit, arm the timeout
     * task, register the handle, mark the id running.
     */
    method Dispatch(job: Runnable, uniqueId: JobId)
      requires Valid() && uniqueId !in jobMap && uniqueId !in timers
      modifies this
      ensures Valid()
      ensures Snap() == JobSpec.Dispatch(old(Snap()), uniqueId)
    {
      completions := completions + {uniqueId};
      timeoutTasks := timeoutTasks[uniqueId := timeOutMillisec];
      jobMap := jobMap[uniqueId := Pending];
      runningThreads := runningThreads + {uniqueId};
    }

    /**
     * `execute(job)`; `newId` is the UUID the source draws, fresh to the
     * system.  A null job yields null and changes nothing; the source draws
     * no UUID then, and `newId` goes unused.
     */
    method Execute(job: Option<Runnable>, newId: JobId) returns (r: Option<JobId>)
      requires Valid() && Fresh(Snap(), newId)
      modifies this
      ensures Valid()
      ensures (Snap(), r) == ExecuteStep(old(Snap()), job, newId)
      ensures job.None? ==> r.None? && Snap() == old(Snap())
      ensures job.Some? ==> r == Some(newId) && GetJobState(newId) == Running
    {
      if job.None? {
        return None;
      }
      Dispatch(job.value, newId);
      return Some(newId);
    }

    /**
     * `scheduledExecution(job, time)`; `newId` is the UUID the source draws.
     * A null job or a null tier yields null and changes nothing.
     */
    method ScheduledExecution(job: Option<Runnable>, time: Option<TimeFrame>, newId: JobId) returns (r: Option<JobId>)
      requires Valid() && Fresh(Snap(), newId)
      modifies this
      ensures Valid()
      ensures (Snap(), r) == ScheduleStep(old(Snap()), job, time, newId)
      ensures job.None? || time.None? ==> r.None? && Snap() == old(Snap())
      ensures job.Some? && time.Some? ==>
        && r == Some(newId) && GetJobState(newId) == Scheduled
        && GetNumOfScheduledJobs() == old(GetNumOfScheduledJobs()) + 1
    {
      if job.None? || time.None? {
        return None;
      }
      scheduledJobs := scheduledJobs + {newId};
      timers := timers[newId := DelayMillis(time.value)];
      return Some(newId);
    }

    /**
     * The timer task of a scheduled job fires: the id leaves the scheduled
     * set and is dispatched under the same id.  The task fires also when the
     * job was cancelled while scheduled, since cancelJob does not cancel it.
     */
    method FireScheduled(id: JobId)
      requires Valid() && id in timers
      modifies this
      ensures Valid()
      ensures Snap() == FireStep(old(Snap()), id)
      ensures GetJobState(id) == Running
    {
      scheduledJobs := scheduledJobs - {id};
      timers := timers - {id};
      Dispatch(Work, id);
    }

    /**
     * A worker completes the job, then the drainer takes its completion
     * signal: the id leaves the running set unless the handle was cancelled.
     */
    method Finish(id: JobId)
      requires Valid() && id in completions
      modifies this
      ensures Valid()
      ensures Snap() == FinishStep(old(Snap()), id)
    {
      completions := completions - {id};
      if jobMap[id] == Pending {
        jobMap := jobMap[id := Done];
      }
      if jobMap[id] != Cancelled {
        runningThreads := runningThreads - {id};
      }
    }

    /**
     * The timeout task of a dispatched job fires: the id leaves the running
     * set and the handle is cancelled, a no-op on a completed job.
     */
    method TimeoutFire(id: JobId)
      requires Valid() && id in timeoutTasks
      modifies this
      ensures Valid()
      ensures Snap() == TimeoutStep(old(Snap()), id)
    {
      timeoutTasks := timeoutTasks - {id};
      runningThreads := runningThreads - {id};
      var (h, _) := CancelHandle(jobMap[id]);
      jobMap := jobMap[id := h];
    }

    /**
     * `cancelJob(id)`: the scheduled set first, then the registry; an
     * unknown id reports false.
     */
    method CancelJob(id: JobId) returns (ok: bool)
      requires Valid()
      modifies this
      ensures Valid()
      ensures (Snap(), ok) == CancelStep(old(Snap()), id)
      ensures old(id in scheduledJobs) ==> ok && GetJobState(id) == NoSuchJob
      ensures old(id !in scheduledJobs && id !in jobMap) ==> !ok && Snap() == old(Snap())
    {
      if id in scheduledJobs {
        scheduledJobs := scheduledJobs - {id};
        return true;
      }
      if id in jobMap {
        var (h, cancelled) := CancelHandle(jobMap[id]);
        jobMap := jobMap[id := h];
        return cancelled;
      }
      return false;
    }

    /** `setTimeOutMillisec`: takes effect for jobs dispatched afterwards; no positivity check. */
    method SetTimeOutMillisec(ms: int)
      requires Valid()
      modifies this
      ensures Valid()
      ensures Snap() == SetTimeOutStep(old(Snap()), ms)
      ensures GetTimeOutMillisec() == ms
    {
      timeOutMillisec := ms;
    }

    /** `setThreadsThreshold`: the new core size of the worker pool. */
    method SetThreadsThreshold(n: int)
      requires Valid()
      modifies this
      ensures Valid()
      ensures Snap() == SetThreadsStep(old(Snap()), n)
      ensures GetThreadsThreshold() == n
    {
      threadsThreshold := n;
    }

    function GetThreadsThreshold(): int
      reads this
    {
      threadsThreshold
    }

    function GetTimeOutMillisec(): int
      reads this
    {
      timeOutMillisec
    }

    function GetNumOfScheduledJobs(): nat
      reads this
    {
      |scheduledJobs|
    }

    function GetNumberOfRunningThreads(): nat
      reads this
    {
      |runningThreads|
    }

    /**
     * `getJobState(id)`, as a state rather than as its message string.  On a
     * valid object the handle alone decides the state of a registered id.
     */
    function GetJobState(id: JobId): (st: JobState)
      reads this
      ensures st == Scheduled <==> id in scheduledJobs
      ensures st == NoSuchJob <==> id !in scheduledJobs && id !in jobMap
      ensures Valid() && id !in scheduledJobs && id in jobMap ==>
        && (st == Running <==> jobMap[id] == Pending)
        && (st == Complete <==> jobMap[id] == Done)
        && (st == Interrupted <==> jobMap[id] == Cancelled)
    {
      Resolve(scheduledJobs, jobMap, runningThreads, id)
    }

    /** `getJobState(id)` as the source returns it: the message of the state. */
    function GetJobStateMessage(id: JobId): (m: string)
      reads this
      ensures ParseMessage(m) == Some(GetJobState(id))
    {
      Message(GetJobState(id))
    }
  }

  /**
   * What a caller can conclude from the contracts alone, following the
   * scenarios of src/JobSystemTest.java with the timing replaced by
   * explicit background steps.
   */
  method TimeoutScenario()
  {
    var sys := new JobSystem(10, 1000);
    // A job that outlives its timeout is interrupted.
    var a := sys.Execute(Some(Work), "a");
    assert a == Some("a") && sys.GetJobState("a") == Running;
    sys.TimeoutFire("a");
    assert sys.GetJobState("a") == Interrupted && sys.GetNumberOfRunningThreads() == 0;
    sys.Finish("a");
    assert sys.GetJobState("a") == Interrupted;
  }

  method CompletionScenario()
  {
    var sys := new JobSystem(10, 1000);
    // A job that finishes in time is complete, and its late timeout changes nothing.
    var b := sys.Execute(Some(Work), "b");
    sys.Finish("b");
    assert sys.GetJobState("b") == Complete;
    sys.TimeoutFire("b");
    assert sys.GetJobState("b") == Complete;
    assert sys.GetJobState("b1") == NoSuchJob;
  }

  method BadInputScenario()
  {
    var r := JobSystem.Create(0, 1000);
    assert r.None?;
    var sys := new JobSystem(10, 1000);
    var none1 := sys.ScheduledExecution(None, Some(OneHour), "c");
    var none2 := sys.Execute(None, "c");
    var none3 := sys.ScheduledExecution(Some(Work), None, "c");
    assert none1.None? && none2.None? && none3.None?;
    assert sys.GetNumOfScheduledJobs() == 0 && sys.GetNumberOfRunningThreads() == 0;
  }

  method ScheduledCancelScenario()
  {
    var sys := new JobSystem(10, 1000);
    // A scheduled job; cancelling it succeeds once, yet its timer still dispatches it.
    var d := sys.ScheduledExecution(Some(Work), Some(OneHour), "d");
    assert sys.GetJobState("d") == Scheduled && sys.GetNumOfScheduledJobs() == 1;
    var ok1 := sys.CancelJob("d");
    assert ok1 && sys.GetJobState("d") == NoSuchJob;
    var ok2 := sys.CancelJob("d");
    assert !ok2;
    sys.FireScheduled("d");
    assert sys.GetJobState("d") == Running;
    // A cancelled job reads as interrupted while still in the running set.
    var ok3 := sys.CancelJob("d");
    assert ok3 && sys.GetNumberOfRunningThreads() == 1 && sys.GetJobState("d") == Interrupted;
  }

  /**
   * Ten jobs executed make ten running, ten jobs scheduled make ten
   * scheduled.  The ids are two characters: a letter for the kind of job
   * and a digit for its number.
   */
  method ThreadCountScenario()
  {
    var sys := new JobSystem(10, 1000);
    var i := 0;
    while i < 10
      invariant 0 <= i <= 10
      invariant sys.Valid()
      invariant sys.scheduledJobs == {} && sys.timers == map[]
      invariant sys.runningThreads == sys.jobMap.Keys && |sys.runningThreads| == i
      invariant forall id :: id in sys.jobMap ==> |id| == 2 && id[0] == 'r' && id[1] as int < 48 + i
    {
      var _ := sys.Execute(Some(Work), ['r', (48 + i) as char]);
      i := i + 1;
    }
    assert sys.GetNumberOfRunningThreads() == 10;

    i := 0;
    while i < 10
      invariant 0 <= i <= 10
      invariant sys.Valid()
      invariant |sys.runningThreads| == 10 && sys.runningThreads == sys.jobMap.Keys
      invariant forall id :: id in sys.jobMap ==> |id| == 2 && id[0] == 'r'
      invariant sys.timers.Keys == sys.scheduledJobs && |sys.scheduledJobs| == i
      invariant forall id :: id in sys.timers ==> |id| == 2 && id[0] == 's' && id[1] as int < 48 + i
    {
      var _ := sys.ScheduledExecution(Some(Work), Some(OneHour), ['s', (48 + i) as char]);
      i := i + 1;
    }
    assert sys.GetNumOfScheduledJobs() == 10;
  }

  method PoolSizeScenario()
  {
    var r := JobSystem.Create(10, 1000);
    assert r.Some?;
    var sys := r.value;
    assert sys.GetThreadsThreshold() == 10 && sys.GetTimeOutMillisec() == 1000;
    sys.SetThreadsThreshold(20);
    assert sys.GetThreadsThreshold() == 20;
  }
}
