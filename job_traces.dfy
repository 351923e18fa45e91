/**
 * Runs of the JobSystem state machine: any interleaving of caller
 * operations and background steps, and what holds along every such run.
 */
module JobTraces {
  import opened JobSpec

  /** One caller operation or one piece of background work. */
  datatype Event =
    | Submit(job: Option<Runnable>, newId: JobId)
    | Schedule(job: Option<Runnable>, time: Option<TimeFrame>, newId: JobId)
    | Cancel(id: JobId)
    | SetTimeOut(ms: int)
    | SetThreads(n: int)
    | TimerFires(id: JobId)
    | WorkerFinishes(id: JobId)
    | TimeoutFires(id: JobId)

  /**
   * When the environment can offer an event: a UUID draw is fresh, a timer
   * task fires only while it is armed, the drainer takes only a completion
   * signal that is there, a timeout task fires only while it is armed.
   */
  predicate Enabled(s: Snapshot, e: Event)
  {
    match e
    case Submit(_, newId) => Fresh(s, newId)
    case Schedule(_, _, newId) => Fresh(s, newId)
    case Cancel(_) => true
    case SetTimeOut(_) => true
    case SetThreads(_) => true
    case TimerFires(id) => id in s.timers && id !in s.jobMap
    case WorkerFinishes(id) => id in s.completions && id in s.jobMap
    case TimeoutFires(id) => id in s.timeouts && id in s.jobMap
  }

  /**
   * The effect of one event.  Every step keeps the invariant, never removes
   * a registry entry, and never changes a handle that is already done or
   * cancelled.
   */
  function Step(s: Snapshot, e: Event): (r: Snapshot)
    requires Enabled(s, e)
    ensures Inv(s) ==> Inv(r)
    ensures s.jobMap.Keys <= r.jobMap.Keys
    ensures forall id :: id in s.jobMap && s.jobMap[id] != Pending ==> r.jobMap[id] == s.jobMap[id]
  {
    match e
    case Submit(job, newId) => ExecuteStep(s, job, newId).0
    case Schedule(job, time, newId) => ScheduleStep(s, job, time, newId).0
    case Cancel(id) => CancelStep(s, id).0
    case SetTimeOut(ms) => SetTimeOutStep(s, ms)
    case SetThreads(n) => SetThreadsStep(s, n)
    case TimerFires(id) => FireStep(s, id)
    case WorkerFinishes(id) => FinishStep(s, id)
    case TimeoutFires(id) => TimeoutStep(s, id)
  }

  /** `evs` can happen, one event after another, from `s`. */
  predicate Trace(s: Snapshot, evs: seq<Event>)
    decreases |evs|
  {
    evs == [] || (Enabled(s, evs[0]) && Trace(Step(s, evs[0]), evs[1..]))
  }

  /** The state after the events `evs`, starting from `s`. */
  function Run(s: Snapshot, evs: seq<Event>): Snapshot
    requires Trace(s, evs)
    decreases |evs|
  {
    if evs == [] then s else Run(Step(s, evs[0]), evs[1..])
  }

  /** Every state reachable from one that satisfies the invariant satisfies it too. */
  lemma {:induction false} InvariantHoldsOnEveryTrace(s: Snapshot, evs: seq<Event>)
    requires Inv(s) && Trace(s, evs)
    ensures Inv(Run(s, evs))
    decreases |evs|
  {
    if evs != [] {
      InvariantHoldsOnEveryTrace(Step(s, evs[0]), evs[1..]);
    }
  }

  /** Every state the constructor can lead to satisfies the invariant. */
  lemma ConstructedSystemsKeepInvariant(threadsThreshold: int, timeOutMillisec: int, evs: seq<Event>)
    requires Init(threadsThreshold, timeOutMillisec).Some?
    requires Trace(Init(threadsThreshold, timeOutMillisec).value, evs)
    ensures Inv(Run(Init(threadsThreshold, timeOutMillisec).value, evs))
  {
    InvariantHoldsOnEveryTrace(Init(threadsThreshold, timeOutMillisec).value, evs);
  }

  /**
   * The registry is append-only: no entry is ever removed, and a handle
   * that is done or cancelled stays as it is.
   */
  lemma {:induction false} RegistryOnlyGrows(s: Snapshot, evs: seq<Event>)
    requires Trace(s, evs)
    ensures s.jobMap.Keys <= Run(s, evs).jobMap.Keys
    ensures forall id :: id in s.jobMap && s.jobMap[id] != Pending ==> Run(s, evs).jobMap[id] == s.jobMap[id]
    decreases |evs|
  {
    if evs != [] {
      RegistryOnlyGrows(Step(s, evs[0]), evs[1..]);
    }
  }

  /** A dispatched id is never again reported as "No such job". */
  lemma RegisteredIdNeverUnknown(s: Snapshot, evs: seq<Event>, id: JobId)
    requires Trace(s, evs) && id in s.jobMap
    ensures StateOf(Run(s, evs), id) != NoSuchJob
  {
    RegistryOnlyGrows(s, evs);
  }

  /** One step never moves a job out of "complete" or "interrupted". */
  lemma StepKeepsTerminalState(s: Snapshot, e: Event, id: JobId)
    requires Inv(s) && Enabled(s, e)
    requires StateOf(s, id) == Complete || StateOf(s, id) == Interrupted
    ensures StateOf(Step(s, e), id) == StateOf(s, id)
  {
  }

  /** "Complete" and "interrupted" are final: no later run changes them. */
  lemma {:induction false} TerminalStatesAreFinal(s: Snapshot, evs: seq<Event>, id: JobId)
    requires Inv(s) && Trace(s, evs)
    requires StateOf(s, id) == Complete || StateOf(s, id) == Interrupted
    ensures StateOf(Run(s, evs), id) == StateOf(s, id)
    decreases |evs|
  {
    if evs != [] {
      StepKeepsTerminalState(s, evs[0], id);
      TerminalStatesAreFinal(Step(s, evs[0]), evs[1..], id);
    }
  }

  /**
   * An id whose timer task is armed but which is no longer in the scheduled
   * set (a scheduled job that was cancelled) reads as "No such job" for as
   * long as its timer has not fired.
   */
  lemma {:induction false} UnknownUntilTimerFires(s: Snapshot, evs: seq<Event>, id: JobId)
    requires Inv(s) && Trace(s, evs)
    requires id in s.timers && id !in s.scheduled
    requires forall k :: 0 <= k < |evs| ==> evs[k] != TimerFires(id)
    ensures id in Run(s, evs).timers && StateOf(Run(s, evs), id) == NoSuchJob
    decreases |evs|
  {
    if evs != [] {
      var next := Step(s, evs[0]);
      assert id in next.timers && id !in next.scheduled;
      forall k | 0 <= k < |evs[1..]| ensures evs[1..][k] != TimerFires(id) {
        assert evs[1..][k] == evs[k + 1];
      }
      UnknownUntilTimerFires(next, evs[1..], id);
    }
  }

  /**
   * Every id the system has handed out keeps either an armed timer task or
   * a registry entry, so it is never lost between the two.
   */
  lemma {:induction false} IssuedIdsAreKept(s: Snapshot, evs: seq<Event>, id: JobId)
    requires Trace(s, evs)
    requires id in s.timers || id in s.jobMap
    ensures id in Run(s, evs).timers || id in Run(s, evs).jobMap
    decreases |evs|
  {
    if evs != [] {
      IssuedIdsAreKept(Step(s, evs[0]), evs[1..], id);
    }
  }
}
