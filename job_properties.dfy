/**
 * Properties of JobSystem that relate several calls: the decision order of
 * cancellation, the race between completion and timeout, and the resolver.
 */
module JobProperties {
  import opened JobSpec

  /**
   * Under the invariant the handle alone decides the state of a registered
   * id: the running set never changes the answer of the resolver.
   */
  lemma StateFollowsHandle(s: Snapshot, id: JobId)
    requires Inv(s)
    ensures StateOf(s, id) ==
      if id in s.scheduled then Scheduled
      else if id !in s.jobMap then NoSuchJob
      else match s.jobMap[id]
        case Pending => Running
        case Done => Complete
        case Cancelled => Interrupted
  {
  }

  /** A second cancellation of the same id, right after the first, always reports false. */
  lemma CancelTwiceFails(s: Snapshot, id: JobId)
    requires Inv(s)
    ensures !CancelStep(CancelStep(s, id).0, id).1
  {
  }

  /**
   * Cancelling a job that was dispatched and not cancelled before succeeds
   * exactly when it is still running; afterwards it reads as "interrupted"
   * if the cancellation succeeded and "complete" otherwise.
   */
  lemma CancelDispatchedJob(s: Snapshot, id: JobId)
    requires Inv(s)
    requires StateOf(s, id) == Running || StateOf(s, id) == Complete
    ensures CancelStep(s, id).1 <==> StateOf(s, id) == Running
    ensures StateOf(CancelStep(s, id).0, id) == if CancelStep(s, id).1 then Interrupted else Complete
  {
  }

  /**
   * Cancelling a scheduled job removes it from the scheduled set but leaves
   * its timer task armed: when the timer fires the job is dispatched after
   * all, under the same id.
   */
  lemma CancelledScheduledJobStillRuns(s: Snapshot, id: JobId)
    requires Inv(s) && id in s.scheduled
    ensures CancelStep(s, id).1
    ensures id in CancelStep(s, id).0.timers && id !in CancelStep(s, id).0.jobMap
    ensures StateOf(CancelStep(s, id).0, id) == NoSuchJob
    ensures StateOf(FireStep(CancelStep(s, id).0, id), id) == Running
  {
  }

  /**
   * Completion and timeout race for a running job.  Whichever order they
   * reach the handle in, the id leaves the running set; completion first
   * leaves the job complete, timeout first leaves it interrupted.  The
   * second removal is a no-op.
   */
  lemma FinishTimeoutRace(s: Snapshot, id: JobId)
    requires Inv(s) && id in s.jobMap && s.jobMap[id] == Pending
    ensures id in s.completions && id in s.timeouts
    ensures
      var finishFirst := TimeoutStep(FinishStep(s, id), id);
      var timeoutFirst := FinishStep(TimeoutStep(s, id), id);
      && finishFirst.running == timeoutFirst.running == s.running - {id}
      && TimeoutStep(FinishStep(s, id), id).running == FinishStep(s, id).running
      && StateOf(finishFirst, id) == Complete
      && StateOf(timeoutFirst, id) == Interrupted
  {
  }

  /**
   * A job cancelled by the caller while it runs reads as "interrupted" even
   * though the drainer has left it in the running set.
   */
  lemma InterruptedWhileInRunningSet(s: Snapshot, id: JobId)
    requires Inv(s) && StateOf(s, id) == Running
    ensures id in CancelStep(s, id).0.running && StateOf(CancelStep(s, id).0, id) == Interrupted
    ensures id in FinishStep(CancelStep(s, id).0, id).running
  {
  }
}
