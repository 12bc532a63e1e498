/** The status classifier: decides which handler a job-status response
    calls. */
module Classifier {
  import opened BatchTypes
  import opened Normalizer

  /** The three status tags the classifier recognises. */
  predicate IsKnownStatus(tag: string)
  {
    tag == "complete" || tag == "in_progress" || tag == "failed"
  }

  /** Classifies one status response of job `asyncJobId`. A completed job
      whose normalized entries include a failure is reported as a failed
      job; an unrecognised status tag calls no handler. The `Err` result is
      an exception thrown while normalizing. */
  function Classify(status: RawJobStatus, mode: JobMode, asyncJobId: string, uiJobId: string): (r: Result<Decision>)
    // every handler argument names this job, echoes the UI's id and repeats the status tag
    ensures r.Ok? && !r.value.Ignored? ==>
              r.value.result.jobId == asyncJobId && r.value.result.uiJobId == uiJobId &&
              r.value.result.tag == status.tag
    // in_progress, and only in_progress, is progress, reported as 'running'
    ensures (r.Ok? && r.value.Progressed?) <==> status.tag == "in_progress"
    ensures r.Ok? && r.value.Progressed? ==> r.value.result.status == "running"
    // complete with no failed item is completion, carrying the normalized entries unchanged
    ensures (r.Ok? && r.value.Completed?) <==>
              status.tag == "complete" && status.entries.Some? &&
              Normalize(status.entries.value, mode).Ok? && !AnyRawFailure(status.entries.value)
    ensures r.Ok? && r.value.Completed? ==>
              r.value.entries == Normalize(status.entries.value, mode).value &&
              r.value.result.status == "complete"
    // failed, or complete with at least one failed item, is a whole-job failure
    ensures (r.Ok? && r.value.Failed?) <==>
              status.tag == "failed" ||
              (status.tag == "complete" && status.entries.Some? &&
               Normalize(status.entries.value, mode).Ok? && AnyRawFailure(status.entries.value))
    ensures r.Ok? && r.value.Failed? ==> r.value.result.status == "failed"
    // only normalizing a completed job can throw
    ensures r.Err? <==>
              status.tag == "complete" &&
              (status.entries.None? || Normalize(status.entries.value, mode).Err?)
    // any other tag calls no handler
    ensures (r.Ok? && r.value.Ignored?) <==> !IsKnownStatus(status.tag)
  {
    if status.tag == "complete" then
      match status.entries
      case None => Err(MissingEntries)
      case Some(items) =>
        match Normalize(items, mode)
        case Err(e) => Err(e)
        case Ok(entries) =>
          NormalizedFailureIffRawFailure(items, mode);
          if !AnyFailure(entries) then
            Ok(Completed(JobResult(asyncJobId, status.tag, "complete", uiJobId), entries))
          else
            Ok(Failed(JobResult(asyncJobId, status.tag, "failed", uiJobId)))
    else if status.tag == "in_progress" then
      Ok(Progressed(JobResult(asyncJobId, status.tag, "running", uiJobId)))
    else if status.tag == "failed" then
      Ok(Failed(JobResult(asyncJobId, status.tag, "failed", uiJobId)))
    else
      Ok(Ignored)
  }
}
