/** Values exchanged by the batch-job poller: what the storage provider
    reports for a batch job, the uniform entries the poller derives from it,
    the callback argument handed to the per-outcome handlers, and the events
    published to subscribers. Tags stay strings because the poller compares
    them as strings. */
module BatchTypes {

  datatype Option<+T> = None | Some(value: T)

  /** Why a tick was abandoned: the remote status check failed, or a field
      the poller dereferences is absent and the dereference throws. */
  datatype TickError =
    | RemoteCallFailed
    | MissingEntries
    | MissingFailurePayload
    | MissingSuccessPayload

  datatype Result<+T> = Ok(value: T) | Err(error: TickError)

  /** The kind of batch operation a job polls for. */
  datatype JobMode = Copy | Move | Delete

  /** The data stored with a scheduled task. */
  datatype Job = Job(accessToken: string, asyncJobId: string, path: string, uiJobId: string)

  /** The provider's file or folder metadata, as far as the poller reads it;
      every field may be absent. */
  datatype RawMetadata = RawMetadata(
    id: Option<string>,
    name: Option<string>,
    pathLower: Option<string>,
    pathDisplay: Option<string>)

  /** The failure payload of a per-item entry; only its own tag is read,
      and that tag may be absent. */
  datatype RawFailure = RawFailure(tag: Option<string>)

  /** One per-item entry of a completed batch job. Relocation (copy, move)
      entries carry their result under `success`, delete entries under
      `metadata`; failed items carry `failure`. */
  datatype RawEntry = RawEntry(
    tag: string,
    failure: Option<RawFailure>,
    success: Option<RawMetadata>,
    metadata: Option<RawMetadata>)

  /** A job-status response; `entries` is present on a completed job. */
  datatype RawJobStatus = RawJobStatus(tag: string, entries: Option<seq<RawEntry>>)

  /** The metadata of a normalized successful entry. */
  datatype Metadata = Metadata(
    id: Option<string>,
    tag: string,
    name: Option<string>,
    pathLower: Option<string>,
    pathDisplay: Option<string>)

  /** A normalized entry: a failed item with its failure reason (absent
      when the failure payload has no tag), or an item with its metadata.
      Both carry a `tag`. */
  datatype Entry =
    | EntryError(tag: string, reason: Option<string>)
    | EntryOk(tag: string, metadata: Metadata)

  /** The argument handed to a handler. */
  datatype JobResult = JobResult(jobId: string, tag: string, status: string, uiJobId: string)

  /** Which handler a status response calls, if any. */
  datatype Decision =
    | Completed(result: JobResult, entries: seq<Entry>)
    | Progressed(result: JobResult)
    | Failed(result: JobResult)
    | Ignored

  /** A payload published on one of the three batch-work topics. */
  datatype Event =
    | BatchWorkRunning(jobId: string, tag: string, status: string, uiJobId: string)
    | BatchWorkComplete(jobId: string, tag: string, entries: seq<Entry>, status: string,
                        jobType: JobMode, uiJobId: string)
    | BatchWorkFailed(jobId: string, tag: string, status: string, uiJobId: string, jobType: JobMode)

  /** The topic each kind of event is published on. */
  function Topic(e: Event): (topic: string)
  {
    match e
    case BatchWorkRunning(_, _, _, _) => "dropbox_batch_work_running"
    case BatchWorkComplete(_, _, _, _, _, _) => "dropbox_batch_work_complete"
    case BatchWorkFailed(_, _, _, _, _) => "dropbox_batch_work_failed"
  }

  /** Complete and failed events end a job's stream. */
  predicate IsTerminal(e: Event)
  {
    !e.BatchWorkRunning?
  }
}
