/** The per-tick poller and its handlers. Each tick checks a job's status
    with the endpoint for the job's mode, classifies the reply and lets the
    chosen handler publish an event and, for a terminal outcome, cancel the
    job's scheduled task. The scheduler's task table is the set of active
    task names and the publish/subscribe channel is the log of published
    events. */
module JobPoller {
  import opened BatchTypes
  import opened Normalizer
  import opened Classifier

  /** What a status check returns: a status, or a thrown error. */
  type Response = Result<RawJobStatus>

  /** The three status-check endpoints, one per mode. */
  datatype Endpoint = CopyBatchCheckV2 | MoveBatchCheckV2 | DeleteBatchCheck

  /** The replies the provider would give this tick, one per endpoint. */
  datatype Provider = Provider(copyCheck: Response, moveCheck: Response, deleteCheck: Response)

  /** The status-check endpoint each mode calls. */
  function EndpointFor(mode: JobMode): (ep: Endpoint)
  {
    match mode
    case Copy => CopyBatchCheckV2
    case Move => MoveBatchCheckV2
    case Delete => DeleteBatchCheck
  }

  /** The reply of one endpoint. */
  function Reply(p: Provider, ep: Endpoint): (r: Response)
  {
    match ep
    case CopyBatchCheckV2 => p.copyCheck
    case MoveBatchCheckV2 => p.moveCheck
    case DeleteBatchCheck => p.deleteCheck
  }

  /** An observable effect of a tick on the channel or the task table. */
  datatype Effect = Published(event: Event) | Cancelled(name: string)

  /** The effects of the handler a decision calls, in the order the handler
      performs them. */
  function HandlerEffects(d: Decision, mode: JobMode): (effs: seq<Effect>)
  {
    match d
    case Completed(r, entries) =>
      [Published(BatchWorkComplete(r.jobId, r.tag, entries, r.status, mode, r.uiJobId)), Cancelled(r.jobId)]
    case Progressed(r) =>
      [Published(BatchWorkRunning(r.jobId, r.tag, r.status, r.uiJobId))]
    case Failed(r) =>
      [Published(BatchWorkFailed(r.jobId, r.tag, "failed", r.uiJobId, mode)), Cancelled(r.jobId)]
    case Ignored => []
  }

  /** The effects of one tick of `job` in `mode`, given the reply of the
      endpoint for that mode. An error anywhere cancels the job's task and
      publishes nothing. */
  function Effects(job: Job, mode: JobMode, reply: Response): (effs: seq<Effect>)
    // every event names this job and echoes the UI's id
    ensures forall i :: 0 <= i < |effs| && effs[i].Published? ==>
              effs[i].event.jobId == job.asyncJobId && effs[i].event.uiJobId == job.uiJobId
    // every cancellation is of this job's task
    ensures forall i :: 0 <= i < |effs| && effs[i].Cancelled? ==> effs[i].name == job.asyncJobId
    // a terminal event is published first and the task is cancelled right after it
    ensures forall i :: 0 <= i < |effs| && effs[i].Published? && IsTerminal(effs[i].event) ==>
              i == 0 && effs == [effs[0], Cancelled(job.asyncJobId)]
    // in_progress: exactly one running event and no cancellation
    ensures (reply.Ok? && reply.value.tag == "in_progress") <==>
              effs == [Published(BatchWorkRunning(job.asyncJobId, "in_progress", "running", job.uiJobId))]
    // a failed call or a thrown normalization: cancellation and no event
    ensures (reply.Err? || Classify(reply.value, mode, job.asyncJobId, job.uiJobId).Err?) <==>
              effs == [Cancelled(job.asyncJobId)]
    // an unrecognised status tag: nothing at all
    ensures (reply.Ok? && !IsKnownStatus(reply.value.tag)) <==> effs == []
    // a completed job without failed items: the normalized entries, published as complete
    ensures reply.Ok? && reply.value.tag == "complete" && reply.value.entries.Some? &&
            Normalize(reply.value.entries.value, mode).Ok? && !AnyRawFailure(reply.value.entries.value) ==>
              effs == [Published(BatchWorkComplete(job.asyncJobId, "complete",
                                                   Normalize(reply.value.entries.value, mode).value,
                                                   "complete", mode, job.uiJobId)),
                       Cancelled(job.asyncJobId)]
    // a completed job with a failed item: a failed event whose tag is still 'complete'
    ensures reply.Ok? && reply.value.tag == "complete" && reply.value.entries.Some? &&
            Normalize(reply.value.entries.value, mode).Ok? && AnyRawFailure(reply.value.entries.value) ==>
              effs == [Published(BatchWorkFailed(job.asyncJobId, "complete", "failed", job.uiJobId, mode)),
                       Cancelled(job.asyncJobId)]
    // a failed job: a failed event
    ensures reply.Ok? && reply.value.tag == "failed" ==>
              effs == [Published(BatchWorkFailed(job.asyncJobId, "failed", "failed", job.uiJobId, mode)),
                       Cancelled(job.asyncJobId)]
  {
    match reply
    case Err(_) => [Cancelled(job.asyncJobId)]
    case Ok(status) =>
      match Classify(status, mode, job.asyncJobId, job.uiJobId)
      case Err(_) => [Cancelled(job.asyncJobId)]
      case Ok(d) => HandlerEffects(d, mode)
  }

  /** The task table and the channel's log. */
  datatype PollerState = PollerState(active: set<string>, events: seq<Event>)

  /** Performs effects: the published events are appended in order and the
      cancelled tasks are removed; no task is added. */
  function Apply(s: PollerState, effs: seq<Effect>): (t: PollerState)
  {
    PollerState(s.active - CancelledNames(effs), s.events + PublishedEvents(effs))
  }

  function PublishedEvents(effs: seq<Effect>): (evs: seq<Event>)
    decreases |effs|
  {
    if effs == [] then []
    else (if effs[0].Published? then [effs[0].event] else []) + PublishedEvents(effs[1..])
  }

  function CancelledNames(effs: seq<Effect>): (names: set<string>)
    decreases |effs|
  {
    if effs == [] then {}
    else (if effs[0].Cancelled? then {effs[0].name} else {}) + CancelledNames(effs[1..])
  }

  /** What the four shapes of a tick's effects do to the state. */
  lemma ApplyNothing(s: PollerState)
    ensures Apply(s, []) == s
  {
  }

  lemma ApplyPublish(s: PollerState, e: Event)
    ensures Apply(s, [Published(e)]) == PollerState(s.active, s.events + [e])
  {
    assert [Published(e)][1..] == [];
    assert PublishedEvents([Published(e)]) == [e];
    assert CancelledNames([Published(e)]) == {};
  }

  lemma ApplyCancel(s: PollerState, n: string)
    ensures Apply(s, [Cancelled(n)]) == PollerState(s.active - {n}, s.events)
  {
    assert [Cancelled(n)][1..] == [];
    assert PublishedEvents([Cancelled(n)]) == [];
    assert CancelledNames([Cancelled(n)]) == {n};
  }

  lemma ApplyPublishThenCancel(s: PollerState, e: Event, n: string)
    ensures Apply(s, [Published(e), Cancelled(n)]) == PollerState(s.active - {n}, s.events + [e])
  {
    assert [Published(e), Cancelled(n)][1..] == [Cancelled(n)];
    assert [Cancelled(n)][1..] == [];
    assert PublishedEvents([Cancelled(n)]) == [] && CancelledNames([Cancelled(n)]) == {n};
    assert PublishedEvents([Published(e), Cancelled(n)]) == [e];
    assert CancelledNames([Published(e), Cancelled(n)]) == {n};
  }

  /** The state after one tick of `job` in `mode`. */
  function Step(s: PollerState, job: Job, mode: JobMode, p: Provider): (t: PollerState)
  {
    Apply(s, Effects(job, mode, Reply(p, EndpointFor(mode))))
  }

  /** One tick looks only at the reply of the endpoint for its mode. */
  lemma StepUsesOwnEndpoint(s: PollerState, job: Job, mode: JobMode, p: Provider, q: Provider)
    requires Reply(p, EndpointFor(mode)) == Reply(q, EndpointFor(mode))
    ensures Step(s, job, mode, p) == Step(s, job, mode, q)
  {
  }

  /** The scheduler's task table together with the publish/subscribe
      channel, as seen by the poller. */
  class Poller {
    var active: set<string>
    var events: seq<Event>

    ghost function State(): (st: PollerState)
      reads this
    {
      PollerState(active, events)
    }

    constructor (scheduled: set<string>)
      ensures active == scheduled && events == []
    {
      active := scheduled;
      events := [];
    }

    /** Publishes an event on its topic. */
    method Publish(e: Event)
      modifies this
      ensures events == old(events) + [e]
      ensures active == old(active)
    {
      events := events + [e];
    }

    /** Cancels the task with the given name; other tasks stay scheduled. */
    method Cancel(name: string)
      modifies this
      ensures active == old(active) - {name}
      ensures events == old(events)
    {
      active := active - {name};
    }

    /** Publishes the complete event, then cancels the job's task. */
    method OnComplete(r: JobResult, entries: seq<Entry>, mode: JobMode)
      modifies this
      ensures events == old(events) + [BatchWorkComplete(r.jobId, r.tag, entries, r.status, mode, r.uiJobId)]
      ensures Topic(events[|events| - 1]) == "dropbox_batch_work_complete"
      ensures active == old(active) - {r.jobId}
    {
      Publish(BatchWorkComplete(r.jobId, r.tag, entries, r.status, mode, r.uiJobId));
      Cancel(r.jobId);
    }

    /** Publishes the running event; the task stays scheduled. */
    method OnProgress(r: JobResult)
      modifies this
      ensures events == old(events) + [BatchWorkRunning(r.jobId, r.tag, r.status, r.uiJobId)]
      ensures Topic(events[|events| - 1]) == "dropbox_batch_work_running"
      ensures active == old(active)
    {
      Publish(BatchWorkRunning(r.jobId, r.tag, r.status, r.uiJobId));
    }

    /** Publishes the failed event, then cancels the job's task. */
    method OnFailed(r: JobResult, mode: JobMode)
      modifies this
      ensures events == old(events) + [BatchWorkFailed(r.jobId, r.tag, "failed", r.uiJobId, mode)]
      ensures Topic(events[|events| - 1]) == "dropbox_batch_work_failed"
      ensures active == old(active) - {r.jobId}
    {
      Publish(BatchWorkFailed(r.jobId, r.tag, "failed", r.uiJobId, mode));
      Cancel(r.jobId);
    }

    /** One tick of `job` in `mode`: call the endpoint for the mode, classify
        the reply and run the handler; on any error cancel the job's task
        and publish nothing. */
    method Tick(job: Job, mode: JobMode, p: Provider)
      modifies this
      ensures State() == Step(old(State()), job, mode, p)
    {
      var reply := Reply(p, EndpointFor(mode));
      ghost var s := State();
      match reply
      case Err(_) =>
        ApplyCancel(s, job.asyncJobId);
        Cancel(job.asyncJobId);
      case Ok(status) =>
        var d := Classify(status, mode, job.asyncJobId, job.uiJobId);
        match d
        case Err(_) =>
          ApplyCancel(s, job.asyncJobId);
          Cancel(job.asyncJobId);
        case Ok(Completed(r, entries)) =>
          ApplyPublishThenCancel(s, BatchWorkComplete(r.jobId, r.tag, entries, r.status, mode, r.uiJobId), r.jobId);
          OnComplete(r, entries, mode);
        case Ok(Progressed(r)) =>
          ApplyPublish(s, BatchWorkRunning(r.jobId, r.tag, r.status, r.uiJobId));
          OnProgress(r);
        case Ok(Failed(r)) =>
          ApplyPublishThenCancel(s, BatchWorkFailed(r.jobId, r.tag, "failed", r.uiJobId, mode), r.jobId);
          OnFailed(r, mode);
        case Ok(Ignored) =>
          ApplyNothing(s);
    }
  }
}
