# Batch-job poller, modelled in Dafny

This project models the server-side poller for the storage provider's
asynchronous batch operations (copy, move and delete of many files at once),
as written in `server/src/agendas/batchCheck.ts`. A scheduled task per job
checks the job's status on every tick. The poller then does three things:

- it normalizes the per-item entries of a completed job into one uniform
  shape;
- it classifies the status as progress, completion or failure, and reports a
  completed job with any failed item as a failed job;
- it publishes one event on the matching topic and, for a terminal outcome,
  cancels the job's task.

Any error during a tick cancels the task and publishes nothing.

Files, one module each:

- `batch_types.dfy` (`BatchTypes`): the provider's raw entries and statuses,
  normalized entries, handler arguments, decisions, events and their topics.
- `normalizer.dfy` (`Normalizer`): `transformEntries`, as `NormalizeEntry`
  and `Normalize`.
- `classifier.dfy` (`Classifier`): the `process` classifier, as `Classify`.
- `job_poller.dfy` (`JobPoller`): the endpoint dispatch by mode. It also
  holds the effect sequence of one tick (`Effects`), the state it acts on
  (`PollerState`: the set of scheduled task names and the log of published
  events), and the `Poller` class. That class holds the same two fields and
  has the methods `Tick`, `OnComplete`, `OnProgress`, `OnFailed`, `Publish`
  and `Cancel`.
- `discipline.dfy` (`Discipline`): runs of many ticks of one job, and what
  the poller promises over them.

What the model treats as parameters:

- The remote status check and its failures are a `Provider` value. It holds
  the reply each of the three endpoints would give on this tick. A reply is
  `Ok(status)` or `Err(RemoteCallFailed)`, and `Tick` reads the one for its
  mode.
- An exception thrown while reading an absent field of the provider's reply
  is an `Err` result:
  - a failure entry without its `failure` payload;
  - an entry not tagged `failure` without its `success` payload (copy, move)
    or its `metadata` payload (delete);
  - a completed status without `entries`.
- The scheduler's repeated firing of a task is `Discipline.Run`. It fires the
  task once per provider snapshot while the task's name is still scheduled.

Behaviour of the code worth noting:

- The topics are `dropbox_batch_work_running`, `dropbox_batch_work_complete`
  and `dropbox_batch_work_failed`.
- The running event carries no operation kind.
- The failed event always carries the operation kind (`job_type`), even when
  the failure comes from failed items.
- A terminal handler publishes first and cancels the task afterwards. It
  does not cancel before publishing.
- The code never checks whether a cancelled name was scheduled. Cancelling
  is removal from a set, which is the model's choice and not a promise of
  this code.

## Model

| member | source | states |
|---|---|---|
| Normalizer.NormalizeEntry | server/src/agendas/batchCheck.ts:71-96 | A failure entry becomes `EntryError("failure", <inner failure tag>)` in every mode; a failure payload without a tag gives an absent reason, which does not throw. Any other entry keeps its raw tag as both its outer tag and its metadata tag. Its id, name and paths come from `success` for copy and move, and from `metadata` for delete. An absent payload is the thrown error. A normalized entry is tagged `failure` exactly when its raw entry is. |
| Normalizer.Normalize | server/src/agendas/batchCheck.ts:69-98 | Succeeds exactly when every entry normalizes. It then gives one normalized entry per raw entry, in the same order. Otherwise its error is that of the first entry that throws. |
| Normalizer.NormalizedFailureIffRawFailure | server/src/agendas/batchCheck.ts:110 | The `some` check for a `failure` tag on the normalized entries holds exactly when some raw entry reports a failed item. |
| Normalizer.RelevantPayload | server/src/agendas/batchCheck.ts:79-85 | No contract; its body picks the payload a non-failure entry is read from: `success` for copy and move, `metadata` for delete. |
| Classifier.Classify | server/src/agendas/batchCheck.ts:107-143 | `in_progress`, and only it, gives progress with status `running`. `complete` with no failed raw item gives completion, with the normalized entries unchanged and status `complete`. `failed`, or `complete` with at least one failed item, gives failure with status `failed`. Only normalizing a completed job throws. Any other tag gives no decision. Every decision names `asyncJobId`, echoes `ui_job_id` and repeats the raw status tag. |
| JobPoller.Effects | server/src/agendas/batchCheck.ts:100-207 | One tick's ordered effects. `in_progress` publishes exactly one running event and cancels nothing. A completed job without failures publishes the complete event with the normalized entries and the mode, then cancels the task. A completed job with failures publishes a failed event whose tag is `complete`, then cancels. A failed job publishes a failed event, then cancels. A failed call or a thrown normalization only cancels the task `asyncJobId`. An unrecognised tag has no effect. A terminal event is always first and is followed by the cancellation. |
| JobPoller.EndpointFor | server/src/agendas/batchCheck.ts:145-160 | No contract; its body is the dispatch table: copy calls `filesCopyBatchCheckV2`, move calls `filesMoveBatchCheckV2`, delete calls `filesDeleteBatchCheck`. |
| JobPoller.HandlerEffects | server/src/agendas/batchCheck.ts:171-205 | No contract; its body lists each handler's effects in order. `onComplete` and `onFailed` publish their event and then cancel `job_id`. `onProgress` only publishes. No handler runs for an unrecognised tag. |
| JobPoller.StepUsesOwnEndpoint | server/src/agendas/batchCheck.ts:145-160 | A tick depends only on the reply of the status-check endpoint for its own mode. This follows from the definition of `Step`; which endpoint a mode calls is fixed by `EndpointFor`'s table. |
| JobPoller.Poller.Publish | server/src/agendas/batchCheck.ts:172-195 | Every `PubSub.publish` call (lines 172, 185 and 195): appends the event to the published log and leaves the task table unchanged. |
| JobPoller.Poller.Cancel | server/src/agendas/batchCheck.ts:162-204 | Every `agenda.cancel` call (lines 162, 182 and 204): removes the named task from the task table, keeps every other task and publishes nothing. |
| JobPoller.Poller.OnComplete | server/src/agendas/batchCheck.ts:171-183 | Publishes the complete event, on topic `dropbox_batch_work_complete`, with the entries, status, tag, mode and UI id. After that it cancels the task `job_id`. |
| JobPoller.Poller.OnProgress | server/src/agendas/batchCheck.ts:184-193 | Publishes the running event, on topic `dropbox_batch_work_running`, and leaves the task scheduled. |
| JobPoller.Poller.OnFailed | server/src/agendas/batchCheck.ts:194-205 | Publishes the failed event, on topic `dropbox_batch_work_failed`, with status `failed` and the mode. After that it cancels the task `job_id`. |
| JobPoller.Poller.Tick | server/src/agendas/batchCheck.ts:100-165 | The new task table and event log are exactly those that `Effects` gives for the reply of the mode's endpoint. |
| Discipline.StepShape | server/src/agendas/batchCheck.ts:100-207 | A tick appends at most one event, about the job and with its UI id. A terminal event comes with the job's cancellation. A running event leaves the task table alone. Other jobs' tasks are never touched. |
| Discipline.Run | server/src/agendas/batchCheck.ts:100-165 | No contract; its body fires the job's task once per provider snapshot while the task is still scheduled, and never again once it is cancelled. |
| Discipline.StepCancelsOnlyWithTerminal | server/src/agendas/batchCheck.ts:107-207 | A tick in which neither the status check fails nor normalizing throws removes the job's task only together with exactly one new event, which is terminal. |
| Discipline.RunDiscipline | server/src/agendas/batchCheck.ts:100-207 | Over any sequence of ticks, the job's new events are zero or more running events and then at most one terminal event. All of them are about the job. While its task is scheduled only running events have been published. After a terminal event the task is no longer scheduled. Earlier events and other tasks are unchanged. |
| Discipline.EndsWithTerminal | server/src/agendas/batchCheck.ts:100-207 | A run of a scheduled job in which no tick errs, and after which the task is gone, has published at least one event and ends with the job's terminal event. With `RunDiscipline`, such a run publishes exactly one terminal event. |
| Discipline.RunConcat | server/src/agendas/batchCheck.ts:100-165 | Ticking over two sequences in turn is the same as ticking over their concatenation. |
| Discipline.NothingAfterTerminal | server/src/agendas/batchCheck.ts:182-204 | Once a terminal event is published, further ticks publish nothing and change nothing. |
| Discipline.AbandonedWithoutTerminal | server/src/agendas/batchCheck.ts:161-164 | Any error during a tick abandons the job: a failed status check, or a missing `failure` payload, `success`/`metadata` payload or `entries` list that throws while normalizing. The tick cancels the task and publishes nothing, and later ticks publish nothing either. The job's stream then ends without a terminal event. |
| Discipline.CopyJobScenario | server/src/agendas/batchCheck.ts:100-183 | Copy job `J1` reports `in_progress` and then `complete` with one successful entry. This gives one running event, then one complete event with the normalized entry, and then the task is cancelled. |
| Discipline.DeleteJobScenario | server/src/agendas/batchCheck.ts:107-127 | Delete job `J2` completes with one successful and one failed entry. This gives a single job-level failed event, no complete event, and the cancelled task. |

## Left out

- The storage provider's client (`getClient`, lines 45-48) and the three
  status-check calls (lines 145-160). They are foreign network calls, so
  each becomes an abstract reply in `Provider`.
- The scheduler's internals: interval timing, persistence, admission of new
  tasks, and concurrent or overlapping ticks. The model represents the
  scheduler only as the set of scheduled task names. A cancellation takes
  effect immediately in the model, although the source does not wait for
  it.
- The publish/subscribe transport and its subscribers. The model represents
  it only as the appended event log.
- `ErrorLogger.log` (line 163): it is an out-of-band side effect with no
  observable state.
- Exceptions other than those listed above, such as a publish that throws.
- A raw entry with no `.tag` at all. The code treats it as a non-failure and
  gives it an outer tag and a metadata tag of `undefined` (lines 79-91). The
  model's `RawEntry.tag` is always a string, so it cannot express this entry.
- `content_hash` in the `entry` interface: the normalizer never fills it.
  The provider metadata's own kind tag is also left out, because the
  normalizer does not read it.
- The absent-handler checks (`onComplete && …`). The only configuration, the
  one built for each mode (lines 168-211), always supplies all three
  handlers.
- `ui/src/store.js` and `ui/src/notificationSub.js`: UI state and
  notification rendering, which are not part of this model.
