/** What the poller promises over a whole sequence of ticks of one job: the
    job's events are zero or more running events followed by at most one
    terminal event; the terminal event comes with the task's cancellation,
    and a run without errors that cancels the task ends with it; a cancelled
    task publishes nothing more. */
module Discipline {
  import opened BatchTypes
  import opened Normalizer
  import opened Classifier
  import opened JobPoller

  /** The scheduler fires the job's task once per provider snapshot in
      `ticks`, as long as the task is still scheduled; a cancelled task is
      never fired again. */
  function Run(s: PollerState, job: Job, mode: JobMode, ticks: seq<Provider>): (t: PollerState)
    decreases |ticks|
  {
    if ticks == [] || job.asyncJobId !in s.active then s
    else Run(Step(s, job, mode, ticks[0]), job, mode, ticks[1..])
  }

  /** Every event but the last is a running event. */
  predicate ProgressThenTerminal(evs: seq<Event>)
  {
    forall i :: 0 <= i < |evs| - 1 ==> evs[i].BatchWorkRunning?
  }

  /** Every event names the job and echoes its UI id. */
  predicate AllAbout(evs: seq<Event>, job: Job)
  {
    forall i :: 0 <= i < |evs| ==> evs[i].jobId == job.asyncJobId && evs[i].uiJobId == job.uiJobId
  }

  /** One tick appends at most one event, about the job; a terminal event
      comes with the cancellation of the job's task, a running event
      leaves the task table alone, and other jobs' tasks are never touched. */
  lemma StepShape(s: PollerState, job: Job, mode: JobMode, p: Provider)
    ensures var t := Step(s, job, mode, p);
            var added := t.events[|s.events|..];
            |s.events| <= |t.events| <= |s.events| + 1 && t.events == s.events + added &&
            (t.active == s.active || t.active == s.active - {job.asyncJobId}) &&
            AllAbout(added, job) &&
            (|added| == 1 && IsTerminal(added[0]) ==> t.active == s.active - {job.asyncJobId}) &&
            (|added| == 1 && added[0].BatchWorkRunning? ==> t.active == s.active)
  {
    var reply := Reply(p, EndpointFor(mode));
    var id := job.asyncJobId;
    if reply.Err? {
      ApplyCancel(s, id);
    } else {
      var status := reply.value;
      var d := Classify(status, mode, id, job.uiJobId);
      if d.Err? {
        ApplyCancel(s, id);
      } else if !IsKnownStatus(status.tag) {
        ApplyNothing(s);
      } else if status.tag == "in_progress" {
        ApplyPublish(s, BatchWorkRunning(id, "in_progress", "running", job.uiJobId));
      } else if status.tag == "failed" {
        ApplyPublishThenCancel(s, BatchWorkFailed(id, "failed", "failed", job.uiJobId, mode), id);
      } else if AnyRawFailure(status.entries.value) {
        ApplyPublishThenCancel(s, BatchWorkFailed(id, "complete", "failed", job.uiJobId, mode), id);
      } else {
        ApplyPublishThenCancel(s, BatchWorkComplete(id, "complete", Normalize(status.entries.value, mode).value,
                                                    "complete", mode, job.uiJobId), id);
      }
    }
  }

  /** The tick's status check failed, or normalizing its reply threw. */
  predicate TickErred(job: Job, mode: JobMode, p: Provider)
  {
    var r := Reply(p, EndpointFor(mode));
    r.Err? || Classify(r.value, mode, job.asyncJobId, job.uiJobId).Err?
  }

  /** A tick without an error removes the job's task only by a handler that
      has just published the job's terminal event. */
  lemma StepCancelsOnlyWithTerminal(s: PollerState, job: Job, mode: JobMode, p: Provider)
    requires job.asyncJobId in s.active
    requires !TickErred(job, mode, p)
    ensures var t := Step(s, job, mode, p);
            job.asyncJobId !in t.active ==>
              |t.events| == |s.events| + 1 && IsTerminal(t.events[|s.events|])
  {
    var id := job.asyncJobId;
    var status := Reply(p, EndpointFor(mode)).value;
    if !IsKnownStatus(status.tag) {
      ApplyNothing(s);
    } else if status.tag == "in_progress" {
      ApplyPublish(s, BatchWorkRunning(id, "in_progress", "running", job.uiJobId));
    } else if status.tag == "failed" {
      ApplyPublishThenCancel(s, BatchWorkFailed(id, "failed", "failed", job.uiJobId, mode), id);
    } else if AnyRawFailure(status.entries.value) {
      ApplyPublishThenCancel(s, BatchWorkFailed(id, "complete", "failed", job.uiJobId, mode), id);
    } else {
      ApplyPublishThenCancel(s, BatchWorkComplete(id, "complete", Normalize(status.entries.value, mode).value,
                                                  "complete", mode, job.uiJobId), id);
    }
  }

  /** At most one event followed by a well-formed stream is well formed,
      unless that one event was terminal and more followed. */
  lemma ConcatStreams(a: seq<Event>, b: seq<Event>, job: Job)
    requires |a| <= 1 && AllAbout(a, job) && AllAbout(b, job) && ProgressThenTerminal(b)
    requires |a| == 1 && IsTerminal(a[0]) ==> b == []
    ensures ProgressThenTerminal(a + b) && AllAbout(a + b, job)
  {
  }

  /** Over any number of ticks the job's new events are running events
      followed by at most one terminal event, all about this job; while the
      task is still scheduled no terminal event has been published, and
      after a terminal event the task is no longer scheduled. Earlier events
      and other jobs' tasks are untouched. */
  lemma {:induction false} RunDiscipline(s: PollerState, job: Job, mode: JobMode, ticks: seq<Provider>)
    ensures var t := Run(s, job, mode, ticks);
            |s.events| <= |t.events| &&
            var added := t.events[|s.events|..];
            t.events == s.events + added &&
            ProgressThenTerminal(added) && AllAbout(added, job) &&
            (t.active == s.active || t.active == s.active - {job.asyncJobId}) &&
            (job.asyncJobId in t.active ==> forall i :: 0 <= i < |added| ==> added[i].BatchWorkRunning?) &&
            (|added| > 0 && IsTerminal(added[|added| - 1]) ==> job.asyncJobId !in t.active)
    decreases |ticks|
  {
    var id := job.asyncJobId;
    if ticks == [] || id !in s.active {
      assert Run(s, job, mode, ticks) == s;
      assert s.events[|s.events|..] == [];
    } else {
      var s1 := Step(s, job, mode, ticks[0]);
      StepShape(s, job, mode, ticks[0]);
      var a := s1.events[|s.events|..];
      var t := Run(s1, job, mode, ticks[1..]);
      assert t == Run(s, job, mode, ticks);
      RunDiscipline(s1, job, mode, ticks[1..]);
      var b := t.events[|s1.events|..];
      if |a| == 1 && IsTerminal(a[0]) {
        // the tick published its terminal event and cancelled the task
        assert t == s1;
        assert b == [];
      }
      assert t.events == s.events + (a + b);
      assert t.events[|s.events|..] == a + b;
      ConcatStreams(a, b, job);
      if id in t.active && |a| == 1 {
        assert !IsTerminal(a[0]);
      }
      if |a + b| > 0 && IsTerminal((a + b)[|a + b| - 1]) && |b| == 0 {
        assert IsTerminal(a[0]);
      }
    }
  }

  /** The other half of the discipline: a run in which no tick errs and
      after which the job's task is gone ends with the job's terminal
      event. */
  lemma {:induction false} EndsWithTerminal(s: PollerState, job: Job, mode: JobMode, ticks: seq<Provider>)
    requires job.asyncJobId in s.active
    requires forall k :: 0 <= k < |ticks| ==> !TickErred(job, mode, ticks[k])
    ensures var t := Run(s, job, mode, ticks);
            job.asyncJobId !in t.active ==> |t.events| > |s.events| && IsTerminal(t.events[|t.events| - 1])
    decreases |ticks|
  {
    var id := job.asyncJobId;
    if ticks == [] {
      assert Run(s, job, mode, ticks) == s;
    } else {
      var s1 := Step(s, job, mode, ticks[0]);
      assert Run(s, job, mode, ticks) == Run(s1, job, mode, ticks[1..]);
      StepShape(s, job, mode, ticks[0]);
      StepCancelsOnlyWithTerminal(s, job, mode, ticks[0]);
      if id !in s1.active {
        assert Run(s1, job, mode, ticks[1..]) == s1;
      } else {
        forall k | 0 <= k < |ticks[1..]|
          ensures !TickErred(job, mode, ticks[1..][k])
        {
          assert ticks[1..][k] == ticks[k + 1];
        }
        EndsWithTerminal(s1, job, mode, ticks[1..]);
      }
    }
  }

  /** Firing the task over `first` and then over `rest` is firing it over
      both in one go. */
  lemma {:induction false} RunConcat(s: PollerState, job: Job, mode: JobMode, first: seq<Provider>, rest: seq<Provider>)
    ensures Run(s, job, mode, first + rest) == Run(Run(s, job, mode, first), job, mode, rest)
    decreases |first|
  {
    if first == [] {
      assert first + rest == rest;
    } else if job.asyncJobId !in s.active {
      assert Run(s, job, mode, first) == s;
      if rest != [] {
        assert (first + rest) != [];
      }
    } else {
      assert (first + rest)[0] == first[0];
      assert (first + rest)[1..] == first[1..] + rest;
      RunConcat(Step(s, job, mode, first[0]), job, mode, first[1..], rest);
    }
  }

  /** Once a terminal event has been published for the job, no further
      tick publishes anything or changes the task table. */
  lemma NothingAfterTerminal(s: PollerState, job: Job, mode: JobMode, first: seq<Provider>, rest: seq<Provider>)
    requires var t := Run(s, job, mode, first);
             |t.events| > |s.events| && IsTerminal(t.events[|t.events| - 1])
    ensures Run(s, job, mode, first + rest) == Run(s, job, mode, first)
  {
    RunDiscipline(s, job, mode, first);
    RunConcat(s, job, mode, first, rest);
  }

  /** Any error during a tick abandons the job: a failed status check, or
      an absent payload or entry list that throws while normalizing. The
      task is cancelled, no event is published, and no later tick publishes
      anything, so the job's stream ends without a terminal event. */
  lemma AbandonedWithoutTerminal(s: PollerState, job: Job, mode: JobMode, p: Provider, rest: seq<Provider>)
    requires job.asyncJobId in s.active
    requires TickErred(job, mode, p)
    ensures Run(s, job, mode, [p] + rest) == PollerState(s.active - {job.asyncJobId}, s.events)
  {
    ApplyCancel(s, job.asyncJobId);
    var s1 := Step(s, job, mode, p);
    assert s1 == PollerState(s.active - {job.asyncJobId}, s.events);
    assert ([p] + rest)[0] == p && ([p] + rest)[1..] == rest;
    assert Run(s1, job, mode, rest) == s1;
  }

  /** Job J1 copies one file: the first check reports it in progress, the
      second reports it complete with one successful entry. */
  lemma CopyJobScenario()
    ensures var job := Job("token", "J1", "/", "ui-1");
            var done := RawJobStatus("complete", Some([RawEntry("success", None,
                          Some(RawMetadata(Some("id1"), Some("a.txt"), Some("/a.txt"), None)), None)]));
            var first := Provider(Ok(RawJobStatus("in_progress", None)), Err(RemoteCallFailed), Err(RemoteCallFailed));
            var second := Provider(Ok(done), Err(RemoteCallFailed), Err(RemoteCallFailed));
            Run(PollerState({"J1"}, []), job, Copy, [first, second]) ==
            PollerState({}, [
              BatchWorkRunning("J1", "in_progress", "running", "ui-1"),
              BatchWorkComplete("J1", "complete",
                                [EntryOk("success", Metadata(Some("id1"), "success", Some("a.txt"), Some("/a.txt"), None))],
                                "complete", Copy, "ui-1")])
  {
    var job := Job("token", "J1", "/", "ui-1");
    var item := RawEntry("success", None, Some(RawMetadata(Some("id1"), Some("a.txt"), Some("/a.txt"), None)), None);
    var done := RawJobStatus("complete", Some([item]));
    var first := Provider(Ok(RawJobStatus("in_progress", None)), Err(RemoteCallFailed), Err(RemoteCallFailed));
    var second := Provider(Ok(done), Err(RemoteCallFailed), Err(RemoteCallFailed));
    var entry := EntryOk("success", Metadata(Some("id1"), "success", Some("a.txt"), Some("/a.txt"), None));
    var s0 := PollerState({"J1"}, []);
    var running := BatchWorkRunning("J1", "in_progress", "running", "ui-1");
    ApplyPublish(s0, running);
    var s1 := Step(s0, job, Copy, first);
    assert s1 == PollerState({"J1"}, [running]);
    assert NormalizeEntry(item, Copy) == Ok(entry);
    var r := Normalize([item], Copy);
    assert [item][0] == item;
    assert r.Ok? && |r.value| == 1 && r.value[0] == entry;
    assert r.value == [entry];
    assert !AnyRawFailure([item]);
    var complete := BatchWorkComplete("J1", "complete", [entry], "complete", Copy, "ui-1");
    ApplyPublishThenCancel(s1, complete, "J1");
    var s2 := Step(s1, job, Copy, second);
    assert s2 == PollerState({}, [running, complete]);
    assert [first, second][1..] == [second];
    assert Run(s1, job, Copy, [second]) == Run(s2, job, Copy, []);
  }

  /** Job J2 deletes two items and one of them fails: the job is reported
      as failed and no complete event is published. */
  lemma DeleteJobScenario()
    ensures var job := Job("token", "J2", "/", "ui-2");
            var done := RawJobStatus("complete", Some([
                          RawEntry("success", None, None, Some(RawMetadata(Some("id2"), None, None, None))),
                          RawEntry("failure", Some(RawFailure(Some("path_lookup"))), None, None)]));
            var p := Provider(Err(RemoteCallFailed), Err(RemoteCallFailed), Ok(done));
            Run(PollerState({"J2"}, []), job, Delete, [p]) ==
            PollerState({}, [BatchWorkFailed("J2", "complete", "failed", "ui-2", Delete)])
  {
  }
}
