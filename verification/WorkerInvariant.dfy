/** Every step of every run keeps the invariant. */
module WorkerInvariant {
  import opened Options
  import opened QueueState
  import opened Worker

  // ---- Order ----

  lemma WithoutSnoc(s: seq<JobId>, x: JobId, gone: set<JobId>)
    ensures Without(s + [x], gone) == if x in gone then Without(s, gone) else Without(s, gone) + [x]
  {
    assert (s + [x])[..|s|] == s;
  }

  lemma Regroup(a: seq<JobId>, b: seq<JobId>, x: JobId)
    ensures a + (b + [x]) == a + b + [x]
  {
  }

  lemma {:induction false} WithoutConcat(a: seq<JobId>, b: seq<JobId>, gone: set<JobId>)
    ensures Without(a + b, gone) == Without(a, gone) + Without(b, gone)
    decreases |b|
  {
    if b == [] {
      assert a + b == a;
    } else {
      var c, x := b[..|b| - 1], b[|b| - 1];
      assert (a + b)[..|a + b| - 1] == a + c;
      WithoutConcat(a, c, gone);
      Regroup(Without(a, gone), Without(c, gone), x);
    }
  }

  lemma {:induction false} WithoutTwice(s: seq<JobId>, a: set<JobId>, b: set<JobId>)
    ensures Without(s, a + b) == Without(Without(s, a), b)
  {
    if s != [] {
      var n := |s| - 1;
      var front, x := s[..n], s[n];
      assert s == front + [x];
      WithoutTwice(front, a, b);
      WithoutSnoc(front, x, a);
      WithoutSnoc(front, x, a + b);
      WithoutSnoc(Without(front, a), x, b);
    }
  }

  lemma {:induction false} WithoutAbsent(s: seq<JobId>, gone: set<JobId>)
    requires forall id :: id in s ==> id !in gone
    ensures Without(s, gone) == s
  {
    if s != [] {
      var n := |s| - 1;
      assert s == s[..n] + [s[n]];
      WithoutAbsent(s[..n], gone);
    }
  }

  lemma SubmitInOrder(s: Sys, id: JobId)
    requires InOrder(s) && id !in s.submitted
    ensures NoDup(s.submitted + [id])
    ensures s.started + (s.q.queue + [id]) == Without(s.submitted + [id], s.cancelled)
  {
    assert (s.submitted + [id])[..|s.submitted|] == s.submitted;
  }

  lemma CancelInOrder(s: Sys, id: JobId)
    requires InOrder(s) && id in s.q.queue
    ensures s.started + Without(s.q.queue, {id}) == Without(s.submitted, s.cancelled + {id})
  {
    StartedNotQueued(s);
    WithoutTwice(s.submitted, s.cancelled, {id});
    WithoutConcat(s.started, s.q.queue, {id});
    WithoutAbsent(s.started, {id});
  }

  lemma TakeInOrder(s: Sys, t: Sys)
    requires InOrder(s) && s.q.queue != []
    requires t.started == s.started + [s.q.queue[0]] && t.q.queue == s.q.queue[1..] && t.q.jobs.Keys == s.q.jobs.Keys
    requires t.submitted == s.submitted && t.cancelled == s.cancelled
    ensures InOrder(t)
  {
    assert t.started + t.q.queue == s.started + s.q.queue;
  }

  lemma StartedWereSubmitted(s: Sys)
    requires InOrder(s)
    ensures forall id :: id in s.started || id in s.q.queue ==> id in s.submitted && id !in s.cancelled
  {
    forall id | id in s.started || id in s.q.queue ensures id in s.submitted && id !in s.cancelled {
      assert id in s.started + s.q.queue;
    }
  }

  lemma StartedNotQueued(s: Sys)
    requires InOrder(s)
    ensures forall id :: id in s.started ==> id !in s.q.queue
  {
    var a, b := s.started, s.q.queue;
    forall i, j | 0 <= i < |a| && 0 <= j < |b| ensures a[i] != b[j] {
      assert (a + b)[i] != (a + b)[|a| + j];
    }
  }

  // ---- Queue operations and the running job ----

  /** The same running job and the same waiting ones. */
  lemma StillOneRunning(q: Queue, p: Queue)
    requires OneRunning(q) && p.current == q.current
    requires forall x :: p.Has(x, Running) <==> q.Has(x, Running)
    ensures OneRunning(p)
  {
    forall x ensures p.Has(x, Running) <==> p.current == Some(x) {
      assert q.Has(x, Running) <==> q.current == Some(x);
    }
  }

  /** `p` is `q` with one more job, perhaps without some finished ones. */
  ghost predicate Adds(q: Queue, p: Queue, id: JobId, job: Job) {
    && (forall x :: x in p.jobs ==> if x == id then p.jobs[x] == job else x in q.jobs && p.jobs[x] == q.jobs[x])
    && (forall x :: x in q.jobs && q.jobs[x].Active() ==> x in p.jobs)
  }

  /** Submission adds the job, and may drop finished ones. */
  lemma SubmitChanges(q: Queue, id: JobId, job: Job, max: nat)
    requires Inv(q) && id !in q.jobs && job.status == Pending
    ensures var p := QueueState.Submit(q, id, job, max);
            && Inv(p) && (OneRunning(q) ==> OneRunning(p))
            && p.queue == q.queue + [id] && p.current == q.current
            && Adds(q, p, id, job)
  {
    AppendKeepsExactlyWhen(q, id, job);
    var a, p := Append(q, id, job), QueueState.Submit(q, id, job, max);
    CleanupKeeps(a, max);
    forall x | x in q.jobs ensures a.jobs[x] == q.jobs[x] {
    }
    if OneRunning(q) {
      StillOneRunning(q, p);
    }
  }

  lemma TakeFacts(q: Queue)
    requires Inv(q) && OneRunning(q) && q.queue != [] && q.current.None?
    ensures q.Has(q.queue[0], Pending)
    ensures var p := Take(q);
            && Inv(p) && OneRunning(p) && p.current == Some(q.queue[0]) && q.queue == [q.queue[0]] + p.queue
            && p.jobs.Keys == q.jobs.Keys
            && (forall x :: x in q.jobs ==> SameRequest(p.jobs[x], q.jobs[x]))
            && (forall x :: p.Has(x, Cancelled) ==> q.Has(x, Cancelled))
  {
    assert q.queue[0] in q.queue;
    TakeKeeps(q);
    var p := Take(q);
    forall x ensures p.Has(x, Running) <==> p.current == Some(x) {
      assert q.Has(x, Running) <==> q.current == Some(x);
    }
  }

  lemma CancelFacts(q: Queue, id: JobId)
    requires Inv(q) && OneRunning(q)
    ensures var p := QueueState.Cancel(q, id);
            && Inv(p) && OneRunning(p) && p.current == q.current && p.jobs.Keys == q.jobs.Keys
            && (forall x :: x in q.jobs && (x != id || q.jobs[x].status != Pending) ==> p.jobs[x] == q.jobs[x])
            && (forall x :: x in q.jobs ==> SameRequest(p.jobs[x], q.jobs[x]))
  {
    CancelKeeps(q, id);
    StillOneRunning(q, QueueState.Cancel(q, id));
  }

  lemma FinishStillOneRunning(q: Queue, id: JobId, outcome: Outcome)
    requires OneRunning(q)
    ensures OneRunning(ReportTo(q, id, outcome)) && ReportTo(q, id, outcome).current == Release(q.current, id)
  {
    var p := ReportTo(q, id, outcome);
    assert q.Has(id, Running) <==> q.current == Some(id);
    forall x ensures p.Has(x, Running) <==> p.current == Some(x) {
      assert q.Has(x, Running) <==> q.current == Some(x);
    }
  }

  /** Completing or failing a job that is not waiting. */
  lemma FinishFacts(q: Queue, id: JobId, outcome: Outcome)
    requires Inv(q) && !q.Has(id, Pending)
    ensures var p := ReportTo(q, id, outcome);
            && Inv(p) && p.queue == q.queue && p.jobs.Keys == q.jobs.Keys
            && (forall x :: x in q.jobs && x != id ==> p.jobs[x] == q.jobs[x])
            && (id in q.jobs && (outcome.Ok? || q.jobs[id].status == Completed) ==> p.jobs[id].status == Completed)
            && (forall x :: x in q.jobs ==> SameRequest(p.jobs[x], q.jobs[x]))
            && (forall x :: p.Has(x, Cancelled) ==> q.Has(x, Cancelled))
  {
    var result := if outcome.Ok? then outcome.result else JobResult(0, false, false, 0.0, None, "");
    FinishKeepsExactlyWhen(q, id, result, if outcome.Err? then outcome.error else "");
  }

  /** Whoever holds the queue's attention still does, or has been completed. */
  lemma CompletedKeepsHeld(q: Queue, id: JobId, result: JobResult, x: JobId)
    requires Inv(q) && OneRunning(q) && !q.Has(id, Pending) && Held(q, x)
    ensures Held(Complete(q, id, result), x)
  {
    FinishFacts(q, id, Ok(result));
    FinishStillOneRunning(q, id, Ok(result));
  }

  lemma ProgressFacts(q: Queue, id: JobId, value: real)
    requires Inv(q) && OneRunning(q)
    ensures var p := Progress(q, id, value);
            && Inv(p) && OneRunning(p) && p.current == q.current && p.queue == q.queue && p.jobs.Keys == q.jobs.Keys
            && (forall x :: x in q.jobs ==> p.jobs[x].status == q.jobs[x].status && p.jobs[x].result == q.jobs[x].result
                                            && SameRequest(p.jobs[x], q.jobs[x]))
            && (forall x :: p.Has(x, Cancelled) ==> q.Has(x, Cancelled))
  {
    ProgressKeeps(q, id, value);
    StillOneRunning(q, Progress(q, id, value));
  }

  lemma StartedNotWaiting(s: Sys)
    requires Inv(s.q) && InOrder(s)
    ensures forall id :: id in s.started ==> !s.q.Has(id, Pending)
  {
    StartedNotQueued(s);
  }

  // ---- Steps ----

  /** Readers are untouched, started jobs stay started and jobs keep their paths. */
  lemma ReadersKept(s: Sys, t: Sys)
    requires t.readers == s.readers && forall id :: id in s.readers ==> ReaderOk(s, id)
    requires forall id :: id in s.started ==> id in t.started
    requires forall id :: id in t.q.jobs && id in s.started ==>
                            id in s.q.jobs && t.q.jobs[id].outputPath == s.q.jobs[id].outputPath
    ensures forall id :: id in t.readers ==> ReaderOk(t, id)
  {
    forall id | id in t.readers ensures ReaderOk(t, id) {
      assert ReaderOk(s, id);
    }
  }

  /** `t` is `s` after the submission of a fresh job. */
  ghost predicate Submitted(s: Sys, t: Sys, id: JobId, job: Job) {
    && id !in s.submitted && job.status == Pending
    && t == s.(q := t.q, submitted := s.submitted + [id])
    && Inv(t.q) && OneRunning(t.q) && t.q.queue == s.q.queue + [id] && t.q.current == s.q.current
    && Adds(s.q, t.q, id, job)
  }

  lemma SubmittedInOrder(s: Sys, t: Sys, id: JobId, job: Job)
    requires InOrder(s) && Submitted(s, t, id, job)
    ensures InOrder(t)
  {
    SubmitInOrder(s, id);
    forall x | x in t.q.jobs || x in t.cancelled ensures x in t.submitted {
      assert x == id || x in s.submitted;
    }
  }

  lemma SubmittedInPhase(s: Sys, t: Sys, id: JobId, job: Job)
    requires RunInv(s) && Submitted(s, t, id, job) && id !in s.started
    ensures PhaseOk(t) && IdsOk(t) && JobOk(t)
  {
    forall x | t.q.Has(x, Cancelled) ensures x in t.cancelled {
      assert s.q.Has(x, Cancelled);
    }
  }

  lemma SubmittedInv(s: Sys, t: Sys, id: JobId, job: Job)
    requires RunInv(s) && Submitted(s, t, id, job)
    ensures RunInv(t)
  {
    StartedWereSubmitted(s);
    assert id !in s.started;
    SubmittedInOrder(s, t, id, job);
    SubmittedInPhase(s, t, id, job);
    ReadersKept(s, t);
  }

  lemma SubmitStep(s: Sys, step: Step, max: nat)
    requires RunInv(s) && step.Submit? && Enabled(s, step)
    ensures RunInv(Next(s, step, max))
  {
    var job := NewJob(step.cmd, step.outputPath, step.submittedAt);
    SubmitChanges(s.q, step.id, job, max);
    SubmittedInv(s, Next(s, step, max), step.id, job);
  }

  lemma CancelStep(s: Sys, step: Step, max: nat)
    requires RunInv(s) && step.Cancel?
    ensures RunInv(Next(s, step, max))
  {
    var id, t := step.id, Next(s, step, max);
    CancelFacts(s.q, id);
    assert id in s.q.queue <==> s.q.Has(id, Pending);
    if s.q.Has(id, Pending) {
      CancelInOrder(s, id);
    } else {
      assert s.cancelled + {} == s.cancelled;
    }
    forall x | t.q.Has(x, Cancelled) ensures x in t.cancelled {
      assert x != id ==> s.q.Has(x, Cancelled);
    }
    StartedNotWaiting(s);
    ReadersKept(s, t);
  }

  lemma GetNextStep(s: Sys, step: Step, max: nat)
    requires RunInv(s) && step.GetNext? && Enabled(s, step)
    ensures RunInv(Next(s, step, max))
  {
    if step.woken && s.q.queue != [] {
      TakeFacts(s.q);
      var t := Next(s, step, max);
      TakeInOrder(s, t);
      ReadersKept(s, t);
    }
  }

  lemma ProgressStep(s: Sys, step: Step, max: nat)
    requires RunInv(s) && step.SendProgress?
    ensures RunInv(Next(s, step, max))
  {
    if s.currentId.Some? {
      ProgressFacts(s.q, s.currentId.value, step.value);
      var t := Next(s, step, max);
      ReadersKept(s, t);
    }
  }

  lemma PhaseStep(s: Sys, step: Step, max: nat)
    requires RunInv(s) && Enabled(s, step)
    requires step.SetCurrent? || step.HandlerReturns? || step.ScriptTimesOut? || step.ScriptExits? || step.ClearCurrent?
    ensures RunInv(Next(s, step, max))
  {
    ReadersKept(s, Next(s, step, max));
  }

  lemma StartScriptStep(s: Sys, step: Step, max: nat)
    requires RunInv(s) && Enabled(s, step) && step.StartScript?
    ensures RunInv(Next(s, step, max))
  {
    var t := Next(s, step, max);
    forall id | id in t.readers ensures ReaderOk(t, id) {
      if id != s.phase.id {
        assert ReaderOk(s, id);
      }
    }
  }

  lemma ReaderStep(s: Sys, step: Step, max: nat)
    requires RunInv(s) && Enabled(s, step) && (step.Line? || step.ReadCurrent? || step.ReaderEnds?)
    ensures RunInv(Next(s, step, max))
  {
    var t := Next(s, step, max);
    forall id | id in t.readers ensures ReaderOk(t, id) {
      assert ReaderOk(s, id);
    }
  }

  lemma EarlyCompleteStep(s: Sys, step: Step, max: nat)
    requires RunInv(s) && Enabled(s, step) && step.EarlyComplete?
    ensures RunInv(Next(s, step, max))
  {
    var r, t := step.reader, Next(s, step, max);
    assert ReaderOk(s, r);
    var aim := s.readers[r].aim;
    StartedNotWaiting(s);
    if aim.target.Some? {
      var id := aim.target.value;
      FinishFacts(s.q, id, Ok(aim.result));
      FinishStillOneRunning(s.q, id, Ok(aim.result));
      if !s.phase.Idle? && !s.phase.Clearing? {
        CompletedKeepsHeld(s.q, id, aim.result, s.phase.id);
      }
    }
    forall id | id in t.readers ensures ReaderOk(t, id) {
      assert ReaderOk(s, id);
    }
  }

  lemma ReportStep(s: Sys, step: Step, max: nat)
    requires RunInv(s) && Enabled(s, step) && step.Report?
    ensures RunInv(Next(s, step, max))
  {
    StartedNotWaiting(s);
    FinishFacts(s.q, s.phase.id, s.phase.outcome);
    FinishStillOneRunning(s.q, s.phase.id, s.phase.outcome);
    var t := Next(s, step, max);
    ReadersKept(s, t);
  }

  lemma StepKeeps(s: Sys, step: Step, max: nat)
    requires RunInv(s) && Enabled(s, step)
    ensures RunInv(Next(s, step, max))
  {
    match step
    case Submit(_, _, _, _) => SubmitStep(s, step, max);
    case Cancel(_) => CancelStep(s, step, max);
    case GetNext(_) => GetNextStep(s, step, max);
    case StartScript => StartScriptStep(s, step, max);
    case SendProgress(_) => ProgressStep(s, step, max);
    case Line(_, _, _, _) => ReaderStep(s, step, max);
    case ReadCurrent(_) => ReaderStep(s, step, max);
    case ReaderEnds(_) => ReaderStep(s, step, max);
    case EarlyComplete(_) => EarlyCompleteStep(s, step, max);
    case Report => ReportStep(s, step, max);
    case SetCurrent => PhaseStep(s, step, max);
    case HandlerReturns(_) => PhaseStep(s, step, max);
    case ScriptTimesOut => PhaseStep(s, step, max);
    case ScriptExits(_, _, _) => PhaseStep(s, step, max);
    case ClearCurrent => PhaseStep(s, step, max);
  }
}
