/** Whole runs: every interleaving of clients, worker loop and readers. */
module WorkerRuns {
  import opened Options
  import opened Placeholders
  import opened QueueState
  import opened Worker
  import opened WorkerInvariant

  // ---- Runs ----

  /** The states of a run: every step was enabled. (`Inv` excludes none: see EveryRun and Extend.) */
  ghost predicate IsRun(states: seq<Sys>, steps: seq<Step>, max: nat) {
    && |states| == |steps| + 1
    && states[0] == INIT
    && forall i :: 0 <= i < |steps| ==> StepAt(states, steps, max, i)
  }

  ghost predicate StepAt(states: seq<Sys>, steps: seq<Step>, max: nat, i: nat)
    requires i < |steps| && i + 1 < |states|
  {
    StepsTo(states[i], steps[i], states[i + 1], max)
  }

  ghost predicate StepsTo(s: Sys, step: Step, t: Sys, max: nat) {
    Inv(s.q) && Enabled(s, step) && t == Next(s, step, max)
  }

  lemma RunStep(states: seq<Sys>, steps: seq<Step>, max: nat, i: nat)
    requires IsRun(states, steps, max) && i < |steps|
    ensures StepsTo(states[i], steps[i], states[i + 1], max)
  {
    assert StepAt(states, steps, max, i);
  }

  lemma RunInvNext(states: seq<Sys>, steps: seq<Step>, max: nat, i: nat)
    requires IsRun(states, steps, max) && i < |steps| && RunInv(states[i])
    ensures RunInv(states[i + 1])
  {
    RunStep(states, steps, max, i);
    StepKeeps(states[i], steps[i], max);
  }

  /** In every state of every run: the deque holds exactly the waiting jobs, each once; the
      wake-up flag is set exactly when it is non-empty; started then queued jobs are the
      submitted ones in order without the cancelled ones; at most one job is running, and it is
      the current one; a reader's path is its job's, filled in. */
  lemma {:induction false} EveryRun(states: seq<Sys>, steps: seq<Step>, max: nat, i: nat)
    requires IsRun(states, steps, max) && i < |states|
    ensures RunInv(states[i])
    ensures PathsFilledIn(states[i])
  {
    if i > 0 {
      EveryRun(states, steps, max, i - 1);
      RunInvNext(states, steps, max, i - 1);
    }
    InvFillsIn(states[i]);
  }

  /** A reader looks for its job's output path with the job id in place of every placeholder. */
  ghost predicate PathsFilledIn(s: Sys) {
    forall id :: id in s.readers && id in s.q.jobs ==> FilledIn(s.q.jobs[id].outputPath, id, s.readers[id].path)
  }

  lemma InvFillsIn(s: Sys)
    requires RunInv(s)
    ensures PathsFilledIn(s)
  {
    forall id | id in s.readers && id in s.q.jobs
      ensures FilledIn(s.q.jobs[id].outputPath, id, s.readers[id].path)
    {
      assert ReaderOk(s, id);
      ExpandFillsIn(s.q.jobs[id].outputPath, id, s.readers[id].path);
    }
  }

  lemma RunSnoc(states: seq<Sys>, steps: seq<Step>, step: Step, next: Sys, max: nat)
    requires IsRun(states, steps, max) && StepsTo(states[|steps|], step, next, max)
    ensures IsRun(states + [next], steps + [step], max)
  {
    var all, done := states + [next], steps + [step];
    forall i | 0 <= i < |done| ensures StepAt(all, done, max, i) {
      if i < |steps| {
        assert StepAt(states, steps, max, i);
      }
    }
  }

  /** Whatever step is enabled at the end of a run can be taken: the run goes on. */
  lemma Extend(states: seq<Sys>, steps: seq<Step>, step: Step, max: nat) returns (next: Sys)
    requires IsRun(states, steps, max) && Enabled(states[|steps|], step)
    ensures Inv(states[|steps|].q) && next == Next(states[|steps|], step, max)
    ensures IsRun(states + [next], steps + [step], max)
  {
    EveryRun(states, steps, max, |steps|);
    next := Next(states[|steps|], step, max);
    RunSnoc(states, steps, step, next, max);
  }

  // ---- Statuses ----

  predicate EdgeOk(a: Status, b: Status) {
    a == b || (a == Pending && (b == Cancelled || b == Running)) || (a == Running && (b == Completed || b == Failed))
  }

  /** Statuses move along the allowed edges only, only waiting jobs appear, and only finished
      ones disappear. */
  ghost predicate Edges(q: Queue, p: Queue) {
    && (forall id :: id in q.jobs && id in p.jobs ==> EdgeOk(q.jobs[id].status, p.jobs[id].status))
    && (forall id :: id in p.jobs && id !in q.jobs ==> p.jobs[id].status == Pending)
    && (forall id :: id in q.jobs && id !in p.jobs ==> q.jobs[id].Terminal())
  }

  /** The reader's early completion reaches a job that has already failed. */
  predicate HitsFailedJob(s: Sys, step: Step) {
    && step.EarlyComplete? && step.reader in s.readers
    && s.readers[step.reader].aim.At?
    && s.readers[step.reader].aim.target.Some?
    && s.q.Has(s.readers[step.reader].aim.target.value, Failed)
  }

  lemma TakeEdges(q: Queue)
    requires Inv(q) && q.queue != []
    ensures q.queue[0] in q.jobs && Edges(q, Take(q))
  {
    assert q.queue[0] in q.queue;
    assert q.Has(q.queue[0], Pending);
  }

  lemma AddedEdges(q: Queue, p: Queue, id: JobId, job: Job)
    requires Adds(q, p, id, job) && id !in q.jobs && job.status == Pending
    ensures Edges(q, p)
  {
  }

  lemma CompleteEdges(q: Queue, id: JobId, result: JobResult)
    requires !q.Has(id, Pending) && !q.Has(id, Cancelled)
    ensures Edges(q, Complete(q, id, result)) <==> !q.Has(id, Failed)
  {
    var p := Complete(q, id, result);
    if q.Has(id, Failed) {
      assert id in p.jobs && !EdgeOk(q.jobs[id].status, p.jobs[id].status);
    }
  }

  lemma CancelEdges(q: Queue, id: JobId)
    requires Inv(q)
    ensures Edges(q, QueueState.Cancel(q, id))
  {
  }

  lemma ProgressEdges(q: Queue, id: JobId, value: real)
    ensures Edges(q, Progress(q, id, value))
  {
  }

  lemma ReportEdges(q: Queue, id: JobId, outcome: Outcome)
    requires OneRunning(q) && Held(q, id)
    ensures Edges(q, ReportTo(q, id, outcome))
  {
    assert q.Has(id, Running) <==> q.current == Some(id);
  }

  lemma EarlyEdges(s: Sys, r: JobId, max: nat)
    requires RunInv(s) && Enabled(s, EarlyComplete(r))
    ensures Edges(s.q, Next(s, EarlyComplete(r), max).q) <==> !HitsFailedJob(s, EarlyComplete(r))
  {
    assert ReaderOk(s, r);
    var aim := s.readers[r].aim;
    if aim.target.Some? {
      StartedNotWaiting(s);
      StartedWereSubmitted(s);
      CompleteEdges(s.q, aim.target.value, aim.result);
    }
  }

  /** In any run a step moves statuses along the allowed edges if and only if it is not an early
      completion that reaches a failed job. */
  lemma StatusEdges(s: Sys, step: Step, max: nat)
    requires RunInv(s) && Enabled(s, step)
    ensures Edges(s.q, Next(s, step, max).q) <==> !HitsFailedJob(s, step)
  {
    match step
    case Submit(id, cmd, path, key) =>
      SubmitChanges(s.q, id, NewJob(cmd, path, key), max);
      AddedEdges(s.q, Next(s, step, max).q, id, NewJob(cmd, path, key));
    case GetNext(woken) =>
      if woken && s.q.queue != [] {
        TakeEdges(s.q);
      }
    case Cancel(id) => CancelEdges(s.q, id);
    case SendProgress(value) =>
      if s.currentId.Some? {
        ProgressEdges(s.q, s.currentId.value, value);
      }
    case EarlyComplete(r) => EarlyEdges(s, r, max);
    case Report => ReportEdges(s.q, s.phase.id, s.phase.outcome);
    case _ =>
  }

  /** Step `i` of the run moves every status along the allowed edges. */
  ghost predicate EdgesAt(states: seq<Sys>, i: nat)
    requires i + 1 < |states|
  {
    Edges(states[i].q, states[i + 1].q)
  }

  /** Hence a whole run keeps to the edges pending to cancelled or running and running to
      completed or failed if and only if no early completion reaches a failed job. */
  lemma RunEdgesExactlyWhen(states: seq<Sys>, steps: seq<Step>, max: nat)
    requires IsRun(states, steps, max)
    ensures (forall i :: 0 <= i < |steps| ==> EdgesAt(states, i)) <==>
            (forall i :: 0 <= i < |steps| ==> !HitsFailedJob(states[i], steps[i]))
  {
    forall i | 0 <= i < |steps| ensures EdgesAt(states, i) <==> !HitsFailedJob(states[i], steps[i]) {
      EveryRun(states, steps, max, i);
      RunStep(states, steps, max, i);
      StatusEdges(states[i], steps[i], max);
    }
  }

  ghost predicate LeavesTerminal(q: Queue, p: Queue) {
    exists id :: id in q.jobs && id in p.jobs && q.jobs[id].Terminal() && p.jobs[id].status != q.jobs[id].status
  }

  lemma HitLeavesTerminal(q: Queue, id: JobId, result: JobResult)
    requires q.Has(id, Failed)
    ensures LeavesTerminal(q, Complete(q, id, result))
  {
    var p := Complete(q, id, result);
    assert id in p.jobs && q.jobs[id].Terminal() && p.jobs[id].status != q.jobs[id].status;
  }

  /** In any run a step takes a job out of a terminal status if and only if it is an early
      completion that reaches a failed job. */
  lemma LeavesTerminalExactlyWhen(s: Sys, step: Step, max: nat)
    requires RunInv(s) && Enabled(s, step)
    ensures LeavesTerminal(s.q, Next(s, step, max).q) <==> HitsFailedJob(s, step)
  {
    StatusEdges(s, step, max);
    if HitsFailedJob(s, step) {
      var aim := s.readers[step.reader].aim;
      HitLeavesTerminal(s.q, aim.target.value, aim.result);
    }
  }

  /** Step `i` of the run takes a job out of a terminal status. */
  ghost predicate LeavesTerminalAt(states: seq<Sys>, i: nat)
    requires i + 1 < |states|
  {
    LeavesTerminal(states[i].q, states[i + 1].q)
  }

  /** Over a whole run no terminal status is ever left if and only if no early completion reaches
      a failed job. */
  lemma TerminalKeptExactlyWhen(states: seq<Sys>, steps: seq<Step>, max: nat)
    requires IsRun(states, steps, max)
    ensures (forall i :: 0 <= i < |steps| ==> !LeavesTerminalAt(states, i)) <==>
            (forall i :: 0 <= i < |steps| ==> !HitsFailedJob(states[i], steps[i]))
  {
    forall i | 0 <= i < |steps| ensures LeavesTerminalAt(states, i) <==> HitsFailedJob(states[i], steps[i]) {
      EveryRun(states, steps, max, i);
      RunStep(states, steps, max, i);
      LeavesTerminalExactlyWhen(states[i], steps[i], max);
    }
  }

  // ---- Finished jobs ----

  /** An id once submitted enters the job table only by its own submission. */
  lemma NoReturn(s: Sys, step: Step, max: nat, id: JobId)
    requires RunInv(s) && Enabled(s, step) && id in s.submitted
    ensures id in Next(s, step, max).submitted
    ensures id in Next(s, step, max).q.jobs ==> id in s.q.jobs
  {
    if step.Submit? {
      SubmitChanges(s.q, step.id, NewJob(step.cmd, step.outputPath, step.submittedAt), max);
    } else if step.GetNext? && step.woken && s.q.queue != [] {
      TakeKeeps(s.q);
    }
  }

  /** Still finished with this status, or no longer in the table. */
  ghost predicate Ended(s: Sys, id: JobId, status: Status) {
    id in s.submitted && (id in s.q.jobs ==> s.q.jobs[id].status == status)
  }

  lemma EndedStep(s: Sys, step: Step, max: nat, id: JobId, status: Status)
    requires RunInv(s) && Enabled(s, step) && !HitsFailedJob(s, step)
    requires Ended(s, id, status) && status != Pending && status != Running
    ensures Ended(Next(s, step, max), id, status)
  {
    StatusEdges(s, step, max);
    NoReturn(s, step, max, id);
  }

  lemma EndedNext(states: seq<Sys>, steps: seq<Step>, max: nat, i: nat, id: JobId, status: Status)
    requires IsRun(states, steps, max) && i < |steps| && !HitsFailedJob(states[i], steps[i])
    requires Ended(states[i], id, status) && status != Pending && status != Running
    ensures Ended(states[i + 1], id, status)
  {
    EveryRun(states, steps, max, i);
    RunStep(states, steps, max, i);
    EndedStep(states[i], steps[i], max, id, status);
  }

  lemma EndedFirst(states: seq<Sys>, steps: seq<Step>, max: nat, i: nat, id: JobId, status: Status)
    requires IsRun(states, steps, max) && i < |states| && states[i].q.Has(id, status)
    ensures Ended(states[i], id, status)
  {
    EveryRun(states, steps, max, i);
  }

  ghost predicate NoFailedJobHit(states: seq<Sys>, steps: seq<Step>, i: nat, j: nat)
    requires j <= |steps| && j < |states|
  {
    forall m :: i <= m < j ==> !HitsFailedJob(states[m], steps[m])
  }

  /** A finished job keeps its status for as long as no early completion reaches a failed job. */
  lemma {:induction false} TerminalForever(states: seq<Sys>, steps: seq<Step>, max: nat, i: nat, j: nat,
                                           id: JobId, status: Status)
    requires IsRun(states, steps, max) && i <= j < |states| && NoFailedJobHit(states, steps, i, j)
    requires states[i].q.Has(id, status) && status != Pending && status != Running
    ensures Ended(states[j], id, status)
  {
    if i == j {
      EndedFirst(states, steps, max, i, id, status);
    } else {
      TerminalForever(states, steps, max, i, j - 1, id, status);
      EndedNext(states, steps, max, j - 1, id, status);
    }
  }

  /** Completed with this result, or no longer in the table. */
  ghost predicate Done(s: Sys, id: JobId, result: JobResult) {
    id in s.submitted && DoneIn(s.q, id, result)
  }

  /** Completed with this result, or not in the table. */
  ghost predicate DoneIn(q: Queue, id: JobId, result: JobResult) {
    id in q.jobs ==> q.jobs[id].status == Completed && q.jobs[id].result == Some(result)
  }

  lemma FinishKeepsDone(q: Queue, x: JobId, outcome: Outcome, id: JobId, result: JobResult)
    requires DoneIn(q, id, result)
    ensures DoneIn(ReportTo(q, x, outcome), id, result)
  {
  }

  lemma QueueKeepsDone(q: Queue, x: JobId, value: real, id: JobId, result: JobResult)
    requires Inv(q) && DoneIn(q, id, result)
    ensures DoneIn(QueueState.Cancel(q, x), id, result) && DoneIn(Progress(q, x, value), id, result)
    ensures q.queue != [] ==> q.queue[0] in q.jobs && DoneIn(Take(q), id, result)
  {
    if q.queue != [] {
      assert q.queue[0] in q.queue;
      assert q.Has(q.queue[0], Pending);
    }
  }

  lemma DoneStep(s: Sys, step: Step, max: nat, id: JobId, result: JobResult)
    requires RunInv(s) && Enabled(s, step) && Done(s, id, result)
    ensures Done(Next(s, step, max), id, result)
  {
    NoReturn(s, step, max, id);
    assert DoneIn(s.q, id, result);
    match step
    case Submit(x, cmd, path, key) => SubmitChanges(s.q, x, NewJob(cmd, path, key), max);
    case Cancel(x) => QueueKeepsDone(s.q, x, 0.0, id, result);
    case GetNext(_) => QueueKeepsDone(s.q, "", 0.0, id, result);
    case SendProgress(value) =>
      QueueKeepsDone(s.q, if s.currentId.Some? then s.currentId.value else "", value, id, result);
    case EarlyComplete(r) =>
      var aim := s.readers[r].aim;
      if aim.target.Some? {
        FinishKeepsDone(s.q, aim.target.value, Ok(aim.result), id, result);
      }
    case Report => FinishKeepsDone(s.q, s.phase.id, s.phase.outcome, id, result);
    case _ =>
  }

  lemma DoneNext(states: seq<Sys>, steps: seq<Step>, max: nat, i: nat, id: JobId, result: JobResult)
    requires IsRun(states, steps, max) && i < |steps| && Done(states[i], id, result)
    ensures Done(states[i + 1], id, result)
  {
    EveryRun(states, steps, max, i);
    RunStep(states, steps, max, i);
    DoneStep(states[i], steps[i], max, id, result);
  }

  /** In every run a completed job keeps its status and its first result, whatever any later
      complete or fail call says. */
  lemma {:induction false} CompletedForever(states: seq<Sys>, steps: seq<Step>, max: nat, i: nat, j: nat,
                                            id: JobId, result: JobResult)
    requires IsRun(states, steps, max) && i <= j < |states|
    requires states[i].q.Has(id, Completed) && states[i].q.jobs[id].result == Some(result)
    ensures Done(states[j], id, result)
  {
    if i == j {
      EndedFirst(states, steps, max, i, id, Completed);
    } else {
      CompletedForever(states, steps, max, i, j - 1, id, result);
      DoneNext(states, steps, max, j - 1, id, result);
    }
  }

  // ---- Early completion ----

  /** The early completion of reader `id` is about to be made, for its own job, still running. */
  ghost predicate OwnRunningJob(s: Sys, id: JobId) {
    id in s.readers && s.readers[id].aim.At? && s.readers[id].aim.target == Some(id) && s.q.Has(id, Running)
  }

  lemma EarlyCompletion(s: Sys, id: JobId, max: nat)
    requires RunInv(s) && OwnRunningJob(s, id)
    ensures var result, t := s.readers[id].aim.result, Next(s, EarlyComplete(id), max);
            && result.earlyComplete && result.outputPath.Some?
            && FilledIn(s.q.jobs[id].outputPath, id, result.outputPath.value)
            && t.q.Has(id, Completed) && t.q.jobs[id].result == Some(result)
  {
    assert ReaderOk(s, id);
    InvFillsIn(s);
  }

  /** In every run, an early completion made for its own running job completes it with a result
      that names the job's output path, and that stays so to the end of the run, whatever
      time-out, kill, exit code or report comes after. */
  lemma EarlyCompletionWins(states: seq<Sys>, steps: seq<Step>, max: nat, k: nat, j: nat, id: JobId)
    requires IsRun(states, steps, max) && k < j < |states|
    requires steps[k] == EarlyComplete(id) && OwnRunningJob(states[k], id)
    ensures var result := states[k].readers[id].aim.result;
            && result.earlyComplete && result.outputPath.Some?
            && FilledIn(states[k].q.jobs[id].outputPath, id, result.outputPath.value)
            && states[k + 1].q.Has(id, Completed)
            && Done(states[j], id, result)
  {
    var s, t := states[k], states[k + 1];
    RunStep(states, steps, max, k);
    EveryRun(states, steps, max, k);
    EarlyCompletion(s, id, max);
    assert t.q.Has(id, Completed);
    CompletedForever(states, steps, max, k + 1, j, id, s.readers[id].aim.result);
  }

  // ---- Which job an early completion is for ----

  /** Every early completion under way is for the reader's own job. */
  ghost predicate AimsOwn(s: Sys) {
    forall r :: r in s.readers && s.readers[r].aim.At? ==> s.readers[r].aim.target == Some(r)
  }

  /** The worker has set the job's id and not yet cleared it. */
  predicate InHand(s: Sys, id: JobId) {
    !s.phase.Idle? && !s.phase.Taken? && s.phase.id == id
  }

  /** The job whose id the worker state names is the one the worker has in hand. */
  lemma CurrentIsInHand(s: Sys, id: JobId)
    requires RunInv(s)
    ensures s.currentId == Some(id) <==> InHand(s, id)
  {
  }

  /** A reader asks for the current job id only while the worker has the reader's job in hand. */
  predicate AsksInTime(s: Sys, step: Step) {
    step.ReadCurrent? ==> InHand(s, step.reader)
  }

  lemma AimsStep(s: Sys, step: Step, max: nat)
    requires RunInv(s) && Enabled(s, step) && AimsOwn(s)
    ensures AimsOwn(Next(s, step, max)) <==> AsksInTime(s, step)
  {
    var t := Next(s, step, max);
    if step.ReadCurrent? {
      CurrentIsInHand(s, step.reader);
      assert t.readers[step.reader].aim.At? && t.readers[step.reader].aim.target == s.currentId;
    }
  }

  lemma AimsNext(states: seq<Sys>, steps: seq<Step>, max: nat, i: nat)
    requires IsRun(states, steps, max) && i < |steps| && AimsOwn(states[i])
    ensures AimsOwn(states[i + 1]) <==> AsksInTime(states[i], steps[i])
  {
    EveryRun(states, steps, max, i);
    RunStep(states, steps, max, i);
    AimsStep(states[i], steps[i], max);
  }

  lemma {:induction false} AimsUpTo(states: seq<Sys>, steps: seq<Step>, max: nat, n: nat)
    requires IsRun(states, steps, max) && n < |states|
    ensures (forall i :: 0 <= i <= n ==> AimsOwn(states[i])) <==>
            (forall i :: 0 <= i < n ==> AsksInTime(states[i], steps[i]))
  {
    if n > 0 {
      AimsUpTo(states, steps, max, n - 1);
      if AimsOwn(states[n - 1]) {
        AimsNext(states, steps, max, n - 1);
      }
    }
  }

  /** Over a whole run every early completion is for the reader's own job if and only if readers ask
      for the job id only while the worker has their own job in hand: never before its id is set,
      never after it is cleared. */
  lemma AimsOwnExactlyWhen(states: seq<Sys>, steps: seq<Step>, max: nat)
    requires IsRun(states, steps, max)
    ensures (forall i :: 0 <= i < |states| ==> AimsOwn(states[i])) <==>
            (forall i :: 0 <= i < |steps| ==> AsksInTime(states[i], steps[i]))
  {
    AimsUpTo(states, steps, max, |steps|);
  }
}
