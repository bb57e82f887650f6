/** Over whole runs: what the job table says of a job is what was submitted, and the history drops
    the oldest finished jobs first. */
module JobRecords {
  import opened Options
  import opened QueueState
  import opened History
  import opened Worker
  import opened WorkerInvariant
  import opened WorkerRuns

  /** The step that submitted this job. */
  predicate AsksFor(step: Step, id: JobId, job: Job) {
    step == Worker.Submit(id, job.cmd, job.outputPath, job.submittedAt)
  }

  ghost predicate Recorded(steps: seq<Step>, s: Sys) {
    forall id :: id in s.q.jobs ==> RecordedJob(steps, id, s.q.jobs[id])
  }

  ghost predicate RecordedJob(steps: seq<Step>, id: JobId, job: Job) {
    exists k :: 0 <= k < |steps| && AsksFor(steps[k], id, job)
  }

  /** A step records the job it submits, and changes no other job's request. */
  lemma RequestsKept(s: Sys, step: Step, max: nat, id: JobId)
    requires RunInv(s) && Enabled(s, step) && id in Next(s, step, max).q.jobs
    ensures var job := Next(s, step, max).q.jobs[id];
            if step.Submit? && step.id == id then AsksFor(step, id, job)
            else id in s.q.jobs && SameRequest(job, s.q.jobs[id])
  {
    match step
    case Submit(x, cmd, path, key) => SubmittedRequest(s.q, x, cmd, path, key, max, id);
    case Cancel(x) => QueueKeepsRequest(s.q, x, 0.0, id);
    case GetNext(_) => QueueKeepsRequest(s.q, "", 0.0, id);
    case SendProgress(value) =>
      QueueKeepsRequest(s.q, if s.currentId.Some? then s.currentId.value else "", value, id);
    case EarlyComplete(r) =>
      var aim := s.readers[r].aim;
      if aim.target.Some? {
        ReportKeepsRequest(s.q, aim.target.value, Ok(aim.result), id);
      }
    case Report => ReportKeepsRequest(s.q, s.phase.id, s.phase.outcome, id);
    case _ =>
  }

  lemma SubmittedRequest(q: Queue, x: JobId, cmd: string, path: string, key: int, max: nat, id: JobId)
    requires Inv(q) && x !in q.jobs && id in QueueState.Submit(q, x, NewJob(cmd, path, key), max).jobs
    ensures var job := QueueState.Submit(q, x, NewJob(cmd, path, key), max).jobs[id];
            if x == id then job == Job(cmd, path, key, Pending, 0.0, None, None)
            else id in q.jobs && job == q.jobs[id]
  {
    SubmitChanges(q, x, NewJob(cmd, path, key), max);
  }

  lemma QueueKeepsRequest(q: Queue, x: JobId, value: real, id: JobId)
    requires Inv(q)
    ensures id in QueueState.Cancel(q, x).jobs ==>
              id in q.jobs && SameRequest(QueueState.Cancel(q, x).jobs[id], q.jobs[id])
    ensures id in Progress(q, x, value).jobs ==>
              id in q.jobs && SameRequest(Progress(q, x, value).jobs[id], q.jobs[id])
    ensures q.queue != [] ==> q.queue[0] in q.jobs
                              && (id in Take(q).jobs ==> id in q.jobs && SameRequest(Take(q).jobs[id], q.jobs[id]))
  {
    if q.queue != [] {
      TakeKeeps(q);
    }
  }

  lemma ReportKeepsRequest(q: Queue, x: JobId, outcome: Outcome, id: JobId)
    requires id in ReportTo(q, x, outcome).jobs
    ensures id in q.jobs && SameRequest(ReportTo(q, x, outcome).jobs[id], q.jobs[id])
  {
  }

  lemma RecordedSnoc(steps: seq<Step>, step: Step, id: JobId, job: Job, before: Job)
    ensures AsksFor(step, id, job) ==> RecordedJob(steps + [step], id, job)
    ensures RecordedJob(steps, id, before) && SameRequest(job, before) ==> RecordedJob(steps + [step], id, job)
  {
    var all := steps + [step];
    assert all[|steps|] == step;
    if k :| 0 <= k < |steps| && AsksFor(steps[k], id, before) {
      assert all[k] == steps[k];
    }
  }

  lemma RecordedNext(done: seq<Step>, s: Sys, step: Step, t: Sys, max: nat)
    requires RunInv(s) && Enabled(s, step) && t == Next(s, step, max) && Recorded(done, s)
    ensures Recorded(done + [step], t)
  {
    forall id | id in t.q.jobs ensures RecordedJob(done + [step], id, t.q.jobs[id]) {
      RequestsKept(s, step, max, id);
      RecordedSnoc(done, step, id, t.q.jobs[id], if id in s.q.jobs then s.q.jobs[id] else t.q.jobs[id]);
    }
  }

  /** Every job in the table has the command, path and time of its own submission. */
  lemma {:induction false} EveryJobRecorded(states: seq<Sys>, steps: seq<Step>, max: nat, i: nat)
    requires IsRun(states, steps, max) && i < |states|
    ensures Recorded(steps[..i], states[i])
  {
    if i > 0 {
      EveryJobRecorded(states, steps, max, i - 1);
      EveryRun(states, steps, max, i - 1);
      RunStep(states, steps, max, i - 1);
      var done, step := steps[..i - 1], steps[i - 1];
      assert steps[..i] == done + [step];
      RecordedNext(done, states[i - 1], step, states[i], max);
    }
  }

  lemma {:induction false} StaysSubmitted(states: seq<Sys>, steps: seq<Step>, max: nat, k: nat, j: nat)
    requires IsRun(states, steps, max) && k < j < |states| && steps[k].Submit?
    ensures steps[k].id in states[j].submitted
  {
    RunStep(states, steps, max, j - 1);
    EveryRun(states, steps, max, j - 1);
    if k < j - 1 {
      StaysSubmitted(states, steps, max, k, j - 1);
      NoReturn(states[j - 1], steps[j - 1], max, steps[k].id);
    }
  }

  lemma SubmittedOnce(states: seq<Sys>, steps: seq<Step>, max: nat, j: nat, k: nat)
    requires IsRun(states, steps, max) && j < |steps| && k < |steps|
    requires steps[j].Submit? && steps[k].Submit? && steps[j].id == steps[k].id
    ensures j == k
  {
    if j < k {
      RunStep(states, steps, max, k);
      StaysSubmitted(states, steps, max, j, k);
    } else if k < j {
      RunStep(states, steps, max, j);
      StaysSubmitted(states, steps, max, k, j);
    }
  }

  /** The time that the table gives a job is that of its submission. */
  lemma TimeOf(states: seq<Sys>, steps: seq<Step>, max: nat, i: nat, id: JobId, k: nat)
    requires IsRun(states, steps, max) && i < |states| && id in states[i].q.jobs
    requires k < |steps| && steps[k].Submit? && steps[k].id == id
    ensures AsksFor(steps[k], id, states[i].q.jobs[id])
  {
    EveryJobRecorded(states, steps, max, i);
    assert RecordedJob(steps[..i], id, states[i].q.jobs[id]);
    var j :| 0 <= j < |steps[..i]| && AsksFor(steps[..i][j], id, states[i].q.jobs[id]);
    SubmittedOnce(states, steps, max, j, k);
  }

  /** A submission drops no finished job while it keeps one that was submitted earlier. */
  lemma SubmitDropsOldest(q: Queue, id: JobId, job: Job, max: nat, x: JobId, y: JobId)
    requires Inv(q) && id !in q.jobs && job.status == Pending
    requires x in q.jobs && x !in QueueState.Submit(q, id, job, max).jobs
    requires y in q.jobs && q.jobs[y].Terminal() && y in QueueState.Submit(q, id, job, max).jobs
    ensures q.jobs[y].submittedAt >= q.jobs[x].submittedAt && |q.jobs| >= 2 * max
  {
    AppendAdds(q, id, job, x);
    AppendAdds(q, id, job, y);
    CleanupDropsOldest(Append(q, id, job), max, x, y);
  }

  lemma AppendAdds(q: Queue, id: JobId, job: Job, x: JobId)
    requires Inv(q) && id !in q.jobs && job.status == Pending && x in q.jobs
    ensures var a := Append(q, id, job);
            Listed(a) && |a.jobs| == |q.jobs| + 1 && x in a.jobs && a.jobs[x] == q.jobs[x]
  {
    AppendKeepsExactlyWhen(q, id, job);
    assert Append(q, id, job).jobs.Keys == q.jobs.Keys + {id};
  }

  /** In every run: when a step drops a job from the table, every finished job that it keeps was
      submitted no earlier, and the table held at least twice the limit. */
  lemma OldestDroppedFirst(states: seq<Sys>, steps: seq<Step>, max: nat, i: nat, x: JobId, kx: nat, y: JobId, ky: nat)
    requires IsRun(states, steps, max) && i < |steps| && kx < |steps| && ky < |steps|
    requires steps[kx].Submit? && steps[kx].id == x && steps[ky].Submit? && steps[ky].id == y
    requires x in states[i].q.jobs && x !in states[i + 1].q.jobs
    requires y in states[i].q.jobs && states[i].q.jobs[y].Terminal() && y in states[i + 1].q.jobs
    ensures steps[ky].submittedAt >= steps[kx].submittedAt && |states[i].q.jobs| >= 2 * max
  {
    EveryRun(states, steps, max, i);
    RunStep(states, steps, max, i);
    TimeOf(states, steps, max, i, x, kx);
    TimeOf(states, steps, max, i, y, ky);
    OnlySubmitDrops(states[i], steps[i], max, x);
    var step := steps[i];
    SubmitDropsOldest(states[i].q, step.id, NewJob(step.cmd, step.outputPath, step.submittedAt), max, x, y);
  }

  lemma OnlySubmitDrops(s: Sys, step: Step, max: nat, x: JobId)
    requires RunInv(s) && Enabled(s, step) && x in s.q.jobs && x !in Next(s, step, max).q.jobs
    ensures step.Submit?
  {
    if step.GetNext? && s.q.queue != [] {
      TakeKeeps(s.q);
    }
  }
}
