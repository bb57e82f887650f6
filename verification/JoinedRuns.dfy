/** What waiting for the reader gives: runs in which a script call returns only after its reader
    has finished. */
module JoinedRuns {
  import opened Options
  import opened QueueState
  import opened Worker
  import opened WorkerInvariant
  import opened WorkerRuns

  /** The script call returns only after its reader has finished. */
  predicate Joined(s: Sys, step: Step) {
    (step.ScriptTimesOut? || step.ScriptExits?) && s.phase.Scripting? && s.phase.id in s.readers ==>
      s.readers[s.phase.id].finished
  }

  ghost predicate JoinedRun(states: seq<Sys>, steps: seq<Step>, max: nat) {
    IsRun(states, steps, max) && forall i :: 0 <= i < |steps| ==> Joined(states[i], steps[i])
  }

  /** A live reader belongs to the script being run; until it has completed its job the job is
      running, and it aims at no other. */
  ghost predicate InTime(s: Sys, id: JobId)
    requires id in s.readers
  {
    var r := s.readers[id];
    && (r.aim.NoAim? || !r.finished)
    && (!r.finished ==> s.phase == Scripting(id))
    && (r.aim.At? ==> r.aim.target == Some(id))
    && (!r.aim.NoAim? || (!r.earlyCompleted && s.phase == Scripting(id)) ==> s.q.current == Some(id))
  }

  ghost predicate JoinInv(s: Sys) {
    && RunInv(s)
    && (s.phase.Taken? || s.phase.Handling? ==> s.q.current == Some(s.phase.id))
    && (forall id :: id in s.readers ==> InTime(s, id))
  }

  lemma InTimeStep(s: Sys, step: Step, max: nat, id: JobId)
    requires JoinInv(s) && Enabled(s, step) && Joined(s, step) && id in Next(s, step, max).readers
    requires !step.EarlyComplete? && !step.Report? && !step.GetNext? && !step.StartScript?
    ensures InTime(Next(s, step, max), id)
  {
    assert InTime(s, id);
    match step
    case Submit(x, cmd, path, key) => SubmitChanges(s.q, x, NewJob(cmd, path, key), max);
    case _ =>
  }

  lemma InTimeWorker(s: Sys, step: Step, max: nat, id: JobId)
    requires JoinInv(s) && Enabled(s, step) && id in Next(s, step, max).readers
    requires step.Report? || step.GetNext? || step.StartScript?
    ensures InTime(Next(s, step, max), id)
  {
    if !(step.StartScript? && id == s.phase.id) {
      assert InTime(s, id);
    }
  }

  lemma InTimeEarly(s: Sys, step: Step, max: nat, id: JobId)
    requires JoinInv(s) && Enabled(s, step) && step.EarlyComplete? && id in s.readers
    ensures InTime(Next(s, step, max), id)
  {
    assert InTime(s, id) && InTime(s, step.reader);
    assert ReaderOk(s, step.reader);
  }

  lemma JoinStep(s: Sys, step: Step, max: nat)
    requires JoinInv(s) && Enabled(s, step) && Joined(s, step)
    ensures JoinInv(Next(s, step, max))
  {
    StepKeeps(s, step, max);
    var t := Next(s, step, max);
    if step.EarlyComplete? {
      assert InTime(s, step.reader);
    } else if step.Submit? {
      SubmitChanges(s.q, step.id, NewJob(step.cmd, step.outputPath, step.submittedAt), max);
    }
    forall id | id in t.readers ensures InTime(t, id) {
      if step.EarlyComplete? {
        InTimeEarly(s, step, max, id);
      } else if step.Report? || step.GetNext? || step.StartScript? {
        InTimeWorker(s, step, max, id);
      } else {
        InTimeStep(s, step, max, id);
      }
    }
  }

  lemma JoinNext(states: seq<Sys>, steps: seq<Step>, max: nat, i: nat)
    requires JoinedRun(states, steps, max) && i < |steps| && JoinInv(states[i])
    ensures JoinInv(states[i + 1])
  {
    RunStep(states, steps, max, i);
    JoinStep(states[i], steps[i], max);
  }

  lemma {:induction false} EveryJoinedRun(states: seq<Sys>, steps: seq<Step>, max: nat, i: nat)
    requires JoinedRun(states, steps, max) && i < |states|
    ensures JoinInv(states[i])
  {
    if i > 0 {
      EveryJoinedRun(states, steps, max, i - 1);
      JoinNext(states, steps, max, i - 1);
    }
  }

  lemma InTimeIsRight(s: Sys, step: Step)
    requires JoinInv(s) && Enabled(s, step)
    ensures AsksInTime(s, step) && !HitsFailedJob(s, step)
    ensures step.EarlyComplete? ==> OwnRunningJob(s, step.reader)
  {
    if step.ReadCurrent? || step.EarlyComplete? {
      assert InTime(s, step.reader);
      assert s.q.Has(step.reader, Running) <==> s.q.current == Some(step.reader);
    }
  }

  /** With the reader joined every condition is met: a reader asks only while its own job is in
      hand, every early completion is made for its own running job, and none reaches a failed job. */
  lemma JoinSuffices(states: seq<Sys>, steps: seq<Step>, max: nat, i: nat)
    requires JoinedRun(states, steps, max) && i < |steps|
    ensures AsksInTime(states[i], steps[i]) && !HitsFailedJob(states[i], steps[i])
    ensures steps[i].EarlyComplete? ==> OwnRunningJob(states[i], steps[i].reader)
  {
    EveryJoinedRun(states, steps, max, i);
    RunStep(states, steps, max, i);
    InTimeIsRight(states[i], steps[i]);
  }
}
