/** What one script does to its job: its output line by line, its exit, and what is reported. */
module Scripts {
  import opened Options
  import opened QueueState
  import opened Worker

  // ---- Output ----

  /** A progress line that goes back by more than a hundredth counts for nothing, not even when it
      announces the end of training. */
  predicate GoesBack(r: Reader, progress: Option<real>) {
    progress.Some? && progress.value < r.lastProgress - 0.01
  }

  /** What one line changes: progress follows the line, training is complete once a line says so,
      and the early completion begins with the first such line that finds the artifact. */
  lemma LineEffect(r: Reader, progress: Option<real>, complete: bool, ready: bool)
    ensures var t, counts := ReadLine(r, progress, complete, ready), !GoesBack(r, progress);
            && t.path == r.path && t.finished == r.finished
            && t.lastProgress == (if counts && progress.Some? then progress.value else r.lastProgress)
            && (t.trainingComplete <==> r.trainingComplete || (counts && complete))
            && (t.earlyCompleted <==> r.earlyCompleted || (counts && complete && ready && r.path != ""))
            && t.aim == (if t.earlyCompleted && !r.earlyCompleted then Found else r.aim)
  {
  }

  /** An early completion reports success, the artifact and at least full progress. */
  lemma EarlyResultSays(r: Reader)
    ensures var e := EarlyResult(r);
            && e.returnCode == 0 && e.trainingComplete && e.earlyComplete && e.outputPath == Some(r.path)
            && e.finalProgress >= 100.0 && e.finalProgress >= r.lastProgress
            && (e.finalProgress == 100.0 || e.finalProgress == r.lastProgress)
  {
  }

  // ---- Exit ----

  predicate HasArtifact(r: Reader, ready: bool, exists_: bool) {
    r.path != "" && (ready || exists_)
  }

  /** A script succeeds when it exits with zero, or was completed early, or had announced the end of
      training and left an artifact. */
  predicate Succeeds(r: Reader, code: int, ready: bool, exists_: bool) {
    code == 0 || r.earlyCompleted || (r.trainingComplete && HasArtifact(r, ready, exists_))
  }

  lemma ExitSucceedsExactlyWhen(r: Reader, code: int, ready: bool, exists_: bool)
    ensures var o := ScriptOutcome(r, code, ready, exists_);
            && (o.Ok? <==> Succeeds(r, code, ready, exists_))
            && (o.Ok? ==> && o.result.returnCode == code && o.result.trainingComplete == r.trainingComplete
                          && o.result.earlyComplete == r.earlyCompleted && o.result.finalProgress == r.lastProgress
                          && (o.result.outputPath == if HasArtifact(r, ready, exists_) then Some(r.path) else None))
  {
  }

  // ---- What becomes of the job ----

  /** A report decides a running job and leaves a completed one alone. */
  lemma ReportDecides(q: Queue, id: JobId, outcome: Outcome)
    requires id in q.jobs
    ensures var p := ReportTo(q, id, outcome);
            && id in p.jobs
            && (q.Has(id, Completed) ==> p.jobs[id] == q.jobs[id])
            && (!q.Has(id, Completed) && outcome.Ok? ==>
                  p.Has(id, Completed) && p.jobs[id].result == Some(outcome.result) && p.jobs[id].progress == 100.0)
            && (!q.Has(id, Completed) && outcome.Err? ==> p.Has(id, Failed) && p.jobs[id].error == Some(outcome.error))
  {
  }

  lemma ExitThenReport(s: Sys, code: int, ready: bool, exists_: bool, max: nat)
    requires RunInv(s) && Enabled(s, ScriptExits(code, ready, exists_))
    ensures Next(Next(s, ScriptExits(code, ready, exists_), max), Report, max).q ==
            ReportTo(s.q, s.phase.id, ScriptOutcome(s.readers[s.phase.id], code, ready, exists_))
  {
  }

  /** The job after the script's exit has been reported: a running job completes or fails as the
      script did, and a job completed early stays as it is. */
  lemma JobAfterExit(s: Sys, code: int, ready: bool, exists_: bool, max: nat)
    requires RunInv(s) && Enabled(s, ScriptExits(code, ready, exists_)) && s.phase.id in s.q.jobs
    ensures var id, r := s.phase.id, s.readers[s.phase.id];
            var q := Next(Next(s, ScriptExits(code, ready, exists_), max), Report, max).q;
            && id in q.jobs
            && (s.q.Has(id, Completed) ==> q.jobs[id] == s.q.jobs[id])
            && (s.q.Has(id, Running) && Succeeds(r, code, ready, exists_) ==>
                  q.Has(id, Completed) && q.jobs[id].result.Some? && q.jobs[id].result.value.returnCode == code)
            && (s.q.Has(id, Running) && !Succeeds(r, code, ready, exists_) ==> q.Has(id, Failed))
  {
    var r := s.readers[s.phase.id];
    var o := ScriptOutcome(r, code, ready, exists_);
    ExitThenReport(s, code, ready, exists_, max);
    ExitSucceedsExactlyWhen(r, code, ready, exists_);
    ReportDecides(s.q, s.phase.id, o);
  }

  /** The job after its handler's outcome has been reported. */
  lemma JobAfterHandler(s: Sys, outcome: Outcome, max: nat)
    requires RunInv(s) && Enabled(s, HandlerReturns(outcome)) && s.q.Has(s.phase.id, Running)
    ensures var id := s.phase.id;
            var t := Next(Next(s, HandlerReturns(outcome), max), Report, max);
            && id in t.q.jobs
            && (outcome.Ok? ==> t.q.jobs[id].status == Completed && t.q.jobs[id].result == Some(outcome.result))
            && (outcome.Err? ==> t.q.jobs[id].status == Failed && t.q.jobs[id].error == Some(outcome.error))
  {
    ReportDecides(s.q, s.phase.id, outcome);
  }

  /** Progress goes to the job in hand and to no other. */
  lemma ProgressShown(s: Sys, value: real, max: nat, id: JobId)
    requires RunInv(s) && id in s.q.jobs
    ensures var t := Next(s, SendProgress(value), max);
            && id in t.q.jobs
            && t.q.jobs[id] == if s.currentId == Some(id) then s.q.jobs[id].(progress := value) else s.q.jobs[id]
  {
  }
}
