/**
 The queue with its clients, the one worker loop, and the threads that read the output of
 scripts. A step is one locked queue operation or one thread's next action; a run is any
 interleaving of steps. Exit, time-out, artifact and output lines are the environment's choice.
 */
module Worker {
  import opened Options
  import opened Placeholders
  import opened QueueState

  datatype Outcome = Ok(result: JobResult) | Err(error: string)

  /** Where the worker loop stands. It works on the job object it took, whatever becomes of the
      table. `Reporting` is about to complete or fail the job, `Clearing` to reset the job id. */
  datatype Phase =
    | Idle
    | Taken(id: JobId, job: Job)
    | Handling(id: JobId, job: Job)
    | Scripting(id: JobId)
    | Reporting(id: JobId, outcome: Outcome)
    | Clearing(id: JobId)

  /** An early completion under way: the artifact was found, then the job id was read from the
      worker state. */
  datatype Aim = NoAim | Found | At(target: Option<JobId>, result: JobResult)

  /** `path` is the output path with the job id filled in. */
  datatype Reader = Reader(path: string, trainingComplete: bool, earlyCompleted: bool, lastProgress: real,
                           aim: Aim, finished: bool)

  /** `submitted`, `started` and `cancelled` record the run so far. */
  datatype Sys = Sys(q: Queue, phase: Phase, currentId: Option<JobId>, readers: map<JobId, Reader>,
                     submitted: seq<JobId>, started: seq<JobId>, cancelled: set<JobId>)

  datatype Step =
    | Submit(id: JobId, cmd: string, outputPath: string, submittedAt: int)
    | Cancel(id: JobId)
    | GetNext(woken: bool)
    | SetCurrent
    | StartScript
    | SendProgress(value: real)
    | HandlerReturns(outcome: Outcome)
    | Line(reader: JobId, progress: Option<real>, complete: bool, ready: bool)
    | ReadCurrent(reader: JobId)
    | EarlyComplete(reader: JobId)
    | ReaderEnds(reader: JobId)
    | ScriptTimesOut
    | ScriptExits(code: int, ready: bool, exists_: bool)
    | Report
    | ClearCurrent

  const INIT := Sys(EMPTY, Idle, None, map[], [], [], {})

  // ---- The script ----

  function Larger(a: real, b: real): real {
    if a < b then b else a
  }

  function EarlyResult(r: Reader): JobResult {
    JobResult(0, true, true, Larger(r.lastProgress, 100.0), Some(r.path), "")
  }

  /** One line of output: a progress line that goes back is dropped whole; a line announcing the
      end of training begins the early completion, which needs the artifact. */
  function ReadLine(r: Reader, progress: Option<real>, complete: bool, ready: bool): Reader {
    if progress.Some? && progress.value + 0.01 < r.lastProgress then r
    else
      var p := if progress.Some? then r.(lastProgress := progress.value) else r;
      if !complete then p
      else
        var done := p.(trainingComplete := true);
        if done.earlyCompleted || done.path == "" || !ready then done
        else done.(earlyCompleted := true, aim := Found)
  }

  /** What `run_local_script` returns once the process has exited. */
  function ScriptOutcome(r: Reader, code: int, ready: bool, exists_: bool): Outcome {
    var path := if r.path != "" && (ready || exists_) then Some(r.path) else None;
    if code != 0 && !r.earlyCompleted && !(r.trainingComplete && path.Some?)
    then Err("Script exited")
    else Ok(JobResult(code, r.trainingComplete, r.earlyCompleted, r.lastProgress, path, "stdout"))
  }

  // ---- Steps ----

  predicate Enabled(s: Sys, step: Step) {
    match step
    case Submit(id, _, _, _) => id !in s.submitted
    case Cancel(_) => true
    case GetNext(_) => s.phase.Idle?
    case SetCurrent => s.phase.Taken?
    case StartScript => s.phase.Handling? && s.phase.job.cmd == "run_script"
    case SendProgress(_) => true
    case HandlerReturns(_) => s.phase.Handling?
    case Line(r, _, _, _) => r in s.readers && !s.readers[r].finished && s.readers[r].aim.NoAim?
    case ReadCurrent(r) => r in s.readers && s.readers[r].aim.Found?
    case EarlyComplete(r) => r in s.readers && s.readers[r].aim.At?
    case ReaderEnds(r) => r in s.readers && s.readers[r].aim.NoAim?
    case ScriptTimesOut => s.phase.Scripting? && s.phase.id in s.readers
    case ScriptExits(_, _, _) => s.phase.Scripting? && s.phase.id in s.readers
    case Report => s.phase.Reporting?
    case ClearCurrent => s.phase.Clearing?
  }

  function ReportTo(q: Queue, id: JobId, outcome: Outcome): Queue {
    match outcome
    case Ok(result) => Complete(q, id, result)
    case Err(error) => Fail(q, id, error)
  }

  function Next(s: Sys, step: Step, max: nat): Sys
    requires Enabled(s, step) && Inv(s.q)
  {
    match step
    case Submit(id, cmd, path, key) =>
      s.(q := QueueState.Submit(s.q, id, NewJob(cmd, path, key), max), submitted := s.submitted + [id])
    case Cancel(id) =>
      s.(q := QueueState.Cancel(s.q, id), cancelled := s.cancelled + (if s.q.Has(id, Pending) then {id} else {}))
    case GetNext(woken) =>
      if woken && s.q.queue != [] then
        var id := s.q.queue[0];
        TakeKeeps(s.q);
        s.(q := Take(s.q), phase := Taken(id, s.q.jobs[id]), started := s.started + [id])
      else s
    case SetCurrent => s.(phase := Handling(s.phase.id, s.phase.job), currentId := Some(s.phase.id))
    case StartScript =>
      var path := Expand(s.phase.job.outputPath, s.phase.id);
      s.(phase := Scripting(s.phase.id),
         readers := s.readers[s.phase.id := Reader(path, false, false, 0.0, NoAim, false)])
    case SendProgress(p) => if s.currentId.Some? then s.(q := Progress(s.q, s.currentId.value, p)) else s
    case HandlerReturns(outcome) => s.(phase := Reporting(s.phase.id, outcome))
    case Line(r, progress, complete, ready) =>
      s.(readers := s.readers[r := ReadLine(s.readers[r], progress, complete, ready)])
    case ReadCurrent(r) =>
      s.(readers := s.readers[r := s.readers[r].(aim := At(s.currentId, EarlyResult(s.readers[r])))])
    case EarlyComplete(r) =>
      var reader := s.readers[r];
      s.(q := if reader.aim.target.Some? then Complete(s.q, reader.aim.target.value, reader.aim.result) else s.q,
         readers := s.readers[r := reader.(aim := NoAim)])
    case ReaderEnds(r) => s.(readers := s.readers[r := s.readers[r].(finished := true)])
    case ScriptTimesOut => s.(phase := Reporting(s.phase.id, Err("Script timed out")))
    case ScriptExits(code, ready, exists_) =>
      s.(phase := Reporting(s.phase.id, ScriptOutcome(s.readers[s.phase.id], code, ready, exists_)))
    case Report => s.(q := ReportTo(s.q, s.phase.id, s.phase.outcome), phase := Clearing(s.phase.id))
    case ClearCurrent => s.(phase := Idle, currentId := None)
  }

  // ---- The invariant of every run ----

  /** Started jobs, then the deque: the submitted jobs in order, without the cancelled ones. */
  ghost predicate InOrder(s: Sys) {
    && NoDup(s.submitted)
    && s.started + s.q.queue == Without(s.submitted, s.cancelled)
    && (forall id :: id in s.q.jobs || id in s.cancelled ==> id in s.submitted)
  }

  /** The running job is the current one, and there is no other. */
  ghost predicate OneRunning(q: Queue) {
    forall id :: q.Has(id, Running) <==> q.current == Some(id)
  }

  /** The job is the one running, or nothing runs and it has completed (or left the table). */
  ghost predicate Held(q: Queue, id: JobId) {
    if q.current.Some? then q.current == Some(id) else (id in q.jobs ==> q.jobs[id].status == Completed)
  }

  ghost predicate PhaseOk(s: Sys) {
    match s.phase
    case Idle => s.q.current.None? && s.currentId.None?
    case Taken(id, _) => Held(s.q, id) && s.currentId.None?
    case Handling(id, _) => Held(s.q, id) && s.currentId == Some(id)
    case Scripting(id) => Held(s.q, id) && s.currentId == Some(id) && id in s.readers
    case Reporting(id, _) => Held(s.q, id) && s.currentId == Some(id)
    case Clearing(id) => s.q.current.None? && s.currentId == Some(id)
  }

  /** Ids that only started jobs can have, and jobs that only a cancellation has cancelled. */
  ghost predicate IdsOk(s: Sys) {
    && (s.currentId.Some? ==> s.currentId.value in s.started)
    && (!s.phase.Idle? ==> s.phase.id in s.started)
    && (forall id :: s.q.Has(id, Cancelled) ==> id in s.cancelled)
  }

  /** A reader's path is its job's expanded output path; an early completion under way names it. */
  ghost predicate ReaderOk(s: Sys, id: JobId)
    requires id in s.readers
  {
    var r := s.readers[id];
    && id in s.started
    && (id in s.q.jobs ==> r.path == Expand(s.q.jobs[id].outputPath, id))
    && (!r.aim.NoAim? ==> r.earlyCompleted && r.path != "")
    && (r.aim.At? ==> AimOk(s, r))
  }

  ghost predicate AimOk(s: Sys, r: Reader)
    requires r.aim.At?
  {
    && (r.aim.target.Some? ==> r.aim.target.value in s.started)
    && r.aim.result.earlyComplete && r.aim.result.trainingComplete && r.aim.result.returnCode == 0
    && r.aim.result.outputPath == Some(r.path)
  }

  /** What was asked for when the job was submitted. */
  predicate SameRequest(a: Job, b: Job) {
    a.cmd == b.cmd && a.outputPath == b.outputPath && a.submittedAt == b.submittedAt
  }

  /** The job in hand asks for what the table has for it. */
  ghost predicate JobOk(s: Sys) {
    (s.phase.Taken? || s.phase.Handling?) && s.phase.id in s.q.jobs ==>
      SameRequest(s.phase.job, s.q.jobs[s.phase.id])
  }

  ghost predicate RunInv(s: Sys) {
    && Inv(s.q)
    && OneRunning(s.q)
    && InOrder(s)
    && PhaseOk(s)
    && IdsOk(s)
    && JobOk(s)
    && (forall id :: id in s.readers ==> ReaderOk(s, id))
  }
}
