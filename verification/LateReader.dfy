/**
 Two runs in which a script times out and its reader outlives it. The source waits for the
 reader only after a normal exit, and then for ten seconds at most.
 */
module LateReader {
  import opened Options
  import opened QueueState
  import opened Worker
  import opened WorkerRuns

  lemma SmallSubmit(q: Queue, id: JobId, job: Job, max: nat)
    requires Inv(q) && id !in q.jobs && |q.jobs| < max
    ensures QueueState.Submit(q, id, job, max) == Append(q, id, job)
  {
    assert q.jobs[id := job].Keys == q.jobs.Keys + {id};
  }

  const SCRIPT := NewJob("run_script", "out", 0)
  const FAILED := SCRIPT.(status := Failed, error := Some("Script timed out"))
  const ALIVE := Reader("out", false, false, 0.0, NoAim, false)

  lemma Taken() returns (states: seq<Sys>, steps: seq<Step>)
    ensures IsRun(states, steps, 100)
    ensures states[|steps|] == Sys(Queue([], map["a" := SCRIPT.(status := Running)], ["a"], Some("a"), false),
                                   Phase.Taken("a", SCRIPT), None, map[], ["a"], ["a"], {})
  {
    var submit := Worker.Submit("a", "run_script", "out", 0);
    var s1 := Extend([INIT], [], submit, 100);
    SmallSubmit(EMPTY, "a", SCRIPT, 100);
    assert s1.q == Queue(["a"], map["a" := SCRIPT], ["a"], None, true);
    states, steps := [INIT] + [s1], [] + [submit];
    var s2 := Extend(states, steps, GetNext(true), 100);
    assert s2.q.jobs == map["a" := SCRIPT.(status := Running)];
    states, steps := states + [s2], steps + [GetNext(true)];
  }

  lemma ScriptRuns() returns (states: seq<Sys>, steps: seq<Step>)
    ensures IsRun(states, steps, 100)
    ensures states[|steps|] == Sys(Queue([], map["a" := SCRIPT.(status := Running)], ["a"], Some("a"), false),
                                   Scripting("a"), Some("a"), map["a" := ALIVE], ["a"], ["a"], {})
  {
    states, steps := Taken();
    var s3 := Extend(states, steps, SetCurrent, 100);
    states, steps := states + [s3], steps + [SetCurrent];
    var s4 := Extend(states, steps, StartScript, 100);
    states, steps := states + [s4], steps + [StartScript];
  }

  /** A run up to the time-out of script job "a": it has failed, and its reader is still alive. */
  lemma TimedOut() returns (states: seq<Sys>, steps: seq<Step>)
    ensures IsRun(states, steps, 100)
    ensures states[|steps|] == Sys(Queue([], map["a" := FAILED], ["a"], None, false),
                                   Clearing("a"), Some("a"), map["a" := ALIVE], ["a"], ["a"], {})
  {
    states, steps := ScriptRuns();
    var s5 := Extend(states, steps, ScriptTimesOut, 100);
    states, steps := states + [s5], steps + [ScriptTimesOut];
    var s6 := Extend(states, steps, Report, 100);
    assert s6.q.jobs == map["a" := FAILED];
    states, steps := states + [s6], steps + [Report];
  }

  /** The late reader turns the failed job into a completed one. */
  lemma FailedJobBecomesCompleted() returns (states: seq<Sys>, steps: seq<Step>)
    ensures IsRun(states, steps, 100)
    ensures var n := |steps| - 1;
            && n >= 0 && steps[n] == EarlyComplete("a")
            && states[n].q.Has("a", Failed) && states[n + 1].q.Has("a", Completed)
            && HitsFailedJob(states[n], steps[n])
  {
    states, steps := TimedOut();
    var line := Line("a", None, true, true);
    var s1 := Extend(states, steps, line, 100);
    states, steps := states + [s1], steps + [line];
    var s1' := Extend(states, steps, ReadCurrent("a"), 100);
    states, steps := states + [s1'], steps + [ReadCurrent("a")];
    var s2 := Extend(states, steps, EarlyComplete("a"), 100);
    states, steps := states + [s2], steps + [EarlyComplete("a")];
  }

  const NEXT := NewJob("train", "", 1)

  /** Job "b" waits while the worker is idle and the reader of "a" still alive. */
  lemma NextJobWaits() returns (states: seq<Sys>, steps: seq<Step>)
    ensures IsRun(states, steps, 100)
    ensures states[|steps|] == Sys(Queue(["b"], map["a" := FAILED, "b" := NEXT], ["a", "b"], None, true),
                                   Idle, None, map["a" := ALIVE], ["a", "b"], ["a"], {})
  {
    states, steps := TimedOut();
    var s1 := Extend(states, steps, ClearCurrent, 100);
    states, steps := states + [s1], steps + [ClearCurrent];
    var submit := Worker.Submit("b", "train", "", 1);
    assert "b"[0] != "a"[0];
    var s2 := Extend(states, steps, submit, 100);
    SmallSubmit(s1.q, "b", NEXT, 100);
    assert s2.q.jobs == map["a" := FAILED, "b" := NEXT];
    assert ["a"] + ["b"] == ["a", "b"];
    states, steps := states + [s2], steps + [submit];
  }

  /** The worker has gone on to job "b" with the reader of "a" still alive. */
  lemma NextJobRuns() returns (states: seq<Sys>, steps: seq<Step>)
    ensures IsRun(states, steps, 100)
    ensures var s := states[|steps|];
            && s.q == Queue([], map["a" := FAILED, "b" := NEXT.(status := Running)], ["a", "b"], Some("b"), false)
            && s.phase == Handling("b", NEXT) && s.currentId == Some("b") && s.readers == map["a" := ALIVE]
  {
    states, steps := NextJobWaits();
    var s3 := Extend(states, steps, GetNext(true), 100);
    assert s3.q.jobs == map["a" := FAILED, "b" := NEXT.(status := Running)];
    states, steps := states + [s3], steps + [GetNext(true)];
    var s4 := Extend(states, steps, SetCurrent, 100);
    states, steps := states + [s4], steps + [SetCurrent];
  }

  const AIMING := Reader("out", true, true, 0.0, At(Some("b"), JobResult(0, true, true, 100.0, Some("out"), "")), false)

  /** The reader of "a" has read the current job id, which is that of "b". */
  lemma NextJobIsAimedAt() returns (states: seq<Sys>, steps: seq<Step>)
    ensures IsRun(states, steps, 100)
    ensures var s := states[|steps|];
            && s.q == Queue([], map["a" := FAILED, "b" := NEXT.(status := Running)], ["a", "b"], Some("b"), false)
            && s.phase == Handling("b", NEXT) && s.readers == map["a" := AIMING]
  {
    states, steps := NextJobRuns();
    var line := Line("a", None, true, true);
    var s5 := Extend(states, steps, line, 100);
    states, steps := states + [s5], steps + [line];
    var s6 := Extend(states, steps, ReadCurrent("a"), 100);
    states, steps := states + [s6], steps + [ReadCurrent("a")];
    assert s6.readers["a"] == AIMING;
  }

  /** The late reader completes the next job, with the path of its own artifact, while that
      job's handler is still at work. */
  lemma NextJobIsCompleted() returns (states: seq<Sys>, steps: seq<Step>)
    ensures IsRun(states, steps, 100)
    ensures var n := |steps| - 1;
            && n >= 0 && steps[n] == EarlyComplete("a")
            && states[n + 1].phase == Handling("b", NEXT) && !AimsOwn(states[n])
            && states[n].q.Has("b", Running) && states[n + 1].q.Has("b", Completed)
            && states[n + 1].q.jobs["b"].result.Some?
            && states[n + 1].q.jobs["b"].result.value.outputPath == Some("out")
  {
    states, steps := NextJobIsAimedAt();
    assert states[|steps|].readers["a"] == AIMING && "b"[0] != "a"[0];
    var s := Extend(states, steps, EarlyComplete("a"), 100);
    states, steps := states + [s], steps + [EarlyComplete("a")];
  }
}
