/** The queue object: fields updated under one lock, every method tied to its operation on values. */
module Jobs {
  import opened Options
  import opened QueueState

  datatype QueueStatus = QueueStatus(queueLength: nat, pending: nat, running: nat, completed: nat, failed: nat,
                                     currentJobId: Option<JobId>)

  function Count(ids: seq<JobId>, q: Queue, status: Status): nat {
    if ids == [] then 0
    else Count(ids[..|ids| - 1], q, status) + if q.Has(ids[|ids| - 1], status) then 1 else 0
  }

  class JobQueue {
    const maxHistory: nat
    var queue: seq<JobId>
    var jobs: map<JobId, Job>
    var order: seq<JobId>
    var current: Option<JobId>
    var wake: bool

    ghost function State(): Queue
      reads this
    {
      Queue(queue, jobs, order, current, wake)
    }

    ghost predicate Valid()
      reads this
    {
      Inv(State())
    }

    constructor (maxHistory: nat)
      ensures Valid() && State() == EMPTY && this.maxHistory == maxHistory
    {
      this.maxHistory := maxHistory;
      queue, jobs, order, current, wake := [], map[], [], None, false;
    }

    /** The queue stays valid exactly when no job of that id is waiting. */
    method Submit(id: JobId, cmd: string, outputPath: string, submittedAt: int)
      requires Valid()
      modifies this
      ensures State() == QueueState.Submit(old(State()), id, NewJob(cmd, outputPath, submittedAt), maxHistory)
      ensures Valid() <==> !old(State()).Has(id, Pending)
      ensures id in jobs && jobs[id] == Job(cmd, outputPath, submittedAt, Pending, 0.0, None, None)
      ensures queue == old(queue) + [id] && wake && current == old(current)
      ensures KeptFrom(old(jobs)[id := jobs[id]], jobs)
    {
      ghost var before := State();
      SubmitEffect(before, id, cmd, outputPath, submittedAt, maxHistory);
      AppendKeepsExactlyWhen(before, id, NewJob(cmd, outputPath, submittedAt));
      queue := queue + [id];
      if id !in jobs {
        order := order + [id];
      }
      jobs := jobs[id := NewJob(cmd, outputPath, submittedAt)];
      wake := true;
      assert State() == Append(before, id, NewJob(cmd, outputPath, submittedAt));
      CleanupOldJobs();
    }

    method CleanupOldJobs()
      requires Listed(State())
      modifies this
      ensures State() == Cleanup(old(State()), maxHistory)
      ensures Valid() <==> old(Valid())
      ensures KeptFrom(old(jobs), jobs)
      ensures |old(jobs)| <= 2 * maxHistory ==> jobs == old(jobs)
    {
      CleanupKeeps(State(), maxHistory);
      CleanupKept(State(), maxHistory);
      if |jobs| > maxHistory * 2 {
        var keep := KeepRecent(NewestFirst(order, jobs));
        jobs, order := Restrict(jobs, keep), keep;
      }
    }

    method KeepRecent(sorted: seq<JobId>) returns (keep: seq<JobId>)
      requires forall x :: x in sorted ==> x in jobs
      ensures keep == Keep(sorted, jobs, maxHistory)
    {
      keep := [];
      for i := 0 to |sorted|
        invariant keep == Keep(sorted[..i], jobs, maxHistory)
      {
        assert sorted[..i + 1][..i] == sorted[..i];
        if jobs[sorted[i]].status == Pending || jobs[sorted[i]].status == Running {
          keep := keep + [sorted[i]];
        } else if |keep| < maxHistory {
          keep := keep + [sorted[i]];
        }
      }
      assert sorted[..|sorted|] == sorted;
    }

    /** `woken` is what the wait on the wake-up flag returned, before the lock was taken. */
    method GetNext(woken: bool) returns (job: Option<JobId>)
      requires Valid()
      modifies this
      ensures Valid()
      ensures if woken && old(queue) != []
              then old(queue)[0] in old(jobs) && job == Some(old(queue)[0]) && State() == Take(old(State()))
              else job == None && State() == old(State())
    {
      job := None;
      if woken && queue != [] {
        TakeKeeps(State());
        var id := queue[0];
        queue := queue[1..];
        jobs := jobs[id := jobs[id].(status := Running)];
        current := Some(id);
        if queue == [] {
          wake := false;
        }
        job := Some(id);
      }
    }

    method CompleteJob(id: JobId, result: JobResult)
      modifies this
      ensures State() == Complete(old(State()), id, result)
      ensures old(Valid()) ==> (Valid() <==> !old(State()).Has(id, Pending))
    {
      if Inv(State()) {
        FinishKeepsExactlyWhen(State(), id, result, "");
      }
      if id in jobs {
        if jobs[id].status == Completed {
          return;
        }
        jobs := jobs[id := jobs[id].(status := Completed, result := Some(result), progress := 100.0)];
        if current == Some(id) {
          current := None;
        }
      }
    }

    method FailJob(id: JobId, error: string)
      modifies this
      ensures State() == Fail(old(State()), id, error)
      ensures old(Valid()) ==> (Valid() <==> !old(State()).Has(id, Pending))
    {
      if Inv(State()) {
        FinishKeepsExactlyWhen(State(), id, JobResult(0, false, false, 0.0, None, ""), error);
      }
      if id in jobs {
        if jobs[id].status == Completed {
          return;
        }
        jobs := jobs[id := jobs[id].(status := Failed, error := Some(error))];
        if current == Some(id) {
          current := None;
        }
      }
    }

    method UpdateProgress(id: JobId, progress: real)
      modifies this
      ensures State() == Progress(old(State()), id, progress)
      ensures old(Valid()) ==> Valid()
    {
      if Inv(State()) {
        ProgressKeeps(State(), id, progress);
      }
      if id in jobs {
        jobs := jobs[id := jobs[id].(progress := progress)];
      }
    }

    method CancelJob(id: JobId) returns (cancelled: bool)
      requires Valid()
      modifies this
      ensures Valid() && State() == Cancel(old(State()), id)
      ensures cancelled <==> old(State()).Has(id, Pending)
    {
      CancelKeeps(State(), id);
      cancelled := false;
      if id in jobs && jobs[id].status == Pending {
        jobs := jobs[id := jobs[id].(status := Cancelled)];
        queue := Without(queue, {id});
        if queue == [] {
          wake := false;
        }
        cancelled := true;
      }
    }

    /** The pending count reported is the length of the deque. */
    method GetQueueStatus() returns (s: QueueStatus)
      requires Valid()
      ensures s.pending == s.queueLength == |queue|
      ensures s.running == Count(order, State(), Running) && s.completed == Count(order, State(), Completed)
      ensures s.failed == Count(order, State(), Failed) && s.currentJobId == current
    {
      var pending, running, completed, failed := 0, 0, 0, 0;
      for i := 0 to |order|
        invariant pending == Count(order[..i], State(), Pending) && running == Count(order[..i], State(), Running)
        invariant completed == Count(order[..i], State(), Completed) && failed == Count(order[..i], State(), Failed)
      {
        assert order[..i + 1][..i] == order[..i];
        match jobs[order[i]].status {
          case Pending => pending := pending + 1;
          case Running => running := running + 1;
          case Completed => completed := completed + 1;
          case Failed => failed := failed + 1;
          case Cancelled =>
        }
      }
      assert order[..|order|] == order;
      PendingCount(State());
      s := QueueStatus(|queue|, pending, running, completed, failed, current);
    }
  }

  function Elements<T>(s: seq<T>): set<T> {
    set x | x in s
  }

  lemma {:induction false} NoDupSize<T>(s: seq<T>)
    requires NoDup(s)
    ensures |Elements(s)| == |s|
  {
    if s != [] {
      var n := |s| - 1;
      NoDupSize(s[..n]);
      assert s == s[..n] + [s[n]];
      assert Elements(s) == Elements(s[..n]) + {s[n]};
    }
  }

  ghost function WithStatus(ids: seq<JobId>, q: Queue, status: Status): set<JobId> {
    set id | id in ids && q.Has(id, status)
  }

  lemma WithStatusSnoc(ids: seq<JobId>, id: JobId, q: Queue, status: Status)
    ensures WithStatus(ids + [id], q, status) == WithStatus(ids, q, status) + (if q.Has(id, status) then {id} else {})
  {
  }

  lemma {:induction false} CountIsSize(ids: seq<JobId>, q: Queue, status: Status)
    requires NoDup(ids)
    ensures Count(ids, q, status) == |WithStatus(ids, q, status)|
  {
    if ids != [] {
      var n := |ids| - 1;
      CountIsSize(ids[..n], q, status);
      assert ids == ids[..n] + [ids[n]];
      assert ids[n] !in ids[..n];
      WithStatusSnoc(ids[..n], ids[n], q, status);
    }
  }

  lemma PendingCount(q: Queue)
    requires Inv(q)
    ensures Count(q.order, q, Pending) == |q.queue|
  {
    CountIsSize(q.order, q, Pending);
    NoDupSize(q.queue);
    assert Elements(q.queue) == WithStatus(q.order, q, Pending);
  }
}
