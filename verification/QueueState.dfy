/**
 The training job queue. `Queue` is its state as a value with one function per locked
 operation; the class performs the same operations on its fields.
 */
module QueueState {
  import opened Options

  type JobId = string

  datatype Status = Pending | Running | Completed | Failed | Cancelled

  /** The result a handler stores with a job; `payload` stands for the fields not looked at here. */
  datatype JobResult = JobResult(returnCode: int, trainingComplete: bool, earlyComplete: bool, finalProgress: real,
                                 outputPath: Option<string>, payload: string)

  /** `outputPath` is the path asked for in the job's data, empty when there is none;
      `submittedAt` is an ordered time key. */
  datatype Job = Job(cmd: string, outputPath: string, submittedAt: int, status: Status, progress: real,
                     result: Option<JobResult>, error: Option<string>) {

    /** Waiting or running: never removed from the history. */
    predicate Active() {
      status == Pending || status == Running
    }

    predicate Terminal() {
      !Active()
    }
  }

  function NewJob(cmd: string, outputPath: string, submittedAt: int): Job {
    Job(cmd, outputPath, submittedAt, Pending, 0.0, None, None)
  }

  /** `order` is the insertion order of the job table. */
  datatype Queue = Queue(queue: seq<JobId>, jobs: map<JobId, Job>, order: seq<JobId>, current: Option<JobId>,
                         wake: bool) {

    predicate Has(id: JobId, status: Status) {
      id in jobs && jobs[id].status == status
    }
  }

  const EMPTY := Queue([], map[], [], None, false)

  // ---- Sequences of ids ----

  ghost predicate NoDup<T>(s: seq<T>) {
    forall i, j :: 0 <= i < j < |s| ==> s[i] != s[j]
  }

  function Without(s: seq<JobId>, gone: set<JobId>): (r: seq<JobId>)
    ensures forall id :: id in r <==> id in s && id !in gone
    ensures NoDup(s) ==> NoDup(r)
  {
    if s == [] then []
    else
      var n := |s| - 1;
      assert s == s[..n] + [s[n]];
      Without(s[..n], gone) + (if s[n] in gone then [] else [s[n]])
  }

  // ---- History clean-up ----

  /** Stable newest-first sorting, one id at a time. */
  function Insert(sorted: seq<JobId>, id: JobId, jobs: map<JobId, Job>): seq<JobId>
    requires id in jobs && forall x :: x in sorted ==> x in jobs
  {
    if sorted == [] || jobs[sorted[|sorted| - 1]].submittedAt >= jobs[id].submittedAt then sorted + [id]
    else Insert(sorted[..|sorted| - 1], id, jobs) + [sorted[|sorted| - 1]]
  }

  function NewestFirst(order: seq<JobId>, jobs: map<JobId, Job>): (r: seq<JobId>)
    requires forall x :: x in order ==> x in jobs
    ensures multiset(r) == multiset(order)
    ensures forall x :: x in r <==> x in order
  {
    if order == [] then []
    else
      var n := |order| - 1;
      assert order == order[..n] + [order[n]];
      InsertContents(NewestFirst(order[..n], jobs), order[n], jobs);
      Insert(NewestFirst(order[..n], jobs), order[n], jobs)
  }

  lemma {:induction false} InsertContents(sorted: seq<JobId>, id: JobId, jobs: map<JobId, Job>)
    requires id in jobs && forall x :: x in sorted ==> x in jobs
    ensures multiset(Insert(sorted, id, jobs)) == multiset(sorted) + multiset{id}
    ensures forall x :: x in Insert(sorted, id, jobs) <==> x in sorted || x == id
  {
    if !(sorted == [] || jobs[sorted[|sorted| - 1]].submittedAt >= jobs[id].submittedAt) {
      var n := |sorted| - 1;
      InsertContents(sorted[..n], id, jobs);
      assert sorted == sorted[..n] + [sorted[n]];
    }
  }

  /** The active jobs, and the others while fewer than `max` jobs have been kept. */
  function Keep(sorted: seq<JobId>, jobs: map<JobId, Job>, max: nat): (r: seq<JobId>)
    requires forall x :: x in sorted ==> x in jobs
    ensures forall x :: x in r ==> x in sorted
  {
    if sorted == [] then []
    else
      var n := |sorted| - 1;
      var kept := Keep(sorted[..n], jobs, max);
      if jobs[sorted[n]].Active() || |kept| < max then kept + [sorted[n]] else kept
  }

  function Restrict(jobs: map<JobId, Job>, ids: seq<JobId>): map<JobId, Job> {
    map id | id in jobs && id in ids :: jobs[id]
  }

  function Cleanup(q: Queue, max: nat): Queue
    requires forall x :: x in q.order ==> x in q.jobs
  {
    if |q.jobs| > max * 2 then
      var kept := Keep(NewestFirst(q.order, q.jobs), q.jobs, max);
      q.(jobs := Restrict(q.jobs, kept), order := kept)
    else q
  }

  // ---- The operations ----

  /** An id already in the table keeps its place there and gets the new job. */
  function Append(q: Queue, id: JobId, job: Job): Queue {
    q.(queue := q.queue + [id], jobs := q.jobs[id := job],
       order := if id in q.jobs then q.order else q.order + [id], wake := true)
  }

  function Submit(q: Queue, id: JobId, job: Job, max: nat): Queue
    requires forall x :: x in q.order ==> x in q.jobs
  {
    Cleanup(Append(q, id, job), max)
  }

  function Take(q: Queue): Queue
    requires q.queue != [] && q.queue[0] in q.jobs
  {
    var id := q.queue[0];
    q.(queue := q.queue[1..], jobs := q.jobs[id := q.jobs[id].(status := Running)], current := Some(id),
       wake := q.wake && q.queue[1..] != [])
  }

  function Release(current: Option<JobId>, id: JobId): Option<JobId> {
    if current == Some(id) then None else current
  }

  function Complete(q: Queue, id: JobId, result: JobResult): Queue {
    if id !in q.jobs || q.jobs[id].status == Completed then q
    else q.(jobs := q.jobs[id := q.jobs[id].(status := Completed, result := Some(result), progress := 100.0)],
            current := Release(q.current, id))
  }

  function Fail(q: Queue, id: JobId, error: string): Queue {
    if id !in q.jobs || q.jobs[id].status == Completed then q
    else q.(jobs := q.jobs[id := q.jobs[id].(status := Failed, error := Some(error))],
            current := Release(q.current, id))
  }

  function Progress(q: Queue, id: JobId, progress: real): Queue {
    if id !in q.jobs then q else q.(jobs := q.jobs[id := q.jobs[id].(progress := progress)])
  }

  function Cancel(q: Queue, id: JobId): Queue {
    if !q.Has(id, Pending) then q
    else
      var rest := Without(q.queue, {id});
      q.(jobs := q.jobs[id := q.jobs[id].(status := Cancelled)], queue := rest, wake := q.wake && rest != [])
  }

  // ---- The invariant ----

  /** The deque holds exactly the pending jobs, each once; the wake-up flag is set exactly when
      it is non-empty; the insertion order lists the job table, each id once. */
  ghost predicate Inv(q: Queue) {
    && NoDup(q.queue)
    && (forall id :: id in q.queue <==> q.Has(id, Pending))
    && (q.wake <==> q.queue != [])
    && Listed(q)
  }

  ghost predicate Listed(q: Queue) {
    NoDup(q.order) && forall id :: id in q.order <==> id in q.jobs
  }

  /** Submission keeps the invariant exactly when no job of that id is waiting. */
  lemma AppendKeepsExactlyWhen(q: Queue, id: JobId, job: Job)
    requires Inv(q) && job.status == Pending
    ensures Inv(Append(q, id, job)) <==> !q.Has(id, Pending)
  {
    var p := Append(q, id, job);
    assert id in q.queue <==> q.Has(id, Pending);
    if q.Has(id, Pending) {
      var i :| 0 <= i < |q.queue| && q.queue[i] == id;
      assert p.queue[i] == p.queue[|q.queue|];
    } else {
      forall x ensures x in p.queue <==> p.Has(x, Pending) {
        assert x in p.queue <==> x in q.queue || x == id;
        assert x in q.queue <==> q.Has(x, Pending);
      }
    }
  }

  lemma {:induction false} KeepNoDup(sorted: seq<JobId>, jobs: map<JobId, Job>, max: nat)
    requires NoDup(sorted) && forall x :: x in sorted ==> x in jobs
    ensures NoDup(Keep(sorted, jobs, max))
    ensures forall x :: x in sorted && jobs[x].Active() ==> x in Keep(sorted, jobs, max)
  {
    if sorted != [] {
      var n := |sorted| - 1;
      KeepNoDup(sorted[..n], jobs, max);
      assert sorted == sorted[..n] + [sorted[n]];
      assert sorted[n] !in sorted[..n];
    }
  }

  lemma {:induction false} NoDupByCount<T>(s: seq<T>)
    ensures NoDup(s) <==> forall x :: multiset(s)[x] <= 1
  {
    if s != [] {
      var n := |s| - 1;
      NoDupByCount(s[..n]);
      assert s == s[..n] + [s[n]];
      if NoDup(s) {
        forall x ensures multiset(s)[x] <= 1 {
          if x == s[n] {
            assert x !in s[..n];
            assert multiset(s[..n])[x] == 0;
          }
        }
      }
      if forall x :: multiset(s)[x] <= 1 {
        forall x ensures multiset(s[..n])[x] <= 1 {
          assert multiset(s)[x] <= 1;
        }
        assert multiset(s)[s[n]] <= 1;
        assert s[n] !in multiset(s[..n]);
        assert s[n] !in s[..n];
      }
    }
  }

  /** Clean-up keeps every active job and changes no job it keeps; so the deque invariant holds
      after it exactly when it held before. */
  lemma CleanupKeeps(q: Queue, max: nat)
    requires Listed(q)
    ensures var p := Cleanup(q, max);
            && Listed(p) && p.queue == q.queue && p.wake == q.wake && p.current == q.current
            && (Inv(p) <==> Inv(q))
            && (forall id :: id in q.jobs && q.jobs[id].Active() ==> id in p.jobs)
            && (forall id :: id in p.jobs ==> id in q.jobs && p.jobs[id] == q.jobs[id])
  {
    if |q.jobs| > max * 2 {
      var sorted := NewestFirst(q.order, q.jobs);
      NoDupByCount(q.order);
      NoDupByCount(sorted);
      KeepNoDup(sorted, q.jobs, max);
      var p := Cleanup(q, max);
      forall id ensures p.Has(id, Pending) <==> q.Has(id, Pending) {
      }
      SameDeque(q, p);
    }
  }

  lemma SameDeque(q: Queue, p: Queue)
    requires Listed(q) && Listed(p) && p.queue == q.queue && p.wake == q.wake
    requires forall id :: p.Has(id, Pending) <==> q.Has(id, Pending)
    ensures Inv(p) <==> Inv(q)
  {
  }

  lemma TakeKeeps(q: Queue)
    requires Inv(q) && q.queue != []
    ensures q.queue[0] in q.jobs && Inv(Take(q))
  {
    var id := q.queue[0];
    assert q.Has(id, Pending);
    var p := Take(q);
    forall x ensures x in p.queue <==> p.Has(x, Pending) {
      assert q.queue == [id] + p.queue;
      assert x in q.queue <==> q.Has(x, Pending);
    }
  }

  /** Completing or failing keeps the invariant exactly when the job is not waiting in the deque. */
  lemma FinishKeepsExactlyWhen(q: Queue, id: JobId, result: JobResult, error: string)
    requires Inv(q)
    ensures Inv(Complete(q, id, result)) <==> !q.Has(id, Pending)
    ensures Inv(Fail(q, id, error)) <==> !q.Has(id, Pending)
  {
    var c, f := Complete(q, id, result), Fail(q, id, error);
    assert id in q.queue <==> q.Has(id, Pending);
    if q.Has(id, Pending) {
      assert id in c.queue && !c.Has(id, Pending);
      assert id in f.queue && !f.Has(id, Pending);
    } else {
      forall x ensures (x in c.queue <==> c.Has(x, Pending)) && (x in f.queue <==> f.Has(x, Pending)) {
        assert x in q.queue <==> q.Has(x, Pending);
      }
    }
  }

  lemma ProgressKeeps(q: Queue, id: JobId, progress: real)
    requires Inv(q)
    ensures Inv(Progress(q, id, progress))
  {
    var p := Progress(q, id, progress);
    forall x ensures x in p.queue <==> p.Has(x, Pending) {
      assert x in q.queue <==> q.Has(x, Pending);
    }
  }

  lemma CancelKeeps(q: Queue, id: JobId)
    requires Inv(q)
    ensures Inv(Cancel(q, id))
  {
    var p := Cancel(q, id);
    if q.Has(id, Pending) {
      forall x ensures x in p.queue <==> p.Has(x, Pending) {
        assert x in q.queue <==> q.Has(x, Pending);
      }
    }
  }

  /** Some jobs may be gone, but no waiting or running one, and none has changed. */
  predicate KeptFrom(before: map<JobId, Job>, after: map<JobId, Job>) {
    && (forall id :: id in after ==> id in before && after[id] == before[id])
    && (forall id :: id in before && before[id].Active() ==> id in after)
  }

  lemma CleanupKept(q: Queue, max: nat)
    requires Listed(q)
    ensures KeptFrom(q.jobs, Cleanup(q, max).jobs)
  {
    CleanupKeeps(q, max);
  }

  lemma AppendListed(q: Queue, id: JobId, job: Job)
    requires Listed(q)
    ensures Listed(Append(q, id, job))
  {
    if id !in q.jobs {
      assert id !in q.order;
    }
  }

  /** What submission leaves: the job just as submitted, at the end of the deque, and the others. */
  lemma SubmitEffect(q: Queue, id: JobId, cmd: string, path: string, key: int, max: nat)
    requires Listed(q)
    ensures var p := Submit(q, id, NewJob(cmd, path, key), max);
            && id in p.jobs && p.jobs[id] == Job(cmd, path, key, Pending, 0.0, None, None)
            && p.queue == q.queue + [id] && p.wake && p.current == q.current
            && KeptFrom(q.jobs[id := p.jobs[id]], p.jobs)
  {
    var job := NewJob(cmd, path, key);
    AppendListed(q, id, job);
    CleanupKept(Append(q, id, job), max);
    assert job.Active();
  }
}
