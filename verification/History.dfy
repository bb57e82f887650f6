/** What the clean-up of the job history keeps and drops. */
module History {
  import opened QueueState

  ghost predicate SortedNewestFirst(ids: seq<JobId>, jobs: map<JobId, Job>)
    requires forall x :: x in ids ==> x in jobs
  {
    forall i, j :: 0 <= i < j < |ids| ==> jobs[ids[i]].submittedAt >= jobs[ids[j]].submittedAt
  }

  lemma SortedSnoc(ids: seq<JobId>, id: JobId, jobs: map<JobId, Job>)
    requires id in jobs && (forall x :: x in ids ==> x in jobs) && SortedNewestFirst(ids, jobs)
    requires forall x :: x in ids ==> jobs[x].submittedAt >= jobs[id].submittedAt
    ensures SortedNewestFirst(ids + [id], jobs)
  {
  }

  lemma LastIsOldest(ids: seq<JobId>, jobs: map<JobId, Job>)
    requires ids != [] && (forall x :: x in ids ==> x in jobs) && SortedNewestFirst(ids, jobs)
    ensures forall x :: x in ids ==> jobs[x].submittedAt >= jobs[ids[|ids| - 1]].submittedAt
  {
  }

  lemma {:induction false} InsertSorted(sorted: seq<JobId>, id: JobId, jobs: map<JobId, Job>)
    requires id in jobs && (forall x :: x in sorted ==> x in jobs) && SortedNewestFirst(sorted, jobs)
    ensures forall x :: x in Insert(sorted, id, jobs) ==> x in jobs
    ensures SortedNewestFirst(Insert(sorted, id, jobs), jobs)
  {
    InsertContents(sorted, id, jobs);
    if sorted == [] {
    } else {
      var n := |sorted| - 1;
      LastIsOldest(sorted, jobs);
      if jobs[sorted[n]].submittedAt >= jobs[id].submittedAt {
        SortedSnoc(sorted, id, jobs);
      } else {
        InsertSorted(sorted[..n], id, jobs);
        InsertContents(sorted[..n], id, jobs);
        SortedSnoc(Insert(sorted[..n], id, jobs), sorted[n], jobs);
      }
    }
  }

  lemma {:induction false} NewestFirstSorts(order: seq<JobId>, jobs: map<JobId, Job>)
    requires forall x :: x in order ==> x in jobs
    ensures SortedNewestFirst(NewestFirst(order, jobs), jobs)
  {
    if order != [] {
      var n := |order| - 1;
      NewestFirstSorts(order[..n], jobs);
      InsertSorted(NewestFirst(order[..n], jobs), order[n], jobs);
    }
  }

  /** `x` stands somewhere before `y`. */
  ghost predicate Precedes(ids: seq<JobId>, x: JobId, y: JobId) {
    exists i, j :: 0 <= i < j < |ids| && ids[i] == x && ids[j] == y
  }

  lemma PrecedesSnoc(ids: seq<JobId>, id: JobId, x: JobId, y: JobId)
    ensures Precedes(ids + [id], x, y) <==> Precedes(ids, x, y) || (x in ids && y == id)
  {
    var all := ids + [id];
    if Precedes(all, x, y) {
      var i, j :| 0 <= i < j < |all| && all[i] == x && all[j] == y;
      assert j < |ids| ==> ids[i] == x && ids[j] == y;
    }
    if Precedes(ids, x, y) {
      var i, j :| 0 <= i < j < |ids| && ids[i] == x && ids[j] == y;
      assert all[i] == x && all[j] == y;
    }
    if x in ids && y == id {
      var i :| 0 <= i < |ids| && ids[i] == x;
      assert all[i] == x && all[|ids|] == y;
    }
  }

  /** Inserting keeps the order of the others, and puts the id behind everything not older. */
  lemma {:induction false} InsertKeepsOrder(sorted: seq<JobId>, id: JobId, jobs: map<JobId, Job>, x: JobId, y: JobId)
    requires id in jobs && (forall z :: z in sorted ==> z in jobs) && SortedNewestFirst(sorted, jobs)
    ensures Precedes(sorted, x, y) ==> Precedes(Insert(sorted, id, jobs), x, y)
    ensures x in sorted && jobs[x].submittedAt >= jobs[id].submittedAt ==> Precedes(Insert(sorted, id, jobs), x, id)
  {
    PrecedesSnoc(sorted, id, x, y);
    PrecedesSnoc(sorted, id, x, id);
    if sorted != [] && jobs[sorted[|sorted| - 1]].submittedAt < jobs[id].submittedAt {
      var n := |sorted| - 1;
      var front, last := sorted[..n], sorted[n];
      assert sorted == front + [last];
      InsertKeepsOrder(front, id, jobs, x, y);
      InsertContents(front, id, jobs);
      PrecedesSnoc(front, last, x, y);
      PrecedesSnoc(Insert(front, id, jobs), last, x, y);
      PrecedesSnoc(Insert(front, id, jobs), last, x, id);
    }
  }

  /** Jobs submitted at the same time stay in the order of the table. */
  lemma {:induction false} NewestFirstIsStable(order: seq<JobId>, jobs: map<JobId, Job>, x: JobId, y: JobId)
    requires (forall z :: z in order ==> z in jobs) && Precedes(order, x, y)
    requires jobs[x].submittedAt >= jobs[y].submittedAt
    ensures Precedes(NewestFirst(order, jobs), x, y)
  {
    var n := |order| - 1;
    var before, id := order[..n], order[n];
    assert order == before + [id];
    PrecedesSnoc(before, id, x, y);
    NewestFirstSorts(before, jobs);
    InsertKeepsOrder(NewestFirst(before, jobs), id, jobs, x, y);
    if Precedes(before, x, y) {
      NewestFirstIsStable(before, jobs, x, y);
    }
  }

  function Finished(ids: seq<JobId>, jobs: map<JobId, Job>): nat
    requires forall x :: x in ids ==> x in jobs
  {
    if ids == [] then 0
    else Finished(ids[..|ids| - 1], jobs) + if jobs[ids[|ids| - 1]].Terminal() then 1 else 0
  }

  /** `Keep` keeps active jobs always and at most `max` finished ones, and drops none before
      `max` jobs are kept. */
  lemma {:induction false} KeepCounts(sorted: seq<JobId>, jobs: map<JobId, Job>, max: nat)
    requires forall x :: x in sorted ==> x in jobs
    ensures var kept := Keep(sorted, jobs, max);
            && (forall x :: x in sorted && jobs[x].Active() ==> x in kept)
            && Finished(kept, jobs) <= max && Finished(kept, jobs) <= |kept|
            && ((exists x :: x in sorted && x !in kept) ==> |kept| >= max)
  {
    if sorted != [] {
      var n := |sorted| - 1;
      var front, last := sorted[..n], sorted[n];
      assert sorted == front + [last];
      KeepCounts(front, jobs, max);
      var before := Keep(front, jobs, max);
      assert (before + [last])[..|before|] == before;
    }
  }

  /** What comes later never drops a job already kept, and adds none from before. */
  lemma {:induction false} KeepConcat(a: seq<JobId>, b: seq<JobId>, jobs: map<JobId, Job>, max: nat, x: JobId)
    requires (forall y :: y in a + b ==> y in jobs) && x !in b
    ensures x in Keep(a + b, jobs, max) <==> x in Keep(a, jobs, max)
    decreases |b|
  {
    if b == [] {
      assert a + b == a;
    } else {
      var front := b[..|b| - 1];
      assert (a + b)[..|a + b| - 1] == a + front;
      KeepConcat(a, front, jobs, max, x);
    }
  }

  lemma KeepsLast(front: seq<JobId>, last: JobId, jobs: map<JobId, Job>, max: nat, x: JobId)
    requires (forall y :: y in front + [last] ==> y in jobs) && last !in front && x in front
    requires jobs[last].Terminal() && last in Keep(front + [last], jobs, max)
    ensures x in Keep(front + [last], jobs, max)
  {
    assert (front + [last])[..|front|] == front;
    KeepCounts(front, jobs, max);
    assert |Keep(front, jobs, max)| < max;
  }

  /** `Keep` never drops a finished job while it keeps a later one in the order. */
  lemma KeepPrefersEarlier(sorted: seq<JobId>, jobs: map<JobId, Job>, max: nat, i: nat, j: nat)
    requires NoDup(sorted) && (forall x :: x in sorted ==> x in jobs) && i < j < |sorted|
    requires jobs[sorted[i]].Terminal() && jobs[sorted[j]].Terminal()
    requires sorted[j] in Keep(sorted, jobs, max)
    ensures sorted[i] in Keep(sorted, jobs, max)
  {
    var front, x, y, rest := sorted[..j], sorted[i], sorted[j], sorted[j + 1..];
    assert sorted == (front + [y]) + rest;
    assert front[i] == x && x !in rest && y !in rest && y !in front;
    KeepConcat(front + [y], rest, jobs, max, y);
    KeepsLast(front, y, jobs, max, x);
    KeepConcat(front + [y], rest, jobs, max, x);
  }

  /** Clean-up never drops a waiting or running job, keeps at most `max` finished jobs when it
      acts, never drops a finished job while keeping one later in the newest-first order, and
      drops none while fewer than `max` jobs are kept. */
  lemma CleanupKeepsNewest(q: Queue, max: nat)
    requires Inv(q)
    ensures var p, sorted := Cleanup(q, max), NewestFirst(q.order, q.jobs);
            && Inv(p)
            && SortedNewestFirst(sorted, q.jobs)
            && (|q.jobs| > max * 2 ==> Finished(p.order, q.jobs) <= max)
            && (forall x :: x in q.jobs && q.jobs[x].Active() ==> x in p.jobs)
            && (forall i, j | 0 <= i < j < |sorted| && q.jobs[sorted[i]].Terminal() && q.jobs[sorted[j]].Terminal() ::
                  sorted[j] in p.jobs ==> sorted[i] in p.jobs)
            && ((exists x :: x in q.jobs && x !in p.jobs) ==> |p.order| >= max)
  {
    CleanupKeeps(q, max);
    NewestFirstSorts(q.order, q.jobs);
    if |q.jobs| > max * 2 {
      var sorted := NewestFirst(q.order, q.jobs);
      NoDupByCount(q.order);
      NoDupByCount(sorted);
      KeepCounts(sorted, q.jobs, max);
      forall i, j | 0 <= i < j < |sorted| && q.jobs[sorted[i]].Terminal() && q.jobs[sorted[j]].Terminal()
                    && sorted[j] in Keep(sorted, q.jobs, max)
        ensures sorted[i] in Keep(sorted, q.jobs, max)
      {
        KeepPrefersEarlier(sorted, q.jobs, max, i, j);
      }
    }
  }

  lemma SortedAt(ids: seq<JobId>, jobs: map<JobId, Job>, i: nat, j: nat)
    requires (forall x :: x in ids ==> x in jobs) && SortedNewestFirst(ids, jobs) && i < j < |ids|
    ensures jobs[ids[i]].submittedAt >= jobs[ids[j]].submittedAt
  {
  }

  /** A clean-up acts only beyond twice the limit, and drops no finished job while it keeps one
      that was submitted earlier. */
  lemma CleanupDropsOldest(q: Queue, max: nat, x: JobId, y: JobId)
    requires Listed(q)
    requires x in q.jobs && x !in Cleanup(q, max).jobs
    requires y in q.jobs && q.jobs[y].Terminal() && y in Cleanup(q, max).jobs
    ensures q.jobs[y].submittedAt >= q.jobs[x].submittedAt && |q.jobs| > 2 * max
  {
    var sorted := NewestFirst(q.order, q.jobs);
    NewestFirstSorts(q.order, q.jobs);
    NoDupByCount(q.order);
    NoDupByCount(sorted);
    KeepCounts(sorted, q.jobs, max);
    assert x in q.order && y in q.order;
    var i :| 0 <= i < |sorted| && sorted[i] == x;
    var j :| 0 <= j < |sorted| && sorted[j] == y;
    if i < j {
      KeepPrefersEarlier(sorted, q.jobs, max, i, j);
    } else {
      SortedAt(sorted, q.jobs, j, i);
    }
  }
}
