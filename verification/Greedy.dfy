/**
 What a scheduling pass promises to the runs in its queue.
 */
module Greedy {
  import opened Options
  import opened Lifecycle
  import opened Tables
  import opened Consistency
  import opened Ordering
  import opened Scheduler

  ghost predicate Positive(db: Tables) {
    forall r :: 0 <= r < |db.runs| ==> db.runs[r].cpu > 0 && db.runs[r].memory > 0
  }

  /** During a pass workers only lose room, runs outside the queue are left alone, runs of the
      queue keep what they ask for, and leases are only added. */
  ghost predicate Narrows(d: Tables, e: Tables, queue: seq<nat>) {
    && |e.workers| == |d.workers| && |e.runs| == |d.runs| && d.allocs <= e.allocs
    && (forall w :: 0 <= w < |d.workers| ==>
          && SameWorker(d.workers[w], e.workers[w])
          && e.workers[w].freeCpu <= d.workers[w].freeCpu && e.workers[w].freeMemory <= d.workers[w].freeMemory)
    && (forall r :: 0 <= r < |d.runs| ==>
          && SameRequest(d.runs[r], e.runs[r])
          && (r !in queue || d.runs[r].status != Queued || e.runs[r].status == Queued ==> e.runs[r] == d.runs[r]))
  }

  lemma PlaceOneNarrows(cfg: Settings, db: Tables, r: nat, now: int)
    requires Positive(db)
    ensures var e := PlaceOne(cfg, db, r, now); Narrows(db, e, [r]) && Positive(e)
  {
  }

  lemma {:induction false} PlaceAllNarrows(cfg: Settings, db: Tables, queue: seq<nat>, now: int)
    requires Positive(db)
    ensures var e := PlaceAll(cfg, db, queue, now); Narrows(db, e, queue) && Positive(e)
    decreases |queue|
  {
    if queue != [] {
      PlaceOneNarrows(cfg, db, queue[0], now);
      PlaceAllNarrows(cfg, PlaceOne(cfg, db, queue[0], now), queue[1..], now);
    }
  }

  lemma {:induction false} PlaceInTurns(cfg: Settings, db: Tables, first: seq<nat>, rest: seq<nat>, now: int)
    ensures PlaceAll(cfg, db, first + rest, now) == PlaceAll(cfg, PlaceAll(cfg, db, first, now), rest, now)
    decreases |first|
  {
    if first == [] {
      assert first + rest == rest;
    } else {
      assert (first + rest)[1..] == first[1..] + rest;
      PlaceInTurns(cfg, PlaceOne(cfg, db, first[0], now), first[1..], rest, now);
    }
  }

  /** The tables hold the same workers and allocations and, for the runs in `ids`, the same rows;
      other runs and messages may differ. */
  ghost predicate Agree(d: Tables, e: Tables, ids: seq<nat>) {
    && d.workers == e.workers && d.allocs == e.allocs
    && forall r :: r in ids ==> r < |d.runs| && r < |e.runs| && d.runs[r] == e.runs[r]
  }

  lemma PlaceOneAgrees(cfg: Settings, d: Tables, e: Tables, ids: seq<nat>, r: nat, now: int)
    requires Agree(d, e, ids) && r in ids
    ensures Agree(PlaceOne(cfg, d, r, now), PlaceOne(cfg, e, r, now), ids)
  {
  }

  /** Placement looks at workers, allocations and the rows of the queue, and at nothing else. */
  lemma {:induction false} PlaceAllAgrees(cfg: Settings, d: Tables, e: Tables, ids: seq<nat>, queue: seq<nat>, now: int)
    requires Agree(d, e, ids) && forall r :: r in queue ==> r in ids
    ensures Agree(PlaceAll(cfg, d, queue, now), PlaceAll(cfg, e, queue, now), ids)
    decreases |queue|
  {
    if queue != [] {
      hide Agree, PlaceOne;
      PlaceOneAgrees(cfg, d, e, ids, queue[0], now);
      PlaceAllAgrees(cfg, PlaceOne(cfg, d, queue[0], now), PlaceOne(cfg, e, queue[0], now), ids, queue[1..], now);
    }
  }

  /** Placing more runs leaves the runs placed before, and their leases, alone. */
  lemma LaterRunsAdd(cfg: Settings, db: Tables, first: seq<nat>, rest: seq<nat>, now: int)
    requires Positive(db) && forall r :: r in first ==> r !in rest && r < |db.runs|
    ensures var done, all := PlaceAll(cfg, db, first, now), PlaceAll(cfg, db, first + rest, now);
            && done.allocs <= all.allocs && |db.runs| == |done.runs| == |all.runs|
            && forall r :: r in first ==> all.runs[r] == done.runs[r]
  {
    hide PlaceAll;
    PlaceInTurns(cfg, db, first, rest, now);
    PlaceAllNarrows(cfg, db, first, now);
    PlaceAllNarrows(cfg, PlaceAll(cfg, db, first, now), rest, now);
  }

  /** What was decided about the runs `first`: the same leases on both sides, ahead of all
      others, and the same rows. */
  ghost predicate SameDecisions(d: Tables, e: Tables, leases: seq<Allocation>, first: seq<nat>) {
    && leases <= d.allocs && leases <= e.allocs
    && forall r :: r in first ==> r < |d.runs| && r < |e.runs| && d.runs[r] == e.runs[r]
  }

  /** What happens to the first runs of the queue does not depend on the runs behind them: not on
      their rows, not on their number, and not on whether there are any. */
  lemma EarlierRunsUnaffected(cfg: Settings, d: Tables, e: Tables, first: seq<nat>, x: seq<nat>, y: seq<nat>, now: int)
    requires Positive(d) && Positive(e) && Agree(d, e, first) && forall r :: r in first ==> r !in x && r !in y
    ensures SameDecisions(PlaceAll(cfg, d, first + x, now), PlaceAll(cfg, e, first + y, now),
                          PlaceAll(cfg, d, first, now).allocs, first)
  {
    hide PlaceAll;
    PlaceAllAgrees(cfg, d, e, first, first, now);
    LaterRunsAdd(cfg, d, first, x, now);
    LaterRunsAdd(cfg, e, first, y, now);
  }

  ghost predicate NowhereToGo(cfg: Settings, db: Tables, run: Run, now: int) {
    forall w :: 0 <= w < |db.workers| ==>
      var row := db.workers[w];
      !(&& row.status == Online && row.beat + cfg.staleSeconds >= now
        && row.freeCpu >= run.cpu && row.freeMemory >= run.memory)
  }

  lemma StillNowhere(cfg: Settings, d: Tables, e: Tables, queue: seq<nat>, run: Run, now: int)
    requires Narrows(d, e, queue) && NowhereToGo(cfg, d, run, now)
    ensures NowhereToGo(cfg, e, run, now)
  {
    assert forall w :: 0 <= w < |e.workers| ==> SameWorker(d.workers[w], e.workers[w]);
  }

  /** Every examined run that is still queued at the end fits on no healthy worker. */
  lemma {:induction false} WaitingRunsFitNowhere(cfg: Settings, db: Tables, queue: seq<nat>, now: int, r: nat)
    requires Positive(db) && r in queue && r < |db.runs|
    ensures var e := PlaceAll(cfg, db, queue, now);
            r < |e.runs| && (e.runs[r].status == Queued ==> NowhereToGo(cfg, e, e.runs[r], now))
    decreases |queue|
  {
    var d, e := PlaceOne(cfg, db, queue[0], now), PlaceAll(cfg, db, queue, now);
    PlaceOneNarrows(cfg, db, queue[0], now);
    PlaceAllNarrows(cfg, d, queue[1..], now);
    if r == queue[0] {
      if e.runs[r].status == Queued && db.runs[r].status == Queued {
        assert d == db && PickWorker(cfg, db.workers, db.runs[r], now).None?;
        StillNowhere(cfg, d, e, queue[1..], db.runs[r], now);
      }
    } else {
      WaitingRunsFitNowhere(cfg, d, queue[1..], now, r);
    }
  }

  lemma PlaceFirst(cfg: Settings, db: Tables, r: nat, rest: seq<nat>, now: int)
    ensures PlaceAll(cfg, db, [r] + rest, now) == PlaceAll(cfg, PlaceOne(cfg, db, r, now), rest, now)
  {
    assert ([r] + rest)[1..] == rest;
  }

  /** No priority inversion: if a run keeps waiting although a later one of the queue was
      placed, the later one asked for less CPU or less memory. */
  lemma OvertakenOnlyBySmaller(cfg: Settings, db: Tables, queue: seq<nat>, now: int, i: nat, j: nat)
    requires Positive(db) && i < j < |queue| && queue[i] < |db.runs| && queue[j] < |db.runs|
    requires db.runs[queue[i]].status == Queued && db.runs[queue[j]].status == Queued
    requires var e := PlaceAll(cfg, db, queue, now);
             |e.runs| == |db.runs| && e.runs[queue[i]].status == Queued && e.runs[queue[j]].status != Queued
    requires forall k :: 0 <= k < |queue| && k != j ==> queue[k] != queue[j]
    ensures db.runs[queue[j]].cpu < db.runs[queue[i]].cpu || db.runs[queue[j]].memory < db.runs[queue[i]].memory
  {
    hide PlaceAll;
    var first, rest := queue[..j], queue[j + 1..];
    var x, y := queue[i], queue[j];
    assert queue == first + ([y] + rest);
    var mid := PlaceAll(cfg, db, first, now);
    PlaceInTurns(cfg, db, first, [y] + rest, now);
    PlaceAllNarrows(cfg, db, first, now);
    PlaceAllNarrows(cfg, mid, [y] + rest, now);
    PlaceFirst(cfg, mid, y, rest, now);
    var d := PlaceOne(cfg, mid, y, now);
    PlaceOneNarrows(cfg, mid, y, now);
    PlaceAllNarrows(cfg, d, rest, now);
    assert first[i] == x;
    WaitingRunsFitNowhere(cfg, db, first, now, x);
    assert mid.runs[x].status == Queued && mid.runs[y] == db.runs[y];
    assert PickWorker(cfg, mid.workers, mid.runs[y], now).Some?;
  }

  /** The order in which runs are served: by priority, highest first, then by age, oldest
      first, then by id. */
  predicate Ahead(runs: seq<Run>, x: nat, y: nat) {
    && x < |runs| && y < |runs|
    && (|| runs[x].priority > runs[y].priority
        || (runs[x].priority == runs[y].priority && runs[x].created < runs[y].created)
        || (runs[x].priority == runs[y].priority && runs[x].created == runs[y].created && x < y))
  }

  lemma AheadIsRank(runs: seq<Run>, x: nat, y: nat)
    requires x < |runs| && y < |runs|
    ensures Ahead(runs, x, y) <==> Before(Rank(runs), x, y)
  {
  }

  /** The queue of a pass: queued runs only, each once, in the order of `Ahead`, at most 100; a
      queued run is left out only behind 100 runs that come before it. */
  lemma QueueOk(runs: seq<Run>)
    ensures var queue := Queue(runs);
            && |queue| <= 100
            && (forall r :: r in queue ==> r < |runs| && runs[r].status == Queued)
            && (forall i, j :: 0 <= i < j < |queue| ==> Ahead(runs, queue[i], queue[j]))
            && (forall r: nat :: r < |runs| && runs[r].status == Queued && r !in queue ==>
                  |queue| == 100 && forall q :: q in queue ==> Ahead(runs, q, r))
  {
    var queued := (r: nat) => r < |runs| && runs[r].status == Queued;
    var queue := Queue(runs);
    QueryMatches(|runs|, queued, Rank(runs), BATCH);
    forall i, j | 0 <= i < j < |queue|
      ensures Ahead(runs, queue[i], queue[j])
    {
      assert queue[i] in queue && queue[j] in queue;
      AheadIsRank(runs, queue[i], queue[j]);
    }
    forall r: nat, q | r < |runs| && runs[r].status == Queued && r !in queue && q in queue
      ensures |queue| == 100 && Ahead(runs, q, r)
    {
      LeftOut(runs, r);
      AheadIsRank(runs, q, r);
    }
    forall r: nat | r < |runs| && runs[r].status == Queued && r !in queue
      ensures |queue| == 100
    {
      LeftOut(runs, r);
    }
  }

  lemma LeftOut(runs: seq<Run>, r: nat)
    requires r < |runs| && runs[r].status == Queued && r !in Queue(runs)
    ensures |Queue(runs)| == 100 && forall q :: q in Queue(runs) ==> Before(Rank(runs), q, r)
  {
    QueryOmits(|runs|, (r: nat) => r < |runs| && runs[r].status == Queued, Rank(runs), BATCH, r);
  }

  lemma PassStarts(cfg: Settings, db: Tables, now: int)
    requires Consistent(db, now, {})
    ensures Positive(Recover(cfg, db, now))
  {
    RecoverOk(cfg, db, now);
    var ready := Recover(cfg, db, now);
    assert forall r :: 0 <= r < |ready.runs| ==> RunOk(ready.runs[r], now);
  }

  /** What a whole pass does to one active allocation and its run: nothing, unless the
      allocation is doomed; and then a run that had started ends. */
  lemma PassOnLease(cfg: Settings, db: Tables, now: int, later: int, a: nat)
    requires Consistent(db, now, {}) && a < |db.allocs| && Active(db.allocs[a])
    ensures var e, r := Schedule(cfg, db, now, later), db.allocs[a].run;
            && a < |e.allocs| && r < |db.runs| == |e.runs| && LeaseOf(db.allocs, r) == Some(a)
            && db.allocs[a].worker < |db.workers|
            && (if Overdue(cfg, db, a, now)
                then Begun(db.runs[r].status) ==> Ended(e.runs[r].status)
                else e.allocs[a] == db.allocs[a] && e.runs[r] == db.runs[r])
  {
    hide Consistent, Recover, Queue;
    var ready := Recover(cfg, db, now);
    RecoverOnLease(cfg, db, now, a);
    PassStarts(cfg, db, now);
    PlaceAllNarrows(cfg, ready, Queue(ready.runs), later);
  }

  /** A run that is still queued after a pass fits on no healthy worker, unless a full batch
      of runs ranked before it was examined instead. */
  lemma PassLeavesNoRoom(cfg: Settings, db: Tables, now: int, later: int, r: nat)
    requires Consistent(db, now, {}) && r < |Recover(cfg, db, now).runs|
    ensures var ready, e := Recover(cfg, db, now), Schedule(cfg, db, now, later);
            && |e.runs| == |ready.runs|
            && (e.runs[r].status == Queued ==>
                  || NowhereToGo(cfg, e, e.runs[r], later)
                  || (&& |Queue(ready.runs)| == 100
                      && forall q :: q in Queue(ready.runs) ==> Ahead(ready.runs, q, r)))
  {
    hide Consistent, Recover, PlaceAll, Queue, NowhereToGo;
    var ready := Recover(cfg, db, now);
    var queue := Queue(ready.runs);
    PassStarts(cfg, db, now);
    PlaceAllNarrows(cfg, ready, queue, later);
    QueueOk(ready.runs);
    if r in queue {
      WaitingRunsFitNowhere(cfg, ready, queue, later, r);
    }
  }

  /** `first` are queued runs in rank order, ranked before every other queued run. */
  ghost predicate Foremost(runs: seq<Run>, first: seq<nat>) {
    && (forall r :: r in first ==> r < |runs| && runs[r].status == Queued)
    && (forall i, j :: 0 <= i < j < |first| ==> Ahead(runs, first[i], first[j]))
    && (forall r: nat, q: nat | r < |runs| && runs[r].status == Queued && r !in first && q in first ::
          Ahead(runs, q, r))
  }

  lemma ForemostFirst(runs: seq<Run>, first: seq<nat>)
    requires Foremost(runs, first) && |first| <= 100
    ensures first <= Queue(runs)
  {
    var queued := (r: nat) => r < |runs| && runs[r].status == Queued;
    forall x: nat, y: nat | x < |runs| && y < |runs|
      ensures Ahead(runs, x, y) <==> Before(Rank(runs), x, y)
    {
      AheadIsRank(runs, x, y);
    }
    hide Ahead, Rank;
    QueryPrefix(|runs|, queued, Rank(runs), BATCH, first);
  }

  lemma RestElsewhere(key: Key, queue: seq<nat>, k: nat)
    requires Sorted(key, queue) && k <= |queue|
    ensures queue == queue[..k] + queue[k..] && forall r :: r in queue[..k] ==> r !in queue[k..]
  {
    forall i, j | 0 <= i < k <= j < |queue|
      ensures queue[i] != queue[j]
    {
      assert Before(key, queue[i], queue[j]);
    }
  }

  /** The same for whole passes: two systems that agree, after recovery, on workers, allocations
      and the foremost queued runs decide alike about these runs, whatever is queued behind. */
  lemma PassDecidesInOrder(cfg: Settings, d: Tables, e: Tables, now: int, later: int, first: seq<nat>)
    requires Consistent(d, now, {}) && Consistent(e, now, {}) && |first| <= 100
    requires var x, y := Recover(cfg, d, now), Recover(cfg, e, now);
             Agree(x, y, first) && Foremost(x.runs, first) && Foremost(y.runs, first)
    ensures SameDecisions(Schedule(cfg, d, now, later), Schedule(cfg, e, now, later),
                          PlaceAll(cfg, Recover(cfg, d, now), first, later).allocs, first)
  {
    hide Consistent, Recover, Queue, PlaceAll, Agree, Foremost, SameDecisions, Positive;
    var x, y, k := Recover(cfg, d, now), Recover(cfg, e, now), |first|;
    PassStarts(cfg, d, now);
    PassStarts(cfg, e, now);
    ForemostFirst(x.runs, first);
    ForemostFirst(y.runs, first);
    var p, q := Queue(x.runs), Queue(y.runs);
    QueueSorted(x.runs);
    QueueSorted(y.runs);
    RestElsewhere(Rank(x.runs), p, k);
    RestElsewhere(Rank(y.runs), q, k);
    assert p[..k] == first && q[..k] == first;
    EarlierRunsUnaffected(cfg, x, y, first, p[k..], q[k..], later);
  }

  lemma QueueSorted(runs: seq<Run>)
    ensures Sorted(Rank(runs), Queue(runs))
  {
    QueryMatches(|runs|, (r: nat) => r < |runs| && runs[r].status == Queued, Rank(runs), BATCH);
  }

  /** A whole pass honours priority: of two runs queued when placement begins, the one with
      the better rank waits while the other is placed only if the other asked for less. */
  lemma PriorityHonoured(cfg: Settings, db: Tables, now: int, later: int, x: nat, y: nat)
    requires Consistent(db, now, {})
    requires var ready := Recover(cfg, db, now);
             && x < |ready.runs| && y < |ready.runs| && Ahead(ready.runs, x, y)
             && ready.runs[x].status == Queued && ready.runs[y].status == Queued
    requires var e := Schedule(cfg, db, now, later);
             x < |e.runs| && y < |e.runs| && e.runs[x].status == Queued && e.runs[y].status != Queued
    ensures var ready := Recover(cfg, db, now);
            ready.runs[y].cpu < ready.runs[x].cpu || ready.runs[y].memory < ready.runs[x].memory
  {
    hide Consistent, Recover, PlaceAll, Queue;
    var ready := Recover(cfg, db, now);
    var queue := Queue(ready.runs);
    PassStarts(cfg, db, now);
    PlaceAllNarrows(cfg, ready, queue, later);
    QueueOk(ready.runs);
    assert y in queue && x in queue;
    var i :| 0 <= i < |queue| && queue[i] == x;
    var j :| 0 <= j < |queue| && queue[j] == y;
    OvertakenOnlyBySmaller(cfg, ready, queue, later, i, j);
  }
}
