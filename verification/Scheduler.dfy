/**
 Lease recovery and the priority scheduling pass, as functions of the tables.
 */
module Scheduler {
  import opened Options
  import opened Lifecycle
  import opened Tables
  import opened Consistency
  import opened Ordering

  datatype Settings = Settings(staleSeconds: int, leaseSeconds: int)

  // ----- Recovery -----

  predicate Silenced(cfg: Settings, row: Worker, now: int) {
    row.status == Online && row.beat < now - cfg.staleSeconds
  }

  /** The allocation is still active, but its lease ran out or its worker fell silent. */
  predicate Doomed(cfg: Settings, db: Tables, a: nat, now: int) {
    && a < |db.allocs| && Active(db.allocs[a])
    && (|| db.allocs[a].expires < now
        || (db.allocs[a].worker < |db.workers| && Silenced(cfg, db.workers[db.allocs[a].worker], now)))
  }

  function DoomedIds(cfg: Settings, db: Tables, now: int): seq<nat> {
    Select(|db.allocs|, (a: nat) => Doomed(cfg, db, a, now))
  }

  function MarkStale(cfg: Settings, workers: seq<Worker>, now: int): (marked: seq<Worker>)
    ensures |marked| == |workers|
  {
    seq(|workers|, w requires 0 <= w < |workers| =>
      if Silenced(cfg, workers[w], now) then workers[w].(status := Stale) else workers[w])
  }

  /** Work that never started is queued again, work that started fails, and a cancellation
      nobody acknowledged is taken as done. */
  function Recovered(run: Run, now: int): Run {
    match run.status
    case Scheduling => Move(run, Queued, now).(holder := None)
    case Running => Move(run.(failure := Some(LeaseExpired)), Failed, now)
    case Cancelling => Move(run, Cancelled, now)
    case _ => run
  }

  function RecoverOne(db: Tables, a: nat, now: int): (e: Tables)
    requires a < |db.allocs|
    ensures |e.allocs| == |db.allocs|
  {
    var r := db.allocs[a].run;
    if r < |db.runs| then Conclude(db, r, Recovered(db.runs[r], now), now) else Release(db, r, now)
  }

  function RecoverAll(db: Tables, ids: seq<nat>, now: int): (e: Tables)
    requires forall i :: 0 <= i < |ids| ==> ids[i] < |db.allocs|
    ensures |e.allocs| == |db.allocs|
    decreases |ids|
  {
    if ids == [] then db else RecoverAll(RecoverOne(db, ids[0], now), ids[1..], now)
  }

  /** The tables when every doomed allocation has been dealt with. */
  function Cleared(cfg: Settings, db: Tables, now: int): Tables {
    RecoverAll(db.(workers := MarkStale(cfg, db.workers, now)), DoomedIds(cfg, db, now), now)
  }

  /** recover_expired_allocations */
  function Recover(cfg: Settings, db: Tables, now: int): Tables {
    var cleared := Cleared(cfg, db, now);
    cleared.(workers := seq(|cleared.workers|, w requires 0 <= w < |cleared.workers| =>
      if w < |db.workers| && Silenced(cfg, db.workers[w], now) then Refresh(cleared.allocs, w, cleared.workers[w])
      else cleared.workers[w]))
  }

  predicate SameWorker(x: Worker, y: Worker) {
    && x.name == y.name && x.status == y.status && x.beat == y.beat
    && x.totalCpu == y.totalCpu && x.totalMemory == y.totalMemory
  }

  /** The tables `e` come from `d` by releasing the active allocations in `ids` and recovering
      their runs; no other run or allocation is touched. */
  ghost predicate Reclaims(d: Tables, e: Tables, ids: set<nat>, now: int) {
    && |e.runs| == |d.runs| && |e.allocs| == |d.allocs| && |e.workers| == |d.workers| && e.outbox == d.outbox
    && (forall a :: 0 <= a < |d.allocs| ==>
          e.allocs[a] == if a in ids then d.allocs[a].(released := Some(now)) else d.allocs[a])
    && (forall r :: 0 <= r < |d.runs| ==>
          e.runs[r] == match LeaseOf(d.allocs, r)
                       case Some(a) => if a in ids then Recovered(d.runs[r], now) else d.runs[r]
                       case None => d.runs[r])
    && (forall w :: 0 <= w < |d.workers| ==> SameWorker(d.workers[w], e.workers[w]))
  }

  lemma RecoveredOk(run: Run, clock: int)
    requires RunOk(run, clock) && Holding(run.status)
    ensures var x := Recovered(run, clock);
            && RunOk(x, clock) && RunEvolves(run, x) && run.version < x.version && !Holding(x.status)
            && Entries(x.log, Scheduling) == Entries(run.log, Scheduling)
            && Entries(x.log, Cancelling) == Entries(run.log, Cancelling)
            && x.lines == run.lines && x.steps == run.steps
  {
    match run.status {
      case Scheduling => MoveOk(run, Queued, clock, clock);
      case Running => MoveOk(run.(failure := Some(LeaseExpired)), Failed, clock, clock);
      case Cancelling => MoveOk(run, Cancelled, clock, clock);
    }
  }

  lemma RecoverOneReclaims(db: Tables, a: nat, now: int)
    requires LeasesOk(db) && a < |db.allocs| && Active(db.allocs[a])
    ensures Reclaims(db, RecoverOne(db, a, now), {a}, now) && LeasesOk(RecoverOne(db, a, now))
  {
    var r := db.allocs[a].run;
    assert AllocOk(db, a);
    LeaseIs(db, a);
    LeasesConcluded(db, r, Recovered(db.runs[r], now), now);
  }

  lemma RecoverOneOk(db: Tables, a: nat, clock: int, clearing: set<nat>)
    requires Consistent(db, clock, clearing) && a < |db.allocs| && Active(db.allocs[a])
    ensures var e := RecoverOne(db, a, clock);
            Consistent(e, clock, clearing) && Evolves(db, e) && Silent(db, e)
  {
    var r := db.allocs[a].run;
    assert AllocOk(db, a) && RunOk(db.runs[r], clock);
    RecoveredOk(db.runs[r], clock);
    ConcludeOk(db, r, Recovered(db.runs[r], clock), clock, clearing);
  }

  lemma ReclaimsThen(d: Tables, e: Tables, f: Tables, a: nat, ids: set<nat>, now: int)
    requires LeasesOk(d) && LeasesOk(e) && a < |d.allocs| && Active(d.allocs[a]) && a !in ids
    requires Reclaims(d, e, {a}, now) && Reclaims(e, f, ids, now)
    ensures Reclaims(d, f, {a} + ids, now)
  {
    forall r | 0 <= r < |d.runs|
      ensures f.runs[r] == match LeaseOf(d.allocs, r)
                           case Some(b) => if b in {a} + ids then Recovered(d.runs[r], now) else d.runs[r]
                           case None => d.runs[r]
    {
      match LeaseOf(d.allocs, r) {
        case None =>
          assert forall b :: 0 <= b < |d.allocs| ==> !ActiveFor(d.allocs[b], r) ==> !ActiveFor(e.allocs[b], r);
        case Some(b) =>
          if b == a {
            assert forall c :: 0 <= c < |e.allocs| ==> !ActiveFor(e.allocs[c], r);
          } else {
            LeaseIs(e, b);
          }
      }
    }
  }

  ghost function Ids(ids: seq<nat>): set<nat> {
    set a | a in ids
  }

  ghost predicate AllActive(db: Tables, ids: seq<nat>) {
    && (forall i :: 0 <= i < |ids| ==> ids[i] < |db.allocs| && Active(db.allocs[ids[i]]))
    && (forall i, j :: 0 <= i < j < |ids| ==> ids[i] != ids[j])
  }

  lemma RestActive(db: Tables, ids: seq<nat>, now: int)
    requires LeasesOk(db) && AllActive(db, ids) && ids != []
    ensures AllActive(RecoverOne(db, ids[0], now), ids[1..])
  {
    RecoverOneReclaims(db, ids[0], now);
    var d, rest := RecoverOne(db, ids[0], now), ids[1..];
    assert forall i :: 0 <= i < |rest| ==> rest[i] == ids[i + 1] && d.allocs[rest[i]] == db.allocs[ids[i + 1]];
  }

  /** The loop over the allocations to be recovered does for all of them what it does for one. */
  lemma {:induction false} RecoverAllReclaims(db: Tables, ids: seq<nat>, now: int)
    requires LeasesOk(db) && AllActive(db, ids)
    ensures Reclaims(db, RecoverAll(db, ids, now), Ids(ids), now)
    decreases |ids|
  {
    if ids == [] {
      assert Reclaims(db, db, {}, now) && Ids(ids) == {};
    } else {
      var a, rest := ids[0], ids[1..];
      var d := RecoverOne(db, a, now);
      RecoverOneReclaims(db, a, now);
      RestActive(db, ids, now);
      RecoverAllReclaims(d, rest, now);
      assert a !in rest;
      ReclaimsThen(db, d, RecoverAll(d, rest, now), a, Ids(rest), now);
      assert Ids(ids) == {a} + Ids(rest);
    }
  }

  lemma {:induction false} RecoverAllOk(db: Tables, ids: seq<nat>, clock: int, clearing: set<nat>)
    requires Consistent(db, clock, clearing) && AllActive(db, ids)
    ensures var e := RecoverAll(db, ids, clock);
            Consistent(e, clock, clearing) && Evolves(db, e) && Silent(db, e)
    decreases |ids|
  {
    if ids == [] {
      Unchanged(db);
    } else {
      var d := RecoverOne(db, ids[0], clock);
      RecoverOneOk(db, ids[0], clock, clearing);
      RestActive(db, ids, clock);
      RecoverAllOk(d, ids[1..], clock, clearing);
      EvolvesTransitive(db, d, RecoverAll(db, ids, clock), clock);
    }
  }

  ghost function DoomedSet(cfg: Settings, db: Tables, now: int): set<nat> {
    set a | 0 <= a < |db.allocs| && Doomed(cfg, db, a, now)
  }

  lemma MarkStaleOk(cfg: Settings, db: Tables, clock: int)
    requires Consistent(db, clock, {})
    ensures var marked := db.(workers := MarkStale(cfg, db.workers, clock));
            var clearing := set w: nat | w < |db.workers| && Silenced(cfg, db.workers[w], clock);
            Consistent(marked, clock, clearing) && Evolves(db, marked) && Silent(db, marked)
  {
    var marked := db.(workers := MarkStale(cfg, db.workers, clock));
    var clearing := set w: nat | w < |db.workers| && Silenced(cfg, db.workers[w], clock);
    assert forall w :: 0 <= w < |db.workers| && db.workers[w] == Refresh(db.allocs, w, db.workers[w]) ==>
      marked.workers[w] == Refresh(marked.allocs, w, marked.workers[w]);
    WorkersOk(db, marked, clock, clearing);
  }

  /** The refresh at the end of a pass finds nothing to correct. */
  lemma FinalRefresh(cfg: Settings, db: Tables, now: int)
    requires CapacityOk(Cleared(cfg, db, now))
    ensures Recover(cfg, db, now) == Cleared(cfg, db, now)
  {
    assert Recover(cfg, db, now).workers == Cleared(cfg, db, now).workers;
  }

  lemma DoomedOk(cfg: Settings, db: Tables, now: int)
    ensures var ids := DoomedIds(cfg, db, now);
            Ids(ids) == DoomedSet(cfg, db, now) && AllActive(db, ids)
  {
    var ids := DoomedIds(cfg, db, now);
    forall i | 0 <= i < |ids|
      ensures ids[i] < |db.allocs| && Active(db.allocs[ids[i]])
    {
      assert ids[i] in ids;
    }
  }

  lemma ClearedOk(cfg: Settings, db: Tables, clock: int)
    requires Consistent(db, clock, {})
    ensures var e, marked := Cleared(cfg, db, clock), db.(workers := MarkStale(cfg, db.workers, clock));
            var clearing := set w: nat | w < |db.workers| && Silenced(cfg, db.workers[w], clock);
            && Consistent(e, clock, clearing) && Evolves(db, e) && Silent(db, e)
            && Reclaims(marked, e, DoomedSet(cfg, db, clock), clock)
  {
    var marked := db.(workers := MarkStale(cfg, db.workers, clock));
    var clearing := set w: nat | w < |db.workers| && Silenced(cfg, db.workers[w], clock);
    MarkStaleOk(cfg, db, clock);
    DoomedOk(cfg, db, clock);
    RecoverAllOk(marked, DoomedIds(cfg, db, clock), clock, clearing);
    RecoverAllReclaims(marked, DoomedIds(cfg, db, clock), clock);
    EvolvesTransitive(db, marked, Cleared(cfg, db, clock), clock);
  }

  /** Afterwards no stale worker holds an allocation. */
  lemma StaleCleared(cfg: Settings, db: Tables, e: Tables, now: int)
    requires StaleOk(db, {})
    requires Reclaims(db.(workers := MarkStale(cfg, db.workers, now)), e, DoomedSet(cfg, db, now), now)
    ensures StaleOk(e, {})
  {
    forall a | 0 <= a < |e.allocs| && Active(e.allocs[a]) && e.allocs[a].worker < |e.workers|
      ensures e.workers[e.allocs[a].worker].status != Stale
    {
      var w := e.allocs[a].worker;
      assert !Doomed(cfg, db, a, now) && e.allocs[a] == db.allocs[a];
      assert SameWorker(MarkStale(cfg, db.workers, now)[w], e.workers[w]);
    }
  }

  /** A recovery pass as a whole: it keeps the tables consistent and recovers exactly the runs
      whose allocation is doomed; exactly the silent workers become stale. */
  lemma RecoverOk(cfg: Settings, db: Tables, clock: int)
    requires Consistent(db, clock, {})
    ensures var e, marked := Recover(cfg, db, clock), db.(workers := MarkStale(cfg, db.workers, clock));
            && Consistent(e, clock, {}) && Evolves(db, e) && Silent(db, e)
            && Reclaims(marked, e, DoomedSet(cfg, db, clock), clock)
  {
    ClearedOk(cfg, db, clock);
    FinalRefresh(cfg, db, clock);
    StaleCleared(cfg, db, Cleared(cfg, db, clock), clock);
  }

  /** When a lease is to be taken back: its time is over, or its worker counts as online but
      has not been heard of for longer than the stale time. */
  predicate Overdue(cfg: Settings, db: Tables, a: nat, now: int)
    requires a < |db.allocs| && db.allocs[a].worker < |db.workers|
  {
    var lease := db.allocs[a];
    var worker := db.workers[lease.worker];
    lease.expires < now || (worker.status == Online && worker.beat + cfg.staleSeconds < now)
  }

  lemma DoomedIsOverdue(cfg: Settings, db: Tables, clock: int, a: nat)
    requires LeasesOk(db) && a < |db.allocs|
    ensures db.allocs[a].worker < |db.workers|
    ensures Doomed(cfg, db, a, clock) <==> Active(db.allocs[a]) && Overdue(cfg, db, a, clock)
  {
    assert AllocOk(db, a);
  }

  /** Recovery written out for every row: exactly the active leases that are overdue are
      released, at the time of the pass, and exactly the online workers that are silent become
      stale; nothing else is written to allocations or to the status of workers. */
  lemma RecoverExactly(cfg: Settings, db: Tables, clock: int)
    requires Consistent(db, clock, {})
    ensures var e := Recover(cfg, db, clock);
            && |e.allocs| == |db.allocs| && |e.workers| == |db.workers|
            && (forall a :: 0 <= a < |db.allocs| ==>
                  && db.allocs[a].worker < |db.workers|
                  && e.allocs[a] == if db.allocs[a].released == None && Overdue(cfg, db, a, clock)
                                    then db.allocs[a].(released := Some(clock)) else db.allocs[a])
            && (forall w :: 0 <= w < |db.workers| ==>
                  var row := db.workers[w];
                  e.workers[w].status == if row.status == Online && row.beat + cfg.staleSeconds < clock then Stale
                                         else row.status)
  {
    hide Consistent, Recover;
    RecoverOk(cfg, db, clock);
    var e := Recover(cfg, db, clock);
    forall a: nat | a < |db.allocs|
      ensures db.allocs[a].worker < |db.workers|
      ensures Doomed(cfg, db, a, clock) <==> Active(db.allocs[a]) && Overdue(cfg, db, a, clock)
    {
      LeasesAreOk(db, clock);
      DoomedIsOverdue(cfg, db, clock, a);
    }
    forall w | 0 <= w < |db.workers|
      ensures e.workers[w].status == MarkStale(cfg, db.workers, clock)[w].status
    {
      assert SameWorker(MarkStale(cfg, db.workers, clock)[w], e.workers[w]);
    }
  }

  lemma LeasesAreOk(db: Tables, clock: int)
    requires Consistent(db, clock, {})
    ensures LeasesOk(db)
  {
  }

  /** What recovery does to one active allocation and its run. */
  lemma RecoverOnLease(cfg: Settings, db: Tables, clock: int, a: nat)
    requires Consistent(db, clock, {}) && a < |db.allocs| && Active(db.allocs[a])
    ensures var e, r := Recover(cfg, db, clock), db.allocs[a].run;
            && |e.allocs| == |db.allocs| && r < |db.runs| == |e.runs| && db.allocs[a].worker < |db.workers|
            && Holding(db.runs[r].status) && LeaseOf(db.allocs, r) == Some(a)
            && (if Overdue(cfg, db, a, clock)
                then !Active(e.allocs[a]) && e.runs[r] == Recovered(db.runs[r], clock)
                else e.allocs[a] == db.allocs[a] && e.runs[r] == db.runs[r])
  {
    RecoverOk(cfg, db, clock);
    DoomedIsOverdue(cfg, db, clock, a);
    assert AllocOk(db, a);
    LeaseIs(db, a);
  }

  lemma SilentIsOverdue(cfg: Settings, db: Tables, clock: int, a: nat)
    requires NamesOk(db) && StaleOk(db, {}) && a < |db.allocs| && Active(db.allocs[a])
    requires db.allocs[a].worker < |db.workers| && db.workers[db.allocs[a].worker].beat + cfg.staleSeconds < clock
    ensures Overdue(cfg, db, a, clock)
  {
  }

  lemma SilentBecomesStale(cfg: Settings, db: Tables, clock: int, w: nat)
    requires Consistent(db, clock, {}) && w < |db.workers| && db.workers[w].beat + cfg.staleSeconds < clock
    ensures var e := Recover(cfg, db, clock);
            && w < |e.workers| && e.workers[w].status == Stale
            && (forall a :: 0 <= a < |e.allocs| && e.allocs[a].worker == w ==> !Active(e.allocs[a]))
  {
    hide RunsOk, LeasesOk, CapacityOk, MailOk, MessagesOk, LineageOk, Recover;
    var e := Recover(cfg, db, clock);
    RecoverOk(cfg, db, clock);
    assert db.workers[w].status != Offline;
    assert SameWorker(MarkStale(cfg, db.workers, clock)[w], e.workers[w]);
  }

  /** Dead workers are fully reclaimed: after a pass later than the last heartbeat plus the
      stale time, an online worker is stale and holds nothing, and its runs have become
      QUEUED, FAILED or CANCELLED by their prior status. */
  lemma DeadWorkerReclaimed(cfg: Settings, db: Tables, clock: int, w: nat)
    requires Consistent(db, clock, {}) && w < |db.workers|
    requires db.workers[w].beat + cfg.staleSeconds < clock
    ensures var e := Recover(cfg, db, clock);
            && w < |e.workers| && e.workers[w].status == Stale
            && (forall a :: 0 <= a < |e.allocs| && e.allocs[a].worker == w ==> !Active(e.allocs[a]))
            && (forall a :: 0 <= a < |db.allocs| && db.allocs[a].worker == w && Active(db.allocs[a]) ==>
                  var r := db.allocs[a].run;
                  && r < |db.runs| == |e.runs|
                  && (db.runs[r].status == Scheduling ==> e.runs[r].status == Queued)
                  && (db.runs[r].status == Running ==> e.runs[r].status == Failed)
                  && (db.runs[r].status == Cancelling ==> e.runs[r].status == Cancelled)
                  && Holding(db.runs[r].status))
  {
    hide RunsOk, LeasesOk, CapacityOk, NamesOk, StaleOk, MailOk, MessagesOk, LineageOk, Recover, Overdue;
    SilentBecomesStale(cfg, db, clock, w);
    var e := Recover(cfg, db, clock);
    forall a | 0 <= a < |db.allocs| && db.allocs[a].worker == w && Active(db.allocs[a])
      ensures var r := db.allocs[a].run;
              && r < |db.runs| == |e.runs| && Holding(db.runs[r].status)
              && e.runs[r] == Recovered(db.runs[r], clock)
    {
      SilentIsOverdue(cfg, db, clock, a);
      RecoverOnLease(cfg, db, clock, a);
    }
  }

  lemma NothingLeft(cfg: Settings, db: Tables, e: Tables, now: int)
    requires Reclaims(db.(workers := MarkStale(cfg, db.workers, now)), e, DoomedSet(cfg, db, now), now)
    ensures DoomedIds(cfg, e, now) == [] && MarkStale(cfg, e.workers, now) == e.workers
  {
    var ids := DoomedIds(cfg, e, now);
    assert ids != [] ==> ids[0] in ids;
    forall w | 0 <= w < |e.workers|
      ensures !Silenced(cfg, e.workers[w], now)
    {
      assert SameWorker(MarkStale(cfg, db.workers, now)[w], e.workers[w]);
    }
    forall a: nat | a < |e.allocs|
      ensures !Doomed(cfg, e, a, now)
    {
      assert Active(e.allocs[a]) ==> !Doomed(cfg, db, a, now) && e.allocs[a] == db.allocs[a];
    }
  }

  /** A second pass at the same instant finds nothing to do. */
  lemma RecoverIdempotent(cfg: Settings, db: Tables, clock: int)
    requires Consistent(db, clock, {})
    ensures var e := Recover(cfg, db, clock);
            DoomedIds(cfg, e, clock) == [] && Recover(cfg, e, clock) == e
  {
    var e := Recover(cfg, db, clock);
    RecoverOk(cfg, db, clock);
    NothingLeft(cfg, db, e, clock);
    assert e.(workers := e.workers) == e;
    FinalRefresh(cfg, e, clock);
  }

  // ----- Placement -----

  const BATCH := 100

  predicate Fits(cfg: Settings, row: Worker, run: Run, now: int) {
    && row.status == Online && row.beat >= now - cfg.staleSeconds
    && row.freeCpu >= run.cpu && row.freeMemory >= run.memory
  }

  predicate Preferred(x: Worker, y: Worker) {
    x.running < y.running || (x.running == y.running && x.name < y.name)
  }

  /** The query for a worker: the least loaded one that fits, by name where loads tie. */
  function PickWorker(cfg: Settings, workers: seq<Worker>, run: Run, now: int): (pick: Option<nat>)
    ensures pick.Some? ==>
              && pick.value < |workers|
              && var best := workers[pick.value];
                 && best.status == Online && best.beat + cfg.staleSeconds >= now
                 && best.freeCpu >= run.cpu && best.freeMemory >= run.memory
    ensures forall v :: 0 <= v < |workers| && workers[v].status == Online && workers[v].beat + cfg.staleSeconds >= now
                        && workers[v].freeCpu >= run.cpu && workers[v].freeMemory >= run.memory ==>
              && pick.Some?
              && var best := workers[pick.value];
                 || best.running < workers[v].running
                 || (best.running == workers[v].running && best.name <= workers[v].name)
  {
    if workers == [] then None
    else
      var last := |workers| - 1;
      var pick := PickWorker(cfg, workers[..last], run, now);
      var better := pick.None? || Preferred(workers[last], workers[pick.value]);
      if better && Fits(cfg, workers[last], run, now) then Some(last) else pick
  }

  function PlaceOne(cfg: Settings, db: Tables, r: nat, now: int): Tables {
    if r < |db.runs| && db.runs[r].status == Queued then
      match PickWorker(cfg, db.workers, db.runs[r], now)
      case None => db
      case Some(w) => Assign(db, r, w, now, cfg.leaseSeconds)
    else db
  }

  /** The greedy pass: one run after the other, each to the best worker at its turn. */
  function PlaceAll(cfg: Settings, db: Tables, queue: seq<nat>, now: int): Tables
    decreases |queue|
  {
    if queue == [] then db else PlaceAll(cfg, PlaceOne(cfg, db, queue[0], now), queue[1..], now)
  }

  function Rank(runs: seq<Run>): Key {
    (r: nat) => if r < |runs| then (-runs[r].priority, runs[r].created) else (0, 0)
  }

  /** The queued runs a pass examines: highest priority first, then oldest, then lowest id. */
  function Queue(runs: seq<Run>): seq<nat> {
    Query(|runs|, (r: nat) => r < |runs| && runs[r].status == Queued, Rank(runs), BATCH)
  }

  /** schedule_once: recovery at `now`, placement at `later`, one transaction. */
  function Schedule(cfg: Settings, db: Tables, now: int, later: int): Tables {
    var ready := Recover(cfg, db, now);
    PlaceAll(cfg, ready, Queue(ready.runs), later)
  }

  lemma PlaceOneOk(cfg: Settings, db: Tables, r: nat, clock: int)
    requires Consistent(db, clock, {})
    ensures var e := PlaceOne(cfg, db, r, clock);
            Consistent(e, clock, {}) && Evolves(db, e) && Silent(db, e)
  {
    Unchanged(db);
    if r < |db.runs| && db.runs[r].status == Queued {
      match PickWorker(cfg, db.workers, db.runs[r], clock) {
        case None =>
        case Some(w) => AssignOk(db, r, w, clock, cfg.leaseSeconds);
      }
    }
  }

  lemma {:induction false} PlaceAllOk(cfg: Settings, db: Tables, queue: seq<nat>, clock: int)
    requires Consistent(db, clock, {})
    ensures var e := PlaceAll(cfg, db, queue, clock);
            Consistent(e, clock, {}) && Evolves(db, e) && Silent(db, e)
    decreases |queue|
  {
    if queue == [] {
      Unchanged(db);
    } else {
      var d := PlaceOne(cfg, db, queue[0], clock);
      PlaceOneOk(cfg, db, queue[0], clock);
      PlaceAllOk(cfg, d, queue[1..], clock);
      EvolvesTransitive(db, d, PlaceAll(cfg, db, queue, clock), clock);
    }
  }

  lemma ScheduleOk(cfg: Settings, db: Tables, now: int, later: int)
    requires Consistent(db, now, {}) && now <= later
    ensures var e := Schedule(cfg, db, now, later);
            Consistent(e, later, {}) && Evolves(db, e) && Silent(db, e)
  {
    var ready := Recover(cfg, db, now);
    RecoverOk(cfg, db, now);
    Later(db, now, later, {});
    Later(ready, now, later, {});
    PlaceAllOk(cfg, ready, Queue(ready.runs), later);
    EvolvesTransitive(db, ready, Schedule(cfg, db, now, later), later);
  }
}
