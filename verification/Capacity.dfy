/**
 The cached capacity columns of the workers, and when a worker can be overcommitted.
 */
module Capacity {
  import opened Lifecycle
  import opened Tables
  import opened Consistency
  import opened Scheduler
  import opened Greedy
  import opened Protocol
  import opened Safety
  import opened Guarantees

  predicate Exact(db: Tables, w: nat)
    requires w < |db.workers|
  {
    var row, load := db.workers[w], LoadOf(db.allocs, w);
    && row.freeCpu == Clamp(row.totalCpu - load.cpu)
    && row.freeMemory == Clamp(row.totalMemory - load.memory)
    && row.running == load.count
  }

  lemma ExactNow(s: State, w: nat)
    requires Inv(s) && w < |s.db.workers|
    ensures Exact(s.db, w)
  {
    assert s.db.workers[w] == Refresh(s.db.allocs, w, s.db.workers[w]);
  }

  /** In every reachable state the cached columns equal the clamped difference between the
      totals and the sums over active allocations, although assignments update them
      incrementally. */
  lemma CachedCapacityIsExact(cfg: Settings, actions: seq<Action>, w: nat)
    requires w < |Exec(cfg, INIT, actions).db.workers|
    ensures Exact(Exec(cfg, INIT, actions).db, w)
  {
    hide Inv;
    Always(cfg, actions);
    ExactNow(Exec(cfg, INIT, actions), w);
  }

  predicate Within(db: Tables, w: nat) {
    w < |db.workers| && CpuFits(db, w) && MemoryFits(db, w)
  }

  ghost predicate Lighter(xs: seq<Allocation>, ys: seq<Allocation>) {
    && |ys| == |xs|
    && forall a :: 0 <= a < |xs| ==>
         ys[a] == xs[a].(released := ys[a].released, expires := ys[a].expires) && (Active(ys[a]) ==> Active(xs[a]))
  }

  ghost predicate Weighty(allocs: seq<Allocation>) {
    forall a :: 0 <= a < |allocs| ==> allocs[a].cpu > 0 && allocs[a].memory > 0
  }

  /** Releasing and renewing leases never adds load. */
  lemma {:induction false} LighterLoad(xs: seq<Allocation>, ys: seq<Allocation>, w: nat)
    requires Lighter(xs, ys) && Weighty(xs)
    ensures LoadOf(ys, w).cpu <= LoadOf(xs, w).cpu && LoadOf(ys, w).memory <= LoadOf(xs, w).memory
  {
    if xs != [] {
      LighterLoad(xs[..|xs| - 1], ys[..|ys| - 1], w);
    }
  }

  lemma AllWeighty(s: State)
    requires Inv(s)
    ensures Weighty(s.db.allocs)
  {
    forall a | 0 <= a < |s.db.allocs|
      ensures s.db.allocs[a].cpu > 0 && s.db.allocs[a].memory > 0
    {
      assert AllocOk(s.db, a);
      assert RunOk(s.db.runs[s.db.allocs[a].run], s.clock);
    }
  }

  lemma PlaceOneWithin(cfg: Settings, db: Tables, r: nat, now: int, w: nat)
    requires CapacityOk(db) && Positive(db) && Within(db, w)
    ensures var e := PlaceOne(cfg, db, r, now); CapacityOk(e) && Positive(e) && Within(e, w)
  {
    PlaceOneNarrows(cfg, db, r, now);
    if r < |db.runs| && db.runs[r].status == Queued {
      match PickWorker(cfg, db.workers, db.runs[r], now) {
        case None =>
        case Some(v) => AssignWithin(db, r, v, now, cfg.leaseSeconds, w);
      }
    }
  }

  lemma AssignWithin(db: Tables, r: nat, v: nat, now: int, leaseSeconds: int, w: nat)
    requires CapacityOk(db) && Positive(db) && Within(db, w)
    requires r < |db.runs| && v < |db.workers| && db.runs[r].status == Queued
    requires db.workers[v].freeCpu >= db.runs[r].cpu && db.workers[v].freeMemory >= db.runs[r].memory
    ensures var e := Assign(db, r, v, now, leaseSeconds); CapacityOk(e) && Within(e, w)
  {
    hide CapacityOk, LoadOf;
    CapacityAssigned(db, r, v, now, leaseSeconds);
    AppendLoad(db.allocs, Assign(db, r, v, now, leaseSeconds).allocs[|db.allocs|], w);
  }

  lemma {:induction false} PlaceWithin(cfg: Settings, db: Tables, queue: seq<nat>, now: int, w: nat)
    requires CapacityOk(db) && Positive(db) && Within(db, w)
    ensures Within(PlaceAll(cfg, db, queue, now), w)
    decreases |queue|
  {
    hide CapacityOk, Positive, Within, PlaceOne;
    if queue != [] {
      PlaceOneWithin(cfg, db, queue[0], now, w);
      PlaceWithin(cfg, PlaceOne(cfg, db, queue[0], now), queue[1..], now, w);
    }
  }

  lemma RecoverWithin(cfg: Settings, s: State, w: nat)
    requires Inv(s) && Within(s.db, w)
    ensures var ready := Recover(cfg, s.db, s.clock); Within(ready, w) && CapacityOk(ready) && Positive(ready)
  {
    var ready := Recover(cfg, s.db, s.clock);
    RecoverOk(cfg, s.db, s.clock);
    PassStarts(cfg, s.db, s.clock);
    AllWeighty(s);
    LighterLoad(s.db.allocs, ready.allocs, w);
    assert SameWorker(MarkStale(cfg, s.db.workers, s.clock)[w], ready.workers[w]);
  }

  lemma PassWithin(cfg: Settings, s: State, wait: nat, w: nat)
    requires Inv(s) && Within(s.db, w)
    ensures Within(Schedule(cfg, s.db, s.clock, s.clock + wait), w)
  {
    hide Inv, Recover, Queue, Within, CapacityOk, Positive;
    var ready := Recover(cfg, s.db, s.clock);
    RecoverWithin(cfg, s, w);
    PlaceWithin(cfg, ready, Queue(ready.runs), s.clock + wait, w);
  }

  /** Releasing a lease leaves the totals alone and adds no load. */
  lemma ReleaseWithin(db: Tables, r: nat, now: int, w: nat)
    requires Within(db, w) && Weighty(db.allocs)
    ensures Within(Release(db, r, now), w)
  {
    LighterLoad(db.allocs, Release(db, r, now).allocs, w);
  }

  lemma SessionWithin(s: State, sid: nat, move: SessionMove, w: nat)
    requires sid < |s.sessions| && Within(s.db, w) && Weighty(s.db.allocs)
    ensures Within(SessionStep(s, sid, move).db, w)
  {
    hide Release, Weighty, Within, SameLeases, SessionStep;
    var released := Release(s.db, s.sessions[sid].run, s.clock);
    SessionLeases(s, sid, move);
    ReleaseWithin(s.db, s.sessions[sid].run, s.clock, w);
    WithinByTables(s.db, released, SessionStep(s, sid, move).db, w);
  }

  lemma WithinByTables(d: Tables, released: Tables, e: Tables, w: nat)
    requires Within(d, w) && Within(released, w)
    requires SameLeases(d, e) || SameLeases(released, e)
    ensures Within(e, w)
  {
  }

  lemma HeartbeatWithin(cfg: Settings, db: Tables, v: nat, now: int, w: nat)
    requires Within(db, w) && Weighty(db.allocs)
    ensures Within(HeartbeatWorker(cfg, db, v, now), w)
  {
    var e := HeartbeatWorker(cfg, db, v, now);
    if v < |db.workers| {
      LighterLoad(db.allocs, e.allocs, w);
    }
  }

  lemma RegisterWithin(db: Tables, name: nat, cpu: int, memory: int, now: int, w: nat)
    requires Within(db, w)
    requires db.workers[w].name == name ==> cpu >= db.workers[w].totalCpu && memory >= db.workers[w].totalMemory
    ensures Within(RegisterWorker(db, name, cpu, memory, now), w)
  {
  }

  /** The API, deliveries and the clock touch neither workers nor allocations. */
  lemma OtherWithin(cfg: Settings, s: State, a: Action, w: nat)
    requires Within(s.db, w) && !a.Pass? && !a.Work? && !a.Heartbeat? && !a.Register?
    ensures Within(Next(cfg, s, a).db, w)
  {
    hide LoadOf;
  }

  /** Nothing but a registration overcommits a worker. */
  lemma ActionWithin(cfg: Settings, s: State, a: Action, w: nat)
    requires Inv(s) && Within(s.db, w) && !a.Register?
    ensures Within(Next(cfg, s, a).db, w)
  {
    hide Inv, Weighty, Within, Schedule, SessionStep, HeartbeatWorker;
    hide SubmitRun, RetryRun, CancelRun, EditMetadata, DeliverMessage;
    AllWeighty(s);
    match a
    case Pass(wait) => PassWithin(cfg, s, wait, w);
    case Work(sid, move) =>
      if sid < |s.sessions| {
        SessionWithin(s, sid, move, w);
      }
    case Heartbeat(v) => HeartbeatWithin(cfg, s.db, v, s.clock, w);
    case _ => OtherWithin(cfg, s, a, w);
  }

  lemma OvercommitStep(cfg: Settings, s: State, a: Action, w: nat)
    requires Inv(s) && Within(s.db, w) && !Within(Next(cfg, s, a).db, w)
    ensures a.Register? && a.name == s.db.workers[w].name
    ensures a.cpu < s.db.workers[w].totalCpu || a.memory < s.db.workers[w].totalMemory
  {
    if a.Register? {
      hide Inv, RegisterWorker, LoadOf;
      var row := s.db.workers[w];
      if a.name == row.name ==> a.cpu >= row.totalCpu && a.memory >= row.totalMemory {
        RegisterWithin(s.db, a.name, a.cpu, a.memory, s.clock, w);
      }
    } else {
      ActionWithin(cfg, s, a, w);
    }
  }

  /** A worker within its totals can come to be overcommitted in one way only: it registers
      again, under its own name and with less CPU or memory than before. */
  lemma OvercommitOnlyByRegistering(cfg: Settings, actions: seq<Action>, a: Action, w: nat)
    requires var s := Exec(cfg, INIT, actions); Within(s.db, w) && !Within(Next(cfg, s, a).db, w)
    ensures var row := Exec(cfg, INIT, actions).db.workers[w];
            a.Register? && a.name == row.name && (a.cpu < row.totalCpu || a.memory < row.totalMemory)
  {
    hide Inv, Next;
    Always(cfg, actions);
    OvercommitStep(cfg, Exec(cfg, INIT, actions), a, w);
  }
}
