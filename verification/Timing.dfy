/**
 Time: what heartbeats protect, what recovery takes back, and how far the
 promises of recovery go.
 */
module Timing {
  import opened Options
  import opened Lifecycle
  import opened Tables
  import opened Consistency
  import opened Scheduler
  import opened Greedy
  import opened Protocol
  import opened Safety
  import opened Guarantees

  // ----- Heartbeats -----

  /** Worker `w` was heard of at `beat` or later, and all its leases run at least the lease
      time from then. */
  ghost predicate Floor(cfg: Settings, db: Tables, w: nat, beat: int) {
    && w < |db.workers| && db.workers[w].beat >= beat
    && forall a :: 0 <= a < |db.allocs| && Active(db.allocs[a]) && db.allocs[a].worker == w ==>
         db.allocs[a].expires >= beat + cfg.leaseSeconds
  }

  /** Leases are kept as they are or given up; heartbeats are kept. */
  ghost predicate Gentle(d: Tables, e: Tables) {
    && |d.workers| == |e.workers| && |d.allocs| == |e.allocs|
    && (forall w :: 0 <= w < |d.workers| ==> e.workers[w].beat == d.workers[w].beat)
    && (forall a :: 0 <= a < |d.allocs| ==> e.allocs[a] == d.allocs[a].(released := e.allocs[a].released)
                                            && (Active(e.allocs[a]) ==> Active(d.allocs[a])))
  }

  lemma GentleFloor(cfg: Settings, d: Tables, e: Tables, w: nat, beat: int)
    requires Gentle(d, e) && Floor(cfg, d, w, beat)
    ensures Floor(cfg, e, w, beat)
  {
  }

  lemma ReleaseGentle(db: Tables, r: nat, now: int)
    ensures Gentle(db, Release(db, r, now))
  {
  }

  lemma GentleByTables(d: Tables, released: Tables, e: Tables)
    requires Gentle(d, released)
    requires SameLeases(d, e) || SameLeases(released, e)
    ensures Gentle(d, e)
  {
  }

  lemma SessionGentle(s: State, sid: nat, move: SessionMove)
    requires sid < |s.sessions|
    ensures Gentle(s.db, SessionStep(s, sid, move).db)
  {
    hide Release, Gentle, SameLeases, SessionStep;
    var released := Release(s.db, s.sessions[sid].run, s.clock);
    SessionLeases(s, sid, move);
    ReleaseGentle(s.db, s.sessions[sid].run, s.clock);
    GentleByTables(s.db, released, SessionStep(s, sid, move).db);
  }

  lemma RecoverGentle(cfg: Settings, db: Tables, clock: int)
    requires Consistent(db, clock, {})
    ensures Gentle(db, Recover(cfg, db, clock))
  {
    RecoverOk(cfg, db, clock);
    var e := Recover(cfg, db, clock);
    assert forall w :: 0 <= w < |db.workers| ==> SameWorker(MarkStale(cfg, db.workers, clock)[w], e.workers[w]);
  }

  lemma {:induction false} PlaceFloor(cfg: Settings, db: Tables, queue: seq<nat>, now: int, w: nat, beat: int)
    requires Floor(cfg, db, w, beat) && beat <= now
    ensures Floor(cfg, PlaceAll(cfg, db, queue, now), w, beat)
    decreases |queue|
  {
    if queue != [] {
      PlaceFloor(cfg, PlaceOne(cfg, db, queue[0], now), queue[1..], now, w, beat);
    }
  }

  lemma PassFloor(cfg: Settings, s: State, wait: nat, w: nat, beat: int)
    requires Inv(s) && Floor(cfg, s.db, w, beat) && beat <= s.clock
    ensures Floor(cfg, Schedule(cfg, s.db, s.clock, s.clock + wait), w, beat)
  {
    hide Consistent, Recover, Queue, Gentle, Floor;
    var ready := Recover(cfg, s.db, s.clock);
    RecoverGentle(cfg, s.db, s.clock);
    GentleFloor(cfg, s.db, ready, w, beat);
    PlaceFloor(cfg, ready, Queue(ready.runs), s.clock + wait, w, beat);
  }

  lemma FloorKept(cfg: Settings, s: State, a: Action, w: nat, beat: int)
    requires Inv(s) && Floor(cfg, s.db, w, beat) && beat <= s.clock
    ensures Floor(cfg, Next(cfg, s, a).db, w, beat)
  {
    hide Inv, Schedule, SessionStep;
    match a
    case Pass(wait) => PassFloor(cfg, s, wait, w, beat);
    case Work(sid, move) =>
      if sid < |s.sessions| {
        SessionGentle(s, sid, move);
        GentleFloor(cfg, s.db, SessionStep(s, sid, move).db, w, beat);
      }
    case _ =>
  }

  lemma {:induction false} FloorHolds(cfg: Settings, s: State, actions: seq<Action>, w: nat, beat: int)
    requires Inv(s) && Floor(cfg, s.db, w, beat) && beat <= s.clock
    ensures Floor(cfg, Exec(cfg, s, actions).db, w, beat)
  {
    if actions != [] {
      var init := actions[..|actions| - 1];
      FloorHolds(cfg, s, init, w, beat);
      Onwards(cfg, s, init);
      FloorKept(cfg, Exec(cfg, s, init), actions[|actions| - 1], w, beat);
    }
  }

  /** The lease and its run come out of a scheduling pass exactly as they went in. */
  ghost predicate Spared(cfg: Settings, s: State, a: nat, wait: nat)
    requires a < |s.db.allocs|
  {
    var e, r := Schedule(cfg, s.db, s.clock, s.clock + wait), s.db.allocs[a].run;
    && a < |e.allocs| && e.allocs[a] == s.db.allocs[a]
    && r < |s.db.runs| && r < |e.runs| && e.runs[r] == s.db.runs[r]
  }

  lemma NotOverdueIsSpared(cfg: Settings, s: State, a: nat, wait: nat)
    requires Inv(s) && a < |s.db.allocs| && Active(s.db.allocs[a])
    requires s.db.allocs[a].worker < |s.db.workers| ==> !Overdue(cfg, s.db, a, s.clock)
    ensures Spared(cfg, s, a, wait)
  {
    hide Consistent, Schedule;
    PassOnLease(cfg, s.db, s.clock, s.clock + wait, a);
  }

  lemma BeatSetsFloor(cfg: Settings, s: State, w: nat)
    requires Inv(s) && w < |s.db.workers|
    ensures var t := Next(cfg, s, Heartbeat(w)); Inv(t) && t.clock == s.clock && Floor(cfg, t.db, w, s.clock)
  {
    NextOk(cfg, s, Heartbeat(w));
  }

  lemma FloorSpares(cfg: Settings, s: State, w: nat, beat: int, a: nat, wait: nat)
    requires Inv(s) && Floor(cfg, s.db, w, beat)
    requires a < |s.db.allocs| && Active(s.db.allocs[a]) && s.db.allocs[a].worker == w
    requires s.clock <= beat + cfg.staleSeconds && s.clock <= beat + cfg.leaseSeconds
    ensures Spared(cfg, s, a, wait)
  {
    NotOverdueIsSpared(cfg, s, a, wait);
  }

  lemma Arrive(cfg: Settings, s: State, actions: seq<Action>)
    requires Inv(s)
    ensures Inv(Exec(cfg, s, actions)) && s.clock <= Exec(cfg, s, actions).clock
  {
    Onwards(cfg, s, actions);
  }

  /** A live worker is never robbed: after a heartbeat at H, whatever happens in between, no
      pass up to H + min(stale seconds, lease seconds) touches any of its leases or their runs. */
  lemma HeartbeatProtects(cfg: Settings, actions: seq<Action>, w: nat, more: seq<Action>, a: nat, wait: nat)
    requires w < |Exec(cfg, INIT, actions).db.workers|
    requires var s := Exec(cfg, INIT, actions);
             var t := Exec(cfg, Next(cfg, s, Heartbeat(w)), more);
             && a < |t.db.allocs| && Active(t.db.allocs[a]) && t.db.allocs[a].worker == w
             && t.clock <= s.clock + cfg.staleSeconds && t.clock <= s.clock + cfg.leaseSeconds
    ensures Spared(cfg, Exec(cfg, Next(cfg, Exec(cfg, INIT, actions), Heartbeat(w)), more), a, wait)
  {
    hide Inv, Floor, Next, Spared;
    var s := Exec(cfg, INIT, actions);
    var beaten := Next(cfg, s, Heartbeat(w));
    Always(cfg, actions);
    BeatSetsFloor(cfg, s, w);
    FloorHolds(cfg, beaten, more, w, s.clock);
    Arrive(cfg, beaten, more);
    FloorSpares(cfg, Exec(cfg, beaten, more), w, s.clock, a, wait);
  }

  // ----- Dead workers -----

  lemma StaleNow(s: State, w: nat)
    requires Inv(s) && w < |s.db.workers| && s.db.workers[w].status == Stale
    ensures forall a :: 0 <= a < |s.db.allocs| && s.db.allocs[a].worker == w ==> !Active(s.db.allocs[a])
  {
  }

  /** In every reachable state a stale worker holds no active allocation. */
  lemma StaleHoldsNothing(cfg: Settings, actions: seq<Action>, w: nat)
    requires var db := Exec(cfg, INIT, actions).db; w < |db.workers| && db.workers[w].status == Stale
    ensures var db := Exec(cfg, INIT, actions).db;
            forall a :: 0 <= a < |db.allocs| && db.allocs[a].worker == w ==> !Active(db.allocs[a])
  {
    hide Inv;
    Always(cfg, actions);
    StaleNow(Exec(cfg, INIT, actions), w);
  }

  /** What became of the run behind an active lease of a dead worker: it ended by its prior
      status, or it waits again, or it was given to someone else in the same pass. */
  predicate TakenBack(before: Run, after: Run, w: nat) {
    match before.status
    case Running => after.status == Failed && after.failure == Some(LeaseExpired)
    case Cancelling => after.status == Cancelled
    case Scheduling => after.status == Queued || (after.status == Scheduling && after.holder != Some(w))
    case _ => false
  }

  lemma {:induction false} PlacedElsewhere(cfg: Settings, db: Tables, queue: seq<nat>, now: int, r: nat, w: nat)
    requires r < |db.runs| && w < |db.workers| && db.workers[w].status == Stale
    requires db.runs[r].status == Scheduling ==> db.runs[r].holder != Some(w)
    ensures var e := PlaceAll(cfg, db, queue, now);
            && r < |e.runs| && w < |e.workers| && e.workers[w].status == Stale
            && (e.runs[r] == db.runs[r] ||
                (db.runs[r].status == Queued && e.runs[r].status == Scheduling && e.runs[r].holder != Some(w)))
    decreases |queue|
  {
    if queue != [] {
      PlacedElsewhere(cfg, PlaceOne(cfg, db, queue[0], now), queue[1..], now, r, w);
    }
  }

  lemma DeadIsOverdue(cfg: Settings, s: State, w: nat, a: nat)
    requires Inv(s) && w < |s.db.workers| && s.db.workers[w].beat + cfg.staleSeconds < s.clock
    requires a < |s.db.allocs| && s.db.allocs[a].worker == w && Active(s.db.allocs[a])
    ensures Overdue(cfg, s.db, a, s.clock) && Consistent(s.db, s.clock, {})
  {
    hide RunsOk, LeasesOk, CapacityOk, MailOk, MessagesOk, LineageOk;
  }

  lemma DeadWorkerNow(cfg: Settings, s: State, wait: nat, w: nat, a: nat)
    requires Inv(s) && w < |s.db.workers| && s.db.workers[w].beat + cfg.staleSeconds < s.clock
    requires a < |s.db.allocs| && s.db.allocs[a].worker == w && Active(s.db.allocs[a])
    ensures var e, r := Schedule(cfg, s.db, s.clock, s.clock + wait), s.db.allocs[a].run;
            r < |s.db.runs| && r < |e.runs| && TakenBack(s.db.runs[r], e.runs[r], w)
  {
    hide Inv, Queue, Consistent, Recover, Overdue;
    var ready, r := Recover(cfg, s.db, s.clock), s.db.allocs[a].run;
    DeadIsOverdue(cfg, s, w, a);
    RecoverOnLease(cfg, s.db, s.clock, a);
    DeadWorkerReclaimed(cfg, s.db, s.clock, w);
    PlacedElsewhere(cfg, ready, Queue(ready.runs), s.clock + wait, r, w);
  }

  /** A silent worker is stale after a pass, whether it held anything or not. */
  lemma SilentWorkerNow(cfg: Settings, s: State, wait: nat, w: nat)
    requires Inv(s) && w < |s.db.workers| && s.db.workers[w].beat + cfg.staleSeconds < s.clock
    ensures var e := Schedule(cfg, s.db, s.clock, s.clock + wait); w < |e.workers| && e.workers[w].status == Stale
  {
    hide Consistent, SessionsOk, TelemetryOk, Queue, Recover, PlaceAll;
    var ready := Recover(cfg, s.db, s.clock);
    SilentBecomesStale(cfg, s.db, s.clock, w);
    PassStarts(cfg, s.db, s.clock);
    PlaceAllNarrows(cfg, ready, Queue(ready.runs), s.clock + wait);
  }

  /** Dead workers are fully reclaimed: one scheduling pass after the stale time is over, the
      worker is stale and holds nothing, and every run it held has been taken back. */
  lemma DeadWorkerLosesAll(cfg: Settings, actions: seq<Action>, wait: nat, w: nat)
    requires var s := Exec(cfg, INIT, actions);
             w < |s.db.workers| && s.db.workers[w].beat + cfg.staleSeconds < s.clock
    ensures var s := Exec(cfg, INIT, actions);
            var t := Next(cfg, s, Pass(wait));
            && w < |t.db.workers| && t.db.workers[w].status == Stale
            && (forall b :: 0 <= b < |t.db.allocs| && t.db.allocs[b].worker == w ==> !Active(t.db.allocs[b]))
            && (forall a :: 0 <= a < |s.db.allocs| && s.db.allocs[a].worker == w && Active(s.db.allocs[a]) ==>
                  var r := s.db.allocs[a].run;
                  r < |s.db.runs| && r < |t.db.runs| && TakenBack(s.db.runs[r], t.db.runs[r], w))
  {
    hide Inv, TakenBack, Schedule, Exec;
    var s := Exec(cfg, INIT, actions);
    Always(cfg, actions);
    SilentWorkerNow(cfg, s, wait, w);
    NextInv(cfg, s, Pass(wait));
    StaleNow(Next(cfg, s, Pass(wait)), w);
    forall a | 0 <= a < |s.db.allocs| && s.db.allocs[a].worker == w && Active(s.db.allocs[a])
      ensures var t, r := Next(cfg, s, Pass(wait)), s.db.allocs[a].run;
              r < |s.db.runs| && r < |t.db.runs| && TakenBack(s.db.runs[r], t.db.runs[r], w)
    {
      DeadWorkerNow(cfg, s, wait, w, a);
    }
  }

  // ----- Leases taken back -----

  /** What a pass makes of a run whose lease it takes back: by its prior status the run has failed
      or is cancelled, or it waits again, or it was given a new lease at once. */
  predicate Reclaimed(before: Run, e: Tables, r: nat, allocs: nat) {
    && r < |e.runs|
    && match before.status
       case Running => e.runs[r].status == Failed && e.runs[r].failure == Some(LeaseExpired)
       case Cancelling => e.runs[r].status == Cancelled
       case Scheduling =>
         || e.runs[r].status == Queued
         || (e.runs[r].status == Scheduling && LeaseOf(e.allocs, r).Some? && LeaseOf(e.allocs, r).value >= allocs)
       case _ => false
  }

  lemma {:induction false} PlacedAnew(cfg: Settings, db: Tables, queue: seq<nat>, now: int, r: nat, a: nat)
    requires r < |db.runs| && a < |db.allocs|
    ensures var e := PlaceAll(cfg, db, queue, now);
            && r < |e.runs| && a < |e.allocs| && e.allocs[a] == db.allocs[a]
            && (e.runs[r] == db.runs[r] || (db.runs[r].status == Queued && e.runs[r].status == Scheduling))
    decreases |queue|
  {
    if queue != [] {
      PlacedAnew(cfg, PlaceOne(cfg, db, queue[0], now), queue[1..], now, r, a);
    }
  }

  /** The lease of a run that is scheduled anew is a new one. */
  lemma NewLease(s: State, t: State, r: nat, a: nat)
    requires Inv(s) && Good(s, t) && LeaseOf(s.db.allocs, r) == Some(a) && a < |t.db.allocs| && !Active(t.db.allocs[a])
    requires r < |t.db.runs| && t.db.runs[r].status == Scheduling
    ensures LeaseOf(t.db.allocs, r).Some? && LeaseOf(t.db.allocs, r).value >= |s.db.allocs|
  {
    hide CapacityOk, NamesOk, StaleOk, MailOk, MessagesOk, LineageOk, SessionsOk, TelemetryOk;
    forall b | 0 <= b < |s.db.allocs|
      ensures !ActiveFor(t.db.allocs[b], r)
    {
      assert AllocEvolves(s.db.allocs[b], t.db.allocs[b]);
      assert ActiveFor(s.db.allocs[b], r) ==> b == a;
    }
  }

  lemma OverdueNow(cfg: Settings, s: State, wait: nat, a: nat)
    requires Inv(s) && a < |s.db.allocs| && Active(s.db.allocs[a]) && s.db.allocs[a].worker < |s.db.workers|
    requires Overdue(cfg, s.db, a, s.clock)
    ensures var t, r := Next(cfg, s, Pass(wait)), s.db.allocs[a].run;
            && r < |s.db.runs| && a < |t.db.allocs| && t.db.allocs[a] == s.db.allocs[a].(released := Some(s.clock))
            && Reclaimed(s.db.runs[r], t.db, r, |s.db.allocs|)
  {
    hide Inv, Consistent, Queue, Recover, PlaceAll, Overdue, Good;
    var t, r := Next(cfg, s, Pass(wait)), s.db.allocs[a].run;
    var ready := Recover(cfg, s.db, s.clock);
    NextOk(cfg, s, Pass(wait));
    ConsistentNow(s);
    RecoverOnLease(cfg, s.db, s.clock, a);
    RecoverExactly(cfg, s.db, s.clock);
    PlacedAnew(cfg, ready, Queue(ready.runs), s.clock + wait, r, a);
    if t.db.runs[r].status == Scheduling {
      NewLease(s, t, r, a);
    }
  }

  lemma ConsistentNow(s: State)
    requires Inv(s)
    ensures Consistent(s.db, s.clock, {})
  {
  }

  lemma LeaseRefersToRows(s: State, a: nat)
    requires Inv(s) && a < |s.db.allocs|
    ensures s.db.allocs[a].worker < |s.db.workers| && s.db.allocs[a].run < |s.db.runs|
  {
    assert AllocOk(s.db, a);
  }

  /** In every reachable state, a pass takes back an active lease if and only if its time is over
      or its worker is online and silent; then the run fails, is cancelled or waits again by its
      prior status. Otherwise neither the lease nor the run is touched. */
  lemma TakenBackIff(cfg: Settings, actions: seq<Action>, wait: nat, a: nat)
    requires var s := Exec(cfg, INIT, actions); a < |s.db.allocs| && s.db.allocs[a].released == None
    ensures var s := Exec(cfg, INIT, actions);
            var t, lease := Next(cfg, s, Pass(wait)), s.db.allocs[a];
            && lease.worker < |s.db.workers| && lease.run < |s.db.runs| && lease.run < |t.db.runs| && a < |t.db.allocs|
            && var worker := s.db.workers[lease.worker];
               if lease.expires < s.clock || (worker.status == Online && worker.beat + cfg.staleSeconds < s.clock)
               then && t.db.allocs[a] == lease.(released := Some(s.clock))
                    && Reclaimed(s.db.runs[lease.run], t.db, lease.run, |s.db.allocs|)
               else t.db.allocs[a] == lease && t.db.runs[lease.run] == s.db.runs[lease.run]
  {
    hide Inv, Exec, Schedule;
    var s := Exec(cfg, INIT, actions);
    Always(cfg, actions);
    LeaseRefersToRows(s, a);
    if Overdue(cfg, s.db, a, s.clock) {
      OverdueNow(cfg, s, wait, a);
    } else {
      NotOverdueIsSpared(cfg, s, a, wait);
    }
  }

  // ----- Orphans -----

  /** A started run that needs its lease, but that no session works on any more. */
  ghost predicate Orphan(s: State, r: nat) {
    r < |s.db.runs| && (s.db.runs[r].status == Running || s.db.runs[r].status == Cancelling) && Deserted(s, r)
  }

  ghost predicate Deserted(s: State, r: nat) {
    forall i :: 0 <= i < |s.sessions| && Working(s.sessions[i].phase) ==> s.sessions[i].run != r
  }

  lemma OthersLeaveItAlone(s: State, sid: nat, move: SessionMove, r: nat)
    requires sid < |s.sessions| && r < |s.db.runs|
    requires Begun(s.db.runs[r].status) && (Working(s.sessions[sid].phase) ==> s.sessions[sid].run != r)
    ensures var t := SessionStep(s, sid, move);
            r < |t.db.runs| && t.db.runs[r] == s.db.runs[r]
  {
  }

  lemma LeaseOfHolder(s: State, r: nat)
    requires Inv(s) && r < |s.db.runs| && Holding(s.db.runs[r].status)
    ensures LeaseOf(s.db.allocs, r).Some?
  {
  }

  lemma PassAndOrphan(cfg: Settings, s: State, wait: nat, r: nat)
    requires Inv(s) && r < |s.db.runs| && Holding(s.db.runs[r].status) && Begun(s.db.runs[r].status)
    ensures var e := Schedule(cfg, s.db, s.clock, s.clock + wait);
            && r < |e.runs| && LeaseOf(s.db.allocs, r).Some?
            && s.db.allocs[LeaseOf(s.db.allocs, r).value].worker < |s.db.workers|
            && (Ended(e.runs[r].status) <==> Overdue(cfg, s.db, LeaseOf(s.db.allocs, r).value, s.clock))
  {
    hide Consistent, Schedule;
    LeaseOfHolder(s, r);
    PassOnLease(cfg, s.db, s.clock, s.clock + wait, LeaseOf(s.db.allocs, r).value);
  }

  /** An orphaned run ends if and only if a scheduling pass finds its lease run out or its worker
      silent. Nothing else ever ends it, not even another delivery of its assignment. */
  lemma OrphanEndsOnlyByRecovery(cfg: Settings, actions: seq<Action>, a: Action, r: nat)
    requires Orphan(Exec(cfg, INIT, actions), r)
    ensures var s := Exec(cfg, INIT, actions);
            var t := Next(cfg, s, a);
            && r < |t.db.runs| && LeaseOf(s.db.allocs, r).Some?
            && var lease := s.db.allocs[LeaseOf(s.db.allocs, r).value];
               && lease.worker < |s.db.workers|
               && var worker := s.db.workers[lease.worker];
                  Ended(t.db.runs[r].status) <==>
                    && a.Pass?
                    && (|| lease.expires < s.clock
                        || (worker.status == Online && worker.beat + cfg.staleSeconds < s.clock))
  {
    var s := Exec(cfg, INIT, actions);
    Always(cfg, actions);
    OrphanStep(cfg, s, a, r);
  }

  lemma OrphanStep(cfg: Settings, s: State, a: Action, r: nat)
    requires Inv(s) && Orphan(s, r)
    ensures var t := Next(cfg, s, a);
            && r < |t.db.runs| && LeaseOf(s.db.allocs, r).Some?
            && s.db.allocs[LeaseOf(s.db.allocs, r).value].worker < |s.db.workers|
            && (Ended(t.db.runs[r].status) <==>
                  a.Pass? && Overdue(cfg, s.db, LeaseOf(s.db.allocs, r).value, s.clock))
  {
    hide Consistent, SessionsOk, TelemetryOk, Schedule, SessionStep;
    PassAndOrphan(cfg, s, 0, r);
    match a
    case Pass(wait) => PassAndOrphan(cfg, s, wait, r);
    case Work(sid, move) =>
      if sid < |s.sessions| {
        OthersLeaveItAlone(s, sid, move, r);
      }
    case _ =>
  }

  /** A session does not become the executor of a run that has started. */
  lemma StaysOut(s: State, sid: nat, move: SessionMove, r: nat)
    requires sid < |s.sessions| && r < |s.db.runs| && Begun(s.db.runs[r].status)
    requires Working(s.sessions[sid].phase) ==> s.sessions[sid].run != r
    ensures var t := SessionStep(s, sid, move);
            |t.sessions| == |s.sessions| && (Working(t.sessions[sid].phase) ==> t.sessions[sid].run != r)
  {
    hide Conclude, Move, LeaseOf;
  }

  /** A run that has started gets no new executor, whatever is delivered. */
  lemma NoNewExecutor(s: State, sid: nat, move: SessionMove, r: nat)
    requires sid < |s.sessions| && r < |s.db.runs| && Begun(s.db.runs[r].status) && Deserted(s, r)
    ensures Deserted(SessionStep(s, sid, move), r)
  {
    hide SessionStep;
    OwnSession(s, sid, move);
    StaysOut(s, sid, move, r);
  }

  lemma StaysDeserted(cfg: Settings, s: State, a: Action, r: nat)
    requires r < |s.db.runs| && Begun(s.db.runs[r].status) && Deserted(s, r)
    ensures Deserted(Next(cfg, s, a), r)
  {
    hide Schedule, SessionStep;
    if a.Work? && a.sid < |s.sessions| {
      NoNewExecutor(s, a.sid, a.move, r);
    }
  }

  lemma LeaseFound(s: State, r: nat, a: nat)
    requires Inv(s) && a < |s.db.allocs| && ActiveFor(s.db.allocs[a], r)
    ensures LeaseOf(s.db.allocs, r) == Some(a)
  {
    LeaseIs(s.db, a);
  }

  /** A started run keeps its lease for as long as it goes on. */
  lemma LeaseStays(s: State, t: State, r: nat, a: nat)
    requires Good(s, t) && r < |s.db.runs| && LeaseOf(s.db.allocs, r) == Some(a)
    requires Begun(s.db.runs[r].status) && r < |t.db.runs| && Holding(t.db.runs[r].status)
    ensures LeaseOf(t.db.allocs, r) == Some(a)
  {
    assert AllocEvolves(s.db.allocs[a], t.db.allocs[a]) && !GivenUp(s.db, t.db, r);
    LeaseFound(t, r, a);
  }

  lemma StaysBegun(s: State, t: State, r: nat)
    requires Inv(s) && Good(s, t) && r < |s.db.runs| && Begun(s.db.runs[r].status)
    ensures r < |t.db.runs| && Begun(t.db.runs[r].status)
    ensures Ended(s.db.runs[r].status) ==> Ended(t.db.runs[r].status)
  {
    hide LeasesOk, CapacityOk, NamesOk, StaleOk, MailOk, MessagesOk, LineageOk, SessionsOk, TelemetryOk;
    assert RunEvolves(s.db.runs[r], t.db.runs[r]);
    assert RunOk(s.db.runs[r], s.clock) && RunOk(t.db.runs[r], t.clock);
    Fate(s.db.runs[r].log, t.db.runs[r].log);
  }

  /** Run `r` was started and its executor is gone; if it has not ended, it holds lease `a`. */
  ghost predicate Abandoned(s: State, r: nat, a: nat) {
    && r < |s.db.runs| && Begun(s.db.runs[r].status) && Deserted(s, r)
    && a < |s.db.allocs| && s.db.allocs[a].worker < |s.db.workers|
    && (!Ended(s.db.runs[r].status) ==> LeaseOf(s.db.allocs, r) == Some(a))
  }

  lemma AbandonedStep(cfg: Settings, s: State, action: Action, r: nat, a: nat)
    requires Inv(s) && Abandoned(s, r, a)
    ensures var t := Next(cfg, s, action);
            && Inv(t) && Abandoned(t, r, a)
            && (Ended(t.db.runs[r].status) <==>
                  Ended(s.db.runs[r].status) || (action.Pass? && Overdue(cfg, s.db, a, s.clock)))
  {
    hide Inv, Deserted, Next;
    var t := Next(cfg, s, action);
    NextOk(cfg, s, action);
    NextInv(cfg, s, action);
    StaysBegun(s, t, r);
    StaysDeserted(cfg, s, action, r);
    if !Ended(s.db.runs[r].status) {
      OrphanStep(cfg, s, action, r);
      if !Ended(t.db.runs[r].status) {
        LeaseStays(s, t, r, a);
      }
    }
  }

  /** No pass of the sequence finds lease `a` active and overdue. */
  predicate Overlooked(cfg: Settings, s: State, actions: seq<Action>, a: nat) {
    actions == [] ||
    var init, last := actions[..|actions| - 1], actions[|actions| - 1];
    var t := Exec(cfg, s, init);
    && Overlooked(cfg, s, init, a)
    && (last.Pass? && a < |t.db.allocs| && Active(t.db.allocs[a]) && t.db.allocs[a].worker < |t.db.workers| ==>
          !Overdue(cfg, t.db, a, t.clock))
  }

  lemma {:induction false} AbandonedUntilOverdue(cfg: Settings, s: State, actions: seq<Action>, r: nat, a: nat)
    requires Inv(s) && Orphan(s, r) && LeaseOf(s.db.allocs, r) == Some(a)
    ensures var t := Exec(cfg, s, actions);
            Inv(t) && Abandoned(t, r, a) && (Ended(t.db.runs[r].status) <==> !Overlooked(cfg, s, actions, a))
  {
    hide Inv, Deserted, Next;
    if actions == [] {
      LeaseHasWorker(s, r, a);
    } else {
      var init := actions[..|actions| - 1];
      AbandonedUntilOverdue(cfg, s, init, r, a);
      AbandonedStep(cfg, Exec(cfg, s, init), actions[|actions| - 1], r, a);
    }
  }

  /** Over any sequence of actions of anybody, an orphan stays an orphan with the same lease if
      and only if no pass finds that lease overdue. */
  lemma OrphanStaysIff(cfg: Settings, actions: seq<Action>, more: seq<Action>, r: nat)
    requires Orphan(Exec(cfg, INIT, actions), r)
    ensures var s := Exec(cfg, INIT, actions);
            var t := Exec(cfg, s, more);
            && LeaseOf(s.db.allocs, r).Some? && r < |t.db.runs|
            && var a := LeaseOf(s.db.allocs, r).value;
               && (Orphan(t, r) && LeaseOf(t.db.allocs, r) == Some(a) <==> Overlooked(cfg, s, more, a))
               && (Ended(t.db.runs[r].status) <==> !Overlooked(cfg, s, more, a))
  {
    hide Inv, Deserted, Exec, Overlooked;
    var s := Exec(cfg, INIT, actions);
    Always(cfg, actions);
    LeaseOfHolder(s, r);
    AbandonedUntilOverdue(cfg, s, more, r, LeaseOf(s.db.allocs, r).value);
  }

  /** Worker `w` reports at position `j` and the pass at position `i` comes soon enough after. */
  predicate Covers(cfg: Settings, s: State, actions: seq<Action>, w: nat, j: nat, i: nat)
    requires i < |actions|
  {
    && j < i && actions[j] == Heartbeat(w)
    && var sent, pass := Exec(cfg, s, actions[..j]).clock, Exec(cfg, s, actions[..i]).clock;
       pass <= sent + cfg.staleSeconds && pass <= sent + cfg.leaseSeconds
  }

  /** Every pass comes within the stale time and the lease time of a heartbeat of worker `w`. */
  ghost predicate Reporting(cfg: Settings, s: State, actions: seq<Action>, w: nat) {
    forall i :: 0 <= i < |actions| && actions[i].Pass? ==> exists j: nat :: Covers(cfg, s, actions, w, j, i)
  }

  lemma ReportingEarlier(cfg: Settings, s: State, actions: seq<Action>, w: nat)
    requires actions != [] && Reporting(cfg, s, actions, w)
    ensures Reporting(cfg, s, actions[..|actions| - 1], w)
  {
    var init := actions[..|actions| - 1];
    forall i | 0 <= i < |init| && init[i].Pass?
      ensures exists j: nat :: Covers(cfg, s, init, w, j, i)
    {
      assert actions[i].Pass?;
      var j: nat :| Covers(cfg, s, actions, w, j, i);
      assert init[..j] == actions[..j] && init[..i] == actions[..i];
      assert Covers(cfg, s, init, w, j, i);
    }
  }

  lemma ExecNext(cfg: Settings, s: State, actions: seq<Action>, j: nat)
    requires j < |actions|
    ensures Exec(cfg, s, actions[..j + 1]) == Next(cfg, Exec(cfg, s, actions[..j]), actions[j])
  {
    hide Exec, Next;
    assert actions[..j + 1] == actions[..j] + [actions[j]];
    ExecLast(cfg, s, actions[..j], actions[j]);
  }

  /** The floor set by the heartbeat at `j` still holds at position `i`. */
  lemma FloorAt(cfg: Settings, s: State, actions: seq<Action>, w: nat, j: nat, i: nat)
    requires Inv(s) && w < |s.db.workers| && i < |actions| && Covers(cfg, s, actions, w, j, i)
    ensures Floor(cfg, Exec(cfg, s, actions[..i]).db, w, Exec(cfg, s, actions[..j]).clock)
  {
    hide Inv, Floor, Next, Exec;
    var sent := Exec(cfg, s, actions[..j]);
    Arrive(cfg, s, actions[..j]);
    WorkersStay(cfg, s, actions[..j], w);
    BeatSetsFloor(cfg, sent, w);
    ExecNext(cfg, s, actions, j);
    assert actions[..i] == actions[..j + 1] + actions[j + 1..i];
    ExecSplit(cfg, s, actions[..j + 1], actions[j + 1..i]);
    FloorHolds(cfg, Exec(cfg, s, actions[..j + 1]), actions[j + 1..i], w, sent.clock);
  }

  lemma WorkersStay(cfg: Settings, s: State, actions: seq<Action>, w: nat)
    requires Inv(s) && w < |s.db.workers|
    ensures w < |Exec(cfg, s, actions).db.workers|
  {
    hide Inv, Exec;
    Onwards(cfg, s, actions);
  }

  lemma FloorNotOverdue(cfg: Settings, s: State, w: nat, beat: int, a: nat)
    requires Floor(cfg, s.db, w, beat) && a < |s.db.allocs| && s.db.allocs[a].worker == w
    requires s.clock <= beat + cfg.staleSeconds && s.clock <= beat + cfg.leaseSeconds
    ensures Active(s.db.allocs[a]) && w < |s.db.workers| ==> !Overdue(cfg, s.db, a, s.clock)
  {
  }

  lemma AllocKeepsWorker(cfg: Settings, s: State, actions: seq<Action>, a: nat)
    requires Inv(s) && a < |s.db.allocs|
    ensures var t := Exec(cfg, s, actions); a < |t.db.allocs| && t.db.allocs[a].worker == s.db.allocs[a].worker
  {
    hide Inv, Exec;
    Onwards(cfg, s, actions);
    assert AllocEvolves(s.db.allocs[a], Exec(cfg, s, actions).db.allocs[a]);
  }

  lemma {:induction false} ReportingIsOverlooked(cfg: Settings, s: State, actions: seq<Action>, a: nat)
    requires Inv(s) && a < |s.db.allocs| && s.db.allocs[a].worker < |s.db.workers|
    requires Reporting(cfg, s, actions, s.db.allocs[a].worker)
    ensures Overlooked(cfg, s, actions, a)
  {
    if actions != [] {
      hide Inv, Floor, Next, Overdue, Exec;
      var init, last, w := actions[..|actions| - 1], |actions| - 1, s.db.allocs[a].worker;
      ReportingEarlier(cfg, s, actions, w);
      ReportingIsOverlooked(cfg, s, init, a);
      if actions[last].Pass? {
        var j: nat :| Covers(cfg, s, actions, w, j, last);
        FloorAt(cfg, s, actions, w, j, last);
        AllocKeepsWorker(cfg, s, init, a);
        FloorNotOverdue(cfg, Exec(cfg, s, init), w, Exec(cfg, s, actions[..j]).clock, a);
      }
    }
  }

  lemma LeaseHasWorker(s: State, r: nat, a: nat)
    requires Inv(s) && LeaseOf(s.db.allocs, r) == Some(a)
    ensures s.db.allocs[a].worker < |s.db.workers|
  {
    assert AllocOk(s.db, a);
  }

  /** The documentation lets a restarted worker's old lease run out. The heartbeats of the
      restarted worker renew it instead: while every pass finds a recent heartbeat, and
      whatever else anybody does, the orphaned run keeps its lease and does not end. */
  lemma OrphanOutlivesRestart(cfg: Settings, actions: seq<Action>, more: seq<Action>, r: nat)
    requires Orphan(Exec(cfg, INIT, actions), r)
    requires var s := Exec(cfg, INIT, actions);
             forall a :: LeaseOf(s.db.allocs, r) == Some(a) ==> Reporting(cfg, s, more, s.db.allocs[a].worker)
    ensures var s := Exec(cfg, INIT, actions);
            var t := Exec(cfg, s, more);
            Orphan(t, r) && LeaseOf(t.db.allocs, r).Some? && LeaseOf(t.db.allocs, r) == LeaseOf(s.db.allocs, r)
  {
    hide Inv, Orphan, Exec, Overlooked, Reporting;
    var s := Exec(cfg, INIT, actions);
    Always(cfg, actions);
    OrphanStaysIff(cfg, actions, more, r);
    var a := LeaseOf(s.db.allocs, r).value;
    LeaseHasWorker(s, r, a);
    ReportingIsOverlooked(cfg, s, more, a);
  }
}
