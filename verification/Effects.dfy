/**
 What a single action writes, row by row and column by column.
 */
module Effects {
  import opened Options
  import opened Lifecycle
  import opened Tables
  import opened Consistency
  import opened Scheduler
  import opened Protocol
  import opened Safety
  import opened Guarantees

  // ----- API -----

  /** The action wrote the tables `e` and nothing else. */
  predicate OnlyTables(s: State, t: State, e: Tables) {
    t.db == e && t.sessions == s.sessions && t.processed == s.processed && t.clock == s.clock
  }

  /** A request is accepted within the bounds of the API, and adds one queued run as asked for
      and one message. */
  lemma SubmitWrites(cfg: Settings, s: State, q: Request)
    ensures var t, r := Next(cfg, s, Submit(q)), |s.db.runs|;
            if 100 <= q.cpu <= 4000 && 128 <= q.memory <= 8192 && -10 <= q.priority <= 10 then
              && |t.db.runs| == r + 1
              && OnlyTables(s, t, s.db.(runs := s.db.runs + [t.db.runs[r]], outbox := s.db.outbox + [Submitted(r)]))
              && t.db.runs[r] == Run(Queued, q.priority, q.cpu, q.memory, q.experiment, q.template, 1, None, None,
                                     s.clock, Some(s.clock), None, None, None, q.notes, 2,
                                     [Moved(Draft, Queued)], [], [])
            else t == s
  {
  }

  /** A retry of a failed run adds one queued run, with the same request and notes and one
      attempt more, and one message; nothing else can be retried. */
  lemma RetryWrites(cfg: Settings, s: State, p: nat)
    ensures var t, r := Next(cfg, s, Retry(p)), |s.db.runs|;
            if Is(s, p, Failed) then
              && |t.db.runs| == r + 1
              && OnlyTables(s, t, s.db.(runs := s.db.runs + [t.db.runs[r]], outbox := s.db.outbox + [Submitted(r)]))
              && var x := s.db.runs[p];
                 t.db.runs[r] == Run(Queued, x.priority, x.cpu, x.memory, x.experiment, x.template, x.attempt + 1,
                                     Some(p), None, s.clock, Some(s.clock), None, None, None, x.notes, 2,
                                     [Moved(Draft, Queued)], [], [])
            else t == s
  {
  }

  /** A running run, and no other, is cancelled: its status, log and version change, and one
      message is added. */
  lemma CancelWrites(cfg: Settings, s: State, r: nat)
    ensures var t := Next(cfg, s, Cancel(r));
            if Is(s, r, Running) then
              var x := s.db.runs[r];
              var y := x.(status := Cancelling, log := x.log + [Moved(Running, Cancelling)], version := x.version + 1);
              OnlyTables(s, t, s.db.(runs := s.db.runs[r := y], outbox := s.db.outbox + [CancelRequested(r)]))
            else t == s
  {
  }

  /** An edit gives an existing run the new notes and logs that; it raises the version if and
      only if the notes are different. */
  lemma EditWrites(cfg: Settings, s: State, r: nat, notes: nat)
    ensures var t := Next(cfg, s, EditNotes(r, notes));
            if r < |s.db.runs| then
              var x := s.db.runs[r];
              var version := if x.notes == notes then x.version else x.version + 1;
              var y := x.(notes := notes, log := x.log + [Edited], version := version);
              OnlyTables(s, t, s.db.(runs := s.db.runs[r := y]))
            else t == s
  {
  }

  // ----- Workers -----

  /** The capacity columns of a worker are left to another theorem. */
  predicate SameButCapacity(x: Worker, y: Worker) {
    y == x.(freeCpu := y.freeCpu, freeMemory := y.freeMemory, running := y.running)
  }

  lemma FoundByName(s: State, w: nat)
    requires Inv(s) && w < |s.db.workers|
    ensures FindName(s.db.workers, s.db.workers[w].name) == Some(w)
  {
    forall v | 0 <= v < |s.db.workers| && v != w
      ensures s.db.workers[v].name != s.db.workers[w].name
    {
      assert if v < w then s.db.workers[v].name != s.db.workers[w].name
             else s.db.workers[w].name != s.db.workers[v].name;
    }
  }

  /** Registering again under a known name brings that worker back online with the totals given
      and a fresh heartbeat; leases, runs and other workers are left alone. */
  lemma RegisterAgainWrites(cfg: Settings, s: State, w: nat, cpu: int, memory: int)
    requires Inv(s) && w < |s.db.workers| && cpu > 0 && memory > 0
    ensures var t := Next(cfg, s, Register(s.db.workers[w].name, cpu, memory));
            && |t.db.workers| == |s.db.workers|
            && OnlyTables(s, t, s.db.(workers := s.db.workers[w := t.db.workers[w]]))
            && var row := s.db.workers[w].(status := Online, totalCpu := cpu, totalMemory := memory, beat := s.clock);
               SameButCapacity(row, t.db.workers[w])
  {
    FoundByName(s, w);
  }

  /** A new name adds a worker that is online and empty. */
  lemma RegisterNewWrites(cfg: Settings, s: State, name: nat, cpu: int, memory: int)
    requires forall w :: 0 <= w < |s.db.workers| ==> s.db.workers[w].name != name
    ensures var t := Next(cfg, s, Register(name, cpu, memory));
            if cpu > 0 && memory > 0 then
              var row := Worker(name, Online, cpu, memory, cpu, memory, 0, s.clock);
              OnlyTables(s, t, s.db.(workers := s.db.workers + [row]))
            else t == s
  {
  }

  /** A heartbeat brings a known worker online and lets each of its active leases run for exactly
      the lease time from now. */
  lemma HeartbeatWrites(cfg: Settings, s: State, w: nat)
    ensures var t := Next(cfg, s, Heartbeat(w));
            if w < |s.db.workers| then
              && |t.db.workers| == |s.db.workers| && |t.db.allocs| == |s.db.allocs|
              && OnlyTables(s, t, s.db.(workers := s.db.workers[w := t.db.workers[w]], allocs := t.db.allocs))
              && SameButCapacity(s.db.workers[w].(status := Online, beat := s.clock), t.db.workers[w])
              && (forall a :: 0 <= a < |s.db.allocs| ==>
                    var x := s.db.allocs[a];
                    t.db.allocs[a] == if x.worker == w && x.released == None
                                      then x.(expires := s.clock + cfg.leaseSeconds) else x)
            else t == s
  {
  }

  // ----- New leases -----

  /** A lease as a pass at `now` hands it out: for a run that was queued, for what the run asks,
      to a fresh online worker, for exactly the lease time. */
  predicate HandedOut(cfg: Settings, d: Tables, e: Tables, a: nat, now: int) {
    && a < |e.allocs|
    && var x := e.allocs[a];
       && x.run < |d.runs| && x.run < |e.runs| && x.worker < |d.workers|
       && x == Allocation(x.run, x.worker, d.runs[x.run].cpu, d.runs[x.run].memory, a, now + cfg.leaseSeconds, None)
       && d.runs[x.run].status == Queued && e.runs[x.run].status == Scheduling && e.runs[x.run].holder == Some(x.worker)
       && d.workers[x.worker].status == Online && d.workers[x.worker].beat + cfg.staleSeconds >= now
  }

  ghost predicate AllHandedOut(cfg: Settings, d: Tables, e: Tables, now: int) {
    && d.allocs <= e.allocs
    && forall a :: |d.allocs| <= a < |e.allocs| ==> HandedOut(cfg, d, e, a, now)
  }

  lemma OneHandedOut(cfg: Settings, db: Tables, r: nat, now: int)
    ensures var e := PlaceOne(cfg, db, r, now);
            && AllHandedOut(cfg, db, e, now)
            && |e.runs| == |db.runs| && |e.workers| == |db.workers|
            && (forall w :: 0 <= w < |db.workers| ==> SameWorker(db.workers[w], e.workers[w]))
            && (forall x :: 0 <= x < |db.runs| ==> SameRequest(db.runs[x], e.runs[x]))
            && (forall x :: 0 <= x < |db.runs| && db.runs[x].status != Queued ==> e.runs[x] == db.runs[x])
            && (forall x :: 0 <= x < |db.runs| && e.runs[x].status == Queued ==> e.runs[x] == db.runs[x])
  {
  }

  lemma {:induction false} NewLeases(cfg: Settings, db: Tables, queue: seq<nat>, now: int)
    ensures AllHandedOut(cfg, db, PlaceAll(cfg, db, queue, now), now)
    ensures var e := PlaceAll(cfg, db, queue, now);
            && |e.runs| == |db.runs|
            && forall x :: 0 <= x < |db.runs| && db.runs[x].status != Queued ==> e.runs[x] == db.runs[x]
    decreases |queue|
  {
    if queue != [] {
      var d, e := PlaceOne(cfg, db, queue[0], now), PlaceAll(cfg, db, queue, now);
      OneHandedOut(cfg, db, queue[0], now);
      NewLeases(cfg, d, queue[1..], now);
      hide PlaceOne, PlaceAll;
      forall a | |db.allocs| <= a < |e.allocs|
        ensures HandedOut(cfg, db, e, a, now)
      {
        if a < |d.allocs| {
          assert HandedOut(cfg, db, d, a, now);
          assert e.allocs[a] == d.allocs[a];
        } else {
          assert HandedOut(cfg, d, e, a, now);
        }
      }
    }
  }

  /** Every lease a pass adds is for what its run asks, held by a fresh worker and runs for the
      lease time from the moment of placement. */
  lemma PassHandsOut(cfg: Settings, s: State, wait: nat, a: nat)
    requires Inv(s) && |s.db.allocs| <= a < |Next(cfg, s, Pass(wait)).db.allocs|
    ensures var t := Next(cfg, s, Pass(wait));
            && t.clock == s.clock + wait && HandedOut(cfg, Recover(cfg, s.db, s.clock), t.db, a, t.clock)
  {
    hide Inv, Recover, Queue, PlaceAll;
    var ready := Recover(cfg, s.db, s.clock);
    CountKept(cfg, s);
    NewLeases(cfg, ready, Queue(ready.runs), s.clock + wait);
  }

  lemma CountKept(cfg: Settings, s: State)
    requires Inv(s)
    ensures |Recover(cfg, s.db, s.clock).allocs| == |s.db.allocs|
  {
    hide Consistent, Recover;
    RecoverOk(cfg, s.db, s.clock);
  }

  // ----- Times -----

  /** The times of transitions from `x` to `y` in a transaction at `clock`. */
  predicate Stamped(x: Run, y: Run, clock: int) {
    && y.created == x.created && y.queuedAt == x.queuedAt
    && (y.status == Running && x.status != Running ==> y.startedAt == Some(clock))
    && (y.status in {Succeeded, Failed, Cancelled} && y.status != x.status ==> y.completedAt == Some(clock))
  }

  lemma MoveStamps(x: Run, prepared: Run, target: Status, clock: int)
    requires prepared == x.(lines := prepared.lines, failure := prepared.failure)
    requires x.queuedAt.Some? && ValidTransition(x.status, target)
    ensures Stamped(x, Move(prepared, target, clock), clock)
  {
  }

  lemma EndStamps(s: State, sid: nat, prepared: Run, target: Status, r: nat)
    requires sid < |s.sessions| && s.sessions[sid].run < |s.db.runs| && r < |s.db.runs|
    requires var x := s.db.runs[s.sessions[sid].run];
             prepared == x.(lines := prepared.lines, failure := prepared.failure) && ValidTransition(x.status, target)
    requires s.db.runs[r].queuedAt.Some?
    ensures var t := EndRun(s, sid, prepared, target).db;
            |t.runs| == |s.db.runs| && Stamped(s.db.runs[r], t.runs[r], s.clock)
  {
    hide Move, Release;
    if r == s.sessions[sid].run {
      MoveStamps(s.db.runs[r], prepared, target, s.clock);
    }
  }

  lemma SessionStamps(s: State, sid: nat, move: SessionMove, r: nat)
    requires sid < |s.sessions| && r < |s.db.runs| && s.db.runs[r].queuedAt.Some?
    ensures var t := SessionStep(s, sid, move).db; |t.runs| == |s.db.runs| && Stamped(s.db.runs[r], t.runs[r], s.clock)
  {
    hide EndRun, Move, LeaseOf;
    var x := s.sessions[sid];
    if x.run < |s.db.runs| {
      var run := s.db.runs[x.run];
      match run.status {
        case Scheduling =>
          if x.run == r {
            MoveStamps(run, run, Running, s.clock);
          }
        case Running =>
          EndStamps(s, sid, run, Succeeded, r);
          match move {
            case Finish(Success(lines)) => EndStamps(s, sid, run.(lines := Upto(lines)), Succeeded, r);
            case Finish(Trouble(f)) => EndStamps(s, sid, run.(failure := Some(f)), Failed, r);
            case Rescue =>
              if x.phase.Rescuing? {
                EndStamps(s, sid, run.(failure := Some(x.phase.failure)), Failed, r);
              }
            case _ =>
          }
        case Cancelling =>
          if x.phase.Checked? {
            EndStamps(s, sid, run.(lines := run.lines + [x.phase.step + 2]), Cancelled, r);
          }
        case _ =>
      }
    }
  }

  lemma PassStamps(cfg: Settings, s: State, wait: nat, r: nat)
    requires Inv(s) && r < |s.db.runs| && s.db.runs[r].queuedAt.Some?
    ensures var e := Schedule(cfg, s.db, s.clock, s.clock + wait);
            |e.runs| == |s.db.runs| && Stamped(s.db.runs[r], e.runs[r], s.clock)
  {
    hide Consistent, SessionsOk, TelemetryOk, Recover, Queue, PlaceAll;
    var ready := Recover(cfg, s.db, s.clock);
    RecoverOk(cfg, s.db, s.clock);
    PlacedStamps(cfg, ready, Queue(ready.runs), s.clock + wait, r);
  }

  lemma {:induction false} PlacedStamps(cfg: Settings, db: Tables, queue: seq<nat>, now: int, r: nat)
    requires r < |db.runs| && db.runs[r].queuedAt.Some?
    ensures var e := PlaceAll(cfg, db, queue, now);
            && |e.runs| == |db.runs|
            && e.runs[r].created == db.runs[r].created && e.runs[r].queuedAt == db.runs[r].queuedAt
            && (e.runs[r] == db.runs[r] || e.runs[r].status == Scheduling)
    decreases |queue|
  {
    if queue != [] {
      PlacedStamps(cfg, PlaceOne(cfg, db, queue[0], now), queue[1..], now, r);
    }
  }

  lemma StepStamps(cfg: Settings, s: State, a: Action, r: nat)
    requires Inv(s) && r < |Next(cfg, s, a).db.runs|
    ensures var t := Next(cfg, s, a);
            if r < |s.db.runs| then Stamped(s.db.runs[r], t.db.runs[r], s.clock)
            else t.db.runs[r].created == s.clock && t.db.runs[r].queuedAt == Some(s.clock)
  {
    hide Consistent, SessionsOk, TelemetryOk, Schedule, SessionStep;
    if r < |s.db.runs| {
      QueuedOnce(s, r);
    }
    match a
    case Pass(wait) =>
      SameRuns(cfg, s.db, s.clock, s.clock + wait);
      PassStamps(cfg, s, wait, r);
    case Work(sid, move) =>
      if sid < |s.sessions| {
        SameRunCount(s, sid, move);
        SessionStamps(s, sid, move, r);
      }
    case _ =>
  }

  lemma SameRunCount(s: State, sid: nat, move: SessionMove)
    requires sid < |s.sessions|
    ensures |SessionStep(s, sid, move).db.runs| == |s.db.runs|
  {
    hide Release, LeaseOf, Move;
  }

  lemma QueuedOnce(s: State, r: nat)
    requires Inv(s) && r < |s.db.runs|
    ensures s.db.runs[r].queuedAt.Some?
  {
    assert RunOk(s.db.runs[r], s.clock);
  }

  /** Times are the times of their transitions: in every execution, the step that starts a run
      writes its start time, the step that ends it its completion time, and the step that adds
      it the time of its creation and queueing. */
  lemma TimesAreMoments(cfg: Settings, actions: seq<Action>, a: Action, r: nat)
    requires r < |Next(cfg, Exec(cfg, INIT, actions), a).db.runs|
    ensures var s := Exec(cfg, INIT, actions);
            var t := Next(cfg, s, a);
            if r < |s.db.runs| then Stamped(s.db.runs[r], t.db.runs[r], s.clock)
            else t.db.runs[r].created == s.clock && t.db.runs[r].queuedAt == Some(s.clock)
  {
    hide Inv, Exec, Next, Stamped;
    Always(cfg, actions);
    StepStamps(cfg, Exec(cfg, INIT, actions), a, r);
  }
}
