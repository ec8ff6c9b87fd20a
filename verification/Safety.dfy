/**
 The invariant of the whole platform, sessions in flight included, and proof that every
 action keeps it.
 */
module Safety {
  import opened Options
  import opened Lifecycle
  import opened Tables
  import opened Consistency
  import opened Scheduler
  import opened Protocol

  /** The session has started its run and is not done with it. */
  predicate Working(p: Phase) {
    p.Warming? || p.Sleeping? || p.Checked? || p.Finishing? || p.RolledBack? || p.Rescuing?
  }

  /** What was read may be outdated, but not if the version is still the same. */
  predicate Snapshot(db: Tables, r: nat, version: nat, seen: Status) {
    && r < |db.runs| && version <= db.runs[r].version
    && (version == db.runs[r].version ==> db.runs[r].status == seen)
  }

  /** How many log lines and progress metrics a working session has written. */
  function Written(p: Phase): (nat, nat) {
    match p
    case Sleeping(step, _) => (step + 1, step)
    case Checked(_, _, step, _) => (step + 1, step)
    case Finishing(_, _, Stepwise(total)) => (total + 1, total)
    case _ => (0, 0)
  }

  predicate PhaseOk(db: Tables, x: Session)
    requires x.run < |db.runs|
  {
    match x.phase
    case Loaded(version) => Snapshot(db, x.run, version, Scheduling)
    case Fenced(version, lease) =>
      && Snapshot(db, x.run, version, Scheduling) && lease == x.token
      && (version == db.runs[x.run].version ==> lease < |db.allocs| && Active(db.allocs[lease]))
    case Checked(seen, version, step, total) => Snapshot(db, x.run, version, seen) && step < total
    case Finishing(seen, version, plan) => Snapshot(db, x.run, version, seen) && (plan.Direct? ==> seen == Running)
    case Rescuing(seen, version, _) => Snapshot(db, x.run, version, seen)
    case Sleeping(step, total) => step < total
    case Warming(total) => 0 < total
    case _ => true
  }

  predicate SessionOk(db: Tables, x: Session) {
    && x.message < |db.outbox| && db.outbox[x.message] == Assigned(x.run, x.worker, x.token)
    && x.run < |db.runs| && x.token < |db.allocs|
    && PhaseOk(db, x)
    && (Working(x.phase) ==>
          && Begun(db.runs[x.run].status)
          && (Holding(db.runs[x.run].status) ==> Active(db.allocs[x.token]))
          && |db.runs[x.run].lines| == Written(x.phase).0 && |db.runs[x.run].steps| == Written(x.phase).1)
  }

  /** Every session is in order, and no two sessions work on the same run. */
  ghost predicate SessionsOk(s: State) {
    && (forall i :: 0 <= i < |s.sessions| ==> SessionOk(s.db, s.sessions[i]))
    && (forall i, j | 0 <= i < j < |s.sessions| && Working(s.sessions[i].phase) && Working(s.sessions[j].phase) ::
          s.sessions[i].run != s.sessions[j].run)
  }

  /** Log lines and progress steps are numbered 1, 2, 3, ... without gap or repetition. */
  predicate Numbered(run: Run) {
    && run.lines == Upto(|run.lines|) && run.steps == Upto(|run.steps|)
    && (!Begun(run.status) ==> run.lines == [] && run.steps == [])
  }

  ghost predicate TelemetryOk(db: Tables) {
    forall r :: 0 <= r < |db.runs| ==> Numbered(db.runs[r])
  }

  ghost predicate Inv(s: State) {
    Consistent(s.db, s.clock, {}) && SessionsOk(s) && TelemetryOk(s.db)
  }

  /** A step from a good state to another, with nothing lost on the way. */
  ghost predicate Good(s: State, t: State) {
    Inv(t) && Evolves(s.db, t.db) && s.clock <= t.clock
  }

  // ----- Frames -----

  lemma SessionKept(d: Tables, e: Tables, x: Session, clock: int)
    requires SessionOk(d, x) && Evolves(d, e) && RunsOk(d, clock) && RunsOk(e, clock) && LeasesOk(d) && MessagesOk(d)
    requires Working(x.phase) ==>
               e.runs[x.run].lines == d.runs[x.run].lines && e.runs[x.run].steps == d.runs[x.run].steps
    ensures SessionOk(e, x)
  {
    var r := x.run;
    assert RunEvolves(d.runs[r], e.runs[r]) && RunOk(d.runs[r], clock) && RunOk(e.runs[r], clock);
    Fate(d.runs[r].log, e.runs[r].log);
    assert AllocEvolves(d.allocs[x.token], e.allocs[x.token]);
    assert MessageOk(d, d.outbox[x.message]) && AllocOk(d, x.token);
    if Active(d.allocs[x.token]) && !Active(e.allocs[x.token]) {
      assert GivenUp(d, e, d.allocs[x.token].run);
    }
  }

  ghost predicate NewRunsSilent(d: Tables, e: Tables) {
    forall r :: |d.runs| <= r < |e.runs| ==> e.runs[r].lines == [] && e.runs[r].steps == []
  }

  lemma TelemetryKept(d: Tables, e: Tables, clock: int)
    requires TelemetryOk(d) && Evolves(d, e) && Silent(d, e) && NewRunsSilent(d, e)
    requires RunsOk(d, clock) && RunsOk(e, clock)
    ensures TelemetryOk(e)
  {
    forall r | 0 <= r < |e.runs|
      ensures Numbered(e.runs[r])
    {
      if r < |d.runs| {
        assert Numbered(d.runs[r]) && RunEvolves(d.runs[r], e.runs[r]);
        assert RunOk(d.runs[r], clock) && RunOk(e.runs[r], clock);
        Fate(d.runs[r].log, e.runs[r].log);
      }
    }
  }

  /** Transactions that are not part of a session. */
  lemma Outside(s: State, e: Tables, clock: int)
    requires Inv(s) && s.clock <= clock && Consistent(e, clock, {}) && Evolves(s.db, e) && Silent(s.db, e)
    requires NewRunsSilent(s.db, e)
    ensures Inv(s.(db := e, clock := clock))
  {
    Later(s.db, s.clock, clock, {});
    TelemetryKept(s.db, e, clock);
    forall i | 0 <= i < |s.sessions|
      ensures SessionOk(e, s.sessions[i])
    {
      SessionKept(s.db, e, s.sessions[i], clock);
    }
  }

  /** A session writes to its own run at most, and goes on to another phase. */
  lemma Inside(s: State, sid: nat, e: Tables, phase: Phase)
    requires Inv(s) && sid < |s.sessions| && Consistent(e, s.clock, {}) && Evolves(s.db, e) && TelemetryOk(e)
    requires forall r :: 0 <= r < |s.db.runs| && r != s.sessions[sid].run ==>
               e.runs[r].lines == s.db.runs[r].lines && e.runs[r].steps == s.db.runs[r].steps
    requires Working(s.sessions[sid].phase) || Silent(s.db, e)
    requires SessionOk(e, s.sessions[sid].(phase := phase))
    requires Working(phase) ==> Working(s.sessions[sid].phase) || !Begun(s.db.runs[s.sessions[sid].run].status)
    ensures Inv(At(s.(db := e), sid, phase))
  {
    hide CapacityOk, NamesOk, StaleOk, MailOk, LineageOk;
    var t := At(s.(db := e), sid, phase);
    forall i | 0 <= i < |s.sessions| && i != sid
      ensures SessionOk(e, t.sessions[i])
      ensures Working(phase) && Working(t.sessions[i].phase) ==> t.sessions[i].run != t.sessions[sid].run
    {
      assert SessionOk(s.db, s.sessions[i]);
      SessionKept(s.db, e, s.sessions[i], s.clock);
    }
  }

  // ----- API -----

  lemma NewRunOk(q: Request, attempt: nat, parent: Option<nat>, now: int)
    requires q.cpu > 0 && q.memory > 0
    ensures var run := NewRun(q, attempt, parent, now);
            && RunOk(run, now) && run.status == Queued && run.lines == [] && run.steps == []
            && Entries(run.log, Scheduling) == 0 && Entries(run.log, Cancelling) == 0
  {
    AppendEvent([], Moved(Draft, Queued));
    assert NewRun(q, attempt, parent, now).log == [] + [Moved(Draft, Queued)];
  }

  lemma Staying(s: State)
    requires Inv(s)
    ensures Good(s, s)
  {
    Unchanged(s.db);
  }

  lemma InsertingOk(s: State, run: Run)
    requires Inv(s) && RunOk(run, s.clock) && run.status == Queued && run.lines == [] && run.steps == []
    requires Entries(run.log, Scheduling) == 0 && Entries(run.log, Cancelling) == 0
    requires match run.parent
             case None => run.attempt == 1
             case Some(p) => p < |s.db.runs| && ChildOf(run, s.db.runs[p])
    ensures Good(s, s.(db := Insert(s.db, run)))
  {
    hide Consistent, Evolves, Silent, SessionsOk, TelemetryOk;
    InsertOk(s.db, run, s.clock);
    Outside(s, Insert(s.db, run), s.clock);
  }

  lemma SubmitOk(s: State, q: Request)
    requires Inv(s)
    ensures Good(s, s.(db := SubmitRun(s.db, q, s.clock)))
  {
    hide Inv, Good, RunOk, Insert;
    if Acceptable(q) {
      NewRunOk(q, 1, None, s.clock);
      InsertingOk(s, NewRun(q, 1, None, s.clock));
    } else {
      Staying(s);
    }
  }

  lemma RetryOk(s: State, r: nat)
    requires Inv(s)
    ensures Good(s, s.(db := RetryRun(s.db, r, s.clock)))
  {
    if r < |s.db.runs| && s.db.runs[r].status == Failed {
      var p := s.db.runs[r];
      var q := Request(p.experiment, p.template, p.priority, p.cpu, p.memory, p.notes);
      assert RunOk(p, s.clock);
      hide Inv, Good, Insert;
      NewRunOk(q, p.attempt + 1, Some(r), s.clock);
      InsertingOk(s, NewRun(q, p.attempt + 1, Some(r), s.clock));
    } else {
      Staying(s);
    }
  }

  lemma CancelRunOk(s: State, r: nat)
    requires Inv(s)
    ensures Good(s, s.(db := CancelRun(s.db, r, s.clock)))
  {
    Unchanged(s.db);
    if r < |s.db.runs| && s.db.runs[r].status == Running {
      CancelOk(s.db, r, s.clock);
      Outside(s, CancelRun(s.db, r, s.clock), s.clock);
    }
  }

  lemma EditOk(s: State, r: nat, notes: nat)
    requires Inv(s)
    ensures Good(s, s.(db := EditMetadata(s.db, r, notes)))
  {
    Unchanged(s.db);
    if r < |s.db.runs| {
      assert RunOk(s.db.runs[r], s.clock);
      AppendEvent(s.db.runs[r].log, Edited);
      Rewrite(s.db, r, EditRun(s.db.runs[r], notes), s.clock, {});
      Outside(s, EditMetadata(s.db, r, notes), s.clock);
    }
  }

  // ----- Worker registry -----

  lemma RegisterTables(db: Tables, name: nat, cpu: int, memory: int, clock: int)
    requires Consistent(db, clock, {}) && cpu > 0 && memory > 0
    ensures var e := RegisterWorker(db, name, cpu, memory, clock);
            Consistent(e, clock, {}) && Evolves(db, e) && Silent(db, e)
  {
    var e := RegisterWorker(db, name, cpu, memory, clock);
    assert CapacityOk(e) by {
      forall a | 0 <= a < |db.allocs|
        ensures db.allocs[a].worker != |db.workers|
      {
        assert AllocOk(db, a);
      }
      NoLoad(db.allocs, |db.workers|);
    }
    WorkersOk(db, e, clock, {});
  }

  lemma HeartbeatTables(cfg: Settings, db: Tables, w: nat, clock: int)
    requires Consistent(db, clock, {}) && w < |db.workers|
    ensures var e := HeartbeatWorker(cfg, db, w, clock);
            Consistent(e, clock, {}) && Evolves(db, e) && Silent(db, e)
  {
    var e := HeartbeatWorker(cfg, db, w, clock);
    assert CapacityOk(e) by {
      forall v | 0 <= v < |e.workers|
        ensures e.workers[v] == Refresh(e.allocs, v, e.workers[v])
      {
        SameLoad(db.allocs, e.allocs, v);
      }
    }
    WorkersOk(db, e, clock, {});
  }

  /** A transaction outside the sessions that adds no run. */
  lemma Quietly(s: State, e: Tables, clock: int)
    requires Inv(s) && s.clock <= clock && Consistent(e, clock, {}) && Evolves(s.db, e) && Silent(s.db, e)
    requires |e.runs| == |s.db.runs|
    ensures Good(s, s.(db := e, clock := clock))
  {
    Outside(s, e, clock);
  }

  lemma RegisterOk(s: State, name: nat, cpu: int, memory: int)
    requires Inv(s)
    ensures Good(s, s.(db := RegisterWorker(s.db, name, cpu, memory, s.clock)))
  {
    hide Consistent, Evolves, Silent;
    if cpu <= 0 || memory <= 0 {
      TickOk(s, 0);
    } else {
      RegisterTables(s.db, name, cpu, memory, s.clock);
      Quietly(s, RegisterWorker(s.db, name, cpu, memory, s.clock), s.clock);
    }
  }

  lemma HeartbeatOk(cfg: Settings, s: State, w: nat)
    requires Inv(s)
    ensures Good(s, s.(db := HeartbeatWorker(cfg, s.db, w, s.clock)))
  {
    hide Consistent, Evolves, Silent;
    if w >= |s.db.workers| {
      TickOk(s, 0);
    } else {
      HeartbeatTables(cfg, s.db, w, s.clock);
      Quietly(s, HeartbeatWorker(cfg, s.db, w, s.clock), s.clock);
    }
  }

  lemma PassOk(cfg: Settings, s: State, wait: nat)
    requires Inv(s)
    ensures Good(s, s.(db := Schedule(cfg, s.db, s.clock, s.clock + wait), clock := s.clock + wait))
  {
    hide Consistent, Evolves, Silent, Schedule;
    ScheduleOk(cfg, s.db, s.clock, s.clock + wait);
    SameRuns(cfg, s.db, s.clock, s.clock + wait);
    Quietly(s, Schedule(cfg, s.db, s.clock, s.clock + wait), s.clock + wait);
  }

  lemma SameRuns(cfg: Settings, db: Tables, now: int, later: int)
    requires Consistent(db, now, {})
    ensures |Schedule(cfg, db, now, later).runs| == |db.runs|
  {
    var ready := Recover(cfg, db, now);
    RecoverOk(cfg, db, now);
    SameRunsPlaced(cfg, ready, Queue(ready.runs), later);
  }

  lemma {:induction false} SameRunsPlaced(cfg: Settings, db: Tables, queue: seq<nat>, now: int)
    ensures |PlaceAll(cfg, db, queue, now).runs| == |db.runs|
    decreases |queue|
  {
    if queue != [] {
      SameRunsPlaced(cfg, PlaceOne(cfg, db, queue[0], now), queue[1..], now);
    }
  }

  // ----- Worker sessions -----

  lemma DeliverOk(s: State, w: nat, m: nat)
    requires Inv(s)
    ensures Good(s, DeliverMessage(s, w, m))
  {
    var t := DeliverMessage(s, w, m);
    Unchanged(s.db);
    if t != s {
      var x := t.sessions[|s.sessions|];
      assert MessageOk(s.db, s.db.outbox[m]) && AllocOk(s.db, x.token);
      assert SessionOk(s.db, x);
      assert forall i :: 0 <= i < |s.sessions| ==> t.sessions[i] == s.sessions[i];
    }
  }

  /** A session goes on without touching the tables. */
  lemma Aside(s: State, sid: nat, phase: Phase)
    requires Inv(s) && sid < |s.sessions| && SessionOk(s.db, s.sessions[sid].(phase := phase))
    requires Working(phase) ==> Working(s.sessions[sid].phase)
    ensures Good(s, At(s, sid, phase))
  {
    Unchanged(s.db);
    Inside(s, sid, s.db, phase);
    assert s.(db := s.db) == s;
  }

  lemma AtWork(s: State, sid: nat)
    requires Inv(s) && sid < |s.sessions|
    ensures SessionOk(s.db, s.sessions[sid])
    ensures var run := s.db.runs[s.sessions[sid].run]; RunOk(run, s.clock) && Numbered(run)
  {
    assert SessionOk(s.db, s.sessions[sid]);
  }

  lemma LoadOk(s: State, sid: nat)
    requires Inv(s) && sid < |s.sessions| && s.sessions[sid].phase.Opened?
    ensures Good(s, LoadRun(s, sid))
  {
    assert SessionOk(s.db, s.sessions[sid]);
    Aside(s, sid, LoadRun(s, sid).sessions[sid].phase);
  }

  lemma FenceOk(s: State, sid: nat)
    requires Inv(s) && sid < |s.sessions| && s.sessions[sid].phase.Loaded?
    ensures Good(s, FenceRun(s, sid))
  {
    var x := s.sessions[sid];
    assert SessionOk(s.db, x);
    match LeaseOf(s.db.allocs, x.run) {
      case None =>
      case Some(a) => assert AllocOk(s.db, a);
    }
    Aside(s, sid, FenceRun(s, sid).sessions[sid].phase);
  }

  lemma StartedTables(s: State, sid: nat)
    requires Inv(s) && sid < |s.sessions| && s.sessions[sid].run < |s.db.runs|
    requires s.db.runs[s.sessions[sid].run].status == Scheduling
    ensures var r := s.sessions[sid].run;
            var e := s.db.(runs := s.db.runs[r := Move(s.db.runs[r], Running, s.clock)]);
            Consistent(e, s.clock, {}) && Evolves(s.db, e) && Silent(s.db, e) && TelemetryOk(e)
  {
    hide LeasesOk, CapacityOk, MailOk, MessagesOk, LineageOk, NamesOk, StaleOk;
    var r := s.sessions[sid].run;
    var x := Move(s.db.runs[r], Running, s.clock);
    AtWork(s, sid);
    MoveOk(s.db.runs[r], Running, s.clock, s.clock);
    Rewrite(s.db, r, x, s.clock, {});
    TelemetryKept(s.db, s.db.(runs := s.db.runs[r := x]), s.clock);
  }

  lemma StartOk(s: State, sid: nat, plan: Plan)
    requires Inv(s) && sid < |s.sessions| && s.sessions[sid].phase.Fenced?
    ensures Good(s, StartRun(s, sid, plan))
  {
    hide Consistent, Evolves, TelemetryOk;
    var t := StartRun(s, sid, plan);
    AtWork(s, sid);
    if t.sessions[sid].phase == Closed {
      Aside(s, sid, Closed);
    } else {
      StartedTables(s, sid);
      Inside(s, sid, t.db, t.sessions[sid].phase);
    }
  }

  lemma AppendUpto(n: nat)
    ensures Upto(n) + [n + 1] == Upto(n + 1) && n + 1 !in Upto(n)
  {
  }

  /** A session adds the next line, and perhaps the next progress step, to its run. */
  lemma WriteOk(s: State, sid: nat, x: Run, phase: Phase)
    requires Inv(s) && sid < |s.sessions| && Working(s.sessions[sid].phase)
    requires s.sessions[sid].run < |s.db.runs| && Numbered(x)
    requires x == s.db.runs[s.sessions[sid].run].(lines := x.lines, steps := x.steps)
    requires var e := s.db.(runs := s.db.runs[s.sessions[sid].run := x]); SessionOk(e, s.sessions[sid].(phase := phase))
    ensures var e := s.db.(runs := s.db.runs[s.sessions[sid].run := x]);
            Good(s, At(s.(db := e), sid, phase))
  {
    var r := s.sessions[sid].run;
    assert RunOk(s.db.runs[r], s.clock);
    Rewrite(s.db, r, x, s.clock, {});
    Inside(s, sid, s.db.(runs := s.db.runs[r := x]), phase);
  }

  lemma WarmOk(s: State, sid: nat)
    requires Inv(s) && sid < |s.sessions| && s.sessions[sid].phase.Warming?
    ensures Good(s, WarmUp(s, sid))
    ensures WarmUp(s, sid).sessions[sid].phase.Sleeping?
  {
    var t, r := WarmUp(s, sid), s.sessions[sid].run;
    assert SessionOk(s.db, s.sessions[sid]) && Numbered(s.db.runs[r]);
    AppendUpto(0);
    WriteOk(s, sid, t.db.runs[r], t.sessions[sid].phase);
  }

  lemma CheckOk(s: State, sid: nat)
    requires Inv(s) && sid < |s.sessions| && s.sessions[sid].phase.Sleeping?
    ensures Good(s, CheckRun(s, sid))
  {
    assert SessionOk(s.db, s.sessions[sid]);
    Aside(s, sid, CheckRun(s, sid).sessions[sid].phase);
  }

  lemma EndedTables(s: State, sid: nat, prepared: Run, target: Status)
    requires Inv(s) && sid < |s.sessions| && Working(s.sessions[sid].phase) && s.sessions[sid].run < |s.db.runs|
    requires var run := s.db.runs[s.sessions[sid].run];
             && prepared == run.(lines := prepared.lines, failure := prepared.failure) && Numbered(prepared)
             && ValidTransition(run.status, target) && Ended(target) && Begun(run.status)
             && (prepared.failure.Some? <==> target == Failed)
    ensures var r := s.sessions[sid].run;
            var e := Conclude(s.db, r, Move(prepared, target, s.clock), s.clock);
            && Consistent(e, s.clock, {}) && Evolves(s.db, e) && TelemetryOk(e)
            && e.runs == s.db.runs[r := Move(prepared, target, s.clock)]
  {
    var r := s.sessions[sid].run;
    var x := Move(prepared, target, s.clock);
    hide LeasesOk, CapacityOk, NamesOk, StaleOk, MailOk, MessagesOk, LineageOk;
    AtWork(s, sid);
    MoveOk(prepared, target, s.clock, s.clock);
    ConcludeOk(s.db, r, x, s.clock, {});
    assert Conclude(s.db, r, x, s.clock).runs == s.db.runs[r := x];
  }

  /** A session ends its run and gives up the lease, all in one transaction. */
  lemma EndOk(s: State, sid: nat, prepared: Run, target: Status)
    requires Inv(s) && sid < |s.sessions| && Working(s.sessions[sid].phase) && s.sessions[sid].run < |s.db.runs|
    requires var run := s.db.runs[s.sessions[sid].run];
             && prepared == run.(lines := prepared.lines, failure := prepared.failure) && Numbered(prepared)
             && ValidTransition(run.status, target) && Ended(target) && Begun(run.status)
             && (prepared.failure.Some? <==> target == Failed)
    ensures var t := EndRun(s, sid, prepared, target);
            Good(s, t)
  {
    EndedTables(s, sid, prepared, target);
    hide Consistent, Evolves, TelemetryOk;
    AtWork(s, sid);
    Inside(s, sid, Conclude(s.db, s.sessions[sid].run, Move(prepared, target, s.clock), s.clock), Returning);
  }

  lemma RecordOk(s: State, sid: nat)
    requires Inv(s) && sid < |s.sessions| && s.sessions[sid].phase.Checked?
    ensures Good(s, RecordStep(s, sid))
  {
    hide Inv, Good;
    AtWork(s, sid);
    var t, r, p := RecordStep(s, sid), s.sessions[sid].run, s.sessions[sid].phase;
    var run := s.db.runs[r].(lines := s.db.runs[r].lines + [p.step + 2]);
    AppendUpto(p.step + 1);
    AppendUpto(p.step);
    if t.sessions[sid].phase == Closed {
      Aside(s, sid, Closed);
    } else if p.seen == Cancelling {
      EndOk(s, sid, run, Cancelled);
    } else {
      WriteOk(s, sid, run.(steps := run.steps + [p.step + 1]), t.sessions[sid].phase);
    }
  }

  lemma FinishOk(s: State, sid: nat, outcome: Outcome)
    requires Inv(s) && sid < |s.sessions| && s.sessions[sid].phase.Finishing?
    ensures Good(s, FinishRun(s, sid, outcome))
  {
    hide Inv, Good;
    var t, r := FinishRun(s, sid, outcome), s.sessions[sid].run;
    AtWork(s, sid);
    if t.sessions[sid].phase != Returning {
      Aside(s, sid, t.sessions[sid].phase);
    } else {
      match (s.sessions[sid].phase.plan, outcome)
      case (Direct, Success(lines)) => EndOk(s, sid, s.db.runs[r].(lines := Upto(lines)), Succeeded);
      case (Stepwise(_), Success(_)) => EndOk(s, sid, s.db.runs[r], Succeeded);
      case (Stepwise(_), Trouble(f)) => EndOk(s, sid, s.db.runs[r].(failure := Some(f)), Failed);
    }
  }

  lemma RereadOk(s: State, sid: nat)
    requires Inv(s) && sid < |s.sessions| && s.sessions[sid].phase.RolledBack?
    ensures Good(s, RereadRun(s, sid))
  {
    assert SessionOk(s.db, s.sessions[sid]);
    Aside(s, sid, RereadRun(s, sid).sessions[sid].phase);
  }

  lemma RescueOk(s: State, sid: nat)
    requires Inv(s) && sid < |s.sessions| && s.sessions[sid].phase.Rescuing?
    ensures Good(s, RescueRun(s, sid))
  {
    hide Inv, Good;
    var t, r, p := RescueRun(s, sid), s.sessions[sid].run, s.sessions[sid].phase;
    AtWork(s, sid);
    if t.sessions[sid].phase == Closed {
      Aside(s, sid, Closed);
    } else {
      EndOk(s, sid, s.db.runs[r].(failure := Some(p.failure)), Failed);
    }
  }

  lemma CloseOk(s: State, sid: nat)
    requires Inv(s) && sid < |s.sessions|
    ensures Good(s, At(s, sid, Closed))
    ensures forall done :: Good(s, At(s, sid, Closed).(processed := done))
  {
    assert SessionOk(s.db, s.sessions[sid]);
    Aside(s, sid, Closed);
  }

  /** A move of a session changes the phase of that session and nothing else about sessions. */
  lemma OwnSession(s: State, sid: nat, move: SessionMove)
    requires sid < |s.sessions|
    ensures var t := SessionStep(s, sid, move);
            && |t.sessions| == |s.sessions|
            && t.sessions == s.sessions[sid := s.sessions[sid].(phase := t.sessions[sid].phase)]
  {
    hide Conclude, LineFree, Move, LeaseOf;
  }

  /** A move of a session leaves workers and allocations alone or releases the lease of its run. */
  lemma SessionLeases(s: State, sid: nat, move: SessionMove)
    requires sid < |s.sessions|
    ensures var t := SessionStep(s, sid, move).db;
            SameLeases(s.db, t) || SameLeases(Release(s.db, s.sessions[sid].run, s.clock), t)
  {
    hide Release, Conclude;
  }

  lemma SessionStepOk(s: State, sid: nat, move: SessionMove)
    requires Inv(s) && sid < |s.sessions|
    ensures Good(s, SessionStep(s, sid, move))
  {
    hide Inv, Good, LoadRun, FenceRun, StartRun, WarmUp, CheckRun, RecordStep, FinishRun, RereadRun, RescueRun;
    var p := s.sessions[sid].phase;
    TickOk(s, 0);
    match move
    case Load => if p.Opened? { LoadOk(s, sid); }
    case Fence => if p.Loaded? { FenceOk(s, sid); }
    case Start(plan) => if p.Fenced? { StartOk(s, sid, plan); }
    case Warm => if p.Warming? { WarmOk(s, sid); }
    case Checkpoint => if p.Sleeping? { CheckOk(s, sid); }
    case Record => if p.Checked? { RecordOk(s, sid); }
    case Finish(outcome) => if p.Finishing? { FinishOk(s, sid, outcome); }
    case Reread => if p.RolledBack? { RereadOk(s, sid); }
    case Rescue => if p.Rescuing? { RescueOk(s, sid); }
    case Acknowledge => CloseOk(s, sid);
    case Crash => CloseOk(s, sid);
  }

  lemma TickOk(s: State, seconds: nat)
    requires Inv(s)
    ensures Good(s, s.(clock := s.clock + seconds)) && Good(s, s)
  {
    Unchanged(s.db);
    Later(s.db, s.clock, s.clock + seconds, {});
  }

  /** Every action keeps the invariant, and lets the tables only evolve. */
  lemma NextOk(cfg: Settings, s: State, a: Action)
    requires Inv(s)
    ensures Good(s, Next(cfg, s, a))
  {
    hide Inv, Good, SubmitRun, RetryRun, CancelRun, EditMetadata, RegisterWorker, HeartbeatWorker, Schedule,
         DeliverMessage, SessionStep;
    match a
    case Submit(q) => SubmitOk(s, q);
    case Retry(r) => RetryOk(s, r);
    case Cancel(r) => CancelRunOk(s, r);
    case EditNotes(r, notes) => EditOk(s, r, notes);
    case Register(name, cpu, memory) => RegisterOk(s, name, cpu, memory);
    case Heartbeat(w) => HeartbeatOk(cfg, s, w);
    case Pass(wait) => PassOk(cfg, s, wait);
    case Deliver(w, m) => DeliverOk(s, w, m);
    case Tick(seconds) => TickOk(s, seconds);
    case Work(sid, move) =>
      if sid < |s.sessions| {
        SessionStepOk(s, sid, move);
      } else {
        TickOk(s, 0);
      }
  }

  lemma NextInv(cfg: Settings, s: State, a: Action)
    requires Inv(s)
    ensures Inv(Next(cfg, s, a))
  {
    NextOk(cfg, s, a);
  }
}
