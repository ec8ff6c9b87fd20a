/**
 Who may start, touch and end a run: leases, tokens and versions at work.
 */
module Fencing {
  import opened Options
  import opened Lifecycle
  import opened Tables
  import opened Consistency
  import opened Scheduler
  import opened Protocol
  import opened Safety
  import opened Guarantees

  lemma {:induction false} PlacingStartsNothing(cfg: Settings, db: Tables, queue: seq<nat>, now: int, r: nat)
    requires r < |db.runs|
    ensures var e := PlaceAll(cfg, db, queue, now);
            r < |e.runs| && (e.runs[r] == db.runs[r] || e.runs[r].status == Scheduling)
    decreases |queue|
  {
    if queue != [] {
      PlacingStartsNothing(cfg, PlaceOne(cfg, db, queue[0], now), queue[1..], now, r);
    }
  }

  /** The run is neither started nor brought to success. */
  predicate NoAdvance(x: Run, y: Run) {
    y.status == Running || y.status == Succeeded ==> x.status == y.status
  }

  lemma RecoveryAdvancesNothing(cfg: Settings, db: Tables, now: int, r: nat)
    requires Consistent(db, now, {}) && r < |db.runs|
    ensures var e := Recover(cfg, db, now); |e.runs| == |db.runs| && NoAdvance(db.runs[r], e.runs[r])
  {
    hide Consistent, Recover;
    RecoverOk(cfg, db, now);
  }

  lemma PassAdvancesNothing(cfg: Settings, db: Tables, now: int, later: int, r: nat)
    requires Consistent(db, now, {}) && r < |db.runs|
    ensures var e := Schedule(cfg, db, now, later); |e.runs| == |db.runs| && NoAdvance(db.runs[r], e.runs[r])
  {
    hide Consistent, Recover, Queue, PlaceAll;
    var ready := Recover(cfg, db, now);
    RecoveryAdvancesNothing(cfg, db, now, r);
    SameRuns(cfg, db, now, later);
    PlacingStartsNothing(cfg, ready, Queue(ready.runs), later, r);
  }

  lemma SessionStartsByStart(s: State, sid: nat, move: SessionMove, r: nat)
    requires sid < |s.sessions| && !Is(s, r, Running) && Is(SessionStep(s, sid, move), r, Running)
    ensures move.Start?
    ensures var x := s.sessions[sid]; x.phase.Fenced? && x.run == r && UpToDate(s.db, r, x.phase.version)
  {
  }

  /** Only the start commit of a fenced session takes a run into RUNNING. */
  lemma OnlyStartStarts(cfg: Settings, s: State, a: Action, r: nat)
    requires Inv(s) && !Is(s, r, Running) && Is(Next(cfg, s, a), r, Running)
    ensures a.Work? && a.move.Start? && a.sid < |s.sessions|
    ensures var x := s.sessions[a.sid]; x.phase.Fenced? && x.run == r && UpToDate(s.db, r, x.phase.version)
  {
    hide Consistent, SessionsOk, TelemetryOk, Schedule, SessionStep;
    match a
    case Pass(wait) =>
      SameRuns(cfg, s.db, s.clock, s.clock + wait);
      PassAdvancesNothing(cfg, s.db, s.clock, s.clock + wait, r);
    case Work(sid, move) => SessionStartsByStart(s, sid, move, r);
    case _ =>
  }

  /** Fenced start: whenever a run enters RUNNING, the committing worker owns the run's active
      allocation, and the token of the message it acts on is that allocation's token. */
  lemma FencedStart(cfg: Settings, actions: seq<Action>, a: Action, r: nat)
    requires var s := Exec(cfg, INIT, actions); !Is(s, r, Running) && Is(Next(cfg, s, a), r, Running)
    ensures var s := Exec(cfg, INIT, actions);
            && a.Work? && a.sid < |s.sessions|
            && var x := s.sessions[a.sid];
               && x.message < |s.db.outbox| && s.db.outbox[x.message] == Assigned(r, x.worker, x.token)
               && LeaseOf(s.db.allocs, r) == Some(x.token) && s.db.allocs[x.token].token == x.token
               && s.db.allocs[x.token].worker == x.worker
               && LeaseOf(Next(cfg, s, a).db.allocs, r) == Some(x.token)
  {
    var s := Exec(cfg, INIT, actions);
    Always(cfg, actions);
    OnlyStartStarts(cfg, s, a, r);
    TokenIsLease(s, a.sid);
  }

  /** The same row, log lines and progress metrics aside. */
  predicate SameRow(x: Run, y: Run) {
    y == x.(lines := y.lines, steps := y.steps)
  }

  ghost predicate OnlyLogs(d: Tables, e: Tables) {
    && e == d.(runs := e.runs) && |e.runs| == |d.runs|
    && forall r :: 0 <= r < |d.runs| ==> SameRow(d.runs[r], e.runs[r])
  }

  lemma InactiveIsHarmless(s: State, sid: nat, move: SessionMove)
    requires sid < |s.sessions| && SessionOk(s.db, s.sessions[sid]) && !Active(s.db.allocs[s.sessions[sid].token])
    ensures OnlyLogs(s.db, SessionStep(s, sid, move).db)
  {
  }

  /** A session whose token was superseded, or whose lease was taken back, changes no run, no
      allocation, no worker and no message, whatever it does; it can only go on logging. */
  lemma SupersededTokenIsHarmless(cfg: Settings, actions: seq<Action>, sid: nat, move: SessionMove)
    requires var s := Exec(cfg, INIT, actions);
             sid < |s.sessions| && LeaseOf(s.db.allocs, s.sessions[sid].run) != Some(s.sessions[sid].token)
    ensures var s := Exec(cfg, INIT, actions); OnlyLogs(s.db, Next(cfg, s, Work(sid, move)).db)
  {
    hide Inv, SessionOk, OnlyLogs, SessionStep;
    var s := Exec(cfg, INIT, actions);
    Always(cfg, actions);
    TokenIsLease(s, sid);
    InactiveIsHarmless(s, sid, move);
  }

  /** The version a session has read, if it is about to rely on one. */
  function VersionRead(p: Phase): Option<nat> {
    match p
    case Loaded(version) => Some(version)
    case Fenced(version, _) => Some(version)
    case Checked(_, version, _, _) => Some(version)
    case Finishing(_, version, _) => Some(version)
    case Rescuing(_, version, _) => Some(version)
    case _ => None
  }

  /** A commit against an outdated snapshot leaves nothing behind, no audit row and no message
      included. Only a step whose checkpoint saw no cancellation is recorded without a look at
      the version, and that writes log rows alone. */
  lemma StaleSnapshotIsHarmless(cfg: Settings, s: State, sid: nat, move: SessionMove)
    requires sid < |s.sessions| && VersionRead(s.sessions[sid].phase).Some?
    requires !UpToDate(s.db, s.sessions[sid].run, VersionRead(s.sessions[sid].phase).value)
    ensures var p, t := s.sessions[sid].phase, Next(cfg, s, Work(sid, move));
            && OnlyLogs(s.db, t.db)
            && (t.db != s.db ==> p.Checked? && p.seen != Cancelling && move.Record?)
  {
  }

  /** The token of a session names an allocation of its run and worker, and if that is active
      it is the run's lease. */
  lemma TokenIsLease(s: State, sid: nat)
    requires Inv(s) && sid < |s.sessions|
    ensures var x := s.sessions[sid];
            && SessionOk(s.db, x) && s.db.allocs[x.token].run == x.run
            && s.db.allocs[x.token].worker == x.worker && s.db.allocs[x.token].token == x.token
            && (Active(s.db.allocs[x.token]) ==> LeaseOf(s.db.allocs, x.run) == Some(x.token))
  {
    var x := s.sessions[sid];
    assert SessionOk(s.db, x);
    assert MessageOk(s.db, s.db.outbox[x.message]) && AllocOk(s.db, x.token);
    if Active(s.db.allocs[x.token]) {
      LeaseIs(s.db, x.token);
    }
  }

  /** At no time do two sessions execute the same run, and as long as the run goes on its
      executor holds the run's lease. */
  lemma SingleExecutor(cfg: Settings, actions: seq<Action>, i: nat, j: nat)
    requires var s := Exec(cfg, INIT, actions);
             && i < |s.sessions| && j < |s.sessions| && Working(s.sessions[i].phase) && Working(s.sessions[j].phase)
             && s.sessions[i].run == s.sessions[j].run
    ensures i == j
    ensures var s := Exec(cfg, INIT, actions);
            var x := s.sessions[i];
            && x.run < |s.db.runs| && Begun(s.db.runs[x.run].status)
            && (Holding(s.db.runs[x.run].status) ==>
                  LeaseOf(s.db.allocs, x.run) == Some(x.token) && s.db.allocs[x.token].worker == x.worker)
  {
    var s := Exec(cfg, INIT, actions);
    Always(cfg, actions);
    TokenIsLease(s, i);
  }

  // ----- Logs and progress -----

  /** Whatever happens to a run while it executes, its log lines are numbered 1 to n and its
      progress steps 1 to m, and the unique index never rejects a line. */
  lemma LogsAreNumbered(cfg: Settings, actions: seq<Action>, sid: nat)
    requires sid < |Exec(cfg, INIT, actions).sessions|
    ensures var s := Exec(cfg, INIT, actions);
            var x := s.sessions[sid];
            && x.run < |s.db.runs|
            && s.db.runs[x.run].lines == Upto(|s.db.runs[x.run].lines|)
            && s.db.runs[x.run].steps == Upto(|s.db.runs[x.run].steps|)
            && (x.phase.Warming? ==> LineFree(s.db, x.run, 1))
            && (x.phase.Checked? ==> LineFree(s.db, x.run, x.phase.step + 2))
  {
    Always(cfg, actions);
    AtWork(Exec(cfg, INIT, actions), sid);
  }

  /** The record a checkpointed execution leaves when the session's move ends the run. */
  predicate RecordComplete(x: Session, was: Run, run: Run) {
    && (x.phase.Finishing? && x.phase.plan.Stepwise? && was.status != Succeeded && run.status == Succeeded ==>
          run.lines == Upto(x.phase.plan.total + 1) && run.steps == Upto(x.phase.plan.total))
    && (was.status != Cancelled && run.status == Cancelled ==>
          && x.phase.Checked?
          && var k := x.phase.step + 1; run.lines == Upto(k + 1) && run.steps == Upto(k - 1))
  }

  lemma StepRecords(s: State, sid: nat, move: SessionMove)
    requires sid < |s.sessions| && SessionOk(s.db, s.sessions[sid]) && Numbered(s.db.runs[s.sessions[sid].run])
    ensures var x, t := s.sessions[sid], SessionStep(s, sid, move);
            x.run < |t.db.runs| && RecordComplete(x, s.db.runs[x.run], t.db.runs[x.run])
  {
    var p := s.sessions[sid].phase;
    if p.Checked? {
      AppendUpto(p.step + 1);
    }
  }

  /** A checkpointed run that succeeds has written exactly `total` metrics and `total + 1` log
      lines; one that acknowledges a cancellation in step `k` has `k + 1` lines and `k - 1` metrics. */
  lemma StepwiseRecord(cfg: Settings, actions: seq<Action>, sid: nat, move: SessionMove)
    requires sid < |Exec(cfg, INIT, actions).sessions|
    ensures var s := Exec(cfg, INIT, actions);
            var x, t := s.sessions[sid], Next(cfg, s, Work(sid, move));
            x.run < |s.db.runs| && x.run < |t.db.runs| && RecordComplete(x, s.db.runs[x.run], t.db.runs[x.run])
  {
    var s := Exec(cfg, INIT, actions);
    Always(cfg, actions);
    AtWork(s, sid);
    StepRecords(s, sid, move);
  }

  function Progress(step: nat, total: nat): real
    requires total > 0
  {
    step as real / total as real
  }

  lemma Ratios(step: nat, next: nat, total: nat)
    requires 0 < step < next && total > 0
    ensures 0.0 < Progress(step, total) < Progress(next, total)
    ensures step <= total ==> Progress(step, total) <= 1.0
  {
    var x, y, t := step as real, next as real, total as real;
    assert x / t < y / t;
    assert step <= total ==> x / t <= t / t;
  }

  predicate InSteps(p: Phase, total: nat) {
    || (p.Sleeping? && p.total == total) || (p.Checked? && p.total == total)
    || (p.Finishing? && p.plan == Stepwise(total) && total > 0)
  }

  lemma StepsSoFar(s: State, sid: nat, total: nat)
    requires Inv(s) && sid < |s.sessions| && InSteps(s.sessions[sid].phase, total)
    ensures s.sessions[sid].run < |s.db.runs| && total > 0
    ensures var steps := s.db.runs[s.sessions[sid].run].steps; steps == Upto(|steps|) && |steps| <= total
  {
    AtWork(s, sid);
  }

  /** The progress values a checkpointed session has recorded lie in (0, 1] and increase. */
  lemma ProgressIncreases(cfg: Settings, actions: seq<Action>, sid: nat, total: nat, i: nat)
    requires sid < |Exec(cfg, INIT, actions).sessions|
    requires InSteps(Exec(cfg, INIT, actions).sessions[sid].phase, total)
    ensures var s := Exec(cfg, INIT, actions);
            && s.sessions[sid].run < |s.db.runs|
            && var steps := s.db.runs[s.sessions[sid].run].steps;
               && total > 0
               && (i < |steps| ==> 0.0 < Progress(steps[i], total) <= 1.0)
               && (i + 1 < |steps| ==> Progress(steps[i], total) < Progress(steps[i + 1], total))
  {
    hide Inv, InSteps, Progress, Exec;
    Always(cfg, actions);
    StepsSoFar(Exec(cfg, INIT, actions), sid, total);
    Ratios(i + 1, i + 2, total);
  }

  // ----- Commits against a version -----

  predicate Succeeds(s: State, t: State, r: nat) {
    !Is(s, r, Succeeded) && Is(t, r, Succeeded)
  }

  lemma DirectSuccess(s: State, sid: nat, lines: nat)
    requires Inv(s) && sid < |s.sessions| && s.sessions[sid].phase.Finishing? && s.sessions[sid].phase.plan.Direct?
    ensures var x, t := s.sessions[sid], FinishRun(s, sid, Success(lines));
            && (Succeeds(s, t, x.run) <==> UpToDate(s.db, x.run, x.phase.version))
            && (!UpToDate(s.db, x.run, x.phase.version) ==>
                  t.db == s.db && t.sessions[sid].phase == RolledBack(TemplateFailed))
  {
    AtWork(s, sid);
  }

  /** Work that was done successfully is recorded as a success if and only if nobody has
      written the run's row since it was started. */
  lemma SuccessCommitsIffUntouched(cfg: Settings, actions: seq<Action>, sid: nat, lines: nat)
    requires var s := Exec(cfg, INIT, actions);
             sid < |s.sessions| && s.sessions[sid].phase.Finishing? && s.sessions[sid].phase.plan.Direct?
    ensures var s := Exec(cfg, INIT, actions);
            var x, t := s.sessions[sid], Next(cfg, s, Work(sid, Finish(Success(lines))));
            && (Succeeds(s, t, x.run) <==> UpToDate(s.db, x.run, x.phase.version))
            && (!Succeeds(s, t, x.run) ==> t.db == s.db)
  {
    hide Inv, FinishRun;
    Always(cfg, actions);
    DirectSuccess(Exec(cfg, INIT, actions), sid, lines);
  }

  lemma EditThenFinish(cfg: Settings, s: State, sid: nat, notes: nat, lines: nat)
    requires sid < |s.sessions| && s.sessions[sid].phase.Finishing? && s.sessions[sid].phase.plan.Direct?
    requires var x := s.sessions[sid]; UpToDate(s.db, x.run, x.phase.version) && s.db.runs[x.run].notes != notes
    ensures var r := s.sessions[sid].run;
            var t := Next(cfg, Next(cfg, s, EditNotes(r, notes)), Work(sid, Finish(Success(lines))));
            t == At(s, sid, RolledBack(TemplateFailed)).(db := EditMetadata(s.db, r, notes))
  {
  }

  lemma RereadThenRescue(cfg: Settings, s: State, sid: nat)
    requires sid < |s.sessions| && s.sessions[sid].phase.RolledBack? && Is(s, s.sessions[sid].run, Running)
    ensures var r := s.sessions[sid].run;
            var t := Next(cfg, Next(cfg, s, Work(sid, Reread)), Work(sid, Rescue));
            Is(t, r, Failed) && t.db.runs[r].failure == Some(s.sessions[sid].phase.failure)
  {
  }

  /** So an edit of the notes while a run executes turns its success into a failure. */
  lemma EditLosesSuccess(cfg: Settings, actions: seq<Action>, sid: nat, notes: nat, lines: nat)
    requires var s := Exec(cfg, INIT, actions);
             && sid < |s.sessions| && s.sessions[sid].phase.Finishing? && s.sessions[sid].phase.plan.Direct?
             && var x := s.sessions[sid];
                UpToDate(s.db, x.run, x.phase.version) && s.db.runs[x.run].notes != notes
    ensures var s := Exec(cfg, INIT, actions);
            var r := s.sessions[sid].run;
            var t := Next(cfg, Next(cfg, s, EditNotes(r, notes)), Work(sid, Finish(Success(lines))));
            var u := Next(cfg, Next(cfg, t, Work(sid, Reread)), Work(sid, Rescue));
            && Is(Next(cfg, s, Work(sid, Finish(Success(lines)))), r, Succeeded)
            && Is(u, r, Failed) && u.db.runs[r].failure == Some(TemplateFailed)
  {
    hide Inv, Next;
    var s := Exec(cfg, INIT, actions);
    SuccessCommitsIffUntouched(cfg, actions, sid, lines);
    Always(cfg, actions);
    AtWork(s, sid);
    EditThenFinish(cfg, s, sid, notes, lines);
    var edited := EditMetadata(s.db, s.sessions[sid].run, notes);
    RereadThenRescue(cfg, At(s, sid, RolledBack(TemplateFailed)).(db := edited), sid);
  }
}
