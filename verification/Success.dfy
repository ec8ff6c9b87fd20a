/**
 How runs come to succeed: by the one commit of a session that is still up to date, and never
 once that session's snapshot is outdated.
 */
module Success {
  import opened Lifecycle
  import opened Tables
  import opened Consistency
  import opened Scheduler
  import opened Protocol
  import opened Safety
  import opened Guarantees
  import opened Fencing
  import opened Timing

  predicate AboutToFinish(s: State, sid: nat) {
    sid < |s.sessions| && s.sessions[sid].phase.Finishing?
  }

  /** The row is as the session read it, and RUNNING. */
  predicate InTime(s: State, sid: nat)
    requires AboutToFinish(s, sid)
  {
    var p := s.sessions[sid].phase;
    UpToDate(s.db, s.sessions[sid].run, p.version) && p.seen == Running
  }

  lemma SessionSucceeds(s: State, sid: nat, move: SessionMove, r: nat)
    requires sid < |s.sessions| && !Is(s, r, Succeeded) && Is(SessionStep(s, sid, move), r, Succeeded)
    ensures move.Finish? && move.outcome.Success?
    ensures AboutToFinish(s, sid) && InTime(s, sid) && s.sessions[sid].run == r
    ensures SessionStep(s, sid, move).sessions == s.sessions[sid := s.sessions[sid].(phase := Returning)]
  {
  }

  /** Only the final commit of a session that is up to date takes a run into SUCCEEDED. */
  lemma OnlyFinishSucceeds(cfg: Settings, s: State, a: Action, r: nat)
    requires Inv(s) && !Is(s, r, Succeeded) && Is(Next(cfg, s, a), r, Succeeded)
    ensures a.Work? && a.move.Finish? && a.move.outcome.Success?
    ensures AboutToFinish(s, a.sid) && InTime(s, a.sid) && s.sessions[a.sid].run == r
    ensures Next(cfg, s, a).sessions == s.sessions[a.sid := s.sessions[a.sid].(phase := Returning)]
  {
    hide Consistent, SessionsOk, TelemetryOk, Schedule, SessionStep;
    match a
    case Pass(wait) =>
      SameRuns(cfg, s.db, s.clock, s.clock + wait);
      PassAdvancesNothing(cfg, s.db, s.clock, s.clock + wait, r);
    case Work(sid, move) => SessionSucceeds(s, sid, move, r);
    case _ =>
  }

  /** A run that has succeeded has no executor. */
  ghost predicate Settled(s: State) {
    forall r: nat :: Is(s, r, Succeeded) ==> Deserted(s, r)
  }

  lemma ExecutorLeaves(s: State, t: State, sid: nat, r: nat)
    requires SessionsOk(s) && sid < |s.sessions| && Working(s.sessions[sid].phase) && s.sessions[sid].run == r
    requires t.sessions == s.sessions[sid := s.sessions[sid].(phase := Returning)]
    ensures Deserted(t, r)
  {
  }

  lemma SettledStep(cfg: Settings, s: State, a: Action)
    requires Inv(s) && Settled(s)
    ensures Settled(Next(cfg, s, a))
  {
    hide Consistent, Deserted, Next, SessionsOk, TelemetryOk;
    var t := Next(cfg, s, a);
    forall r: nat | Is(t, r, Succeeded)
      ensures Deserted(t, r)
    {
      if Is(s, r, Succeeded) {
        StaysDeserted(cfg, s, a, r);
      } else {
        OnlyFinishSucceeds(cfg, s, a, r);
        ExecutorLeaves(s, t, a.sid, r);
      }
    }
  }

  lemma {:induction false} AlwaysSettled(cfg: Settings, actions: seq<Action>)
    ensures Settled(Exec(cfg, INIT, actions))
  {
    hide Inv, Next, Settled;
    if actions == [] {
      NothingSettled();
    } else {
      var init := actions[..|actions| - 1];
      AlwaysSettled(cfg, init);
      Always(cfg, init);
      SettledStep(cfg, Exec(cfg, INIT, init), actions[|actions| - 1]);
    }
  }

  lemma NothingSettled()
    ensures Settled(INIT)
  {
  }

  /** A session in this phase cannot bring its run to success any more. */
  predicate TooLate(p: Phase, run: Run) {
    p.RolledBack? || p.Rescuing? || (p.Finishing? && (p.version < run.version || p.seen != Running))
  }

  /** Run `r` was started, has not succeeded, and whoever executes it is too late. */
  ghost predicate Forfeited(s: State, r: nat) {
    && r < |s.db.runs| && Begun(s.db.runs[r].status) && s.db.runs[r].status != Succeeded
    && forall i :: 0 <= i < |s.sessions| && Working(s.sessions[i].phase) && s.sessions[i].run == r ==>
         TooLate(s.sessions[i].phase, s.db.runs[r])
  }

  lemma SessionForfeits(s: State, sid: nat, move: SessionMove, r: nat)
    requires sid < |s.sessions| && Forfeited(s, r) && SessionOk(s.db, s.sessions[sid])
    ensures var t := SessionStep(s, sid, move);
            && |t.sessions| == |s.sessions|
            && (Working(t.sessions[sid].phase) && t.sessions[sid].run == r ==>
                  TooLate(t.sessions[sid].phase, s.db.runs[r]))
  {
    hide Conclude, Move, LeaseOf;
    var x := s.sessions[sid];
    assert x.run == r && Working(x.phase) ==> TooLate(x.phase, s.db.runs[r]);
    hide Forfeited;
  }

  lemma SessionsForfeit(cfg: Settings, s: State, a: Action, r: nat)
    requires Inv(s) && Forfeited(s, r)
    ensures var t := Next(cfg, s, a);
            forall i :: 0 <= i < |t.sessions| && Working(t.sessions[i].phase) && t.sessions[i].run == r ==>
              TooLate(t.sessions[i].phase, s.db.runs[r])
  {
    hide Consistent, TelemetryOk, Schedule, SessionStep, SessionOk, TooLate;
    match a
    case Work(sid, move) =>
      if sid < |s.sessions| {
        SessionForfeits(s, sid, move, r);
        OwnSession(s, sid, move);
      }
    case _ =>
  }

  lemma VersionsGrow(s: State, t: State, r: nat)
    requires Good(s, t) && r < |s.db.runs|
    ensures r < |t.db.runs| && s.db.runs[r].version <= t.db.runs[r].version
  {
    assert RunEvolves(s.db.runs[r], t.db.runs[r]);
  }

  lemma StaysForfeited(cfg: Settings, s: State, a: Action, r: nat)
    requires Inv(s) && Forfeited(s, r)
    ensures Forfeited(Next(cfg, s, a), r)
  {
    hide Consistent, SessionsOk, TelemetryOk, Next;
    var t := Next(cfg, s, a);
    NextOk(cfg, s, a);
    StaysBegun(s, t, r);
    VersionsGrow(s, t, r);
    SessionsForfeit(cfg, s, a, r);
    if t.db.runs[r].status == Succeeded {
      OnlyFinishSucceeds(cfg, s, a, r);
    }
  }

  lemma {:induction false} ForfeitedForGood(cfg: Settings, s: State, more: seq<Action>, r: nat)
    requires Inv(s) && Forfeited(s, r)
    ensures Forfeited(Exec(cfg, s, more), r)
  {
    hide Inv, Next, Forfeited;
    if more != [] {
      var init := more[..|more| - 1];
      ForfeitedForGood(cfg, s, init, r);
      Arrive(cfg, s, init);
      StaysForfeited(cfg, Exec(cfg, s, init), more[|more| - 1], r);
    }
  }

  lemma OutdatedForfeits(s: State, sid: nat)
    requires Inv(s) && Settled(s) && AboutToFinish(s, sid) && !InTime(s, sid)
    ensures Forfeited(s, s.sessions[sid].run)
  {
    AtWork(s, sid);
    var r := s.sessions[sid].run;
    assert Is(s, r, Succeeded) ==> Deserted(s, r);
  }

  /** Work that ends when somebody has written the run's row since it was read, or that read a
      run no longer RUNNING, is lost for good: no continuation takes the run into SUCCEEDED. */
  lemma OutdatedNeverSucceeds(cfg: Settings, actions: seq<Action>, sid: nat, more: seq<Action>)
    requires var s := Exec(cfg, INIT, actions); AboutToFinish(s, sid) && !InTime(s, sid)
    ensures var s := Exec(cfg, INIT, actions); !Is(Exec(cfg, s, more), s.sessions[sid].run, Succeeded)
  {
    hide Inv, Settled, Exec;
    var s := Exec(cfg, INIT, actions);
    Always(cfg, actions);
    AlwaysSettled(cfg, actions);
    OutdatedForfeits(s, sid);
    ForfeitedForGood(cfg, s, more, s.sessions[sid].run);
  }

  lemma InTimeSucceeds(cfg: Settings, s: State, sid: nat)
    requires Inv(s) && AboutToFinish(s, sid) && InTime(s, sid)
    ensures Is(Next(cfg, s, Work(sid, Finish(Success(0)))), s.sessions[sid].run, Succeeded)
  {
    AtWork(s, sid);
  }

  lemma ExecOne(cfg: Settings, s: State, a: Action)
    ensures Exec(cfg, s, [a]) == Next(cfg, s, a)
  {
    hide Next;
    assert [] + [a] == [a];
    ExecLast(cfg, s, [], a);
  }

  /** When its work is done, a run can still succeed if and only if its row is as the session
      read it and says RUNNING. */
  lemma SuccessPossibleIff(cfg: Settings, actions: seq<Action>, sid: nat)
    requires AboutToFinish(Exec(cfg, INIT, actions), sid)
    ensures var s := Exec(cfg, INIT, actions);
            (exists more :: Is(Exec(cfg, s, more), s.sessions[sid].run, Succeeded)) <==> InTime(s, sid)
  {
    hide Inv, Exec, Next, InTime;
    var s := Exec(cfg, INIT, actions);
    if InTime(s, sid) {
      Always(cfg, actions);
      InTimeSucceeds(cfg, s, sid);
      ExecOne(cfg, s, Work(sid, Finish(Success(0))));
    } else {
      forall more
        ensures !Is(Exec(cfg, s, more), s.sessions[sid].run, Succeeded)
      {
        OutdatedNeverSucceeds(cfg, actions, sid, more);
      }
    }
  }

  lemma EditOutdates(cfg: Settings, s: State, sid: nat, notes: nat)
    requires AboutToFinish(s, sid) && InTime(s, sid) && s.db.runs[s.sessions[sid].run].notes != notes
    ensures var t := Next(cfg, s, EditNotes(s.sessions[sid].run, notes));
            AboutToFinish(t, sid) && !InTime(t, sid) && t.sessions[sid].run == s.sessions[sid].run
  {
  }

  /** So an edit of the notes before the final commit forfeits a success that was certain, in
      every continuation. */
  lemma EditForfeitsSuccess(cfg: Settings, actions: seq<Action>, sid: nat, notes: nat, more: seq<Action>)
    requires var s := Exec(cfg, INIT, actions);
             AboutToFinish(s, sid) && InTime(s, sid) && s.db.runs[s.sessions[sid].run].notes != notes
    ensures var s := Exec(cfg, INIT, actions);
            var r := s.sessions[sid].run;
            && Is(Next(cfg, s, Work(sid, Finish(Success(0)))), r, Succeeded)
            && !Is(Exec(cfg, Next(cfg, s, EditNotes(r, notes)), more), r, Succeeded)
  {
    hide Inv, Exec, Next, InTime;
    var s := Exec(cfg, INIT, actions);
    var edit := EditNotes(s.sessions[sid].run, notes);
    Always(cfg, actions);
    InTimeSucceeds(cfg, s, sid);
    EditOutdates(cfg, s, sid, notes);
    ExecSplit(cfg, INIT, actions, [edit]);
    ExecOne(cfg, s, edit);
    OutdatedNeverSucceeds(cfg, actions + [edit], sid, more);
  }
}
