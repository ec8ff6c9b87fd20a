/**
 How many steps a checkpointed run takes: as many as its plan says, whoever interferes; and all
 of them, when nobody does.
 */
module Pace {
  import opened Lifecycle
  import opened Tables
  import opened Consistency
  import opened Scheduler
  import opened Protocol
  import opened Safety
  import opened Guarantees
  import opened Fencing
  import opened Timing
  import opened Success
  import opened SlowRun
  import opened Steps

  // ----- The plan is kept -----

  /** The session executes `total` steps, or its execution is over. */
  predicate TotalIs(p: Phase, total: nat) {
    match p
    case Warming(n) => n == total
    case Sleeping(_, n) => n == total
    case Checked(_, _, _, n) => n == total
    case Finishing(_, _, plan) => plan == Stepwise(total)
    case Returning => true
    case Closed => true
    case _ => false
  }

  /** Run `r` is executed by session `sid` and by no other, in `total` steps, and if it has
      succeeded it has all the metrics and log lines of these steps. */
  ghost predicate Paced(s: State, sid: nat, r: nat, total: nat) {
    && sid < |s.sessions| && s.sessions[sid].run == r && r < |s.db.runs| && Begun(s.db.runs[r].status)
    && TotalIs(s.sessions[sid].phase, total)
    && (forall i :: 0 <= i < |s.sessions| && Working(s.sessions[i].phase) && s.sessions[i].run == r ==> i == sid)
    && (s.db.runs[r].status == Succeeded ==> Recorded(s.db.runs[r], total))
  }

  predicate Recorded(run: Run, total: nat) {
    run.lines == Upto(total + 1) && run.steps == Upto(total)
  }

  lemma OwnTotal(s: State, sid: nat, move: SessionMove, total: nat)
    requires sid < |s.sessions| && TotalIs(s.sessions[sid].phase, total)
    ensures |SessionStep(s, sid, move).sessions| == |s.sessions|
    ensures TotalIs(SessionStep(s, sid, move).sessions[sid].phase, total)
  {
    hide Conclude, Move, LeaseOf;
  }

  lemma SameExecutor(cfg: Settings, s: State, a: Action, sid: nat, r: nat, total: nat)
    requires Inv(s) && Paced(s, sid, r, total)
    ensures var t := Next(cfg, s, a);
            && sid < |t.sessions| && t.sessions[sid].run == r && TotalIs(t.sessions[sid].phase, total)
            && forall i :: 0 <= i < |t.sessions| && Working(t.sessions[i].phase) && t.sessions[i].run == r ==> i == sid
  {
    hide Inv, Schedule, SessionStep, TotalIs;
    if a.Work? && a.sid < |s.sessions| {
      OwnSession(s, a.sid, a.move);
      if a.sid == sid {
        OwnTotal(s, sid, a.move, total);
      } else {
        StaysOut(s, a.sid, a.move, r);
      }
    }
  }

  /** Nobody but its executor writes log lines or metrics of a started run. */
  lemma RecordKept(cfg: Settings, s: State, a: Action, r: nat)
    requires Inv(s) && r < |s.db.runs| && Begun(s.db.runs[r].status) && Deserted(s, r)
    ensures var t := Next(cfg, s, a);
            r < |t.db.runs| && t.db.runs[r].lines == s.db.runs[r].lines && t.db.runs[r].steps == s.db.runs[r].steps
  {
    hide Consistent, SessionsOk, TelemetryOk, Schedule, SessionStep;
    match a
    case Pass(wait) => ScheduleOk(cfg, s.db, s.clock, s.clock + wait);
    case Work(sid, move) =>
      if sid < |s.sessions| {
        OthersLeaveItAlone(s, sid, move, r);
      }
    case _ =>
  }

  lemma SuccessIsRecorded(cfg: Settings, s: State, a: Action, sid: nat, r: nat, total: nat)
    requires Inv(s) && Settled(s) && Paced(s, sid, r, total) && Is(Next(cfg, s, a), r, Succeeded)
    ensures Recorded(Next(cfg, s, a).db.runs[r], total)
  {
    hide Inv, Next, Deserted;
    if Is(s, r, Succeeded) {
      RecordKept(cfg, s, a, r);
    } else {
      OnlyFinishSucceeds(cfg, s, a, r);
      EndIsRecorded(cfg, s, sid, a.move);
    }
  }

  lemma EndIsRecorded(cfg: Settings, s: State, sid: nat, move: SessionMove)
    requires Inv(s) && AboutToFinish(s, sid)
    ensures var x, t := s.sessions[sid], Next(cfg, s, Work(sid, move));
            && x.run < |s.db.runs| && x.run < |t.db.runs|
            && (&& x.phase.plan.Stepwise?
                && s.db.runs[x.run].status != Succeeded && t.db.runs[x.run].status == Succeeded ==>
                  Recorded(t.db.runs[x.run], x.phase.plan.total))
  {
    AtWork(s, sid);
    hide SessionStep;
    StepRecords(s, sid, move);
  }

  lemma PacedStep(cfg: Settings, s: State, a: Action, sid: nat, r: nat, total: nat)
    requires Inv(s) && Settled(s) && Paced(s, sid, r, total)
    ensures Paced(Next(cfg, s, a), sid, r, total)
  {
    hide Inv, Next, TotalIs, Settled, Good;
    SameExecutor(cfg, s, a, sid, r, total);
    NextOk(cfg, s, a);
    StaysBegun(s, Next(cfg, s, a), r);
    if Is(Next(cfg, s, a), r, Succeeded) {
      SuccessIsRecorded(cfg, s, a, sid, r, total);
    }
  }

  lemma {:induction false} PacedForGood(cfg: Settings, s: State, more: seq<Action>, sid: nat, r: nat, total: nat)
    requires Inv(s) && Settled(s) && Paced(s, sid, r, total)
    ensures var t := Exec(cfg, s, more); Inv(t) && Settled(t) && Paced(t, sid, r, total)
  {
    hide Inv, Next, Settled, Paced;
    if more != [] {
      var init, last := more[..|more| - 1], more[|more| - 1];
      var t := Exec(cfg, s, init);
      PacedForGood(cfg, s, init, sid, r, total);
      NextInv(cfg, t, last);
      SettledStep(cfg, t, last);
      PacedStep(cfg, t, last, sid, r, total);
    }
  }

  lemma StartSetsPace(cfg: Settings, s: State, sid: nat, n: nat)
    requires Inv(s) && sid < |s.sessions| && !Is(s, s.sessions[sid].run, Running)
    requires Is(Next(cfg, s, Work(sid, Start(Stepwise(n)))), s.sessions[sid].run, Running)
    ensures Paced(Next(cfg, s, Work(sid, Start(Stepwise(n)))), sid, s.sessions[sid].run, if n >= 1 then n else 1)
  {
    var t := Next(cfg, s, Work(sid, Start(Stepwise(n))));
    NextInv(cfg, s, Work(sid, Start(Stepwise(n))));
    hide Consistent, TelemetryOk, SessionOk;
    assert t.sessions[sid].phase.Warming?;
  }

  /** The plan is kept: a run started in n steps has, whenever it is found SUCCEEDED and whatever
      happened in between, exactly max(1, n) metrics and one log line more; and its session is
      never about to take another number of steps. */
  lemma PlanIsKept(cfg: Settings, actions: seq<Action>, sid: nat, n: nat, more: seq<Action>)
    requires var s := Exec(cfg, INIT, actions);
             && sid < |s.sessions| && !Is(s, s.sessions[sid].run, Running)
             && Is(Next(cfg, s, Work(sid, Start(Stepwise(n)))), s.sessions[sid].run, Running)
    ensures var s := Exec(cfg, INIT, actions);
            var t := Exec(cfg, Next(cfg, s, Work(sid, Start(Stepwise(n)))), more);
            var r, total := s.sessions[sid].run, if n >= 1 then n else 1;
            && sid < |t.sessions| && TotalIs(t.sessions[sid].phase, total)
            && r < |t.db.runs|
            && (t.db.runs[r].status == Succeeded ==>
                  t.db.runs[r].lines == Upto(total + 1) && t.db.runs[r].steps == Upto(total))
  {
    hide Inv, Exec, Next, Settled, TotalIs;
    var s := Exec(cfg, INIT, actions);
    var start := Work(sid, Start(Stepwise(n)));
    Always(cfg, actions);
    AlwaysSettled(cfg, actions);
    StartSetsPace(cfg, s, sid, n);
    NextInv(cfg, s, start);
    SettledStep(cfg, s, start);
    PacedForGood(cfg, Next(cfg, s, start), more, sid, s.sessions[sid].run, if n >= 1 then n else 1);
  }

  // ----- Nobody interferes -----

  function Quiet(n: nat): seq<Turn> {
    seq(n, i => Turn([], []))
  }

  /** `step` of `total` steps are recorded and the run is RUNNING. */
  predicate OnTrack(s: State, sid: nat, step: nat, total: nat) {
    && sid < |s.sessions| && Is(s, s.sessions[sid].run, Running)
    && if step < total then s.sessions[sid].phase == Sleeping(step, total)
       else AboutToFinish(s, sid) && InTime(s, sid) && s.sessions[sid].phase.plan == Stepwise(total)
  }

  lemma QuietTurn(cfg: Settings, s: State, sid: nat, step: nat, total: nat)
    requires Inv(s) && OnTrack(s, sid, step, total) && step < total
    ensures var t := AfterTurn(cfg, s, sid, Turn([], []));
            Inv(t) && OnTrack(t, sid, step + 1, total) && t.sessions[sid].run == s.sessions[sid].run
  {
    hide Inv, Next, EndsAs, EndedRun;
    var read := Next(cfg, s, Work(sid, Checkpoint));
    NoMoves(cfg, s);
    NoMoves(cfg, read);
    hide Exec;
    CheckNow(cfg, s, sid);
    NextInv(cfg, s, Work(sid, Checkpoint));
    RecordNow(cfg, read, sid);
    NextInv(cfg, read, Work(sid, Record));
    OwnRun(cfg, read, sid, Record);
  }

  lemma OwnRun(cfg: Settings, s: State, sid: nat, move: SessionMove)
    requires sid < |s.sessions|
    ensures var t := Next(cfg, s, Work(sid, move)); sid < |t.sessions| && t.sessions[sid].run == s.sessions[sid].run
  {
    hide SessionStep;
    OwnSession(s, sid, move);
  }

  lemma WarmingUp(cfg: Settings, s: State, sid: nat, total: nat)
    requires Inv(s) && sid < |s.sessions| && s.sessions[sid].phase == Warming(total)
    requires Is(s, s.sessions[sid].run, Running)
    ensures var t := Next(cfg, s, Work(sid, Warm));
            Inv(t) && OnTrack(t, sid, 0, total) && t.sessions[sid].run == s.sessions[sid].run
  {
    hide Inv, Next;
    WarmNow(cfg, s, sid);
    WarmWrites(cfg, s, sid);
    NextInv(cfg, s, Work(sid, Warm));
  }

  lemma {:induction false} QuietTurns(cfg: Settings, s: State, sid: nat, n: nat, total: nat)
    requires Inv(s) && sid < |s.sessions| && s.sessions[sid].phase == Warming(total) && n <= total
    requires Is(s, s.sessions[sid].run, Running)
    ensures var t := Exec(cfg, s, Script(sid, Quiet(n)));
            Inv(t) && OnTrack(t, sid, n, total) && t.sessions[sid].run == s.sessions[sid].run
  {
    hide Inv, Exec, Next, Script, AfterTurn, OnTrack;
    if n == 0 {
      assert Quiet(0) == [];
      ScriptStart(cfg, s, sid);
      WarmingUp(cfg, s, sid, total);
    } else {
      assert Quiet(n)[..n] == Quiet(n) && Quiet(n)[..n - 1] == Quiet(n - 1);
      QuietTurns(cfg, s, sid, n - 1, total);
      ScriptTurn(cfg, s, sid, Quiet(n), n - 1);
      QuietTurn(cfg, Exec(cfg, s, Script(sid, Quiet(n - 1))), sid, n - 1, total);
    }
  }

  /** When nobody interferes, a checkpointed run takes all its steps and succeeds. */
  lemma UndisturbedSucceeds(cfg: Settings, s: State, sid: nat, total: nat)
    requires Inv(s) && sid < |s.sessions| && s.sessions[sid].phase == Warming(total)
    requires Is(s, s.sessions[sid].run, Running)
    ensures var t := Exec(cfg, s, Script(sid, Quiet(total)) + [Work(sid, Finish(Success(0)))]);
            Is(t, s.sessions[sid].run, Succeeded) && Recorded(t.db.runs[s.sessions[sid].run], total)
  {
    hide Inv, Exec, Next, Script, EndsAs, EndedRun;
    QuietTurns(cfg, s, sid, total, total);
    var t := Exec(cfg, s, Script(sid, Quiet(total)));
    ExecLast(cfg, s, Script(sid, Quiet(total)), Work(sid, Finish(Success(0))));
    InTimeSucceeds(cfg, t, sid);
    EndIsRecorded(cfg, t, sid, Finish(Success(0)));
  }

  lemma CancelAsleep(cfg: Settings, s: State, sid: nat, step: nat, total: nat)
    requires Inv(s) && OnTrack(s, sid, step, total) && step < total
    ensures var t := Exec(cfg, s, [Cancel(s.sessions[sid].run)]);
            && Inv(t) && t.sessions == s.sessions && Is(t, s.sessions[sid].run, Cancelling)
            && t.db.runs[s.sessions[sid].run].lines == s.db.runs[s.sessions[sid].run].lines
            && t.db.runs[s.sessions[sid].run].steps == s.db.runs[s.sessions[sid].run].steps
  {
    var cancel := Cancel(s.sessions[sid].run);
    NextInv(cfg, s, cancel);
    ExecOne(cfg, s, cancel);
    hide Inv;
  }

  /** A cancellation that comes while the executor sleeps is acknowledged at its next checkpoint:
      the run is CANCELLED with one log line more and no further metric. */
  lemma CancellationIsAcknowledged(cfg: Settings, s: State, sid: nat, step: nat, total: nat)
    requires Inv(s) && OnTrack(s, sid, step, total) && step < total
    ensures var r := s.sessions[sid].run;
            var t := AfterTurn(cfg, s, sid, Turn([Cancel(r)], []));
            && Is(t, r, Cancelled) && t.db.runs[r].lines == s.db.runs[r].lines + [step + 2]
            && t.db.runs[r].steps == s.db.runs[r].steps
  {
    hide Inv, Next;
    var cancelled := Exec(cfg, s, [Cancel(s.sessions[sid].run)]);
    var read := Next(cfg, cancelled, Work(sid, Checkpoint));
    NoMoves(cfg, read);
    hide Exec;
    CancelAsleep(cfg, s, sid, step, total);
    CheckNow(cfg, cancelled, sid);
    NextInv(cfg, cancelled, Work(sid, Checkpoint));
    RecordNow(cfg, read, sid);
  }
}
