/**
 What the steps of a worker session do, exactly when: when a start is let through, when a
 cancellation is acknowledged, when an end is committed, and how many steps a checkpointed
 run takes.
 */
module Steps {
  import opened Options
  import opened Lifecycle
  import opened Tables
  import opened Consistency
  import opened Scheduler
  import opened Protocol
  import opened Safety
  import opened Guarantees
  import opened Fencing
  import opened Timing
  import opened Success

  // ----- Delivery -----

  /** A message opens a session if and only if it is an assignment to this worker that the worker
      has not recorded as processed; the session carries its run and token. */
  lemma DeliverOpens(cfg: Settings, s: State, w: nat, m: nat)
    ensures var t := Next(cfg, s, Deliver(w, m));
            if && m < |s.db.outbox| && s.db.outbox[m].Assigned? && s.db.outbox[m].worker == w
               && (m, w) !in s.processed
            then t == s.(sessions := s.sessions + [Session(w, m, s.db.outbox[m].run, s.db.outbox[m].token, Opened)])
            else t == s
  {
  }

  lemma {:induction false} ProcessedStays(cfg: Settings, s: State, actions: seq<Action>)
    ensures s.processed <= Exec(cfg, s, actions).processed
  {
    if actions != [] {
      var init := actions[..|actions| - 1];
      ProcessedStays(cfg, s, init);
      ProcessedGrows(cfg, Exec(cfg, s, init), actions[|actions| - 1]);
    }
  }

  lemma ProcessedGrows(cfg: Settings, s: State, a: Action)
    ensures s.processed <= Next(cfg, s, a).processed
  {
    hide Schedule, Conclude, Move, LeaseOf;
  }

  /** Once a session has recorded its message, that message never opens a session of the same
      worker again. */
  lemma AcknowledgedOnce(cfg: Settings, s: State, sid: nat, more: seq<Action>)
    requires sid < |s.sessions| && s.sessions[sid].phase.Returning?
    ensures var x := s.sessions[sid];
            var t := Exec(cfg, Next(cfg, s, Work(sid, Acknowledge)), more);
            Next(cfg, t, Deliver(x.worker, x.message)) == t
  {
    hide Exec;
    var x := s.sessions[sid];
    var acknowledged := Next(cfg, s, Work(sid, Acknowledge));
    ProcessedStays(cfg, acknowledged, more);
    DeliverOpens(cfg, Exec(cfg, acknowledged, more), x.worker, x.message);
  }

  // ----- Start -----

  function StartMoves(sid: nat, plan: Plan): seq<Action> {
    [Work(sid, Load), Work(sid, Fence), Work(sid, Start(plan))]
  }

  /** How a session goes on after its start commit. */
  function FirstPhase(plan: Plan, version: nat): Phase {
    match plan
    case Direct => Finishing(Running, version, Direct)
    case Stepwise(total) => Warming(if total >= 1 then total else 1)
  }

  lemma ThreeMoves(cfg: Settings, s: State, sid: nat, plan: Plan)
    ensures Exec(cfg, s, StartMoves(sid, plan))
         == Next(cfg, Next(cfg, Next(cfg, s, Work(sid, Load)), Work(sid, Fence)), Work(sid, Start(plan)))
  {
    hide Next, Exec;
    var moves := StartMoves(sid, plan);
    ExecNext(cfg, s, moves, 0);
    ExecNext(cfg, s, moves, 1);
    ExecNext(cfg, s, moves, 2);
    assert moves[..0] == [] && moves[..2 + 1] == moves;
    NoMoves(cfg, s);
  }

  lemma NoMoves(cfg: Settings, s: State)
    ensures Exec(cfg, s, []) == s
  {
  }

  lemma StartNow(cfg: Settings, s: State, sid: nat, plan: Plan)
    requires Inv(s) && sid < |s.sessions| && s.sessions[sid].phase.Opened?
    ensures var x := s.sessions[sid];
            var t := Next(cfg, Next(cfg, Next(cfg, s, Work(sid, Load)), Work(sid, Fence)), Work(sid, Start(plan)));
            && x.run < |s.db.runs|
            && if s.db.runs[x.run].status == Scheduling && LeaseOf(s.db.allocs, x.run) == Some(x.token)
               then var run := s.db.runs[x.run];
                    var y := run.(status := Running, startedAt := Some(s.clock),
                                  log := run.log + [Moved(Scheduling, Running)], version := run.version + 1);
                    && t.db == s.db.(runs := s.db.runs[x.run := y])
                    && t.sessions == s.sessions[sid := x.(phase := FirstPhase(plan, y.version))]
               else t.db == s.db && sid < |t.sessions| && !Working(t.sessions[sid].phase)
  {
    hide Inv, LeaseOf;
    FencedNow(cfg, s, sid);
  }

  /** The two reads before a start commit. */
  lemma FencedNow(cfg: Settings, s: State, sid: nat)
    requires Inv(s) && sid < |s.sessions| && s.sessions[sid].phase.Opened?
    ensures var x := s.sessions[sid];
            var t := Next(cfg, Next(cfg, s, Work(sid, Load)), Work(sid, Fence));
            && x.run < |s.db.runs| && t.db == s.db && t.clock == s.clock
            && if s.db.runs[x.run].status == Scheduling && LeaseOf(s.db.allocs, x.run) == Some(x.token)
               then t.sessions == s.sessions[sid := x.(phase := Fenced(s.db.runs[x.run].version, x.token))]
               else t.sessions == s.sessions[sid := x.(phase := Returning)]
  {
    TokenIsLease(s, sid);
    hide Inv, SessionOk, LeaseOf;
    if LeaseOf(s.db.allocs, s.sessions[sid].run).Some? {
      LeaseHasToken(s, LeaseOf(s.db.allocs, s.sessions[sid].run).value);
    }
  }

  lemma LeaseHasToken(s: State, a: nat)
    requires Inv(s) && a < |s.db.allocs|
    ensures s.db.allocs[a].token == a
  {
    assert AllocOk(s.db, a);
  }

  /** The fence lets in exactly the current assignment: a freshly delivered message that meets no
      interference starts its run if and only if the run is SCHEDULING and the message carries the
      token of its active lease. The run is then RUNNING from this moment, and its executor has
      before it what the plan says. */
  lemma StartsIffCurrent(cfg: Settings, actions: seq<Action>, sid: nat, plan: Plan)
    requires var s := Exec(cfg, INIT, actions); sid < |s.sessions| && s.sessions[sid].phase.Opened?
    ensures var s := Exec(cfg, INIT, actions);
            var x, t := s.sessions[sid], Exec(cfg, s, StartMoves(sid, plan));
            && x.run < |s.db.runs|
            && if s.db.runs[x.run].status == Scheduling && LeaseOf(s.db.allocs, x.run) == Some(x.token)
               then var run := s.db.runs[x.run];
                    var y := run.(status := Running, startedAt := Some(s.clock),
                                  log := run.log + [Moved(Scheduling, Running)], version := run.version + 1);
                    && t.db == s.db.(runs := s.db.runs[x.run := y])
                    && t.sessions == s.sessions[sid := x.(phase := FirstPhase(plan, y.version))]
               else t.db == s.db && sid < |t.sessions| && !Working(t.sessions[sid].phase)
  {
    hide Inv, Exec, Next, FirstPhase;
    var s := Exec(cfg, INIT, actions);
    Always(cfg, actions);
    ThreeMoves(cfg, s, sid, plan);
    StartNow(cfg, s, sid, plan);
  }

  // ----- Checkpoints -----

  /** The run in its last state: as prepared, moved to `target` at `now`. */
  function EndedRun(prepared: Run, target: Status, now: int): Run {
    prepared.(status := target, completedAt := Some(now),
              log := prepared.log + [Moved(prepared.status, target)], version := prepared.version + 1)
  }

  /** The run has ended as `x`, and its lease has been released now; no other run, lease or
      message was written. */
  ghost predicate EndsAs(s: State, t: State, r: nat, x: Run) {
    && r < |s.db.runs| && t.db.runs == s.db.runs[r := x] && t.db.outbox == s.db.outbox && t.clock == s.clock
    && |t.db.allocs| == |s.db.allocs|
    && forall a :: 0 <= a < |s.db.allocs| ==>
         t.db.allocs[a] == if s.db.allocs[a].run == r && s.db.allocs[a].released == None
                           then s.db.allocs[a].(released := Some(s.clock)) else s.db.allocs[a]
  }

  lemma EndRunEnds(s: State, sid: nat, prepared: Run, target: Status)
    requires Inv(s) && sid < |s.sessions| && s.sessions[sid].run < |s.db.runs|
    requires ValidTransition(prepared.status, target) && Ended(target)
    ensures EndsAs(s, EndRun(s, sid, prepared, target), s.sessions[sid].run, EndedRun(prepared, target, s.clock))
  {
    hide CapacityOk, NamesOk, StaleOk, MailOk, MessagesOk, LineageOk, SessionsOk, TelemetryOk, RunsOk;
    var r := s.sessions[sid].run;
    var t := EndRun(s, sid, prepared, target);
    assert t.db.allocs == Release(s.db.(runs := s.db.runs[r := Move(prepared, target, s.clock)]), r, s.clock).allocs;
    forall a | 0 <= a < |s.db.allocs| && ActiveFor(s.db.allocs[a], r)
      ensures LeaseOf(s.db.allocs, r) == Some(a)
    {
      LeaseIs(s.db, a);
    }
  }

  /** The second half of a step, exactly: if the checkpoint saw no cancellation, one log line and
      one metric are added, whatever the status has become, and the session goes on; if it saw a
      cancellation, the run is CANCELLED with one more log line, unless its row was written since,
      and then nothing happens. */
  lemma RecordNow(cfg: Settings, s: State, sid: nat)
    requires Inv(s) && sid < |s.sessions| && s.sessions[sid].phase.Checked?
    ensures var x, t := s.sessions[sid], Next(cfg, s, Work(sid, Record));
            && x.run < |s.db.runs| && sid < |t.sessions|
            && var run, p, q := s.db.runs[x.run], x.phase, t.sessions[sid].phase;
               if p.seen != Cancelling then
                 && t.db == s.db.(runs := s.db.runs[x.run := run.(lines := run.lines + [p.step + 2],
                                                                  steps := run.steps + [p.step + 1])])
                 && q == (if p.step + 1 < p.total then Sleeping(p.step + 1, p.total)
                          else Finishing(p.seen, p.version, Stepwise(p.total)))
               else if run.version == p.version then
                 && EndsAs(s, t, x.run, EndedRun(run.(lines := run.lines + [p.step + 2]), Cancelled, s.clock))
                 && q == Returning
               else t.db == s.db && q == Closed
  {
    hide Inv, EndsAs, Conclude, EndedRun, EndRun;
    AtWork(s, sid);
    NextLineIsFree(s, sid);
    var r, p := s.sessions[sid].run, s.sessions[sid].phase;
    var run := s.db.runs[r].(lines := s.db.runs[r].lines + [p.step + 2]);
    if p.seen == Cancelling && s.db.runs[r].version == p.version {
      EndRunEnds(s, sid, run, Cancelled);
      EndRunReturns(s, sid, run, Cancelled);
    }
  }

  lemma EndRunReturns(s: State, sid: nat, prepared: Run, target: Status)
    requires sid < |s.sessions| && s.sessions[sid].run < |s.db.runs| && ValidTransition(prepared.status, target)
    ensures var t := EndRun(s, sid, prepared, target);
            && t.sessions == s.sessions[sid := s.sessions[sid].(phase := Returning)]
            && t.processed == s.processed && t.clock == s.clock
  {
  }

  lemma NextLineIsFree(s: State, sid: nat)
    requires Inv(s) && sid < |s.sessions| && s.sessions[sid].phase.Checked?
    ensures LineFree(s.db, s.sessions[sid].run, s.sessions[sid].phase.step + 2)
  {
    AtWork(s, sid);
  }

  // ----- Ends -----

  /** The final commit, exactly: against a current RUNNING snapshot the run ends as the outcome
      says, except that the trouble of a direct execution is first rolled back; against any other
      snapshot nothing is written. */
  lemma FinishNow(cfg: Settings, s: State, sid: nat, outcome: Outcome)
    requires Inv(s) && AboutToFinish(s, sid)
    ensures var x, t := s.sessions[sid], Next(cfg, s, Work(sid, Finish(outcome)));
            && x.run < |s.db.runs| && sid < |t.sessions|
            && var run, q := s.db.runs[x.run], t.sessions[sid].phase;
               match (x.phase.plan, outcome)
               case (Direct, Success(lines)) =>
                 if InTime(s, sid)
                 then && EndsAs(s, t, x.run, EndedRun(run.(lines := Upto(lines)), Succeeded, s.clock)) && q == Returning
                 else t.db == s.db && q == RolledBack(TemplateFailed)
               case (Direct, Trouble(f)) => t.db == s.db && q == RolledBack(f)
               case (Stepwise(_), Success(_)) =>
                 if InTime(s, sid) then EndsAs(s, t, x.run, EndedRun(run, Succeeded, s.clock)) && q == Returning
                 else t.db == s.db && q == Closed
               case (Stepwise(_), Trouble(f)) =>
                 if InTime(s, sid)
                 then && EndsAs(s, t, x.run, EndedRun(run.(failure := Some(f)), Failed, s.clock)) && q == Returning
                 else t.db == s.db && q == Closed
  {
    hide Inv, EndsAs, Conclude, EndedRun, EndRun;
    AtWork(s, sid);
    NothingLogged(s, sid);
    var run := s.db.runs[s.sessions[sid].run];
    if InTime(s, sid) {
      match (s.sessions[sid].phase.plan, outcome)
      case (Direct, Success(lines)) =>
        EndRunEnds(s, sid, run.(lines := Upto(lines)), Succeeded);
        EndRunReturns(s, sid, run.(lines := Upto(lines)), Succeeded);
      case (Direct, Trouble(_)) =>
      case (Stepwise(_), Success(_)) =>
        EndRunEnds(s, sid, run, Succeeded);
        EndRunReturns(s, sid, run, Succeeded);
      case (Stepwise(_), Trouble(f)) =>
        EndRunEnds(s, sid, run.(failure := Some(f)), Failed);
        EndRunReturns(s, sid, run.(failure := Some(f)), Failed);
    }
  }

  lemma NothingLogged(s: State, sid: nat)
    requires Inv(s) && AboutToFinish(s, sid)
    ensures s.sessions[sid].phase.plan.Direct? ==>
              s.sessions[sid].run < |s.db.runs| && s.db.runs[s.sessions[sid].run].lines == []
  {
    AtWork(s, sid);
  }

  /** The failure commit after a rollback, exactly: the run fails with the code of the trouble if
      it was RUNNING when read again and has not been written since; otherwise nothing is written. */
  lemma RescueNow(cfg: Settings, s: State, sid: nat)
    requires Inv(s) && sid < |s.sessions| && s.sessions[sid].phase.Rescuing?
    ensures var x, t := s.sessions[sid], Next(cfg, s, Work(sid, Rescue));
            && x.run < |s.db.runs| && sid < |t.sessions|
            && var run, p, q := s.db.runs[x.run], x.phase, t.sessions[sid].phase;
               if p.seen == Running && run.version == p.version
               then && EndsAs(s, t, x.run, EndedRun(run.(failure := Some(p.failure)), Failed, s.clock))
                    && q == Returning
               else t.db == s.db && q == Closed
  {
    hide Inv, EndsAs, Conclude, EndedRun, EndRun;
    AtWork(s, sid);
    var x := s.sessions[sid];
    var run := s.db.runs[x.run];
    if x.phase.seen == Running && run.version == x.phase.version {
      EndRunEnds(s, sid, run.(failure := Some(x.phase.failure)), Failed);
      EndRunReturns(s, sid, run.(failure := Some(x.phase.failure)), Failed);
    }
  }

  // ----- Steps that only look or write one line -----

  /** The first log line is written, and the session goes to sleep before its first step. */
  lemma WarmNow(cfg: Settings, s: State, sid: nat)
    requires Inv(s) && sid < |s.sessions| && s.sessions[sid].phase.Warming?
    ensures var x, t := s.sessions[sid], Next(cfg, s, Work(sid, Warm));
            && x.run < |s.db.runs|
            && var run := s.db.runs[x.run];
               && t.db == s.db.(runs := s.db.runs[x.run := run.(lines := run.lines + [1])])
               && t.sessions == s.sessions[sid := x.(phase := Sleeping(0, x.phase.total))]
  {
    AtWork(s, sid);
  }

  /** A checkpoint takes down status and version as they are now, and writes nothing. */
  lemma CheckNow(cfg: Settings, s: State, sid: nat)
    requires Inv(s) && sid < |s.sessions| && s.sessions[sid].phase.Sleeping?
    ensures var x, t := s.sessions[sid], Next(cfg, s, Work(sid, Checkpoint));
            && x.run < |s.db.runs| && t.db == s.db
            && var run := s.db.runs[x.run];
               var seen := Checked(run.status, run.version, x.phase.step, x.phase.total);
               t.sessions == s.sessions[sid := x.(phase := seen)]
  {
    AtWork(s, sid);
  }

  /** So does the read after a rollback. */
  lemma RereadNow(cfg: Settings, s: State, sid: nat)
    requires Inv(s) && sid < |s.sessions| && s.sessions[sid].phase.RolledBack?
    ensures var x, t := s.sessions[sid], Next(cfg, s, Work(sid, Reread));
            && x.run < |s.db.runs| && t.db == s.db
            && var run := s.db.runs[x.run];
               t.sessions == s.sessions[sid := x.(phase := Rescuing(run.status, run.version, x.phase.failure))]
  {
    AtWork(s, sid);
  }
}
