/**
 Executions that reach the states the other theorems speak about: a run that is started, a
 success that is lost, an orphan that outlives its lease.
 */
module Witness {
  import opened Options
  import opened Lifecycle
  import opened Tables
  import opened Ordering
  import opened Scheduler
  import opened Protocol
  import opened Safety
  import opened Guarantees
  import opened Fencing
  import opened Timing
  import opened Success
  import opened SlowRun
  import opened Pace

  const REQUEST := Request(0, 0, 0, 1000, 512, 0)

  /** One idle worker, one queued run. */
  const READY: Tables := Tables(
    [NewRun(REQUEST, 1, None, 0)], [Worker(0, Online, 4000, 8192, 4000, 8192, 0, 0)], [], [Submitted(0)])

  lemma NothingToRecover(cfg: Settings)
    requires cfg.staleSeconds >= 0
    ensures Recover(cfg, READY, 0) == READY
  {
    assert MarkStale(cfg, READY.workers, 0) == READY.workers;
    assert DoomedIds(cfg, READY, 0) == [];
    assert Cleared(cfg, READY, 0) == READY;
    assert Recover(cfg, READY, 0).workers == READY.workers;
  }

  lemma OneInQueue()
    ensures Queue(READY.runs) == [0]
  {
    var queued := (r: nat) => r < |READY.runs| && READY.runs[r].status == Queued;
    assert Select(1, queued) == Select(0, queued) + [0];
    assert [0][1..] == [] && Sort(Rank(READY.runs), []) == [];
    assert Sort(Rank(READY.runs), [0]) == [0];
  }

  /** The first pass gives the run to the worker. */
  lemma FirstPass(cfg: Settings)
    requires cfg.staleSeconds >= 0
    ensures Schedule(cfg, READY, 0, 0) == Assign(READY, 0, 0, 0, cfg.leaseSeconds)
  {
    NothingToRecover(cfg);
    OneInQueue();
    hide Recover, Queue;
    assert PickWorker(cfg, READY.workers, READY.runs[0], 0) == Some(0);
    assert [0][1..] == [];
  }

  function Assigned(cfg: Settings): State {
    State(Assign(READY, 0, 0, 0, cfg.leaseSeconds), [], {}, 0)
  }

  lemma AssignedReached(cfg: Settings) returns (actions: seq<Action>)
    requires cfg.staleSeconds >= 0
    ensures |actions| == 3 && Exec(cfg, INIT, actions) == Assigned(cfg)
  {
    hide Exec, Schedule;
    var register, submit := Register(0, 4000, 8192), Submit(REQUEST);
    ExecEmpty(cfg);
    ExecLast(cfg, INIT, [], register);
    ExecLast(cfg, INIT, [] + [register], submit);
    ExecLast(cfg, INIT, [] + [register] + [submit], Pass(0));
    actions := [] + [register] + [submit] + [Pass(0)];
    assert Exec(cfg, INIT, [] + [register] + [submit]).db == READY;
    FirstPass(cfg);
  }

  lemma ExecEmpty(cfg: Settings)
    ensures Exec(cfg, INIT, []) == INIT
  {
  }

  function Given(cfg: Settings, phase: Phase): State {
    Assigned(cfg).(sessions := [Session(0, 1, 0, 0, phase)])
  }

  /** The run is being executed in one go. */
  function Executing(cfg: Settings): State {
    var s := Given(cfg, Finishing(Running, 4, Direct));
    s.(db := s.db.(runs := [Move(s.db.runs[0], Running, 0)]))
  }

  lemma SessionOpens(cfg: Settings)
    ensures Next(cfg, Assigned(cfg), Deliver(0, 1)) == Given(cfg, Opened)
    ensures Next(cfg, Given(cfg, Opened), Work(0, Load)) == Given(cfg, Loaded(3))
    ensures Next(cfg, Given(cfg, Loaded(3)), Work(0, Fence)) == Given(cfg, Fenced(3, 0))
  {
  }

  lemma SessionStarts(cfg: Settings)
    ensures Next(cfg, Given(cfg, Fenced(3, 0)), Work(0, Start(Direct))) == Executing(cfg)
  {
  }

  lemma FencedReached(cfg: Settings) returns (actions: seq<Action>)
    requires cfg.staleSeconds >= 0
    ensures |actions| == 6 && Exec(cfg, INIT, actions) == Given(cfg, Fenced(3, 0))
  {
    hide Exec, Next;
    var before := AssignedReached(cfg);
    SessionOpens(cfg);
    ExecLast(cfg, INIT, before, Deliver(0, 1));
    ExecLast(cfg, INIT, before + [Deliver(0, 1)], Work(0, Load));
    ExecLast(cfg, INIT, before + [Deliver(0, 1)] + [Work(0, Load)], Work(0, Fence));
    actions := before + [Deliver(0, 1)] + [Work(0, Load)] + [Work(0, Fence)];
  }

  /** A run can be started, and its executor can come to the point where success is certain. So
      what is said of starts, of single executors and of final commits is said of something. */
  lemma StartReached(cfg: Settings) returns (actions: seq<Action>)
    requires cfg.staleSeconds >= 0
    ensures |actions| == 7 && StartsAt(cfg, actions, 6, 0)
    ensures var s := Exec(cfg, INIT, actions);
            && s == Executing(cfg) && AboutToFinish(s, 0) && InTime(s, 0)
            && s.sessions[0].phase.plan == Direct && s.sessions[0].run == 0
  {
    hide Exec, Next;
    var fenced := FencedReached(cfg);
    SessionStarts(cfg);
    ExecLast(cfg, INIT, fenced, Work(0, Start(Direct)));
    actions := fenced + [Work(0, Start(Direct))];
    assert actions[..6] == fenced && actions[..6 + 1] == actions;
  }

  lemma SlowSessionStarts(cfg: Settings, n: nat)
    ensures var t := Next(cfg, Given(cfg, Fenced(3, 0)), Work(0, Start(Stepwise(n))));
            && |t.sessions| == 1 && t.sessions[0].run == 0 && Is(t, 0, Running)
            && t.sessions[0].phase == Warming(if n >= 1 then n else 1)
  {
  }

  /** For every plan of steps there is an execution that takes them all and succeeds. */
  lemma SlowSuccess(cfg: Settings, n: nat) returns (actions: seq<Action>)
    requires cfg.staleSeconds >= 0
    ensures var t, total := Exec(cfg, INIT, actions), if n >= 1 then n else 1;
            && Work(0, Start(Stepwise(n))) in actions
            && Is(t, 0, Succeeded) && t.db.runs[0].lines == Upto(total + 1) && t.db.runs[0].steps == Upto(total)
  {
    hide Exec, Next, Inv, Script;
    var fenced := FencedReached(cfg);
    var started := fenced + [Work(0, Start(Stepwise(n)))];
    SlowSessionStarts(cfg, n);
    ExecLast(cfg, INIT, fenced, Work(0, Start(Stepwise(n))));
    Always(cfg, started);
    var total := if n >= 1 then n else 1;
    var rest := Script(0, Quiet(total)) + [Work(0, Finish(Success(0)))];
    UndisturbedSucceeds(cfg, Exec(cfg, INIT, started), 0, total);
    ExecSplit(cfg, INIT, started, rest);
    actions := started + rest;
  }

  /** A success that is lost: the work was done, and nothing but an edit of the notes came
      between, yet the run ends FAILED. */
  lemma LostSuccess(cfg: Settings) returns (actions: seq<Action>)
    requires cfg.staleSeconds >= 0
    ensures var t := Exec(cfg, INIT, actions); Is(t, 0, Failed) && t.db.runs[0].failure == Some(TemplateFailed)
    ensures |actions| == 11
    ensures actions[7..] == [EditNotes(0, 1), Work(0, Finish(Success(5))), Work(0, Reread), Work(0, Rescue)]
  {
    hide Exec, Next;
    var before := StartReached(cfg);
    EditLosesSuccess(cfg, before, 0, 1, 5);
    var edit, finish, reread, rescue := EditNotes(0, 1), Work(0, Finish(Success(5))), Work(0, Reread), Work(0, Rescue);
    ExecLast(cfg, INIT, before, edit);
    ExecLast(cfg, INIT, before + [edit], finish);
    ExecLast(cfg, INIT, before + [edit] + [finish], reread);
    ExecLast(cfg, INIT, before + [edit] + [finish] + [reread], rescue);
    actions := before + [edit] + [finish] + [reread] + [rescue];
  }

  lemma CrashOrphans(cfg: Settings)
    ensures var s := Next(cfg, Executing(cfg), Work(0, Crash));
            Orphan(s, 0) && LeaseOf(s.db.allocs, 0) == Some(0) && s.db.allocs[0].worker == 0 && s.clock == 0
  {
  }

  /** A crash during the execution leaves an orphan, with an active lease of its worker. */
  lemma OrphanReached(cfg: Settings) returns (actions: seq<Action>)
    requires cfg.staleSeconds >= 0
    ensures |actions| == 8
    ensures var s := Exec(cfg, INIT, actions);
            Orphan(s, 0) && LeaseOf(s.db.allocs, 0) == Some(0) && s.db.allocs[0].worker == 0 && s.clock == 0
  {
    hide Exec, Next, Orphan;
    var before := StartReached(cfg);
    ExecLast(cfg, INIT, before, Work(0, Crash));
    CrashOrphans(cfg);
    actions := before + [Work(0, Crash)];
  }

  lemma ReportThenPass(cfg: Settings, s: State, seconds: nat, w: nat)
    requires cfg.staleSeconds >= 0 && cfg.leaseSeconds >= 0
    ensures var more := [Tick(seconds), Heartbeat(w), Pass(0)];
            Reporting(cfg, s, more, w) && Exec(cfg, s, more).clock == s.clock + seconds
  {
    hide Schedule, HeartbeatWorker;
    var more := [Tick(seconds), Heartbeat(w), Pass(0)];
    ExecNext(cfg, s, more, 0);
    ExecNext(cfg, s, more, 1);
    ExecNext(cfg, s, more, 2);
    assert more[..0] == [] && more[..2 + 1] == more;
    assert Covers(cfg, s, more, w, 1, 2);
  }

  /** An orphan that outlives its lease: however long after the crash, a heartbeat of the
      restarted worker is enough for the next pass to leave the run and its lease alone. */
  lemma OrphanOutlivesLease(cfg: Settings, seconds: nat) returns (actions: seq<Action>)
    requires cfg.staleSeconds >= 0 && cfg.leaseSeconds >= 0
    ensures var t := Exec(cfg, INIT, actions);
            Orphan(t, 0) && LeaseOf(t.db.allocs, 0) == Some(0) && t.clock == seconds
    ensures |actions| == 11 && actions[8..] == [Tick(seconds), Heartbeat(0), Pass(0)]
  {
    hide Exec, Next, Orphan, Reporting;
    var before := OrphanReached(cfg);
    var more := [Tick(seconds), Heartbeat(0), Pass(0)];
    var s := Exec(cfg, INIT, before);
    ReportThenPass(cfg, s, seconds, 0);
    OrphanOutlivesRestart(cfg, before, more, 0);
    ExecSplit(cfg, INIT, before, more);
    actions := before + more;
  }
}
