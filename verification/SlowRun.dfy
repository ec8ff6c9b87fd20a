/**
 The checkpointed execution of a run from its first log line to its last commit, while
 everybody else goes on working on the same tables.
 */
module SlowRun {
  import opened Lifecycle
  import opened Tables
  import opened Scheduler
  import opened Protocol
  import opened Safety
  import opened Guarantees
  import opened Platform

  /** How an execution came to its end: the run was completed, a cancellation was acknowledged
      in step `step`, or a commit, of step `step` or of the end, was refused and the session
      gave up. */
  datatype Result = Completed(status: Status) | Acknowledged(step: nat) | StepRefused(step: nat) | EndRefused

  /** Actions of anybody but session `sid`. */
  ghost predicate Foreign(actions: seq<Action>, sid: nat) {
    forall i :: 0 <= i < |actions| ==> !(actions[i].Work? && actions[i].sid == sid)
  }

  lemma {:induction false} ForeignLeavesSession(cfg: Settings, s: State, actions: seq<Action>, sid: nat)
    requires Foreign(actions, sid) && sid < |s.sessions|
    ensures var t := Exec(cfg, s, actions); sid < |t.sessions| && t.sessions[sid] == s.sessions[sid]
  {
    if actions != [] {
      hide Next;
      var init := actions[..|actions| - 1];
      assert forall i :: 0 <= i < |init| ==> init[i] == actions[i];
      ForeignLeavesSession(cfg, s, init, sid);
      OtherLeavesSession(cfg, Exec(cfg, s, init), actions[|actions| - 1], sid);
    }
  }

  lemma OtherLeavesSession(cfg: Settings, s: State, a: Action, sid: nat)
    requires sid < |s.sessions| && !(a.Work? && a.sid == sid)
    ensures var t := Next(cfg, s, a); sid < |t.sessions| && t.sessions[sid] == s.sessions[sid]
  {
    hide Schedule;
  }

  /** Others take their turns. */
  method Interfere(db: Database, actions: seq<Action>, ghost sid: nat)
    requires db.Valid() && Foreign(actions, sid) && sid < |db.sessions|
    modifies db
    ensures db.Now() == Exec(db.cfg, old(db.Now()), actions)
    ensures db.Valid() && sid < |db.sessions| && db.sessions[sid] == old(db.sessions)[sid]
  {
    Onwards(db.cfg, db.Now(), actions);
    ForeignLeavesSession(db.cfg, db.Now(), actions, sid);
    var t := Exec(db.cfg, db.Now(), actions);
    db.runs, db.workers, db.allocs, db.outbox := t.db.runs, t.db.workers, t.db.allocs, t.db.outbox;
    db.sessions, db.processed, db.clock := t.sessions, t.processed, t.clock;
  }

  /** What the execution leaves behind for each way of ending. */
  predicate Leaves(result: Result, run: Run, total: nat, outcome: Outcome) {
    match result
    case Completed(status) =>
      && run.status == status == (if outcome.Success? then Succeeded else Failed)
      && run.lines == Upto(total + 1) && run.steps == Upto(total)
    case Acknowledged(step) =>
      && run.status == Cancelled && 1 <= step <= total
      && run.lines == Upto(step + 1) && run.steps == Upto(step - 1)
    case StepRefused(step) =>
      1 <= step <= total && run.lines == Upto(step) && run.steps == Upto(step - 1)
    case EndRefused =>
      run.lines == Upto(total + 1) && run.steps == Upto(total)
  }

  /** What others do while the session sleeps, and what they do while it records a step. */
  datatype Turn = Turn(asleep: seq<Action>, busy: seq<Action>)

  /** The execution up to and including the given turns, as one sequence of actions. */
  function Script(sid: nat, turns: seq<Turn>): seq<Action> {
    if turns == [] then [Work(sid, Warm)]
    else
      var turn := turns[|turns| - 1];
      Script(sid, turns[..|turns| - 1]) + turn.asleep + [Work(sid, Checkpoint)] + turn.busy + [Work(sid, Record)]
  }

  /** The actions of the whole execution, as far as it went. */
  function Story(sid: nat, turns: seq<Turn>, late: seq<Action>, outcome: Outcome, result: Result): seq<Action> {
    match result
    case Acknowledged(step) => Script(sid, if step <= |turns| then turns[..step] else turns)
    case StepRefused(step) => Script(sid, if step <= |turns| then turns[..step] else turns)
    case _ => Script(sid, turns) + late + [Work(sid, Finish(outcome))]
  }

  lemma ExecThen(cfg: Settings, s: State, first: seq<Action>, others: seq<Action>, a: Action)
    ensures Exec(cfg, s, first + others + [a]) == Next(cfg, Exec(cfg, Exec(cfg, s, first), others), a)
  {
    hide Exec, Next;
    ExecSplit(cfg, s, first, others);
    ExecLast(cfg, s, first + others, a);
  }

  function AfterTurn(cfg: Settings, s: State, sid: nat, turn: Turn): State {
    var read := Next(cfg, Exec(cfg, s, turn.asleep), Work(sid, Checkpoint));
    Next(cfg, Exec(cfg, read, turn.busy), Work(sid, Record))
  }

  lemma ScriptTurn(cfg: Settings, s: State, sid: nat, turns: seq<Turn>, n: nat)
    requires n < |turns|
    ensures var before := Exec(cfg, s, Script(sid, turns[..n]));
            Exec(cfg, s, Script(sid, turns[..n + 1])) == AfterTurn(cfg, before, sid, turns[n])
  {
    hide Exec, Next;
    assert turns[..n + 1][..n] == turns[..n];
    var before, turn := Script(sid, turns[..n]), turns[n];
    ExecThen(cfg, s, before, turn.asleep, Work(sid, Checkpoint));
    ExecThen(cfg, s, before + turn.asleep + [Work(sid, Checkpoint)], turn.busy, Work(sid, Record));
  }

  lemma ScriptStart(cfg: Settings, s: State, sid: nat)
    ensures Exec(cfg, s, Script(sid, [])) == Next(cfg, s, Work(sid, Warm))
  {
    assert [Work(sid, Warm)][..0] == [];
    hide Next;
  }

  /** Where step `step + 1` of `total` can take a session and its run. */
  predicate Stepped(q: Phase, run: Run, step: nat, total: nat) {
    || (q == Sleeping(step + 1, total) && step + 1 < total)
    || (q.Finishing? && q.plan == Stepwise(total) && step + 1 == total)
    || (q == Returning && run.status == Cancelled && run.lines == Upto(step + 2) && run.steps == Upto(step))
    || (q == Closed && run.lines == Upto(step + 1) && run.steps == Upto(step))
  }

  lemma RecordSteps(cfg: Settings, s: State, sid: nat)
    requires Inv(s) && sid < |s.sessions| && s.sessions[sid].phase.Checked?
    ensures var x, t := s.sessions[sid], Next(cfg, s, Work(sid, Record));
            && sid < |t.sessions| && t.sessions[sid] == x.(phase := t.sessions[sid].phase) && x.run < |t.db.runs|
            && Stepped(t.sessions[sid].phase, t.db.runs[x.run], x.phase.step, x.phase.total)
  {
    AtWork(s, sid);
    AppendUpto(s.sessions[sid].phase.step + 1);
  }

  lemma CheckpointReads(cfg: Settings, s: State, sid: nat)
    requires Inv(s) && sid < |s.sessions| && s.sessions[sid].phase.Sleeping?
    ensures var x, t := s.sessions[sid], Next(cfg, s, Work(sid, Checkpoint));
            && sid < |t.sessions| && t.sessions[sid] == x.(phase := t.sessions[sid].phase)
            && t.sessions[sid].phase.Checked? && x.phase.step < x.phase.total
            && t.sessions[sid].phase.step == x.phase.step && t.sessions[sid].phase.total == x.phase.total
  {
    AtWork(s, sid);
  }

  lemma WarmWrites(cfg: Settings, s: State, sid: nat)
    requires Inv(s) && sid < |s.sessions| && s.sessions[sid].phase.Warming?
    ensures var x, t := s.sessions[sid], Next(cfg, s, Work(sid, Warm));
            && x.phase.total > 0
            && sid < |t.sessions| && t.sessions[sid] == x.(phase := Sleeping(0, x.phase.total))
  {
    AtWork(s, sid);
  }

  lemma FinishCommits(cfg: Settings, s: State, sid: nat, outcome: Outcome)
    requires Inv(s) && sid < |s.sessions| && s.sessions[sid].phase.Finishing? && s.sessions[sid].phase.plan.Stepwise?
    ensures var x, t := s.sessions[sid], Next(cfg, s, Work(sid, Finish(outcome)));
            && sid < |t.sessions| && t.sessions[sid] == x.(phase := t.sessions[sid].phase) && x.run < |t.db.runs|
            && (t.sessions[sid].phase == Closed || t.sessions[sid].phase == Returning)
            && t.db.runs[x.run].lines == Upto(x.phase.plan.total + 1)
            && t.db.runs[x.run].steps == Upto(x.phase.plan.total)
            && (t.sessions[sid].phase == Returning ==>
                  t.db.runs[x.run].status == if outcome.Success? then Succeeded else Failed)
  {
    AtWork(s, sid);
  }

  /** One turn of the loop: wait, read the run again, record the step. */
  method TakeTurn(db: Database, sid: nat, turn: Turn)
    requires db.Valid() && sid < |db.sessions| && db.sessions[sid].phase.Sleeping?
    requires Foreign(turn.asleep, sid) && Foreign(turn.busy, sid)
    modifies db
    ensures db.Now() == AfterTurn(db.cfg, old(db.Now()), sid, turn)
    ensures db.Valid() && sid < |db.sessions| && db.sessions[sid].run == old(db.sessions)[sid].run < |db.runs|
    ensures old(db.sessions)[sid].phase.step < old(db.sessions)[sid].phase.total
    ensures Stepped(db.sessions[sid].phase, db.runs[db.sessions[sid].run],
                    old(db.sessions)[sid].phase.step, old(db.sessions)[sid].phase.total)
  {
    hide Inv, Exec, Next, Stepped;
    Interfere(db, turn.asleep, sid);
    CheckpointReads(db.cfg, db.Now(), sid);
    db.ReadCheckpoint(sid);
    Interfere(db, turn.busy, sid);
    RecordSteps(db.cfg, db.Now(), sid);
    db.RecordProgress(sid);
  }

  /** What comes after the loop: the end of the run is committed, or refused. */
  method TakeLastTurn(db: Database, sid: nat, late: seq<Action>, outcome: Outcome, ghost total: nat)
    returns (result: Result)
    requires db.Valid() && sid < |db.sessions| && Foreign(late, sid)
    requires db.sessions[sid].phase.Finishing? && db.sessions[sid].phase.plan == Stepwise(total)
    modifies db
    ensures db.Now() == Next(db.cfg, Exec(db.cfg, old(db.Now()), late), Work(sid, Finish(outcome)))
    ensures db.Valid() && sid < |db.sessions| && db.sessions[sid].run == old(db.sessions)[sid].run < |db.runs|
    ensures result.Completed? || result.EndRefused?
    ensures db.sessions[sid].phase == (if result.EndRefused? then Closed else Returning)
    ensures Leaves(result, db.runs[db.sessions[sid].run], total, outcome)
  {
    hide Inv, Exec, Next;
    Interfere(db, late, sid);
    FinishCommits(db.cfg, db.Now(), sid, outcome);
    db.CommitFinish(sid, outcome);
    if db.sessions[sid].phase.Closed? {
      return EndRefused;
    }
    return Completed(if outcome.Success? then Succeeded else Failed);
  }

  /** The whole execution, started, checkpointed and committed under arbitrary interference. */
  method ExecuteSlowRun(db: Database, sid: nat, turns: seq<Turn>, late: seq<Action>, outcome: Outcome)
    returns (result: Result)
    requires db.Valid() && sid < |db.sessions| && db.sessions[sid].phase.Warming?
    requires |turns| == db.sessions[sid].phase.total && Foreign(late, sid)
    requires forall i :: 0 <= i < |turns| ==> Foreign(turns[i].asleep, sid) && Foreign(turns[i].busy, sid)
    modifies db
    ensures db.Now() == Exec(db.cfg, old(db.Now()), Story(sid, turns, late, outcome, result))
    ensures db.Valid() && sid < |db.sessions| && db.sessions[sid].run == old(db.sessions)[sid].run < |db.runs|
    ensures db.sessions[sid].phase == (if result.StepRefused? || result.EndRefused? then Closed else Returning)
    ensures Leaves(result, db.runs[db.sessions[sid].run], |turns|, outcome)
  {
    hide Inv, Exec, Next, Script, AfterTurn;
    ghost var total, start := |turns|, db.Now();
    WarmWrites(db.cfg, start, sid);
    ScriptStart(db.cfg, start, sid);
    db.WriteStartLine(sid);
    var step := 0;
    while step < |turns|
      invariant 0 <= step <= total
      invariant db.Now() == Exec(db.cfg, start, Script(sid, turns[..step]))
      invariant db.Valid() && sid < |db.sessions| && db.sessions[sid].run == old(db.sessions)[sid].run
      invariant step < total ==> db.sessions[sid].phase == Sleeping(step, total)
      invariant step == total ==> db.sessions[sid].phase.Finishing? && db.sessions[sid].phase.plan == Stepwise(total)
    {
      ScriptTurn(db.cfg, start, sid, turns, step);
      TakeTurn(db, sid, turns[step]);
      step := step + 1;
      if db.sessions[sid].phase.Returning? {
        return Acknowledged(step);
      }
      if db.sessions[sid].phase.Closed? {
        return StepRefused(step);
      }
    }
    assert turns[..step] == turns;
    ExecThen(db.cfg, start, Script(sid, turns), late, Work(sid, Finish(outcome)));
    result := TakeLastTurn(db, sid, late, outcome, total);
  }
}
