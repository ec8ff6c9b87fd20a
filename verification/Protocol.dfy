/**
 The platform as a transition system.

 A state holds the committed tables, the worker sessions in flight and the clock. Every
 committed transaction is one action, and a worker session is cut into separate actions at
 every point where it waits: it reads a run, works on what it read, and commits against the
 version it read. A commit against a newer version, and an operation the program rejects,
 leave the tables as they are. Executions are the sequences of actions, so a statement about
 `Exec` covers every interleaving, every duplicate or late delivery and every crash.
 */
module Protocol {
  import opened Options
  import opened Lifecycle
  import opened Tables
  import opened Scheduler

  /** How a template is executed: in one go, or in `total` checkpointed steps. */
  datatype Plan = Direct | Stepwise(total: nat)

  datatype Phase =
    | Opened                                                        // not seen before by this worker
    | Loaded(version: nat)                                          // run read, status SCHEDULING
    | Fenced(version: nat, lease: nat)                              // active allocation read, token matches
    | Warming(total: nat)                                           // started; first log line to be written
    | Sleeping(step: nat, total: nat)                               // `step` steps recorded
    | Checked(seen: Status, version: nat, step: nat, total: nat)    // run read again after a step
    | Finishing(seen: Status, version: nat, plan: Plan)             // work done, to be committed
    | RolledBack(failure: Failure)                                  // work or its commit failed
    | Rescuing(seen: Status, version: nat, failure: Failure)        // run read again, failure to be committed
    | Returning                                                     // to be recorded as processed
    | Closed

  datatype Session = Session(worker: nat, message: nat, run: nat, token: nat, phase: Phase)

  datatype State = State(db: Tables, sessions: seq<Session>, processed: set<(nat, nat)>, clock: int)

  datatype Outcome = Success(lines: nat) | Trouble(failure: Failure)

  datatype Action =
    | Submit(request: Request)
    | Retry(run: nat)
    | Cancel(run: nat)
    | EditNotes(run: nat, notes: nat)
    | Register(name: nat, cpu: int, memory: int)
    | Heartbeat(worker: nat)
    | Pass(wait: nat)
    | Deliver(worker: nat, message: nat)
    | Work(sid: nat, move: SessionMove)
    | Tick(seconds: nat)

  /** What a session can do next; a crash can come at any time. */
  datatype SessionMove =
    | Load | Fence | Start(plan: Plan)
    | Warm | Checkpoint | Record
    | Finish(outcome: Outcome) | Reread | Rescue
    | Acknowledge | Crash

  const INIT: State := State(Tables([], [], [], []), [], {}, 0)

  // ----- API -----

  function SubmitRun(db: Tables, q: Request, now: int): Tables {
    if Acceptable(q) then Insert(db, NewRun(q, 1, None, now)) else db
  }

  function RetryRun(db: Tables, r: nat, now: int): Tables {
    if r < |db.runs| && db.runs[r].status == Failed then
      var p := db.runs[r];
      var q := Request(p.experiment, p.template, p.priority, p.cpu, p.memory, p.notes);
      Insert(db, NewRun(q, p.attempt + 1, Some(r), now))
    else db
  }

  function CancelRun(db: Tables, r: nat, now: int): Tables {
    if r < |db.runs| && db.runs[r].status == Running then
      db.(runs := db.runs[r := Move(db.runs[r], Cancelling, now)], outbox := db.outbox + [CancelRequested(r)])
    else db
  }

  /** A metadata edit is always logged; the row is written, and its version raised, only if
      the edit changes something. */
  function EditRun(run: Run, notes: nat): Run {
    run.(notes := notes,
         version := if notes == run.notes then run.version else run.version + 1,
         log := run.log + [Edited])
  }

  function EditMetadata(db: Tables, r: nat, notes: nat): Tables {
    if r < |db.runs| then db.(runs := db.runs[r := EditRun(db.runs[r], notes)]) else db
  }

  // ----- Worker registry -----

  function FindName(workers: seq<Worker>, name: nat): (found: Option<nat>)
    ensures found.Some? ==> found.value < |workers| && workers[found.value].name == name
    ensures found.None? ==> forall w :: 0 <= w < |workers| ==> workers[w].name != name
  {
    if workers == [] then None
    else if workers[|workers| - 1].name == name then Some(|workers| - 1)
    else FindName(workers[..|workers| - 1], name)
  }

  function RegisterWorker(db: Tables, name: nat, cpu: int, memory: int, now: int): Tables {
    if cpu <= 0 || memory <= 0 then db
    else match FindName(db.workers, name)
      case None => db.(workers := db.workers + [Worker(name, Online, cpu, memory, cpu, memory, 0, now)])
      case Some(w) =>
        var row := db.workers[w].(status := Online, totalCpu := cpu, totalMemory := memory, beat := now);
        db.(workers := db.workers[w := Refresh(db.allocs, w, row)])
  }

  function Renew(allocs: seq<Allocation>, w: nat, expires: int): (renewed: seq<Allocation>)
    ensures |renewed| == |allocs|
  {
    seq(|allocs|, a requires 0 <= a < |allocs| =>
      if allocs[a].worker == w && Active(allocs[a]) then allocs[a].(expires := expires) else allocs[a])
  }

  function HeartbeatWorker(cfg: Settings, db: Tables, w: nat, now: int): Tables {
    if w < |db.workers| then
      var allocs := Renew(db.allocs, w, now + cfg.leaseSeconds);
      var row := db.workers[w].(status := Online, beat := now);
      db.(allocs := allocs, workers := db.workers[w := Refresh(allocs, w, row)])
    else db
  }

  // ----- Worker sessions -----

  function Upto(n: nat): seq<nat> {
    seq(n, i => i + 1)
  }

  predicate UpToDate(db: Tables, r: nat, version: nat) {
    r < |db.runs| && db.runs[r].version == version
  }

  function At(s: State, sid: nat, phase: Phase): State
    requires sid < |s.sessions|
  {
    s.(sessions := s.sessions[sid := s.sessions[sid].(phase := phase)])
  }

  /** A worker receives a message of the outbox: its own assignments only, and not again once
      the message is recorded as processed. */
  function DeliverMessage(s: State, w: nat, m: nat): State {
    if m < |s.db.outbox| && s.db.outbox[m].Assigned? && s.db.outbox[m].worker == w && (m, w) !in s.processed then
      s.(sessions := s.sessions + [Session(w, m, s.db.outbox[m].run, s.db.outbox[m].token, Opened)])
    else s
  }

  function LoadRun(s: State, sid: nat): State
    requires sid < |s.sessions| && s.sessions[sid].phase.Opened?
  {
    var r := s.sessions[sid].run;
    if r < |s.db.runs| && s.db.runs[r].status == Scheduling then At(s, sid, Loaded(s.db.runs[r].version))
    else At(s, sid, Returning)
  }

  function FenceRun(s: State, sid: nat): State
    requires sid < |s.sessions| && s.sessions[sid].phase.Loaded?
  {
    var x := s.sessions[sid];
    match LeaseOf(s.db.allocs, x.run)
    case None => At(s, sid, Returning)
    case Some(a) =>
      if s.db.allocs[a].worker == x.worker && s.db.allocs[a].token == x.token then
        At(s, sid, Fenced(x.phase.version, a))
      else At(s, sid, Returning)
  }

  function StartRun(s: State, sid: nat, plan: Plan): State
    requires sid < |s.sessions| && s.sessions[sid].phase.Fenced?
  {
    var r, version := s.sessions[sid].run, s.sessions[sid].phase.version;
    if UpToDate(s.db, r, version) && s.db.runs[r].status == Scheduling then
      var t := s.(db := s.db.(runs := s.db.runs[r := Move(s.db.runs[r], Running, s.clock)]));
      At(t, sid, match plan
                 case Direct => Finishing(Running, version + 1, Direct)
                 case Stepwise(total) => Warming(if total < 1 then 1 else total))
    else At(s, sid, Closed)
  }

  /** Write the final row of the session's run, release its lease and let the session return. */
  function EndRun(s: State, sid: nat, prepared: Run, target: Status): State
    requires sid < |s.sessions| && s.sessions[sid].run < |s.db.runs| && ValidTransition(prepared.status, target)
  {
    At(s.(db := Conclude(s.db, s.sessions[sid].run, Move(prepared, target, s.clock), s.clock)), sid, Returning)
  }

  /** Add a log line to a run; the unique index on (run, sequence number) rejects a second one
      with the same number. */
  predicate LineFree(db: Tables, r: nat, line: nat) {
    r < |db.runs| && line !in db.runs[r].lines
  }

  function WarmUp(s: State, sid: nat): State
    requires sid < |s.sessions| && s.sessions[sid].phase.Warming?
  {
    var r := s.sessions[sid].run;
    if LineFree(s.db, r, 1) then
      At(s.(db := s.db.(runs := s.db.runs[r := s.db.runs[r].(lines := s.db.runs[r].lines + [1])])),
         sid, Sleeping(0, s.sessions[sid].phase.total))
    else At(s, sid, Closed)
  }

  function CheckRun(s: State, sid: nat): State
    requires sid < |s.sessions| && s.sessions[sid].phase.Sleeping?
  {
    var r, p := s.sessions[sid].run, s.sessions[sid].phase;
    if r < |s.db.runs| then At(s, sid, Checked(s.db.runs[r].status, s.db.runs[r].version, p.step, p.total))
    else At(s, sid, Closed)
  }

  /** The second half of a step: acknowledge a cancellation, or record progress whatever else
      the status has become. */
  function RecordStep(s: State, sid: nat): State
    requires sid < |s.sessions| && s.sessions[sid].phase.Checked?
  {
    var r, p := s.sessions[sid].run, s.sessions[sid].phase;
    if !LineFree(s.db, r, p.step + 2) then At(s, sid, Closed)
    else
      var run := s.db.runs[r].(lines := s.db.runs[r].lines + [p.step + 2]);
      if p.seen == Cancelling then
        if UpToDate(s.db, r, p.version) && run.status == Cancelling then
          EndRun(s, sid, run, Cancelled)
        else At(s, sid, Closed)
      else
        var next := if p.step + 1 < p.total then Sleeping(p.step + 1, p.total)
                    else Finishing(p.seen, p.version, Stepwise(p.total));
        At(s.(db := s.db.(runs := s.db.runs[r := run.(steps := run.steps + [p.step + 1])])), sid, next)
  }

  /** Commit the end of an execution. A checkpointed execution that fails to commit is given
      up; a direct one is rolled back and its failure recorded instead. */
  function FinishRun(s: State, sid: nat, outcome: Outcome): State
    requires sid < |s.sessions| && s.sessions[sid].phase.Finishing?
  {
    var r, p := s.sessions[sid].run, s.sessions[sid].phase;
    var committable := UpToDate(s.db, r, p.version) && p.seen == Running && s.db.runs[r].status == Running;
    match (p.plan, outcome)
    case (Direct, Trouble(f)) => At(s, sid, RolledBack(f))
    case (Direct, Success(lines)) =>
      if committable && s.db.runs[r].lines == [] then
        EndRun(s, sid, s.db.runs[r].(lines := Upto(lines)), Succeeded)
      else At(s, sid, RolledBack(TemplateFailed))
    case (Stepwise(_), Success(_)) =>
      if committable then
        EndRun(s, sid, s.db.runs[r], Succeeded)
      else At(s, sid, Closed)
    case (Stepwise(_), Trouble(f)) =>
      if committable then
        EndRun(s, sid, s.db.runs[r].(failure := Some(f)), Failed)
      else At(s, sid, Closed)
  }

  function RereadRun(s: State, sid: nat): State
    requires sid < |s.sessions| && s.sessions[sid].phase.RolledBack?
  {
    var r := s.sessions[sid].run;
    if r < |s.db.runs| then
      At(s, sid, Rescuing(s.db.runs[r].status, s.db.runs[r].version, s.sessions[sid].phase.failure))
    else At(s, sid, Closed)
  }

  function RescueRun(s: State, sid: nat): State
    requires sid < |s.sessions| && s.sessions[sid].phase.Rescuing?
  {
    var r, p := s.sessions[sid].run, s.sessions[sid].phase;
    if UpToDate(s.db, r, p.version) && p.seen == Running && s.db.runs[r].status == Running then
      EndRun(s, sid, s.db.runs[r].(failure := Some(p.failure)), Failed)
    else At(s, sid, Closed)
  }

  function AcknowledgeMessage(s: State, sid: nat): State
    requires sid < |s.sessions| && s.sessions[sid].phase.Returning?
  {
    At(s, sid, Closed).(processed := s.processed + {(s.sessions[sid].message, s.sessions[sid].worker)})
  }

  /** What a session does when it is its turn; a move that does not match its phase is void. */
  function SessionStep(s: State, sid: nat, move: SessionMove): State
    requires sid < |s.sessions|
  {
    var p := s.sessions[sid].phase;
    match move
    case Load => if p.Opened? then LoadRun(s, sid) else s
    case Fence => if p.Loaded? then FenceRun(s, sid) else s
    case Start(plan) => if p.Fenced? then StartRun(s, sid, plan) else s
    case Warm => if p.Warming? then WarmUp(s, sid) else s
    case Checkpoint => if p.Sleeping? then CheckRun(s, sid) else s
    case Record => if p.Checked? then RecordStep(s, sid) else s
    case Finish(outcome) => if p.Finishing? then FinishRun(s, sid, outcome) else s
    case Reread => if p.RolledBack? then RereadRun(s, sid) else s
    case Rescue => if p.Rescuing? then RescueRun(s, sid) else s
    case Acknowledge => if p.Returning? then AcknowledgeMessage(s, sid) else s
    case Crash => At(s, sid, Closed)
  }

  function Next(cfg: Settings, s: State, a: Action): State {
    match a
    case Submit(q) => s.(db := SubmitRun(s.db, q, s.clock))
    case Retry(r) => s.(db := RetryRun(s.db, r, s.clock))
    case Cancel(r) => s.(db := CancelRun(s.db, r, s.clock))
    case EditNotes(r, notes) => s.(db := EditMetadata(s.db, r, notes))
    case Register(name, cpu, memory) => s.(db := RegisterWorker(s.db, name, cpu, memory, s.clock))
    case Heartbeat(w) => s.(db := HeartbeatWorker(cfg, s.db, w, s.clock))
    case Pass(wait) => s.(db := Schedule(cfg, s.db, s.clock, s.clock + wait), clock := s.clock + wait)
    case Deliver(w, m) => DeliverMessage(s, w, m)
    case Tick(seconds) => s.(clock := s.clock + seconds)
    case Work(sid, move) => if sid < |s.sessions| then SessionStep(s, sid, move) else s
  }

  function Exec(cfg: Settings, s: State, actions: seq<Action>): State {
    if actions == [] then s
    else Next(cfg, Exec(cfg, s, actions[..|actions| - 1]), actions[|actions| - 1])
  }
}
