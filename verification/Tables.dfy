/**
 The tables of the platform and the operations on single rows.

 A table is an append-only sequence of rows, and a row's id is its position: the random
 ids and lease tokens of the program are replaced by serial numbers, of which only
 uniqueness is used. The audit rows, log lines and progress metrics of a run are kept with
 its row, in insertion order. CPU is counted in thousandths of a core, time in seconds.
 */
module Tables {
  import opened Options
  import opened Lifecycle

  datatype Failure = LeaseExpired | TemplateFailed | UploadFailed | Intentional

  datatype Run = Run(
    status: Status, priority: int, cpu: int, memory: int, experiment: nat, template: nat,
    attempt: nat, parent: Option<nat>, holder: Option<nat>, created: int,
    queuedAt: Option<int>, startedAt: Option<int>, completedAt: Option<int>,
    failure: Option<Failure>, notes: nat, version: nat,
    log: seq<Event>, lines: seq<nat>, steps: seq<nat>)

  datatype WorkerStatus = Online | Offline | Stale

  datatype Worker = Worker(
    name: nat, status: WorkerStatus, totalCpu: int, totalMemory: int,
    freeCpu: int, freeMemory: int, running: int, beat: int)

  datatype Allocation = Allocation(
    run: nat, worker: nat, cpu: int, memory: int, token: nat, expires: int, released: Option<int>)

  /** The envelopes of the outbox, as far as a consumer looks at them. */
  datatype Message =
    | Submitted(run: nat)
    | Assigned(run: nat, worker: nat, token: nat)
    | CancelRequested(run: nat)

  datatype Tables = Tables(
    runs: seq<Run>, workers: seq<Worker>, allocs: seq<Allocation>, outbox: seq<Message>)

  // ----- Runs -----

  /** transition_run on a run whose status allows it. The mapper writes the changed row back
      as one UPDATE that also increments the version. */
  function Move(run: Run, target: Status, now: int): (moved: Run)
    requires ValidTransition(run.status, target)
  {
    run.(status := target,
         queuedAt := if target == Queued && run.queuedAt.None? then Some(now) else run.queuedAt,
         startedAt := if target == Running then Some(now) else run.startedAt,
         completedAt := if Ended(target) then Some(now) else run.completedAt,
         log := run.log + [Moved(run.status, target)],
         version := run.version + 1)
  }

  /** What may be asked for when a run is submitted. */
  datatype Request = Request(experiment: nat, template: nat, priority: int, cpu: int, memory: int, notes: nat)

  predicate Acceptable(q: Request) {
    100 <= q.cpu <= 4000 && 128 <= q.memory <= 8192 && -10 <= q.priority <= 10
  }

  /** A row inserted as DRAFT with version 1 and moved to QUEUED in the same transaction. */
  function NewRun(q: Request, attempt: nat, parent: Option<nat>, now: int): (run: Run) {
    Move(Run(Draft, q.priority, q.cpu, q.memory, q.experiment, q.template, attempt, parent, None, now,
             None, None, None, None, q.notes, 1, [], [], []),
         Queued, now)
  }

  // ----- Allocations -----

  predicate Active(a: Allocation) {
    a.released.None?
  }

  predicate ActiveFor(a: Allocation, run: nat) {
    a.run == run && Active(a)
  }

  /** The query for the active allocation of a run. */
  function LeaseOf(allocs: seq<Allocation>, run: nat): (lease: Option<nat>)
    ensures lease.Some? ==> lease.value < |allocs| && ActiveFor(allocs[lease.value], run)
    ensures lease.None? ==> forall a :: 0 <= a < |allocs| ==> !ActiveFor(allocs[a], run)
  {
    if allocs == [] then None
    else if ActiveFor(allocs[|allocs| - 1], run) then Some(|allocs| - 1)
    else LeaseOf(allocs[..|allocs| - 1], run)
  }

  datatype Usage = Usage(cpu: int, memory: int, count: int) {
    function Plus(other: Usage): Usage {
      Usage(cpu + other.cpu, memory + other.memory, count + other.count)
    }
  }

  function Share(a: Allocation, worker: nat): Usage {
    if a.worker == worker && Active(a) then Usage(a.cpu, a.memory, 1) else Usage(0, 0, 0)
  }

  /** What the active allocations of a worker add up to. */
  function LoadOf(allocs: seq<Allocation>, worker: nat): Usage {
    if allocs == [] then Usage(0, 0, 0)
    else LoadOf(allocs[..|allocs| - 1], worker).Plus(Share(allocs[|allocs| - 1], worker))
  }

  function AllocCount(allocs: seq<Allocation>, run: nat): nat {
    if allocs == [] then 0
    else AllocCount(allocs[..|allocs| - 1], run) + (if allocs[|allocs| - 1].run == run then 1 else 0)
  }

  lemma {:induction false} AppendLoad(allocs: seq<Allocation>, a: Allocation, w: nat)
    ensures LoadOf(allocs + [a], w) == LoadOf(allocs, w).Plus(Share(a, w))
  {
    assert (allocs + [a])[..|allocs|] == allocs;
  }

  lemma AppendAlloc(allocs: seq<Allocation>, a: Allocation)
    ensures forall w :: LoadOf(allocs + [a], w) == LoadOf(allocs, w).Plus(Share(a, w))
    ensures forall r :: AllocCount(allocs + [a], r) == AllocCount(allocs, r) + (if a.run == r then 1 else 0)
  {
    assert (allocs + [a])[..|allocs|] == allocs;
  }

  lemma {:induction false} ReplaceAlloc(allocs: seq<Allocation>, i: nat, a: Allocation, w: nat)
    requires i < |allocs|
    ensures LoadOf(allocs[i := a], w).Plus(Share(allocs[i], w)) == LoadOf(allocs, w).Plus(Share(a, w))
  {
    var last := |allocs| - 1;
    if i == last {
      assert allocs[i := a][..last] == allocs[..last];
    } else {
      assert allocs[i := a][..last] == allocs[..last][i := a];
      ReplaceAlloc(allocs[..last], i, a, w);
    }
  }

  /** Releasing and renewing leases keeps the allocation counts of the runs. */
  lemma {:induction false} SameAllocCount(xs: seq<Allocation>, ys: seq<Allocation>, run: nat)
    requires |xs| == |ys| && forall i :: 0 <= i < |xs| ==> xs[i].run == ys[i].run
    ensures AllocCount(xs, run) == AllocCount(ys, run)
  {
    if xs != [] {
      SameAllocCount(xs[..|xs| - 1], ys[..|ys| - 1], run);
    }
  }

  /** Renewing leases keeps the load of the workers. */
  lemma {:induction false} SameLoad(xs: seq<Allocation>, ys: seq<Allocation>, w: nat)
    requires |xs| == |ys| && forall i :: 0 <= i < |xs| ==> Share(xs[i], w) == Share(ys[i], w)
    ensures LoadOf(xs, w) == LoadOf(ys, w)
  {
    if xs != [] {
      SameLoad(xs[..|xs| - 1], ys[..|ys| - 1], w);
    }
  }

  /** A worker without active allocations carries no load. */
  lemma {:induction false} NoLoad(allocs: seq<Allocation>, w: nat)
    requires forall a :: 0 <= a < |allocs| && Active(allocs[a]) ==> allocs[a].worker != w
    ensures LoadOf(allocs, w) == Usage(0, 0, 0)
  {
    if allocs != [] {
      NoLoad(allocs[..|allocs| - 1], w);
    }
  }

  // ----- Workers -----

  /** The leases of a worker fit its CPU. */
  predicate CpuFits(db: Tables, w: nat)
    requires w < |db.workers|
  {
    LoadOf(db.allocs, w).cpu <= db.workers[w].totalCpu
  }

  /** The leases of a worker fit its memory. */
  predicate MemoryFits(db: Tables, w: nat)
    requires w < |db.workers|
  {
    LoadOf(db.allocs, w).memory <= db.workers[w].totalMemory
  }

  function Clamp(x: int): int {
    if x < 0 then 0 else x
  }

  /** refresh_worker_capacity: recompute the cached columns from the active allocations. */
  function Refresh(allocs: seq<Allocation>, w: nat, row: Worker): Worker {
    var load := LoadOf(allocs, w);
    row.(freeCpu := Clamp(row.totalCpu - load.cpu),
         freeMemory := Clamp(row.totalMemory - load.memory),
         running := load.count)
  }

  /** release_allocation: release the active allocation of the run, if any, and refresh its worker. */
  function Release(db: Tables, run: nat, now: int): (e: Tables)
    ensures e.runs == db.runs && e.outbox == db.outbox
    ensures |e.allocs| == |db.allocs| && |e.workers| == |db.workers|
  {
    match LeaseOf(db.allocs, run)
    case None => db
    case Some(a) =>
      var allocs := db.allocs[a := db.allocs[a].(released := Some(now))];
      var w := allocs[a].worker;
      if w < |db.workers| then
        db.(allocs := allocs, workers := db.workers[w := Refresh(allocs, w, db.workers[w])])
      else
        db.(allocs := allocs)
  }

  predicate SameLeases(d: Tables, e: Tables) {
    d.allocs == e.allocs && d.workers == e.workers
  }

  // ----- Outbox -----

  datatype Mail = Mail(submitted: nat, assignments: nat, cancels: nat) {
    function Plus(m: Message, run: nat): Mail {
      if m.run != run then this
      else match m
        case Submitted(_) => this.(submitted := submitted + 1)
        case Assigned(_, _, _) => this.(assignments := assignments + 1)
        case CancelRequested(_) => this.(cancels := cancels + 1)
    }
  }

  /** How many messages of each kind were written for a run. */
  function Tally(outbox: seq<Message>, run: nat): Mail {
    if outbox == [] then Mail(0, 0, 0)
    else Tally(outbox[..|outbox| - 1], run).Plus(outbox[|outbox| - 1], run)
  }

  lemma AppendMail(outbox: seq<Message>, m: Message)
    ensures forall r :: Tally(outbox + [m], r) == Tally(outbox, r).Plus(m, r)
  {
    assert (outbox + [m])[..|outbox|] == outbox;
  }

  // ----- Writes that touch several tables -----

  /** Write the run row `x` and give up the run's lease. */
  function Conclude(db: Tables, r: nat, x: Run, now: int): (e: Tables)
    requires r < |db.runs|
    ensures e.runs == db.runs[r := x] && e.outbox == db.outbox
    ensures e.allocs == Release(db, r, now).allocs && e.workers == Release(db, r, now).workers
  {
    Release(db.(runs := db.runs[r := x]), r, now)
  }

  /** One assignment of a scheduling pass: the lease, the run, the worker's cached columns
      (decremented, not recomputed) and the message to the worker. */
  function Assign(db: Tables, r: nat, w: nat, now: int, leaseSeconds: int): Tables
    requires r < |db.runs| && w < |db.workers| && db.runs[r].status == Queued
  {
    var run, row, token := db.runs[r], db.workers[w], |db.allocs|;
    Tables(
      db.runs[r := Move(run, Scheduling, now).(holder := Some(w))],
      db.workers[w := row.(freeCpu := row.freeCpu - run.cpu,
                           freeMemory := row.freeMemory - run.memory,
                           running := row.running + 1)],
      db.allocs + [Allocation(r, w, run.cpu, run.memory, token, now + leaseSeconds, None)],
      db.outbox + [Message.Assigned(r, w, token)])
  }

  /** Add a run and announce it. */
  function Insert(db: Tables, run: Run): Tables {
    db.(runs := db.runs + [run], outbox := db.outbox + [Submitted(|db.runs|)])
  }
}
