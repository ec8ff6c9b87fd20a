/**
 What is true of the tables between any two transactions, how the tables may evolve, and
 proof that every kind of write the program makes keeps the one and respects the other.
 */
module Consistency {
  import opened Options
  import opened Lifecycle
  import opened Tables

  // ----- The invariant -----

  /** queued <= started <= completed; a start time exactly for started runs, a completion
      time exactly for ended runs. */
  predicate Times(run: Run, clock: int) {
    && run.queuedAt.Some? && run.queuedAt.value <= clock
    && (run.startedAt.Some? <==> Begun(run.status))
    && (run.startedAt.Some? ==> run.queuedAt.value <= run.startedAt.value <= clock)
    && (run.completedAt.Some? <==> Ended(run.status))
    && (run.completedAt.Some? ==> run.startedAt.value <= run.completedAt.value <= clock)
  }

  predicate RunOk(run: Run, clock: int) {
    && Chained(run.log) && Current(run.log) == run.status && run.status != Draft
    && Times(run, clock)
    && (run.failure.Some? <==> run.status == Failed)
    && (run.status == Queued ==> run.holder.None?)
    && run.cpu > 0 && run.memory > 0
  }

  ghost predicate RunsOk(db: Tables, clock: int) {
    forall r :: 0 <= r < |db.runs| ==> RunOk(db.runs[r], clock)
  }

  predicate AllocOk(db: Tables, a: nat)
    requires a < |db.allocs|
  {
    var row := db.allocs[a];
    && row.run < |db.runs| && row.worker < |db.workers| && row.token == a
    && row.cpu == db.runs[row.run].cpu && row.memory == db.runs[row.run].memory
    && (Active(row) ==> Holding(db.runs[row.run].status) && db.runs[row.run].holder == Some(row.worker))
  }

  /** A run has an active allocation exactly when its status needs one, and never two. */
  ghost predicate LeasesOk(db: Tables) {
    && (forall a :: 0 <= a < |db.allocs| ==> AllocOk(db, a))
    && (forall a, b | 0 <= a < |db.allocs| && 0 <= b < |db.allocs| && Active(db.allocs[a]) ::
          ActiveFor(db.allocs[b], db.allocs[a].run) ==> a == b)
    && (forall r :: 0 <= r < |db.runs| && Holding(db.runs[r].status) ==> LeaseOf(db.allocs, r).Some?)
  }

  /** The cached columns equal what a refresh would write. */
  ghost predicate CapacityOk(db: Tables) {
    forall w :: 0 <= w < |db.workers| ==> db.workers[w] == Refresh(db.allocs, w, db.workers[w])
  }

  ghost predicate NamesOk(db: Tables) {
    && (forall w :: 0 <= w < |db.workers| ==> db.workers[w].status != Offline)
    && (forall v, w :: 0 <= v < w < |db.workers| ==> db.workers[v].name != db.workers[w].name)
  }

  /** A stale worker holds no active allocation, except the workers a pass is still clearing. */
  ghost predicate StaleOk(db: Tables, clearing: set<nat>) {
    forall a | 0 <= a < |db.allocs| && Active(db.allocs[a]) && db.allocs[a].worker < |db.workers| ::
      db.allocs[a].worker in clearing || db.workers[db.allocs[a].worker].status != Stale
  }

  /** Every message of a run is accounted for by its audit log, and every assignment by an
      allocation. */
  predicate MailOf(db: Tables, r: nat) {
    var mail := Tally(db.outbox, r);
    if r < |db.runs| then
      && mail.submitted == 1
      && mail.assignments == AllocCount(db.allocs, r) == Entries(db.runs[r].log, Scheduling)
      && mail.cancels == Entries(db.runs[r].log, Cancelling)
    else
      mail == Mail(0, 0, 0) && AllocCount(db.allocs, r) == 0
  }

  ghost predicate MailOk(db: Tables) {
    forall r: nat :: MailOf(db, r)
  }

  ghost predicate MessagesOk(db: Tables) {
    forall i :: 0 <= i < |db.outbox| ==> MessageOk(db, db.outbox[i])
  }

  predicate MessageOk(db: Tables, m: Message) {
    m.Assigned? ==>
      m.token < |db.allocs| && db.allocs[m.token].run == m.run && db.allocs[m.token].worker == m.worker
  }

  predicate SameRequest(x: Run, y: Run) {
    && x.experiment == y.experiment && x.template == y.template && x.priority == y.priority
    && x.cpu == y.cpu && x.memory == y.memory
  }

  predicate ChildOf(child: Run, parent: Run) {
    parent.status == Failed && child.attempt == parent.attempt + 1 && SameRequest(parent, child)
  }

  /** A retry is a later row that copies a failed run and counts one attempt more. */
  predicate Descent(runs: seq<Run>, r: nat)
    requires r < |runs|
  {
    match runs[r].parent
    case None => runs[r].attempt == 1
    case Some(p) => p < r && ChildOf(runs[r], runs[p])
  }

  ghost predicate LineageOk(runs: seq<Run>) {
    forall r :: 0 <= r < |runs| ==> Descent(runs, r)
  }

  ghost predicate Consistent(db: Tables, clock: int, clearing: set<nat>) {
    && RunsOk(db, clock) && LeasesOk(db) && CapacityOk(db) && NamesOk(db)
    && StaleOk(db, clearing) && MailOk(db) && MessagesOk(db) && LineageOk(db.runs)
  }

  // ----- Evolution -----

  predicate RunEvolves(x: Run, y: Run) {
    && x.log <= y.log && x.version <= y.version
    && (x.version == y.version ==> x.status == y.status)
    && SameRequest(x, y) && x.attempt == y.attempt && x.parent == y.parent && x.created == y.created
    && x.queuedAt == y.queuedAt
    && (x.startedAt.Some? ==> y.startedAt == x.startedAt)
    && (Ended(x.status) ==> y.status == x.status && y.completedAt == x.completedAt && y.failure == x.failure)
  }

  predicate AllocEvolves(x: Allocation, y: Allocation) {
    && y.run == x.run && y.worker == x.worker && y.cpu == x.cpu && y.memory == x.memory && y.token == x.token
    && (!Active(x) ==> y.released == x.released)
  }

  /** Rows are only added; a lease is given up only in a transaction that also writes the run,
      and never while a started run goes on. */
  ghost predicate Evolves(d: Tables, e: Tables) {
    && |d.runs| <= |e.runs| && |d.workers| <= |e.workers| && |d.allocs| <= |e.allocs| && d.outbox <= e.outbox
    && (forall r :: 0 <= r < |d.runs| ==> RunEvolves(d.runs[r], e.runs[r]))
    && (forall a :: 0 <= a < |d.allocs| ==> AllocEvolves(d.allocs[a], e.allocs[a]))
    && (forall a :: 0 <= a < |d.allocs| && Active(d.allocs[a]) && !Active(e.allocs[a]) ==>
          GivenUp(d, e, d.allocs[a].run))
  }

  predicate GivenUp(d: Tables, e: Tables, r: nat) {
    && r < |d.runs| && r < |e.runs|
    && d.runs[r].version < e.runs[r].version
    && !(Begun(d.runs[r].status) && Holding(e.runs[r].status))
  }

  /** No log line or progress metric is written. */
  ghost predicate Silent(d: Tables, e: Tables) {
    |d.runs| <= |e.runs| &&
    forall r :: 0 <= r < |d.runs| ==> d.runs[r].lines == e.runs[r].lines && d.runs[r].steps == e.runs[r].steps
  }

  lemma Unchanged(db: Tables)
    ensures Evolves(db, db) && Silent(db, db)
  {
  }

  lemma EvolvesTransitive(d: Tables, e: Tables, f: Tables, clock: int)
    requires Evolves(d, e) && Evolves(e, f) && LeasesOk(d) && RunsOk(d, clock) && RunsOk(e, clock) && RunsOk(f, clock)
    ensures Evolves(d, f)
  {
    forall a | 0 <= a < |d.allocs| && Active(d.allocs[a]) && !Active(f.allocs[a])
      ensures GivenUp(d, f, d.allocs[a].run)
    {
      var r := d.allocs[a].run;
      assert AllocOk(d, a) && AllocEvolves(d.allocs[a], e.allocs[a]);
      if Active(e.allocs[a]) {
        assert GivenUp(e, f, r);
      } else {
        assert GivenUp(d, e, r);
      }
      assert RunEvolves(d.runs[r], e.runs[r]) && RunEvolves(e.runs[r], f.runs[r]);
      assert RunOk(d.runs[r], clock) && RunOk(e.runs[r], clock) && RunOk(f.runs[r], clock);
      Fate(d.runs[r].log, e.runs[r].log);
      Fate(e.runs[r].log, f.runs[r].log);
    }
  }

  // ----- Single rows -----

  /** A transition keeps the log chained and the times ordered. */
  lemma MoveOk(run: Run, target: Status, clock: int, now: int)
    requires Chained(run.log) && Current(run.log) == run.status && Times(run, clock) && clock <= now
    requires ValidTransition(run.status, target) && target != Retrying
    requires !Ended(run.status)
    ensures var x := Move(run, target, now);
            && Chained(x.log) && Current(x.log) == target && Times(x, now) && RunEvolves(run, x)
            && forall s :: Entries(x.log, s) == Entries(run.log, s) + (if s == target then 1 else 0)
  {
    AppendEvent(run.log, Moved(run.status, target));
  }

  lemma LeaseIs(db: Tables, a: nat)
    requires LeasesOk(db) && a < |db.allocs| && Active(db.allocs[a])
    ensures LeaseOf(db.allocs, db.allocs[a].run) == Some(a)
  {
    var r := db.allocs[a].run;
    assert ActiveFor(db.allocs[a], r);
    assert LeaseOf(db.allocs, r).Some?;
  }

  // ----- Parts of the invariant -----

  lemma LineageKept(db: Tables, r: nat, x: Run, clock: int)
    requires RunsOk(db, clock) && LineageOk(db.runs) && r < |db.runs| && RunOk(x, clock) && RunEvolves(db.runs[r], x)
    ensures LineageOk(db.runs[r := x])
  {
    assert RunOk(db.runs[r], clock);
    Fate(db.runs[r].log, x.log);
    var runs := db.runs[r := x];
    forall s | 0 <= s < |runs|
      ensures Descent(runs, s)
    {
      assert Descent(db.runs, s);
    }
  }

  /** Mail is counted afresh when nothing but the run row `r`, its allocations and its messages
      change. */
  lemma MailKept(d: Tables, e: Tables, r: nat)
    requires MailOk(d) && |d.runs| == |e.runs| && (forall s :: 0 <= s < |d.runs| && s != r ==> d.runs[s] == e.runs[s])
    requires forall s: nat :: s != r ==> Tally(e.outbox, s) == Tally(d.outbox, s)
    requires forall s: nat :: s != r ==> AllocCount(e.allocs, s) == AllocCount(d.allocs, s)
    requires MailOf(e, r)
    ensures MailOk(e)
  {
    forall s: nat
      ensures MailOf(e, s)
    {
      assert MailOf(d, s);
    }
  }

  lemma MessagesKept(d: Tables, e: Tables)
    requires MessagesOk(d) && |d.allocs| <= |e.allocs|
    requires forall a :: 0 <= a < |d.allocs| ==> AllocEvolves(d.allocs[a], e.allocs[a])
    requires d.outbox <= e.outbox
    requires forall i :: |d.outbox| <= i < |e.outbox| ==> MessageOk(e, e.outbox[i])
    ensures MessagesOk(e)
  {
    assert forall i :: 0 <= i < |d.outbox| ==> MessageOk(d, d.outbox[i]) ==> MessageOk(e, e.outbox[i]);
  }

  /** A run row is rewritten and keeps its lease, or its lack of one. */
  lemma LeasesKept(d: Tables, e: Tables, r: nat)
    requires LeasesOk(d) && e.allocs == d.allocs && e.workers == d.workers
    requires r < |d.runs| == |e.runs| && e.runs == d.runs[r := e.runs[r]]
    requires SameRequest(d.runs[r], e.runs[r]) && e.runs[r].holder == d.runs[r].holder
    requires Holding(e.runs[r].status) == Holding(d.runs[r].status)
    ensures LeasesOk(e)
  {
    assert forall a :: 0 <= a < |d.allocs| ==> AllocOk(d, a) ==> AllocOk(e, a);
  }

  lemma LeasesConcluded(db: Tables, r: nat, x: Run, clock: int)
    requires LeasesOk(db) && r < |db.runs| && SameRequest(db.runs[r], x)
    requires Holding(db.runs[r].status) && !Holding(x.status)
    ensures LeasesOk(Conclude(db, r, x, clock))
  {
    var e := Conclude(db, r, x, clock);
    var a := LeaseOf(db.allocs, r).value;
    forall b | 0 <= b < |e.allocs|
      ensures AllocOk(e, b)
    {
      assert AllocOk(db, b) && AllocOk(db, a);
    }
    forall s | 0 <= s < |e.runs| && Holding(e.runs[s].status)
      ensures LeaseOf(e.allocs, s).Some?
    {
      var b := LeaseOf(db.allocs, s).value;
      assert ActiveFor(e.allocs[b], s);
    }
  }

  lemma LeasesAssigned(db: Tables, r: nat, w: nat, clock: int, leaseSeconds: int)
    requires LeasesOk(db) && r < |db.runs| && w < |db.workers| && db.runs[r].status == Queued
    ensures LeasesOk(Assign(db, r, w, clock, leaseSeconds))
  {
    var e := Assign(db, r, w, clock, leaseSeconds);
    forall a | 0 <= a < |e.allocs|
      ensures AllocOk(e, a) && (Active(e.allocs[a]) && e.allocs[a].run == r ==> a == |db.allocs|)
    {
      assert a < |db.allocs| ==> AllocOk(db, a);
    }
    forall s | 0 <= s < |e.runs| && Holding(e.runs[s].status)
      ensures LeaseOf(e.allocs, s).Some?
    {
      if s == r {
        assert ActiveFor(e.allocs[|db.allocs|], s);
      } else {
        assert ActiveFor(e.allocs[LeaseOf(db.allocs, s).value], s);
      }
    }
  }

  lemma LeasesInserted(db: Tables, run: Run)
    requires LeasesOk(db) && !Holding(run.status)
    ensures LeasesOk(Insert(db, run))
  {
    var e := Insert(db, run);
    assert forall a :: 0 <= a < |db.allocs| ==> AllocOk(db, a) ==> AllocOk(e, a);
  }

  lemma CapacityReleased(db: Tables, r: nat, now: int)
    requires LeasesOk(db) && CapacityOk(db) && r < |db.runs| && Holding(db.runs[r].status)
    ensures CapacityOk(Release(db, r, now))
  {
    var e, a := Release(db, r, now), LeaseOf(db.allocs, r).value;
    assert AllocOk(db, a);
    forall v | 0 <= v < |db.workers|
      ensures e.workers[v] == Refresh(e.allocs, v, e.workers[v])
    {
      ReplaceAlloc(db.allocs, a, e.allocs[a], v);
    }
  }

  /** The incremental update of the cached columns agrees with the clamped recomputation,
      and the worker's active sum stays within its totals. */
  lemma CapacityAssigned(db: Tables, r: nat, w: nat, now: int, leaseSeconds: int)
    requires CapacityOk(db) && r < |db.runs| && w < |db.workers| && db.runs[r].status == Queued
    requires db.runs[r].cpu > 0 && db.runs[r].memory > 0
    requires db.workers[w].freeCpu >= db.runs[r].cpu && db.workers[w].freeMemory >= db.runs[r].memory
    ensures var e := Assign(db, r, w, now, leaseSeconds);
            && CapacityOk(e)
            && LoadOf(e.allocs, w).cpu <= e.workers[w].totalCpu
            && LoadOf(e.allocs, w).memory <= e.workers[w].totalMemory
  {
    var e := Assign(db, r, w, now, leaseSeconds);
    assert db.workers[w] == Refresh(db.allocs, w, db.workers[w]);
    AppendAlloc(db.allocs, e.allocs[|db.allocs|]);
  }

  lemma ConcludeEvolves(db: Tables, r: nat, x: Run, now: int)
    requires LeasesOk(db) && r < |db.runs| && RunEvolves(db.runs[r], x) && db.runs[r].version < x.version
    requires Holding(db.runs[r].status) && !Holding(x.status)
    ensures Evolves(db, Conclude(db, r, x, now))
  {
    assert AllocOk(db, LeaseOf(db.allocs, r).value);
  }

  lemma AssignEvolves(db: Tables, r: nat, w: nat, now: int, leaseSeconds: int)
    requires r < |db.runs| && w < |db.workers| && db.runs[r].status == Queued && db.runs[r].queuedAt.Some?
    ensures Evolves(db, Assign(db, r, w, now, leaseSeconds)) && Silent(db, Assign(db, r, w, now, leaseSeconds))
  {
  }

  lemma ConcludeMail(db: Tables, r: nat, x: Run, now: int)
    requires MailOk(db) && r < |db.runs|
    requires Entries(x.log, Scheduling) == Entries(db.runs[r].log, Scheduling)
    requires Entries(x.log, Cancelling) == Entries(db.runs[r].log, Cancelling)
    ensures MailOk(Conclude(db, r, x, now))
  {
    var e := Conclude(db, r, x, now);
    forall s: nat
      ensures AllocCount(e.allocs, s) == AllocCount(db.allocs, s)
    {
      SameAllocCount(e.allocs, db.allocs, s);
    }
    assert MailOf(db, r);
    MailKept(db, e, r);
  }

  lemma CancelMail(d: Tables, e: Tables, r: nat)
    requires MailOk(d) && r < |d.runs| == |e.runs| && e.runs == d.runs[r := e.runs[r]] && e.allocs == d.allocs
    requires e.outbox == d.outbox + [CancelRequested(r)]
    requires Entries(e.runs[r].log, Scheduling) == Entries(d.runs[r].log, Scheduling)
    requires Entries(e.runs[r].log, Cancelling) == Entries(d.runs[r].log, Cancelling) + 1
    ensures MailOk(e)
  {
    AppendMail(d.outbox, CancelRequested(r));
    assert MailOf(d, r);
    MailKept(d, e, r);
  }

  // ----- Writes -----

  /** A write to a run row that neither needs nor gives up a lease. */
  lemma Rewrite(db: Tables, r: nat, x: Run, clock: int, clearing: set<nat>)
    requires Consistent(db, clock, clearing) && r < |db.runs|
    requires RunOk(x, clock) && RunEvolves(db.runs[r], x) && x.holder == db.runs[r].holder
    requires Holding(x.status) == Holding(db.runs[r].status)
    requires Entries(x.log, Scheduling) == Entries(db.runs[r].log, Scheduling)
    requires Entries(x.log, Cancelling) == Entries(db.runs[r].log, Cancelling)
    ensures Consistent(db.(runs := db.runs[r := x]), clock, clearing)
    ensures Evolves(db, db.(runs := db.runs[r := x]))
  {
    var e := db.(runs := db.runs[r := x]);
    LeasesKept(db, e, r);
    MessagesKept(db, e);
    LineageKept(db, r, x, clock);
    assert MailOf(db, r);
    MailKept(db, e, r);
  }

  /** A write to a run row that keeps the lease and adds a cancel message. */
  lemma RewriteCancelling(db: Tables, r: nat, x: Run, clock: int)
    requires Consistent(db, clock, {}) && r < |db.runs|
    requires RunOk(x, clock) && RunEvolves(db.runs[r], x) && x.holder == db.runs[r].holder
    requires Holding(x.status) == Holding(db.runs[r].status)
    requires Entries(x.log, Scheduling) == Entries(db.runs[r].log, Scheduling)
    requires Entries(x.log, Cancelling) == Entries(db.runs[r].log, Cancelling) + 1
    ensures var e := db.(runs := db.runs[r := x], outbox := db.outbox + [CancelRequested(r)]);
            Consistent(e, clock, {}) && Evolves(db, e)
  {
    var e := db.(runs := db.runs[r := x], outbox := db.outbox + [CancelRequested(r)]);
    LeasesKept(db, e, r);
    MessagesKept(db, e);
    LineageKept(db, r, x, clock);
    CancelMail(db, e, r);
  }

  lemma CancelOk(db: Tables, r: nat, clock: int)
    requires Consistent(db, clock, {}) && r < |db.runs| && db.runs[r].status == Running
    ensures var e := db.(runs := db.runs[r := Move(db.runs[r], Cancelling, clock)],
                         outbox := db.outbox + [CancelRequested(r)]);
            Consistent(e, clock, {}) && Evolves(db, e) && Silent(db, e)
  {
    assert RunOk(db.runs[r], clock);
    MoveOk(db.runs[r], Cancelling, clock, clock);
    RewriteCancelling(db, r, Move(db.runs[r], Cancelling, clock), clock);
  }

  /** Ending or requeueing a run together with its lease. */
  lemma ConcludeOk(db: Tables, r: nat, x: Run, clock: int, clearing: set<nat>)
    requires Consistent(db, clock, clearing) && r < |db.runs|
    requires RunOk(x, clock) && RunEvolves(db.runs[r], x) && db.runs[r].version < x.version
    requires Holding(db.runs[r].status) && !Holding(x.status)
    requires Entries(x.log, Scheduling) == Entries(db.runs[r].log, Scheduling)
    requires Entries(x.log, Cancelling) == Entries(db.runs[r].log, Cancelling)
    ensures Consistent(Conclude(db, r, x, clock), clock, clearing)
    ensures Evolves(db, Conclude(db, r, x, clock))
  {
    hide LeasesOk, MailOk, MessagesOk, LineageOk, Evolves;
    var e := Conclude(db, r, x, clock);
    assert e == Release(db, r, clock).(runs := db.runs[r := x]);
    ConcludeEvolves(db, r, x, clock);
    CapacityReleased(db, r, clock);
    LeasesConcluded(db, r, x, clock);
    MessagesKept(db, e);
    LineageKept(db, r, x, clock);
    ConcludeMail(db, r, x, clock);
  }

  /** Assigning a queued run to a worker with room for it. */
  lemma AssignOk(db: Tables, r: nat, w: nat, clock: int, leaseSeconds: int)
    requires Consistent(db, clock, {}) && r < |db.runs| && w < |db.workers| && db.runs[r].status == Queued
    requires db.workers[w].status == Online
    requires db.workers[w].freeCpu >= db.runs[r].cpu && db.workers[w].freeMemory >= db.runs[r].memory
    ensures var e := Assign(db, r, w, clock, leaseSeconds);
            Consistent(e, clock, {}) && Evolves(db, e) && Silent(db, e)
  {
    hide LeasesOk, CapacityOk, MessagesOk, LineageOk, Evolves, Silent;
    var e := Assign(db, r, w, clock, leaseSeconds);
    assert RunOk(db.runs[r], clock);
    MoveOk(db.runs[r], Scheduling, clock, clock);
    AssignEvolves(db, r, w, clock, leaseSeconds);
    CapacityAssigned(db, r, w, clock, leaseSeconds);
    LeasesAssigned(db, r, w, clock, leaseSeconds);
    MessagesKept(db, e);
    LineageKept(db, r, e.runs[r], clock);
    AppendAlloc(db.allocs, e.allocs[|db.allocs|]);
    AppendMail(db.outbox, e.outbox[|db.outbox|]);
    assert MailOf(db, r);
    MailKept(db, e, r);
  }

  /** Adding a run, either a first attempt or a retry of a failed run. */
  lemma InsertOk(db: Tables, run: Run, clock: int)
    requires Consistent(db, clock, {}) && RunOk(run, clock) && run.status == Queued
    requires Entries(run.log, Scheduling) == 0 && Entries(run.log, Cancelling) == 0
    requires match run.parent
             case None => run.attempt == 1
             case Some(p) => p < |db.runs| && ChildOf(run, db.runs[p])
    ensures Consistent(Insert(db, run), clock, {})
    ensures Evolves(db, Insert(db, run)) && Silent(db, Insert(db, run))
  {
    var e := Insert(db, run);
    LeasesInserted(db, run);
    MessagesKept(db, e);
    AppendMail(db.outbox, e.outbox[|db.outbox|]);
    assert forall s :: 0 <= s < |db.runs| ==> Descent(db.runs, s) ==> Descent(e.runs, s);
    forall s: nat
      ensures MailOf(e, s)
    {
      assert MailOf(db, s);
    }
  }

  predicate SameExceptExpiry(x: Allocation, y: Allocation) {
    y == x.(expires := y.expires)
  }

  /** Writes to worker rows and lease expiries only. */
  lemma WorkersOk(d: Tables, e: Tables, clock: int, clearing: set<nat>)
    requires Consistent(d, clock, {}) && e.runs == d.runs && e.outbox == d.outbox
    requires |e.allocs| == |d.allocs| && |d.workers| <= |e.workers|
    requires forall a :: 0 <= a < |d.allocs| ==> SameExceptExpiry(d.allocs[a], e.allocs[a])
    requires CapacityOk(e) && NamesOk(e) && StaleOk(e, clearing)
    ensures Consistent(e, clock, clearing) && Evolves(d, e) && Silent(d, e)
  {
    assert forall a :: 0 <= a < |d.allocs| ==> AllocOk(d, a) ==> AllocOk(e, a);
    MessagesKept(d, e);
    forall r: nat
      ensures MailOf(e, r)
    {
      assert MailOf(d, r);
      SameAllocCount(e.allocs, d.allocs, r);
    }
    forall r | 0 <= r < |e.runs| && Holding(e.runs[r].status)
      ensures LeaseOf(e.allocs, r).Some?
    {
      assert ActiveFor(e.allocs[LeaseOf(d.allocs, r).value], r);
    }
  }

  lemma Later(db: Tables, clock: int, now: int, clearing: set<nat>)
    requires Consistent(db, clock, clearing) && clock <= now
    ensures Consistent(db, now, clearing)
  {
    assert forall r :: 0 <= r < |db.runs| ==> RunOk(db.runs[r], clock) ==> RunOk(db.runs[r], now);
  }
}
