/**
 The platform summary, as a reader of the invariants: its figures fit together in every
 reachable state.
 */
module Summary {
  import opened Options
  import opened Lifecycle
  import opened Tables
  import opened Consistency
  import opened Scheduler
  import opened Protocol
  import opened Guarantees

  datatype Report = Report(
    activeRuns: nat, queuedRuns: nat, failedRuns: nat, successfulRuns: nat,
    successRate: real, averageDuration: Option<real>,
    workersOnline: nat, workersTotal: nat,
    availableCpu: int, totalCpu: int, availableMemory: int, totalMemory: int)

  const TERMINAL := {Succeeded, Failed, Cancelled}

  function Count(runs: seq<Run>, statuses: set<Status>): nat {
    if runs == [] then 0
    else Count(runs[..|runs| - 1], statuses) + (if runs[|runs| - 1].status in statuses then 1 else 0)
  }

  function Durations(runs: seq<Run>): seq<int> {
    if runs == [] then []
    else
      var run := runs[|runs| - 1];
      Durations(runs[..|runs| - 1]) +
      (if run.startedAt.Some? && run.completedAt.Some? then [run.completedAt.value - run.startedAt.value] else [])
  }

  function Sum(xs: seq<int>): int {
    if xs == [] then 0 else Sum(xs[..|xs| - 1]) + xs[|xs| - 1]
  }

  datatype Fleet = Fleet(count: nat, totalCpu: int, freeCpu: int, totalMemory: int, freeMemory: int)

  /** What the online workers add up to. */
  function OnlineFleet(workers: seq<Worker>): Fleet {
    if workers == [] then Fleet(0, 0, 0, 0, 0)
    else
      var f, row := OnlineFleet(workers[..|workers| - 1]), workers[|workers| - 1];
      if row.status != Online then f
      else Fleet(f.count + 1, f.totalCpu + row.totalCpu, f.freeCpu + row.freeCpu,
                 f.totalMemory + row.totalMemory, f.freeMemory + row.freeMemory)
  }

  function PlatformSummary(db: Tables): Report {
    var terminal := Count(db.runs, TERMINAL);
    var successful := Count(db.runs, {Succeeded});
    var durations := Durations(db.runs);
    var fleet := OnlineFleet(db.workers);
    Report(
      Count(db.runs, {Scheduling, Running, Cancelling}),
      Count(db.runs, {Queued}),
      Count(db.runs, {Failed}),
      successful,
      if terminal > 0 then successful as real / terminal as real else 0.0,
      if durations != [] then Some(Sum(durations) as real / |durations| as real) else None,
      fleet.count, |db.workers|, fleet.freeCpu, fleet.totalCpu, fleet.freeMemory, fleet.totalMemory)
  }

  // ----- Runs -----

  ghost predicate AllOk(runs: seq<Run>, clock: int) {
    forall r :: 0 <= r < |runs| ==> RunOk(runs[r], clock)
  }

  lemma {:induction false} RunsAddUp(runs: seq<Run>, clock: int)
    requires AllOk(runs, clock)
    ensures Count(runs, {Scheduling, Running, Cancelling}) + Count(runs, {Queued}) + Count(runs, TERMINAL) == |runs|
    ensures Count(runs, {Succeeded}) + Count(runs, {Failed}) <= Count(runs, TERMINAL)
    ensures |Durations(runs)| == Count(runs, TERMINAL)
    ensures forall i :: 0 <= i < |Durations(runs)| ==> Durations(runs)[i] >= 0
  {
    if runs != [] {
      var init, run := runs[..|runs| - 1], runs[|runs| - 1];
      RunsAddUp(init, clock);
      OneKind(run, clock);
      hide RunOk;
    }
  }

  lemma OneKind(run: Run, clock: int)
    requires RunOk(run, clock)
    ensures run.status !in {Draft, Retrying}
    ensures run.status in TERMINAL <==> run.startedAt.Some? && run.completedAt.Some?
    ensures run.status in TERMINAL ==> run.startedAt.value <= run.completedAt.value
  {
    StartedOnce(run.log);
  }

  lemma {:induction false} SumNonNegative(xs: seq<int>)
    requires forall i :: 0 <= i < |xs| ==> xs[i] >= 0
    ensures Sum(xs) >= 0
  {
    if xs != [] {
      SumNonNegative(xs[..|xs| - 1]);
    }
  }

  lemma Times(x: real, y: real, w: real)
    requires x > y && w > 0.0
    ensures x * w > y * w
  {
  }

  lemma Quotient(part: real, whole: real)
    requires 0.0 <= part && whole > 0.0
    ensures 0.0 <= part / whole
    ensures part <= whole ==> part / whole <= 1.0
    ensures part / whole * whole == part
  {
    var q := part / whole;
    assert q * whole == part;
    if q < 0.0 {
      Times(0.0, q, whole);
    } else if q > 1.0 {
      Times(q, 1.0, whole);
    }
  }

  // ----- Leases -----

  function Zero(): Usage {
    Usage(0, 0, 0)
  }

  function ActiveShare(a: Allocation): Usage {
    if Active(a) then Usage(a.cpu, a.memory, 1) else Zero()
  }

  /** What all active allocations add up to. */
  function Leased(allocs: seq<Allocation>): Usage {
    if allocs == [] then Zero() else Leased(allocs[..|allocs| - 1]).Plus(ActiveShare(allocs[|allocs| - 1]))
  }

  /** The same, worker by worker. */
  function SumLoads(allocs: seq<Allocation>, n: nat): Usage {
    if n == 0 then Zero() else SumLoads(allocs, n - 1).Plus(LoadOf(allocs, n - 1))
  }

  /** What an allocation contributes to the first `n` workers. */
  function ShareBelow(a: Allocation, n: nat): Usage {
    if a.worker < n then ActiveShare(a) else Zero()
  }

  lemma Rearrange(a: Usage, b: Usage, x: Usage, y: Usage)
    ensures a.Plus(x).Plus(b.Plus(y)) == a.Plus(b).Plus(x.Plus(y))
  {
  }

  lemma {:induction false} OneWorkerMore(allocs: seq<Allocation>, n: nat)
    ensures SumLoads(allocs, n + 1) == SumLoads(allocs, n).Plus(LoadOf(allocs, n))
  {
    hide LoadOf;
  }

  lemma SharesAdd(a: Allocation, n: nat)
    ensures ShareBelow(a, n + 1) == ShareBelow(a, n).Plus(Share(a, n))
  {
  }

  lemma {:induction false} SumLoadsLast(allocs: seq<Allocation>, n: nat)
    requires allocs != []
    ensures SumLoads(allocs, n) == SumLoads(allocs[..|allocs| - 1], n).Plus(ShareBelow(allocs[|allocs| - 1], n))
  {
    if n > 0 {
      hide LoadOf, SumLoads, ShareBelow, Share;
      var init, last := allocs[..|allocs| - 1], allocs[|allocs| - 1];
      SumLoadsLast(allocs, n - 1);
      OneWorkerMore(allocs, n - 1);
      OneWorkerMore(init, n - 1);
      assert allocs == init + [last];
      AppendLoad(init, last, n - 1);
      SharesAdd(last, n - 1);
      Rearrange(SumLoads(init, n - 1), LoadOf(init, n - 1), ShareBelow(last, n - 1), Share(last, n - 1));
    }
  }

  lemma {:induction false} NoLoads(n: nat)
    ensures SumLoads([], n) == Zero()
  {
    if n > 0 {
      NoLoads(n - 1);
    }
  }

  /** Every active allocation is counted at one worker. */
  lemma {:induction false} LoadsAddUp(allocs: seq<Allocation>, n: nat)
    requires forall a :: 0 <= a < |allocs| ==> allocs[a].worker < n
    ensures SumLoads(allocs, n) == Leased(allocs)
  {
    if allocs == [] {
      NoLoads(n);
    } else {
      LoadsAddUp(allocs[..|allocs| - 1], n);
      SumLoadsLast(allocs, n);
    }
  }

  ghost function ActiveIds(allocs: seq<Allocation>): set<nat> {
    set a | 0 <= a < |allocs| && Active(allocs[a])
  }

  lemma {:induction false} LeasedCounts(allocs: seq<Allocation>)
    ensures Leased(allocs).count == |ActiveIds(allocs)|
  {
    if allocs != [] {
      var last := |allocs| - 1;
      LeasedCounts(allocs[..last]);
      assert ActiveIds(allocs) == ActiveIds(allocs[..last]) + if Active(allocs[last]) then {last} else {};
    }
  }

  ghost function LeasesBelow(db: Tables, n: nat): set<nat> {
    set a | 0 <= a < |db.allocs| && Active(db.allocs[a]) && db.allocs[a].run < n
  }

  lemma {:induction false} HoldersAreLeased(db: Tables, n: nat)
    requires LeasesOk(db) && n <= |db.runs|
    ensures Count(db.runs[..n], {Scheduling, Running, Cancelling}) == |LeasesBelow(db, n)|
  {
    if n == 0 {
      assert LeasesBelow(db, 0) == {};
    } else {
      hide LeasesOk, LeasesBelow, ActiveLeases;
      HoldersAreLeased(db, n - 1);
      LeaseCount(db, n - 1);
      LeasesOfNext(db, n - 1);
      assert db.runs[..n][..n - 1] == db.runs[..n - 1];
    }
  }

  lemma LeasesOfNext(db: Tables, n: nat)
    ensures |LeasesBelow(db, n + 1)| == |LeasesBelow(db, n)| + |ActiveLeases(db, n)|
  {
    assert LeasesBelow(db, n + 1) == LeasesBelow(db, n) + ActiveLeases(db, n);
    assert LeasesBelow(db, n) !! ActiveLeases(db, n);
  }

  /** There are as many active runs as active allocations. */
  lemma ActiveRunsAreLeases(db: Tables)
    requires LeasesOk(db)
    ensures Count(db.runs, {Scheduling, Running, Cancelling}) == Leased(db.allocs).count
  {
    HoldersAreLeased(db, |db.runs|);
    LeasedCounts(db.allocs);
    assert db.runs[..|db.runs|] == db.runs;
    forall a | 0 <= a < |db.allocs|
      ensures db.allocs[a].run < |db.runs|
    {
      assert AllocOk(db, a);
    }
    assert LeasesBelow(db, |db.runs|) == ActiveIds(db.allocs);
  }

  // ----- Workers -----

  ghost predicate AllCpuFits(db: Tables, n: nat)
    requires n <= |db.workers|
  {
    forall w :: 0 <= w < n && db.workers[w].status == Online ==> CpuFits(db, w)
  }

  ghost predicate AllMemoryFits(db: Tables, n: nat)
    requires n <= |db.workers|
  {
    forall w :: 0 <= w < n && db.workers[w].status == Online ==> MemoryFits(db, w)
  }

  /** Figures for one resource: what is in use is at most the load, and the load exactly where
      nobody is overcommitted. */
  predicate InUse(total: int, free: int, load: int, fits: bool) {
    && free >= 0 && total - free <= load
    && (total - free == load <==> fits)
  }

  /** The figures of the online workers among the first `n`. */
  ghost predicate FleetFits(db: Tables, n: nat)
    requires n <= |db.workers|
  {
    var f, load := OnlineFleet(db.workers[..n]), SumLoads(db.allocs, n);
    && f.count <= n
    && InUse(f.totalCpu, f.freeCpu, load.cpu, AllCpuFits(db, n))
    && InUse(f.totalMemory, f.freeMemory, load.memory, AllMemoryFits(db, n))
  }

  lemma NextWorker(db: Tables, w: nat)
    requires CapacityOk(db) && StaleOk(db, {}) && NamesOk(db) && w < |db.workers|
    ensures var row, load := db.workers[w], LoadOf(db.allocs, w);
            && row.freeCpu == Clamp(row.totalCpu - load.cpu) && row.freeMemory == Clamp(row.totalMemory - load.memory)
            && (row.status != Online ==> load == Zero())
            && (AllCpuFits(db, w + 1) <==> AllCpuFits(db, w) && (row.status == Online ==> load.cpu <= row.totalCpu))
            && (AllMemoryFits(db, w + 1) <==>
                  AllMemoryFits(db, w) && (row.status == Online ==> load.memory <= row.totalMemory))
  {
    assert db.workers[w] == Refresh(db.allocs, w, db.workers[w]);
    if db.workers[w].status != Online {
      NoLoad(db.allocs, w);
    }
  }

  lemma NextFleet(workers: seq<Worker>, n: nat)
    requires n < |workers|
    ensures var f, g, row := OnlineFleet(workers[..n]), OnlineFleet(workers[..n + 1]), workers[n];
            g == if row.status != Online then f
                 else Fleet(f.count + 1, f.totalCpu + row.totalCpu, f.freeCpu + row.freeCpu,
                            f.totalMemory + row.totalMemory, f.freeMemory + row.freeMemory)
  {
    assert workers[..n + 1][..n] == workers[..n];
  }

  lemma FleetStep(db: Tables, w: nat)
    requires CapacityOk(db) && StaleOk(db, {}) && NamesOk(db) && w < |db.workers| && FleetFits(db, w)
    ensures FleetFits(db, w + 1)
  {
    hide CapacityOk, StaleOk, NamesOk, LoadOf, SumLoads, OnlineFleet, AllCpuFits, AllMemoryFits;
    NextWorker(db, w);
    NextFleet(db.workers, w);
    OneWorkerMore(db.allocs, w);
  }

  lemma {:induction false} FleetAddsUp(db: Tables, n: nat)
    requires CapacityOk(db) && StaleOk(db, {}) && NamesOk(db) && n <= |db.workers|
    ensures FleetFits(db, n)
  {
    if n > 0 {
      hide FleetFits, CapacityOk, StaleOk, NamesOk;
      FleetAddsUp(db, n - 1);
      FleetStep(db, n - 1);
    }
  }

  // ----- The report -----

  /** The runs in one of the given statuses. */
  ghost function Having(runs: seq<Run>, statuses: set<Status>): set<nat> {
    set r | 0 <= r < |runs| && runs[r].status in statuses
  }

  lemma {:induction false} CountIsHaving(runs: seq<Run>, statuses: set<Status>)
    ensures Count(runs, statuses) == |Having(runs, statuses)|
  {
    if runs != [] {
      var last := |runs| - 1;
      CountIsHaving(runs[..last], statuses);
      assert Having(runs, statuses)
          == Having(runs[..last], statuses) + if runs[last].status in statuses then {last} else {};
    }
  }

  /** How long the ended runs took, from start to completion, altogether. */
  ghost function TimeTaken(runs: seq<Run>): int {
    if runs == [] then 0
    else
      var run := runs[|runs| - 1];
      TimeTaken(runs[..|runs| - 1]) +
      if run.status in {Succeeded, Failed, Cancelled} && run.startedAt.Some? && run.completedAt.Some?
      then run.completedAt.value - run.startedAt.value else 0
  }

  lemma SumAppend(xs: seq<int>, x: int)
    ensures Sum(xs + [x]) == Sum(xs) + x
  {
    assert (xs + [x])[..|xs|] == xs;
  }

  lemma {:induction false} DurationsAddUp(runs: seq<Run>, clock: int)
    requires AllOk(runs, clock)
    ensures Sum(Durations(runs)) == TimeTaken(runs)
  {
    if runs != [] {
      var init, run := runs[..|runs| - 1], runs[|runs| - 1];
      DurationsAddUp(init, clock);
      OneKind(run, clock);
      hide RunOk;
      if run.startedAt.Some? && run.completedAt.Some? {
        SumAppend(Durations(init), run.completedAt.value - run.startedAt.value);
      } else {
        assert Durations(init) + [] == Durations(init);
      }
    }
  }

  ghost function OnlineIds(workers: seq<Worker>): set<nat> {
    set w | 0 <= w < |workers| && workers[w].status == Online
  }

  lemma {:induction false} FleetCounts(workers: seq<Worker>)
    ensures OnlineFleet(workers).count == |OnlineIds(workers)|
  {
    if workers != [] {
      var last := |workers| - 1;
      FleetCounts(workers[..last]);
      assert OnlineIds(workers) == OnlineIds(workers[..last]) + if workers[last].status == Online then {last} else {};
    }
  }

  /** The figures about runs are the sizes of the sets they speak of, their ratios and averages. */
  ghost predicate RunsReported(runs: seq<Run>, report: Report) {
    var ended := |Having(runs, {Succeeded, Failed, Cancelled})|;
    && report.activeRuns == |Having(runs, {Scheduling, Running, Cancelling})|
    && report.queuedRuns == |Having(runs, {Queued})|
    && report.failedRuns == |Having(runs, {Failed})|
    && report.successfulRuns == |Having(runs, {Succeeded})|
    && report.activeRuns + report.queuedRuns + ended == |runs|
    && RatiosReported(report, ended, TimeTaken(runs))
  }

  predicate RatiosReported(report: Report, ended: nat, timeTaken: int) {
    && 0.0 <= report.successRate <= 1.0
    && report.successRate * ended as real == report.successfulRuns as real
    && (report.averageDuration.Some? <==> ended > 0)
    && (report.averageDuration.Some? ==>
          && report.averageDuration.value >= 0.0
          && report.averageDuration.value * ended as real == timeTaken as real)
  }

  lemma RatiosAreRight(report: Report, ended: nat, timeTaken: int)
    requires report.successfulRuns <= ended && timeTaken >= 0
    requires report.successRate == if ended > 0 then report.successfulRuns as real / ended as real else 0.0
    requires report.averageDuration == if ended > 0 then Some(timeTaken as real / ended as real) else None
    ensures RatiosReported(report, ended, timeTaken)
  {
    if ended > 0 {
      Quotient(report.successfulRuns as real, ended as real);
      Quotient(timeTaken as real, ended as real);
    }
  }

  ghost predicate AddsUp(db: Tables) {
    var report, leased := PlatformSummary(db), Leased(db.allocs);
    && RunsReported(db.runs, report)
    && report.activeRuns == leased.count
    && |Durations(db.runs)| == |Having(db.runs, {Succeeded, Failed, Cancelled})|
    && (forall i :: 0 <= i < |Durations(db.runs)| ==> Durations(db.runs)[i] >= 0)
    && report.workersOnline == |OnlineIds(db.workers)| && report.workersTotal == |db.workers|
    && InUse(report.totalCpu, report.availableCpu, leased.cpu, AllCpuFits(db, |db.workers|))
    && InUse(report.totalMemory, report.availableMemory, leased.memory, AllMemoryFits(db, |db.workers|))
  }

  lemma RunFigures(db: Tables, clock: int)
    requires RunsOk(db, clock)
    ensures RunsReported(db.runs, PlatformSummary(db))
  {
    RunsAddUp(db.runs, clock);
    DurationsAddUp(db.runs, clock);
    CountIsHaving(db.runs, {Scheduling, Running, Cancelling});
    CountIsHaving(db.runs, {Queued});
    CountIsHaving(db.runs, {Failed});
    CountIsHaving(db.runs, {Succeeded});
    CountIsHaving(db.runs, {Succeeded, Failed, Cancelled});
    SumNonNegative(Durations(db.runs));
    hide Count, Durations, Sum, OnlineFleet, RunsOk, Having, TimeTaken, RatiosReported;
    RatiosAreRight(PlatformSummary(db), Count(db.runs, TERMINAL), TimeTaken(db.runs));
  }

  lemma ReportAddsUp(db: Tables, clock: int)
    requires Consistent(db, clock, {})
    ensures AddsUp(db)
  {
    hide Count, Durations, Sum, OnlineFleet, SumLoads, Leased, AllCpuFits, AllMemoryFits, InUse, RunsReported, Having;
    RunsAddUp(db.runs, clock);
    RunFigures(db, clock);
    ActiveRunsAreLeases(db);
    CountIsHaving(db.runs, {Succeeded, Failed, Cancelled});
    FleetCounts(db.workers);
    FleetAddsUp(db, |db.workers|);
    assert db.workers[..|db.workers|] == db.workers;
    forall a | 0 <= a < |db.allocs|
      ensures db.allocs[a].worker < |db.workers|
    {
      assert AllocOk(db, a);
    }
    LoadsAddUp(db.allocs, |db.workers|);
  }

  /** In every reachable state: every run is counted as active, queued or ended; there is one lease
      per active run and one non-negative duration per ended run; the success rate is the share of
      successful runs among ended ones and the average is over them; and the capacity in use among
      online workers is what all leases add up to, unless a worker is overcommitted. */
  lemma SummaryAddsUp(cfg: Settings, actions: seq<Action>)
    ensures AddsUp(Exec(cfg, INIT, actions).db)
  {
    hide AddsUp, Consistent;
    Always(cfg, actions);
    ReportAddsUp(Exec(cfg, INIT, actions).db, Exec(cfg, INIT, actions).clock);
  }
}
