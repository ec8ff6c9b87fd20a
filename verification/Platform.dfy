/**
 The operations of the platform as they are carried out: in place, row by row. Every method
 is one transaction, or one stretch of a worker session between two waits, and is proved to
 do exactly what the transition system says.
 */
module Platform {
  import opened Options
  import opened Lifecycle
  import opened Tables
  import opened Ordering
  import opened Scheduler
  import opened Protocol
  import opened Safety

  lemma {:induction false} SelectSame(n: nat, p: nat -> bool, q: nat -> bool)
    requires forall i: nat :: i < n ==> p(i) == q(i)
    ensures Select(n, p) == Select(n, q)
  {
    if n > 0 {
      SelectSame(n - 1, p, q);
    }
  }

  class Database {
    const cfg: Settings
    var runs: seq<Run>
    var workers: seq<Worker>
    var allocs: seq<Allocation>
    var outbox: seq<Message>
    var sessions: seq<Session>
    var processed: set<(nat, nat)>
    var clock: int

    function Rows(): Tables
      reads this
    {
      Tables(runs, workers, allocs, outbox)
    }

    function Now(): State
      reads this
    {
      State(Rows(), sessions, processed, clock)
    }

    ghost predicate Valid()
      reads this
    {
      Inv(Now())
    }

    constructor (cfg: Settings)
      ensures this.cfg == cfg && Valid() && Now() == INIT
    {
      this.cfg := cfg;
      runs, workers, allocs, outbox, sessions, processed, clock := [], [], [], [], [], {}, 0;
    }

    // ----- Worker registry -----

    method RefreshWorkerCapacity(w: nat)
      requires w < |workers|
      modifies this`workers
      ensures workers == old(workers)[w := Refresh(allocs, w, old(workers)[w])]
    {
      var cpu, memory, count := 0, 0, 0;
      for a := 0 to |allocs|
        invariant Usage(cpu, memory, count) == LoadOf(allocs[..a], w)
      {
        assert allocs[..a + 1][..a] == allocs[..a];
        if allocs[a].worker == w && Active(allocs[a]) {
          cpu, memory, count := cpu + allocs[a].cpu, memory + allocs[a].memory, count + 1;
        }
      }
      assert allocs[..|allocs|] == allocs;
      var row := workers[w];
      workers := workers[w := row.(freeCpu := Clamp(row.totalCpu - cpu),
                                   freeMemory := Clamp(row.totalMemory - memory),
                                   running := count)];
    }

    method ReleaseAllocation(run: nat, now: int)
      modifies this`allocs, this`workers
      ensures Rows() == Release(old(Rows()), run, now)
    {
      var lease := LeaseOf(allocs, run);
      if lease.None? {
        return;
      }
      var a := lease.value;
      allocs := allocs[a := allocs[a].(released := Some(now))];
      var w := allocs[a].worker;
      if w < |workers| {
        RefreshWorkerCapacity(w);
      }
    }

    method Register(name: nat, cpu: int, memory: int)
      requires Valid()
      modifies this`workers
      ensures Now() == Next(cfg, old(Now()), Action.Register(name, cpu, memory))
      ensures Valid()
    {
      hide Inv;
      NextInv(cfg, Now(), Action.Register(name, cpu, memory));
      if cpu <= 0 || memory <= 0 {
        return;
      }
      var found := FindName(workers, name);
      if found.None? {
        workers := workers + [Worker(name, Online, cpu, memory, cpu, memory, 0, clock)];
      } else {
        var w := found.value;
        workers := workers[w := workers[w].(status := Online, totalCpu := cpu, totalMemory := memory, beat := clock)];
        RefreshWorkerCapacity(w);
        assert workers == old(workers)[w := workers[w]];
      }
    }

    /** Renew every active allocation of the worker. */
    method RenewLeases(w: nat)
      modifies this`allocs
      ensures allocs == Renew(old(allocs), w, clock + cfg.leaseSeconds)
    {
      ghost var renewed := Renew(allocs, w, clock + cfg.leaseSeconds);
      for a := 0 to |allocs|
        invariant |allocs| == |renewed| == |old(allocs)|
        invariant forall b :: 0 <= b < a ==> allocs[b] == renewed[b]
        invariant forall b :: a <= b < |allocs| ==> allocs[b] == old(allocs)[b]
      {
        if allocs[a].worker == w && Active(allocs[a]) {
          allocs := allocs[a := allocs[a].(expires := clock + cfg.leaseSeconds)];
        }
      }
      assert allocs == renewed;
    }

    method Heartbeat(w: nat) returns (known: bool)
      requires Valid()
      modifies this`workers, this`allocs
      ensures known <==> w < |old(workers)|
      ensures Now() == Next(cfg, old(Now()), Action.Heartbeat(w))
      ensures Valid()
    {
      hide Inv, Renew;
      NextInv(cfg, Now(), Action.Heartbeat(w));
      known := w < |workers|;
      if known {
        workers := workers[w := workers[w].(status := Online, beat := clock)];
        RenewLeases(w);
        RefreshWorkerCapacity(w);
        assert workers == old(workers)[w := workers[w]];
      }
    }

    // ----- Scheduler -----

    /** Mark the workers that fell silent; their ids are the second half of the recovery query. */
    method MarkStaleWorkers(now: int) returns (stale: set<nat>)
      modifies this`workers
      ensures workers == MarkStale(cfg, old(workers), now)
      ensures forall w: nat :: w in stale <==> w < |workers| && Silenced(cfg, old(workers)[w], now)
    {
      stale := {};
      ghost var marked := MarkStale(cfg, workers, now);
      for w := 0 to |workers|
        invariant |workers| == |marked| == |old(workers)|
        invariant forall v :: 0 <= v < w ==> workers[v] == marked[v]
        invariant forall v :: w <= v < |workers| ==> workers[v] == old(workers)[v]
        invariant forall v: nat :: v in stale <==> v < w && Silenced(cfg, old(workers)[v], now)
      {
        if Silenced(cfg, workers[w], now) {
          workers := workers[w := workers[w].(status := Stale)];
          stale := stale + {w};
        }
      }
      assert workers == marked;
    }

    method RecoverRun(a: nat, now: int)
      requires a < |allocs|
      modifies this`runs, this`allocs, this`workers
      ensures Rows() == RecoverOne(old(Rows()), a, now)
    {
      var r := allocs[a].run;
      if r < |runs| {
        match runs[r].status
        case Scheduling => runs := runs[r := Move(runs[r], Queued, now).(holder := None)];
        case Running => runs := runs[r := Move(runs[r].(failure := Some(LeaseExpired)), Failed, now)];
        case Cancelling => runs := runs[r := Move(runs[r], Cancelled, now)];
        case _ => assert runs == runs[r := runs[r]];
      }
      ReleaseAllocation(r, now);
    }

    method RecoverRuns(ids: seq<nat>, now: int)
      requires forall i :: 0 <= i < |ids| ==> ids[i] < |allocs|
      modifies this`runs, this`allocs, this`workers
      ensures Rows() == RecoverAll(old(Rows()), ids, now)
    {
      ghost var goal := RecoverAll(Rows(), ids, now);
      assert ids[0..] == ids;
      for i := 0 to |ids|
        invariant |allocs| == |old(allocs)|
        invariant RecoverAll(Rows(), ids[i..], now) == goal
      {
        assert ids[i..][0] == ids[i] && ids[i..][1..] == ids[i + 1..];
        RecoverRun(ids[i], now);
      }
    }

    method RefreshWorkers(stale: set<nat>)
      modifies this`workers
      ensures |workers| == |old(workers)|
      ensures forall w :: 0 <= w < |workers| ==>
                workers[w] == if w in stale then Refresh(allocs, w, old(workers)[w]) else old(workers)[w]
    {
      for w := 0 to |workers|
        invariant |workers| == |old(workers)|
        invariant forall v :: 0 <= v < w ==>
                    workers[v] == if v in stale then Refresh(allocs, v, old(workers)[v]) else old(workers)[v]
        invariant forall v :: w <= v < |workers| ==> workers[v] == old(workers)[v]
      {
        if w in stale {
          RefreshWorkerCapacity(w);
        }
      }
    }

    /** The recovery query: active allocations that ran out or belong to a stale worker. */
    method FindDoomed(stale: set<nat>, now: int, ghost before: Tables) returns (ids: seq<nat>)
      requires before.allocs == allocs
      requires forall w: nat :: w in stale <==> w < |before.workers| && Silenced(cfg, before.workers[w], now)
      ensures ids == DoomedIds(cfg, before, now)
    {
      var rows := allocs;
      var chosen := (a: nat) => a < |rows| && Active(rows[a]) && (rows[a].expires < now || rows[a].worker in stale);
      ids := Select(|rows|, chosen);
      SelectSame(|rows|, chosen, (a: nat) => Doomed(cfg, before, a, now));
    }

    method RecoverExpiredAllocations(now: int) returns (recovered: nat)
      modifies this`runs, this`allocs, this`workers
      ensures Rows() == Recover(cfg, old(Rows()), now)
      ensures recovered == |DoomedIds(cfg, old(Rows()), now)|
    {
      hide RecoverAll, MarkStale, DoomedIds;
      ghost var before := Rows();
      var stale := MarkStaleWorkers(now);
      assert |workers| == |before.workers|;
      var ids := FindDoomed(stale, now, before);
      assert Rows() == before.(workers := MarkStale(cfg, before.workers, now));
      assert forall i :: 0 <= i < |ids| ==> ids[i] < |allocs| by {
        DoomedOk(cfg, before, now);
      }
      RecoverRuns(ids, now);
      ghost var cleared := Rows();
      assert cleared == Cleared(cfg, before, now);
      RefreshWorkers(stale);
      assert workers == Recover(cfg, before, now).workers;
      recovered := |ids|;
    }

    method PlaceRun(r: nat, now: int) returns (placed: bool)
      modifies this`runs, this`workers, this`allocs, this`outbox
      ensures Rows() == PlaceOne(cfg, old(Rows()), r, now)
      ensures |allocs| == |old(allocs)| + (if placed then 1 else 0)
    {
      placed := false;
      if r < |runs| && runs[r].status == Queued {
        var pick := PickWorker(cfg, workers, runs[r], now);
        if pick.Some? {
          var w, run, token := pick.value, runs[r], |allocs|;
          allocs := allocs + [Allocation(r, w, run.cpu, run.memory, token, now + cfg.leaseSeconds, None)];
          runs := runs[r := Move(run, Scheduling, now).(holder := Some(w))];
          workers := workers[w := workers[w].(freeCpu := workers[w].freeCpu - run.cpu,
                                              freeMemory := workers[w].freeMemory - run.memory,
                                              running := workers[w].running + 1)];
          outbox := outbox + [Assigned(r, w, token)];
          placed := true;
        }
      }
    }

    method PlaceRuns(queue: seq<nat>, now: int) returns (count: nat)
      modifies this`runs, this`workers, this`allocs, this`outbox
      ensures Rows() == PlaceAll(cfg, old(Rows()), queue, now)
      ensures |allocs| == |old(allocs)| + count
    {
      ghost var goal := PlaceAll(cfg, Rows(), queue, now);
      count := 0;
      assert queue[0..] == queue;
      for i := 0 to |queue|
        invariant PlaceAll(cfg, Rows(), queue[i..], now) == goal
        invariant |allocs| == |old(allocs)| + count
      {
        assert queue[i..][0] == queue[i] && queue[i..][1..] == queue[i + 1..];
        var placed := PlaceRun(queue[i], now);
        count := count + if placed then 1 else 0;
      }
    }

    /** One scheduling pass. The number returned is the number of leases handed out. */
    method ScheduleOnce(wait: nat) returns (count: nat)
      requires Valid()
      modifies this`runs, this`workers, this`allocs, this`outbox, this`clock
      ensures Now() == Next(cfg, old(Now()), Pass(wait))
      ensures Valid()
      ensures |allocs| == |old(allocs)| + count
    {
      hide Inv, Recover, PlaceAll, Queue;
      NextInv(cfg, Now(), Pass(wait));
      RecoverKeepsCount(cfg, Rows(), clock);
      var recovered := RecoverExpiredAllocations(clock);
      clock := clock + wait;
      var queue := Queue(runs);
      count := PlaceRuns(queue, clock);
    }

    // ----- API -----

    method AddRun(run: Run)
      modifies this`runs, this`outbox
      ensures Rows() == Insert(old(Rows()), run)
    {
      outbox := outbox + [Submitted(|runs|)];
      runs := runs + [run];
    }

    method CreateQueuedRun(q: Request) returns (id: Option<nat>)
      requires Valid()
      modifies this`runs, this`outbox
      ensures Now() == Next(cfg, old(Now()), Submit(q))
      ensures Valid()
      ensures id == if Acceptable(q) then Some(|old(runs)|) else None
    {
      hide Inv;
      NextInv(cfg, Now(), Submit(q));
      if !Acceptable(q) {
        return None;
      }
      id := Some(|runs|);
      AddRun(NewRun(q, 1, None, clock));
    }

    method RetryRun(r: nat) returns (id: Option<nat>)
      requires Valid()
      modifies this`runs, this`outbox
      ensures Now() == Next(cfg, old(Now()), Retry(r))
      ensures Valid()
      ensures id == if r < |old(runs)| && old(runs)[r].status == Failed then Some(|old(runs)|) else None
    {
      hide Inv;
      NextInv(cfg, Now(), Retry(r));
      if r >= |runs| || runs[r].status != Failed {
        return None;
      }
      id := Some(|runs|);
      var p := runs[r];
      var q := Request(p.experiment, p.template, p.priority, p.cpu, p.memory, p.notes);
      AddRun(NewRun(q, p.attempt + 1, Some(r), clock));
    }

    method CancelRun(r: nat) returns (accepted: bool)
      requires Valid()
      modifies this`runs, this`outbox
      ensures Now() == Next(cfg, old(Now()), Cancel(r))
      ensures Valid()
      ensures accepted <==> r < |old(runs)| && old(runs)[r].status == Running
      ensures accepted ==> runs[r].status == Cancelling && outbox == old(outbox) + [CancelRequested(r)]
      ensures !accepted ==> runs == old(runs) && outbox == old(outbox)
    {
      hide Inv;
      NextInv(cfg, Now(), Cancel(r));
      accepted := r < |runs| && runs[r].status == Running;
      if accepted {
        runs := runs[r := Move(runs[r], Cancelling, clock)];
        outbox := outbox + [CancelRequested(r)];
      }
    }

    method UpdateRunMetadata(r: nat, notes: nat) returns (found: bool)
      requires Valid()
      modifies this`runs
      ensures Now() == Next(cfg, old(Now()), EditNotes(r, notes))
      ensures Valid()
      ensures found <==> r < |old(runs)|
    {
      hide Inv;
      NextInv(cfg, Now(), EditNotes(r, notes));
      found := r < |runs|;
      if found {
        var run := runs[r].(log := runs[r].log + [Edited]);
        if notes != run.notes {
          run := run.(notes := notes, version := run.version + 1);
        }
        runs := runs[r := run];
      }
    }

    // ----- Worker sessions -----

    method SetPhase(sid: nat, phase: Phase)
      requires sid < |sessions|
      modifies this`sessions
      ensures sessions == old(sessions)[sid := old(sessions)[sid].(phase := phase)]
    {
      sessions := sessions[sid := sessions[sid].(phase := phase)];
    }

    /** A message arrives at a worker. */
    method Receive(w: nat, m: nat) returns (sid: Option<nat>)
      requires Valid()
      modifies this`sessions
      ensures Now() == Next(cfg, old(Now()), Deliver(w, m))
      ensures Valid()
      ensures sid.Some? ==> (m, w) !in processed && sid.value < |sessions| && sessions[sid.value].phase == Opened
      ensures sid.None? ==> sessions == old(sessions)
    {
      hide Inv;
      NextInv(cfg, Now(), Deliver(w, m));
      if m >= |outbox| || !outbox[m].Assigned? || outbox[m].worker != w || (m, w) in processed {
        return None;
      }
      sid := Some(|sessions|);
      sessions := sessions + [Session(w, m, outbox[m].run, outbox[m].token, Opened)];
    }

    method LoadRun(sid: nat)
      requires Valid() && sid < |sessions| && sessions[sid].phase.Opened?
      modifies this`sessions
      ensures Now() == Next(cfg, old(Now()), Work(sid, Load))
      ensures Valid()
    {
      hide Inv;
      NextInv(cfg, Now(), Work(sid, Load));
      var r := sessions[sid].run;
      if r < |runs| && runs[r].status == Scheduling {
        SetPhase(sid, Loaded(runs[r].version));
      } else {
        SetPhase(sid, Returning);
      }
    }

    method CheckLease(sid: nat)
      requires Valid() && sid < |sessions| && sessions[sid].phase.Loaded?
      modifies this`sessions
      ensures Now() == Next(cfg, old(Now()), Work(sid, Fence))
      ensures Valid()
    {
      hide Inv;
      NextInv(cfg, Now(), Work(sid, Fence));
      var x := sessions[sid];
      var lease := LeaseOf(allocs, x.run);
      if lease.None? || allocs[lease.value].worker != x.worker || allocs[lease.value].token != x.token {
        SetPhase(sid, Returning);
      } else {
        SetPhase(sid, Fenced(x.phase.version, lease.value));
      }
    }

    method CommitStart(sid: nat, plan: Plan) returns (committed: bool)
      requires Valid() && sid < |sessions| && sessions[sid].phase.Fenced?
      modifies this`sessions, this`runs
      ensures Now() == Next(cfg, old(Now()), Work(sid, Start(plan)))
      ensures Valid()
      ensures committed ==> Working(sessions[sid].phase)
      ensures committed && plan.Stepwise? ==>
                sessions[sid].phase == Warming(if plan.total >= 1 then plan.total else 1)
      ensures !committed ==> runs == old(runs) && sessions[sid].phase == Closed
    {
      hide Inv;
      NextInv(cfg, Now(), Work(sid, Start(plan)));
      var r, version := sessions[sid].run, sessions[sid].phase.version;
      committed := UpToDate(Rows(), r, version) && runs[r].status == Scheduling;
      if !committed {
        SetPhase(sid, Closed);
        return;
      }
      runs := runs[r := Move(runs[r], Running, clock)];
      match plan
      case Direct => SetPhase(sid, Finishing(Running, version + 1, Direct));
      case Stepwise(total) => SetPhase(sid, Warming(if total < 1 then 1 else total));
    }

    method WriteStartLine(sid: nat)
      requires Valid() && sid < |sessions| && sessions[sid].phase.Warming?
      modifies this`sessions, this`runs
      ensures Now() == Next(cfg, old(Now()), Work(sid, Warm))
      ensures Valid()
    {
      hide Inv;
      NextInv(cfg, Now(), Work(sid, Warm));
      var r := sessions[sid].run;
      if LineFree(Rows(), r, 1) {
        runs := runs[r := runs[r].(lines := runs[r].lines + [1])];
        SetPhase(sid, Sleeping(0, sessions[sid].phase.total));
      } else {
        SetPhase(sid, Closed);
      }
    }

    method ReadCheckpoint(sid: nat)
      requires Valid() && sid < |sessions| && sessions[sid].phase.Sleeping?
      modifies this`sessions
      ensures Now() == Next(cfg, old(Now()), Work(sid, Checkpoint))
      ensures Valid()
    {
      hide Inv;
      NextInv(cfg, Now(), Work(sid, Checkpoint));
      var r, p := sessions[sid].run, sessions[sid].phase;
      if r < |runs| {
        SetPhase(sid, Checked(runs[r].status, runs[r].version, p.step, p.total));
      } else {
        SetPhase(sid, Closed);
      }
    }

    /** Write the final row of a run, release its lease and let the session return. */
    method EndRun(sid: nat, prepared: Run, target: Status)
      requires sid < |sessions| && sessions[sid].run < |runs| && ValidTransition(prepared.status, target)
      modifies this`sessions, this`runs, this`allocs, this`workers
      ensures Rows() == Conclude(old(Rows()), old(sessions)[sid].run, Move(prepared, target, clock), clock)
      ensures sessions == old(sessions)[sid := old(sessions)[sid].(phase := Returning)]
    {
      var r := sessions[sid].run;
      runs := runs[r := Move(prepared, target, clock)];
      ReleaseAllocation(r, clock);
      SetPhase(sid, Returning);
    }

    method RecordProgress(sid: nat)
      requires Valid() && sid < |sessions| && sessions[sid].phase.Checked?
      modifies this`sessions, this`runs, this`allocs, this`workers
      ensures Now() == Next(cfg, old(Now()), Work(sid, Record))
      ensures Valid()
    {
      hide Inv, Conclude;
      NextInv(cfg, Now(), Work(sid, Record));
      var r, p := sessions[sid].run, sessions[sid].phase;
      if !LineFree(Rows(), r, p.step + 2) {
        SetPhase(sid, Closed);
        return;
      }
      var run := runs[r].(lines := runs[r].lines + [p.step + 2]);
      if p.seen == Cancelling {
        if UpToDate(Rows(), r, p.version) && run.status == Cancelling {
          EndRun(sid, run, Cancelled);
        } else {
          SetPhase(sid, Closed);
        }
      } else {
        runs := runs[r := run.(steps := run.steps + [p.step + 1])];
        SetPhase(sid, if p.step + 1 < p.total then Sleeping(p.step + 1, p.total)
                      else Finishing(p.seen, p.version, Stepwise(p.total)));
      }
    }

    method CommitFinish(sid: nat, outcome: Outcome)
      requires Valid() && sid < |sessions| && sessions[sid].phase.Finishing?
      modifies this`sessions, this`runs, this`allocs, this`workers
      ensures Now() == Next(cfg, old(Now()), Work(sid, Finish(outcome)))
      ensures Valid()
    {
      hide Inv, Conclude;
      NextInv(cfg, Now(), Work(sid, Finish(outcome)));
      var r, p := sessions[sid].run, sessions[sid].phase;
      var committable := UpToDate(Rows(), r, p.version) && p.seen == Running && runs[r].status == Running;
      if p.plan.Direct? {
        if outcome.Trouble? {
          SetPhase(sid, RolledBack(outcome.failure));
        } else if committable && runs[r].lines == [] {
          EndRun(sid, runs[r].(lines := Upto(outcome.lines)), Succeeded);
        } else {
          SetPhase(sid, RolledBack(TemplateFailed));
        }
      } else if !committable {
        SetPhase(sid, Closed);
      } else if outcome.Trouble? {
        EndRun(sid, runs[r].(failure := Some(outcome.failure)), Failed);
      } else {
        EndRun(sid, runs[r], Succeeded);
      }
    }

    method RereadRun(sid: nat)
      requires Valid() && sid < |sessions| && sessions[sid].phase.RolledBack?
      modifies this`sessions
      ensures Now() == Next(cfg, old(Now()), Work(sid, Reread))
      ensures Valid()
    {
      hide Inv;
      NextInv(cfg, Now(), Work(sid, Reread));
      var r := sessions[sid].run;
      if r < |runs| {
        SetPhase(sid, Rescuing(runs[r].status, runs[r].version, sessions[sid].phase.failure));
      } else {
        SetPhase(sid, Closed);
      }
    }

    method CommitFailure(sid: nat)
      requires Valid() && sid < |sessions| && sessions[sid].phase.Rescuing?
      modifies this`sessions, this`runs, this`allocs, this`workers
      ensures Now() == Next(cfg, old(Now()), Work(sid, Rescue))
      ensures Valid()
    {
      hide Inv, Conclude;
      NextInv(cfg, Now(), Work(sid, Rescue));
      var r, p := sessions[sid].run, sessions[sid].phase;
      if UpToDate(Rows(), r, p.version) && p.seen == Running && runs[r].status == Running {
        EndRun(sid, runs[r].(failure := Some(p.failure)), Failed);
      } else {
        SetPhase(sid, Closed);
      }
    }

    method AcknowledgeMessage(sid: nat)
      requires Valid() && sid < |sessions| && sessions[sid].phase.Returning?
      modifies this`sessions, this`processed
      ensures Now() == Next(cfg, old(Now()), Work(sid, Acknowledge))
      ensures Valid()
      ensures (sessions[sid].message, sessions[sid].worker) in processed
    {
      hide Inv;
      NextInv(cfg, Now(), Work(sid, Acknowledge));
      processed := processed + {(sessions[sid].message, sessions[sid].worker)};
      SetPhase(sid, Closed);
    }
  }

  lemma RecoverKeepsCount(cfg: Settings, db: Tables, now: int)
    ensures |Recover(cfg, db, now).allocs| == |db.allocs|
  {
  }
}
