/**
 What holds in every execution of the platform, whatever the interleaving.
 */
module Guarantees {
  import opened Options
  import opened Lifecycle
  import opened Tables
  import opened Consistency
  import opened Scheduler
  import opened Protocol
  import opened Safety

  /** Every state that can be reached is consistent. */
  lemma {:induction false} Always(cfg: Settings, actions: seq<Action>)
    ensures Inv(Exec(cfg, INIT, actions))
  {
    if actions != [] {
      Always(cfg, actions[..|actions| - 1]);
      NextOk(cfg, Exec(cfg, INIT, actions[..|actions| - 1]), actions[|actions| - 1]);
    }
  }

  /** From a good state, any sequence of actions leads to good states the tables evolve to. */
  lemma {:induction false} Onwards(cfg: Settings, s: State, actions: seq<Action>)
    requires Inv(s)
    ensures Good(s, Exec(cfg, s, actions))
  {
    if actions == [] {
      Unchanged(s.db);
    } else {
      var t, u := Exec(cfg, s, actions[..|actions| - 1]), Exec(cfg, s, actions);
      Onwards(cfg, s, actions[..|actions| - 1]);
      NextOk(cfg, t, actions[|actions| - 1]);
      GoodTransitive(s, t, u);
    }
  }

  lemma GoodTransitive(s: State, t: State, u: State)
    requires Inv(s) && Good(s, t) && Good(t, u)
    ensures Good(s, u)
  {
    Later(s.db, s.clock, u.clock, {});
    Later(t.db, t.clock, u.clock, {});
    EvolvesTransitive(s.db, t.db, u.db, u.clock);
  }

  // ----- Leases -----

  ghost function ActiveLeases(db: Tables, r: nat): set<nat> {
    set a | 0 <= a < |db.allocs| && ActiveFor(db.allocs[a], r)
  }

  lemma LeaseCount(db: Tables, r: nat)
    requires LeasesOk(db) && r < |db.runs|
    ensures |ActiveLeases(db, r)| == if Holding(db.runs[r].status) then 1 else 0
  {
    forall a | 0 <= a < |db.allocs| && ActiveFor(db.allocs[a], r)
      ensures Holding(db.runs[r].status)
    {
      assert AllocOk(db, a);
    }
    match LeaseOf(db.allocs, r) {
      case Some(a) => assert ActiveLeases(db, r) == {a};
      case None => assert ActiveLeases(db, r) == {};
    }
  }

  /** A run has exactly one active allocation while it is SCHEDULING, RUNNING or CANCELLING,
      and none otherwise. */
  lemma OneLease(cfg: Settings, actions: seq<Action>, r: nat)
    requires r < |Exec(cfg, INIT, actions).db.runs|
    ensures var db := Exec(cfg, INIT, actions).db;
            |ActiveLeases(db, r)| == if db.runs[r].status in {Scheduling, Running, Cancelling} then 1 else 0
  {
    Always(cfg, actions);
    LeaseCount(Exec(cfg, INIT, actions).db, r);
  }

  lemma LeaseNamesHolder(s: State, r: nat)
    requires Inv(s) && r < |s.db.runs|
    ensures match LeaseOf(s.db.allocs, r)
            case Some(a) => s.db.runs[r].holder == Some(s.db.allocs[a].worker)
            case None => s.db.runs[r].status == Queued ==> s.db.runs[r].holder == None
  {
    assert RunOk(s.db.runs[r], s.clock);
    match LeaseOf(s.db.allocs, r) {
      case Some(a) => assert AllocOk(s.db, a);
      case None =>
    }
  }

  /** The worker a run is assigned to is the worker of its lease, and a queued run, requeued or
      new, is assigned to nobody. */
  lemma HolderIsLeaseWorker(cfg: Settings, actions: seq<Action>, r: nat)
    requires r < |Exec(cfg, INIT, actions).db.runs|
    ensures var db := Exec(cfg, INIT, actions).db;
            && (Holding(db.runs[r].status) <==> LeaseOf(db.allocs, r).Some?)
            && match LeaseOf(db.allocs, r)
               case Some(a) => db.runs[r].holder == Some(db.allocs[a].worker)
               case None => db.runs[r].status == Queued ==> db.runs[r].holder == None
  {
    var s := Exec(cfg, INIT, actions);
    Always(cfg, actions);
    LeaseNamesHolder(s, r);
    assert LeaseOf(s.db.allocs, r).Some? ==> AllocOk(s.db, LeaseOf(s.db.allocs, r).value);
  }

  /** queued <= started <= completed <= now; a start time exactly for started runs, a completion
      time exactly for ended runs. */
  lemma TimesOrdered(cfg: Settings, actions: seq<Action>, r: nat)
    requires r < |Exec(cfg, INIT, actions).db.runs|
    ensures var s := Exec(cfg, INIT, actions);
            var run := s.db.runs[r];
            && run.queuedAt.Some? && run.queuedAt.value <= s.clock
            && (run.startedAt.Some? <==> run.status in {Running, Cancelling, Succeeded, Failed, Cancelled})
            && (run.completedAt.Some? <==> run.status in {Succeeded, Failed, Cancelled})
            && (run.startedAt.Some? ==> run.queuedAt.value <= run.startedAt.value <= s.clock)
            && (run.completedAt.Some? ==>
                  run.startedAt.Some? && run.startedAt.value <= run.completedAt.value <= s.clock)
  {
    Always(cfg, actions);
    var s := Exec(cfg, INIT, actions);
    assert RunOk(s.db.runs[r], s.clock);
  }

  // ----- Life stories -----

  /** The audit log of every run is an unbroken chain from DRAFT to its status and tells a
      life story of the language DRAFT QUEUED (SCHEDULING QUEUED)* ... */
  lemma EveryRunTellsAStory(cfg: Settings, actions: seq<Action>, r: nat)
    requires r < |Exec(cfg, INIT, actions).db.runs|
    ensures var run := Exec(cfg, INIT, actions).db.runs[r];
            && Chained(run.log) && LifeStory(Path(run.log))
            && Path(run.log)[|Path(run.log)| - 1] == run.status
  {
    Always(cfg, actions);
    var run := Exec(cfg, INIT, actions).db.runs[r];
    assert RunOk(run, Exec(cfg, INIT, actions).clock);
    PathWalks(run.log);
    WalksAreStories(Path(run.log));
  }

  /** SUCCEEDED, FAILED and CANCELLED are final, completion time and failure code included; a
      committed CANCELLING can only become CANCELLED; no audit row is ever lost. */
  lemma Final(cfg: Settings, actions: seq<Action>, more: seq<Action>, r: nat)
    requires r < |Exec(cfg, INIT, actions).db.runs|
    ensures var s := Exec(cfg, INIT, actions);
            var t := Exec(cfg, s, more);
            && r < |t.db.runs|
            && s.db.runs[r].log <= t.db.runs[r].log
            && (s.db.runs[r].status in {Succeeded, Failed, Cancelled} ==>
                  && t.db.runs[r].status == s.db.runs[r].status
                  && t.db.runs[r].completedAt == s.db.runs[r].completedAt
                  && t.db.runs[r].failure == s.db.runs[r].failure)
            && (s.db.runs[r].status == Cancelling ==> t.db.runs[r].status in {Cancelling, Cancelled})
  {
    var s := Exec(cfg, INIT, actions);
    var t := Exec(cfg, s, more);
    Always(cfg, actions);
    Onwards(cfg, s, more);
    assert RunEvolves(s.db.runs[r], t.db.runs[r]) && RunOk(s.db.runs[r], s.clock) && RunOk(t.db.runs[r], t.clock);
    Fate(s.db.runs[r].log, t.db.runs[r].log);
  }

  predicate Is(s: State, r: nat, status: Status) {
    r < |s.db.runs| && s.db.runs[r].status == status
  }

  /** The `i`-th action takes run `r` into RUNNING. */
  predicate StartsAt(cfg: Settings, actions: seq<Action>, i: nat, r: nat)
    requires i < |actions|
  {
    !Is(Exec(cfg, INIT, actions[..i]), r, Running) && Is(Exec(cfg, INIT, actions[..i + 1]), r, Running)
  }

  lemma ExecLast(cfg: Settings, s: State, actions: seq<Action>, a: Action)
    ensures Exec(cfg, s, actions + [a]) == Next(cfg, Exec(cfg, s, actions), a)
  {
    hide Next;
    assert (actions + [a])[..|actions|] == actions;
  }

  lemma {:induction false} ExecSplit(cfg: Settings, s: State, first: seq<Action>, rest: seq<Action>)
    ensures Exec(cfg, s, first + rest) == Exec(cfg, Exec(cfg, s, first), rest)
  {
    if rest == [] {
      assert first + rest == first;
    } else {
      assert (first + rest)[..|first + rest| - 1] == first + rest[..|rest| - 1];
      ExecSplit(cfg, s, first, rest[..|rest| - 1]);
    }
  }

  /** Once a run is running, it never leaves RUNNING and comes back. */
  lemma NoSecondStart(started: State, before: State, after: State, r: nat)
    requires Inv(started) && Good(started, before) && Good(before, after) && Is(started, r, Running)
    ensures Is(before, r, Running) || !Is(after, r, Running)
  {
    hide LeasesOk, CapacityOk, NamesOk, StaleOk, MailOk, MessagesOk, LineageOk, SessionsOk, TelemetryOk;
    var x, y, z := started.db.runs[r], before.db.runs[r], after.db.runs[r];
    assert RunEvolves(x, y) && RunEvolves(y, z);
    assert RunOk(x, started.clock) && RunOk(y, before.clock) && RunOk(z, after.clock);
    Fate(x.log, y.log);
    Fate(y.log, z.log);
  }

  /** However often its assignments are delivered, requeued and reassigned, a run enters
      RUNNING at most once. */
  lemma StartsOnce(cfg: Settings, actions: seq<Action>, i: nat, j: nat, r: nat)
    requires i < j < |actions| && StartsAt(cfg, actions, i, r)
    ensures !StartsAt(cfg, actions, j, r)
  {
    hide Exec, Inv;
    var started, before := Exec(cfg, INIT, actions[..i + 1]), Exec(cfg, INIT, actions[..j]);
    assert actions[..j] == actions[..i + 1] + actions[i + 1..j];
    assert actions[..j + 1] == actions[..j] + [actions[j]];
    ExecSplit(cfg, INIT, actions[..i + 1], actions[i + 1..j]);
    ExecSplit(cfg, INIT, actions[..j], [actions[j]]);
    Always(cfg, actions[..i + 1]);
    Onwards(cfg, started, actions[i + 1..j]);
    Onwards(cfg, before, [actions[j]]);
    NoSecondStart(started, before, Exec(cfg, INIT, actions[..j + 1]), r);
  }
}
