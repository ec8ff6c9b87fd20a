/**
 Messages: what the outbox says about runs and leases, no more and no less.
 */
module Conservation {
  import opened Lifecycle
  import opened Tables
  import opened Consistency
  import opened Scheduler
  import opened Protocol
  import opened Safety
  import opened Guarantees

  /** The assignments in the outbox, oldest first. */
  function Assignments(outbox: seq<Message>): seq<Message> {
    if outbox == [] then []
    else
      var last := outbox[|outbox| - 1];
      Assignments(outbox[..|outbox| - 1]) + if last.Assigned? then [last] else []
  }

  /** What should be announced: every allocation, once, in order. */
  function Announcements(allocs: seq<Allocation>): (due: seq<Message>)
    ensures |due| == |allocs|
  {
    seq(|allocs|, a requires 0 <= a < |allocs| => Assigned(allocs[a].run, allocs[a].worker, allocs[a].token))
  }

  ghost predicate Announced(db: Tables) {
    Assignments(db.outbox) == Announcements(db.allocs)
  }

  lemma {:induction false} AppendMessage(outbox: seq<Message>, m: Message)
    ensures Assignments(outbox + [m]) == Assignments(outbox) + if m.Assigned? then [m] else []
  {
    assert (outbox + [m])[..|outbox|] == outbox;
  }

  /** Leases of the same runs and workers, with the same tokens; renewed or released, perhaps. */
  ghost predicate SameTerms(xs: seq<Allocation>, ys: seq<Allocation>) {
    && |xs| == |ys|
    && forall a :: 0 <= a < |xs| ==>
         xs[a].run == ys[a].run && xs[a].worker == ys[a].worker && xs[a].token == ys[a].token
  }

  /** The tables differ in nothing that is announced. */
  ghost predicate NothingToAnnounce(d: Tables, e: Tables) {
    SameTerms(d.allocs, e.allocs) && Assignments(e.outbox) == Assignments(d.outbox)
  }

  lemma StillAnnounced(d: Tables, e: Tables)
    requires Announced(d) && NothingToAnnounce(d, e)
    ensures Announced(e)
  {
    assert Announcements(d.allocs) == Announcements(e.allocs);
  }

  /** An assignment adds one lease and one announcement of it. */
  lemma PlaceOneAnnounces(cfg: Settings, db: Tables, r: nat, now: int)
    requires Announced(db)
    ensures Announced(PlaceOne(cfg, db, r, now))
  {
    var e := PlaceOne(cfg, db, r, now);
    if |e.allocs| > |db.allocs| {
      var lease := e.allocs[|db.allocs|];
      var m := Assigned(lease.run, lease.worker, lease.token);
      AppendMessage(db.outbox, m);
      assert Announcements(e.allocs) == Announcements(db.allocs) + [m];
    }
  }

  lemma {:induction false} PlaceAllAnnounces(cfg: Settings, db: Tables, queue: seq<nat>, now: int)
    requires Announced(db)
    ensures Announced(PlaceAll(cfg, db, queue, now))
    decreases |queue|
  {
    hide Announced, PlaceOne;
    if queue != [] {
      PlaceOneAnnounces(cfg, db, queue[0], now);
      PlaceAllAnnounces(cfg, PlaceOne(cfg, db, queue[0], now), queue[1..], now);
    }
  }

  lemma RecoveryAnnouncesNothing(cfg: Settings, db: Tables, now: int)
    requires Consistent(db, now, {})
    ensures NothingToAnnounce(db, Recover(cfg, db, now))
  {
    hide Consistent, Recover;
    RecoverOk(cfg, db, now);
  }

  lemma PassAnnounces(cfg: Settings, db: Tables, now: int, later: int)
    requires Consistent(db, now, {}) && Announced(db)
    ensures Announced(Schedule(cfg, db, now, later))
  {
    hide Consistent, Recover, Queue, PlaceAll, Announced, NothingToAnnounce;
    var ready := Recover(cfg, db, now);
    RecoveryAnnouncesNothing(cfg, db, now);
    StillAnnounced(db, ready);
    PlaceAllAnnounces(cfg, ready, Queue(ready.runs), later);
  }

  lemma SessionAnnouncesNothing(s: State, sid: nat, move: SessionMove)
    requires sid < |s.sessions|
    ensures NothingToAnnounce(s.db, SessionStep(s, sid, move).db)
  {
    hide Assignments;
    SessionLeases(s, sid, move);
  }

  lemma OtherAnnouncesNothing(cfg: Settings, s: State, a: Action)
    requires !a.Pass? && !a.Work?
    ensures NothingToAnnounce(s.db, Next(cfg, s, a).db)
  {
    hide Assignments;
    match a
    case Submit(q) => AppendMessage(s.db.outbox, Submitted(|s.db.runs|));
    case Retry(r) => AppendMessage(s.db.outbox, Submitted(|s.db.runs|));
    case Cancel(r) => AppendMessage(s.db.outbox, CancelRequested(r));
    case _ =>
  }

  lemma AnnouncedStep(cfg: Settings, s: State, a: Action)
    requires Inv(s) && Announced(s.db)
    ensures Announced(Next(cfg, s, a).db)
  {
    hide Consistent, SessionsOk, TelemetryOk, Announced, NothingToAnnounce, Schedule, SessionStep;
    if a.Pass? {
      PassAnnounces(cfg, s.db, s.clock, s.clock + a.wait);
    } else {
      if a.Work? && a.sid < |s.sessions| {
        SessionAnnouncesNothing(s, a.sid, a.move);
        StillAnnounced(s.db, Next(cfg, s, a).db);
      } else if !a.Work? {
        OtherAnnouncesNothing(cfg, s, a);
        StillAnnounced(s.db, Next(cfg, s, a).db);
      }
    }
  }

  /** In every reachable state the assignments in the outbox are, in order, one for every
      allocation ever made: none is announced twice, none is left out, and none is made up. */
  lemma {:induction false} EveryLeaseAnnouncedOnce(cfg: Settings, actions: seq<Action>)
    ensures Announced(Exec(cfg, INIT, actions).db)
  {
    hide Inv, Next, Announced;
    if actions == [] {
      NothingYet();
    } else {
      var init := actions[..|actions| - 1];
      EveryLeaseAnnouncedOnce(cfg, init);
      Always(cfg, init);
      AnnouncedStep(cfg, Exec(cfg, INIT, init), actions[|actions| - 1]);
    }
  }

  lemma NothingYet()
    ensures Announced(INIT.db)
  {
  }

  // ----- What follows for single messages -----

  /** How many assignments come before position `i` of the outbox. */
  function AssignedBefore(outbox: seq<Message>, i: nat): nat
    requires i <= |outbox|
  {
    |Assignments(outbox[..i])|
  }

  lemma {:induction false} CountRises(outbox: seq<Message>, i: nat, j: nat)
    requires i < j <= |outbox| && outbox[i].Assigned?
    ensures AssignedBefore(outbox, i) < AssignedBefore(outbox, j)
  {
    assert outbox[..j][..j - 1] == outbox[..j - 1];
    if i + 1 < j {
      CountRises(outbox, i, j - 1);
    }
  }

  lemma {:induction false} FoundInTurn(outbox: seq<Message>, i: nat)
    requires i < |outbox| && outbox[i].Assigned?
    ensures AssignedBefore(outbox, i) < |Assignments(outbox)|
    ensures Assignments(outbox)[AssignedBefore(outbox, i)] == outbox[i]
    decreases |outbox|
  {
    var init := outbox[..|outbox| - 1];
    if i < |init| {
      FoundInTurn(init, i);
      assert init[..i] == outbox[..i];
    }
  }

  lemma {:induction false} InOutbox(outbox: seq<Message>, k: nat)
    requires k < |Assignments(outbox)|
    ensures Assignments(outbox)[k] in outbox
  {
    var init := outbox[..|outbox| - 1];
    if k < |Assignments(init)| {
      InOutbox(init, k);
    }
  }

  /** Messages at different positions carry different tokens. */
  ghost predicate TokensDiffer(outbox: seq<Message>) {
    forall i, j :: 0 <= i < j < |outbox| && outbox[i].Assigned? && outbox[j].Assigned? ==>
      outbox[i].token != outbox[j].token
  }

  /** Every allocation was announced to its worker with its token. */
  ghost predicate AllAnnounced(db: Tables) {
    forall a :: 0 <= a < |db.allocs| ==>
      Assigned(db.allocs[a].run, db.allocs[a].worker, db.allocs[a].token) in db.outbox
  }

  lemma TokensAreOwn(db: Tables)
    requires LeasesOk(db) && Announced(db)
    ensures TokensDiffer(db.outbox)
  {
    var due := Announcements(db.allocs);
    forall a | 0 <= a < |due|
      ensures due[a].token == a
    {
      assert AllocOk(db, a);
    }
    forall i, j | 0 <= i < j < |db.outbox| && db.outbox[i].Assigned? && db.outbox[j].Assigned?
      ensures db.outbox[i].token != db.outbox[j].token
    {
      CountRises(db.outbox, i, j);
      FoundInTurn(db.outbox, i);
      FoundInTurn(db.outbox, j);
    }
  }

  lemma LeasesAreSent(db: Tables)
    requires Announced(db)
    ensures AllAnnounced(db)
  {
    forall a | 0 <= a < |db.allocs|
      ensures Assigned(db.allocs[a].run, db.allocs[a].worker, db.allocs[a].token) in db.outbox
    {
      InOutbox(db.outbox, a);
    }
  }

  /** The messages of one run, by kind. */
  predicate Balanced(db: Tables, r: nat)
    requires r < |db.runs|
  {
    var mail := Tally(db.outbox, r);
    && mail.submitted == 1
    && mail.assignments == AllocCount(db.allocs, r) == Entries(db.runs[r].log, Scheduling)
    && mail.cancels == Entries(db.runs[r].log, Cancelling) <= 1
  }

  lemma BalancedNow(s: State, r: nat)
    requires Inv(s) && r < |s.db.runs|
    ensures Balanced(s.db, r) && LeasesOk(s.db) && MessagesOk(s.db)
  {
    hide LeasesOk, CapacityOk, NamesOk, StaleOk, MessagesOk, LineageOk, SessionsOk, TelemetryOk;
    assert MailOf(s.db, r) && RunOk(s.db.runs[r], s.clock);
    StartedOnce(s.db.runs[r].log);
  }

  /** Messages are conserved: for every run one submission, one assignment per allocation and
      per SCHEDULING entry, one cancel message per CANCELLING entry; and the assignments of all
      runs carry each lease token exactly once, to the worker that holds the lease. */
  lemma MessagesConserved(cfg: Settings, actions: seq<Action>, r: nat)
    requires r < |Exec(cfg, INIT, actions).db.runs|
    ensures var db := Exec(cfg, INIT, actions).db;
            Balanced(db, r) && MessagesOk(db) && TokensDiffer(db.outbox) && AllAnnounced(db)
  {
    hide Inv, LeasesOk, MessagesOk, Announced, Balanced, Exec;
    var s := Exec(cfg, INIT, actions);
    Always(cfg, actions);
    BalancedNow(s, r);
    EveryLeaseAnnouncedOnce(cfg, actions);
    TokensAreOwn(s.db);
    LeasesAreSent(s.db);
  }
}
