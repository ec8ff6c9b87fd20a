/**
 The run lifecycle: the transition table, the audit log every transition appends to,
 and what an unbroken audit log says about the past and the future of a run.
 */
module Lifecycle {

  datatype Status =
    | Draft | Queued | Scheduling | Running | Succeeded | Failed | Cancelling | Cancelled | Retrying

  function Targets(s: Status): set<Status> {
    match s
    case Draft => {Queued}
    case Queued => {Scheduling}
    case Scheduling => {Running, Queued}
    case Running => {Succeeded, Failed, Cancelling}
    case Cancelling => {Cancelled}
    case Failed => {Retrying}
    case Retrying => {Queued}
    case Succeeded => {}
    case Cancelled => {}
  }

  predicate ValidTransition(previous: Status, target: Status) {
    target in Targets(previous)
  }

  /** The statuses that need a resource lease. */
  predicate Holding(s: Status) {
    s == Scheduling || s == Running || s == Cancelling
  }

  predicate Ended(s: Status) {
    s == Succeeded || s == Failed || s == Cancelled
  }

  /** A worker has started executing the run at some time. */
  predicate Begun(s: Status) {
    s == Running || s == Cancelling || Ended(s)
  }

  /** One audit row: a status change, or a metadata edit that changes no status. */
  datatype Event = Moved(previous: Status, next: Status) | Edited

  function Current(log: seq<Event>): Status {
    if log == [] then Draft
    else match log[|log| - 1]
      case Moved(_, next) => next
      case Edited => Current(log[..|log| - 1])
  }

  /** Every status event starts where the one before it ended and follows the table;
      RETRYING is in the table, but no operation enters it. */
  predicate Chained(log: seq<Event>) {
    log == [] ||
    var init, last := log[..|log| - 1], log[|log| - 1];
    Chained(init) &&
    (last.Moved? ==>
       last.previous == Current(init) && ValidTransition(last.previous, last.next) && last.next != Retrying)
  }

  /** How often the log records an entry into `s`. */
  function Entries(log: seq<Event>, s: Status): nat {
    if log == [] then 0
    else Entries(log[..|log| - 1], s) + (if log[|log| - 1].Moved? && log[|log| - 1].next == s then 1 else 0)
  }

  /** The statuses a run has gone through, oldest first. */
  function Path(log: seq<Event>): (p: seq<Status>)
    ensures |p| > 0
  {
    if log == [] then [Draft]
    else match log[|log| - 1]
      case Moved(_, next) => Path(log[..|log| - 1]) + [next]
      case Edited => Path(log[..|log| - 1])
  }

  lemma AppendEvent(log: seq<Event>, e: Event)
    ensures e.Moved? ==> Current(log + [e]) == e.next
    ensures e.Edited? ==> Current(log + [e]) == Current(log)
    ensures Chained(log + [e]) <==>
            Chained(log) &&
            (e.Moved? ==> e.previous == Current(log) && ValidTransition(e.previous, e.next) && e.next != Retrying)
    ensures forall s :: Entries(log + [e], s) == Entries(log, s) + (if e.Moved? && e.next == s then 1 else 0)
  {
    assert (log + [e])[..|log|] == log;
  }

  /** What a log may still become: an ended run stays as it is, a run being cancelled can
      only become cancelled, and a run that was started never waits for a worker again. */
  lemma {:induction false} Fate(past: seq<Event>, log: seq<Event>)
    requires past <= log && Chained(log)
    ensures Chained(past)
    ensures Ended(Current(past)) ==> Current(log) == Current(past)
    ensures Current(past) == Cancelling ==> Current(log) == Cancelling || Current(log) == Cancelled
    ensures Begun(Current(past)) ==> Begun(Current(log))
    ensures forall s :: Entries(past, s) <= Entries(log, s)
    decreases |log|
  {
    if |log| == |past| {
      assert log == past;
    } else {
      Fate(past, log[..|log| - 1]);
    }
  }

  /** A run is started at most once and asked to stop at most once; both counts can be
      read off its present status. */
  lemma {:induction false} StartedOnce(log: seq<Event>)
    requires Chained(log)
    ensures Entries(log, Running) == (if Begun(Current(log)) then 1 else 0)
    ensures Entries(log, Cancelling) <= Entries(log, Running)
    ensures Entries(log, Cancelling) == 1 <==> Current(log) == Cancelling || Current(log) == Cancelled
    ensures Current(log) != Retrying
  {
    if log != [] {
      StartedOnce(log[..|log| - 1]);
    }
  }

  // ----- The language of life stories -----

  /** `rounds` times assigned and taken back before the last assignment. */
  function Rounds(rounds: nat): (p: seq<Status>)
    ensures |p| == 2 + 2 * rounds
  {
    if rounds == 0 then [Draft, Queued] else Rounds(rounds - 1) + [Scheduling, Queued]
  }

  /** A prefix of SCHEDULING RUNNING (SUCCEEDED | FAILED | CANCELLING CANCELLED): the last
      assignment, as far as it got. */
  predicate Ending(p: seq<Status>) {
    && |p| <= 4
    && (|p| > 0 ==> p[0] == Scheduling)
    && (|p| > 1 ==> p[1] == Running)
    && (|p| > 2 ==> p[2] == Succeeded || p[2] == Failed || p[2] == Cancelling)
    && (|p| > 3 ==> p[2] == Cancelling && p[3] == Cancelled)
  }

  ghost predicate LifeStory(p: seq<Status>) {
    exists rounds: nat, ending :: Ending(ending) && p == Rounds(rounds) + ending
  }

  /** A path through the table that never enters RETRYING. */
  ghost predicate Walk(p: seq<Status>) {
    && |p| > 0
    && p[0] == Draft
    && (forall i :: 0 <= i < |p| - 1 ==> ValidTransition(p[i], p[i + 1]))
    && (forall i :: 0 <= i < |p| ==> p[i] != Retrying)
  }

  lemma {:induction false} PathWalks(log: seq<Event>)
    requires Chained(log)
    ensures Walk(Path(log)) && Path(log)[|Path(log)| - 1] == Current(log)
    ensures Current(log) != Draft ==> |Path(log)| >= 2
  {
    if log != [] {
      PathWalks(log[..|log| - 1]);
    }
  }

  lemma ExtendStory(p: seq<Status>, next: Status)
    requires LifeStory(p) && ValidTransition(p[|p| - 1], next) && next != Retrying
    ensures LifeStory(p + [next])
  {
    var rounds: nat, ending :| Ending(ending) && p == Rounds(rounds) + ending;
    assert ending == [] ==> p[|p| - 1] == Queued;
    if ending == [Scheduling] && next == Queued {
      assert Ending([]) && p + [next] == Rounds(rounds + 1) + [];
    } else {
      assert ending != [] ==> p[|p| - 1] == ending[|ending| - 1];
      assert Ending(ending + [next]);
      assert p + [next] == Rounds(rounds) + (ending + [next]);
    }
  }

  lemma {:induction false} RoundsWalk(rounds: nat)
    ensures Walk(Rounds(rounds)) && Rounds(rounds)[|Rounds(rounds)| - 1] == Queued
  {
    if rounds > 0 {
      RoundsWalk(rounds - 1);
    }
  }

  lemma {:induction false} WalkIsStory(p: seq<Status>)
    requires |p| >= 2 && Walk(p)
    ensures LifeStory(p)
    decreases |p|
  {
    var init, last := p[..|p| - 1], p[|p| - 1];
    assert ValidTransition(p[|p| - 2], last);
    if |p| == 2 {
      assert Ending([]) && p == Rounds(0) + [];
    } else {
      WalkIsStory(init);
      ExtendStory(init, last);
      assert p == init + [last];
    }
  }

  lemma {:induction false} StoryWalks(p: seq<Status>, rounds: nat, ending: seq<Status>)
    requires Ending(ending) && p == Rounds(rounds) + ending
    ensures Walk(p)
  {
    RoundsWalk(rounds);
    hide Rounds;
    var n := 2 + 2 * rounds;
    assert forall i :: 0 <= i < |ending| ==> p[n + i] == ending[i];
    forall i | 0 <= i < |p| - 1
      ensures ValidTransition(p[i], p[i + 1])
    {
      if i >= n - 1 {
        assert p[i] == if i == n - 1 then Queued else ending[i - n];
      } else {
        assert p[i] == Rounds(rounds)[i] && p[i + 1] == Rounds(rounds)[i + 1];
      }
    }
  }

  /** RETRYING stands between a failure and a new turn in the queue; the other ends are final. */
  lemma RetryingInTable(s: Status)
    ensures ValidTransition(s, Retrying) <==> s == Failed
    ensures ValidTransition(Retrying, s) <==> s == Queued
    ensures s != Retrying ==> !ValidTransition(Failed, s)
    ensures !ValidTransition(Succeeded, s) && !ValidTransition(Cancelled, s)
  {
  }

  /** The table without RETRYING allows exactly the life stories. */
  lemma WalksAreStories(p: seq<Status>)
    requires |p| >= 2
    ensures Walk(p) <==> LifeStory(p)
  {
    if Walk(p) {
      WalkIsStory(p);
    }
    if LifeStory(p) {
      var rounds: nat, ending :| Ending(ending) && p == Rounds(rounds) + ending;
      StoryWalks(p, rounds, ending);
    }
  }
}
