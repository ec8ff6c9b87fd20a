/**
 The transactional outbox: ordered publication with a bounded number of attempts, over a
 broker that fails whenever it likes.
 */
module Outbox {
  import opened Options
  import opened Ordering

  datatype Row = Row(created: int, published: Option<int>, attempts: nat, failed: bool)

  /** What the broker will do with the message of each row, this time. */
  type Broker = nat -> bool

  predicate Eligible(row: Row, max: nat) {
    row.published.None? && row.attempts < max
  }

  /** How the database happens to order rows with equal time stamps, this time. */
  type Tie = nat -> int

  function Age(rows: seq<Row>, tie: Tie): Key {
    (i: nat) => if i < |rows| then (rows[i].created, tie(i)) else (0, 0)
  }

  /** The query orders by time stamp alone. */
  function Batch(rows: seq<Row>, limit: nat, max: nat, tie: Tie): seq<nat> {
    Query(|rows|, (i: nat) => i < |rows| && Eligible(rows[i], max), Age(rows, tie), limit)
  }

  function Publish(row: Row, now: int): Row {
    row.(published := Some(now), failed := false)
  }

  function Fail(row: Row): Row {
    row.(attempts := row.attempts + 1, failed := true)
  }

  /** Publish the rows of `ids` in turn, up to the first failure. */
  function Send(rows: seq<Row>, ids: seq<nat>, broker: Broker, now: int): (sent: (seq<Row>, nat))
    requires forall i :: 0 <= i < |ids| ==> ids[i] < |rows|
    ensures |sent.0| == |rows| && sent.1 <= |ids|
    decreases |ids|
  {
    if ids == [] then (rows, 0)
    else if broker(ids[0]) then
      var rest := Send(rows[ids[0] := Publish(rows[ids[0]], now)], ids[1..], broker, now);
      (rest.0, rest.1 + 1)
    else (rows[ids[0] := Fail(rows[ids[0]])], 0)
  }

  /** The messages from position `k` on, one turn at a time. */
  lemma {:induction false} SendStep(rows: seq<Row>, ids: seq<nat>, k: nat, broker: Broker, now: int)
    requires k < |ids| && forall i :: 0 <= i < |ids| ==> ids[i] < |rows|
    ensures var x := ids[k];
            Send(rows, ids[k..], broker, now) ==
            if broker(x) then
              var rest := Send(rows[x := Publish(rows[x], now)], ids[k + 1..], broker, now);
              (rest.0, rest.1 + 1)
            else (rows[x := Fail(rows[x])], 0)
  {
    assert ids[k..][0] == ids[k] && ids[k..][1..] == ids[k + 1..];
  }

  lemma SendNothing(rows: seq<Row>, broker: Broker, now: int)
    ensures Send(rows, [], broker, now) == (rows, 0)
  {
  }

  lemma BatchMatches(rows: seq<Row>, limit: nat, max: nat, tie: Tie)
    ensures var ids := Batch(rows, limit, max, tie);
            && Sorted(Age(rows, tie), ids)
            && (forall i :: 0 <= i < |ids| ==> ids[i] < |rows| && Eligible(rows[ids[i]], max))
            && (forall i, j :: 0 <= i < j < |ids| ==> ids[i] != ids[j])
  {
    var eligible := (i: nat) => i < |rows| && Eligible(rows[i], max);
    var ids := Batch(rows, limit, max, tie);
    QueryMatches(|rows|, eligible, Age(rows, tie), limit);
    assert forall i :: 0 <= i < |ids| ==> ids[i] in ids;
    assert forall i, j :: 0 <= i < j < |ids| ==> Before(Age(rows, tie), ids[i], ids[j]);
  }

  /** dispatch_batch: the new rows and the number of messages published. */
  function Dispatch(rows: seq<Row>, limit: nat, max: nat, tie: Tie, broker: Broker, now: int): (sent: (seq<Row>, nat))
    ensures |sent.0| == |rows|
  {
    BatchMatches(rows, limit, max, tie);
    Send(rows, Batch(rows, limit, max, tie), broker, now)
  }

  /** The rows before the first failure are published, that one counts one attempt more, and
      nothing else changes. */
  ghost predicate SentUpTo(rows: seq<Row>, sent: seq<Row>, ids: seq<nat>, count: nat, now: int) {
    && |sent| == |rows| && count <= |ids| && (forall i :: 0 <= i < |ids| ==> ids[i] < |rows|)
    && (forall i :: 0 <= i < count ==> sent[ids[i]] == rows[ids[i]].(published := Some(now), failed := false))
    && (count < |ids| ==>
          sent[ids[count]] == rows[ids[count]].(attempts := rows[ids[count]].attempts + 1, failed := true))
    && (forall x :: 0 <= x < |rows| && x !in ids[..count] && (count < |ids| ==> x != ids[count]) ==> sent[x] == rows[x])
  }

  lemma SentOneMore(rows: seq<Row>, sent: seq<Row>, ids: seq<nat>, count: nat, now: int)
    requires ids != [] && ids[0] < |rows| && ids[0] !in ids[1..]
    requires SentUpTo(rows[ids[0] := Publish(rows[ids[0]], now)], sent, ids[1..], count, now)
    ensures SentUpTo(rows, sent, ids, count + 1, now)
  {
    var next, rest := rows[ids[0] := Publish(rows[ids[0]], now)], ids[1..];
    assert forall i :: 0 <= i < |rest| ==> rest[i] == ids[i + 1] && rest[i] != ids[0];
    assert ids[0] !in rest[..count];
    forall i | 0 <= i < count + 1
      ensures sent[ids[i]] == Publish(rows[ids[i]], now)
    {
      assert i > 0 ==> sent[rest[i - 1]] == Publish(next[rest[i - 1]], now);
    }
    forall x | 0 <= x < |rows| && x !in ids[..count + 1] && (count + 1 < |ids| ==> x != ids[count + 1])
      ensures sent[x] == rows[x]
    {
      assert ids[..count + 1] == [ids[0]] + rest[..count];
    }
  }

  lemma {:induction false} SendWorks(rows: seq<Row>, ids: seq<nat>, broker: Broker, now: int)
    requires forall i :: 0 <= i < |ids| ==> ids[i] < |rows|
    requires forall i, j :: 0 <= i < j < |ids| ==> ids[i] != ids[j]
    ensures var sent := Send(rows, ids, broker, now);
            && SentUpTo(rows, sent.0, ids, sent.1, now)
            && (forall i :: 0 <= i < sent.1 ==> broker(ids[i])) && (sent.1 < |ids| ==> !broker(ids[sent.1]))
    decreases |ids|
  {
    if ids != [] && broker(ids[0]) {
      var next := rows[ids[0] := Publish(rows[ids[0]], now)];
      SendWorks(next, ids[1..], broker, now);
      var sent := Send(next, ids[1..], broker, now);
      SentOneMore(rows, sent.0, ids, sent.1, now);
      assert forall i :: 0 < i < |ids| ==> ids[i] == ids[1..][i - 1];
    }
  }

  ghost function EligibleIds(rows: seq<Row>, max: nat): set<nat> {
    set i | 0 <= i < |rows| && rows[i].published == None && rows[i].attempts < max
  }

  /** A batch publishes at most `limit` messages, and when the broker works as many as there are
      to publish within the limit. */
  lemma DispatchCounts(rows: seq<Row>, limit: nat, max: nat, tie: Tie, broker: Broker, now: int)
    ensures var published := Dispatch(rows, limit, max, tie, broker, now).1;
            var due := |EligibleIds(rows, max)|;
            && published <= limit && published <= due
            && ((forall i: nat :: broker(i)) ==> published == if due <= limit then due else limit)
  {
    var eligible := (i: nat) => i < |rows| && Eligible(rows[i], max);
    var ids := Batch(rows, limit, max, tie);
    BatchMatches(rows, limit, max, tie);
    QueryCounts(|rows|, eligible, Age(rows, tie), limit);
    assert Matching(|rows|, eligible) == EligibleIds(rows, max);
    SendWorks(rows, ids, broker, now);
  }

  // ----- Order -----

  /** A message that is settled, that is published or out of attempts, is stamped no later than
      any message still to be published. */
  ghost predicate InOrder(rows: seq<Row>, max: nat) {
    forall i: nat, j: nat | i < |rows| && j < |rows| && Eligible(rows[i], max) && !Eligible(rows[j], max) ::
      rows[j].created <= rows[i].created
  }

  lemma RowAfter(rows: seq<Row>, sent: seq<Row>, ids: seq<nat>, count: nat, now: int, x: nat)
    requires SentUpTo(rows, sent, ids, count, now) && x < |rows|
    ensures sent[x] == rows[x] || (exists p :: 0 <= p <= count && p < |ids| && ids[p] == x)
    ensures sent[x] == rows[x] || sent[x] == Publish(rows[x], now) || sent[x] == Fail(rows[x])
    ensures (exists p :: 0 <= p < count && ids[p] == x) ==> sent[x].published.Some?
  {
    if x in ids[..count] {
      var p :| 0 <= p < count && ids[..count][p] == x;
      assert ids[p] == x;
    }
  }

  /** A row of the batch up to and including the first failure is no younger than an eligible
      row that was not reached. */
  lemma ReachedFirst(rows: seq<Row>, limit: nat, max: nat, tie: Tie, p: nat, i: nat)
    requires p < |Batch(rows, limit, max, tie)| && i < |rows| && Eligible(rows[i], max)
    requires i !in Batch(rows, limit, max, tie)[..p + 1]
    ensures var j := Batch(rows, limit, max, tie)[p]; j < |rows| && rows[j].created <= rows[i].created
  {
    var ids := Batch(rows, limit, max, tie);
    BatchMatches(rows, limit, max, tie);
    assert forall q :: 0 <= q < p + 1 ==> ids[q] == ids[..p + 1][q];
    if i in ids {
      var q :| 0 <= q < |ids| && ids[q] == i;
      assert Before(Age(rows, tie), ids[p], ids[q]);
    } else {
      QueryOmits(|rows|, (i: nat) => i < |rows| && Eligible(rows[i], max), Age(rows, tie), limit, i);
      assert Before(Age(rows, tie), ids[p], i);
    }
  }

  lemma OrderedPair(
    rows: seq<Row>, sent: seq<Row>, limit: nat, count: nat, max: nat, tie: Tie, now: int, i: nat, j: nat)
    requires InOrder(rows, max) && SentUpTo(rows, sent, Batch(rows, limit, max, tie), count, now)
    requires i < |rows| && j < |rows| && Eligible(sent[i], max) && !Eligible(sent[j], max)
    ensures sent[j].created <= sent[i].created
  {
    hide Batch, InOrder;
    var ids := Batch(rows, limit, max, tie);
    RowAfter(rows, sent, ids, count, now, i);
    RowAfter(rows, sent, ids, count, now, j);
    if Eligible(rows[j], max) {
      BatchMatches(rows, limit, max, tie);
      var p :| 0 <= p <= count && p < |ids| && ids[p] == j;
      forall q | 0 <= q < p + 1
        ensures ids[q] != i
      {
        assert q < count ==> sent[ids[q]].published.Some?;
      }
      ReachedFirst(rows, limit, max, tie, p, i);
    } else {
      OrderedBefore(rows, max, i, j);
    }
  }

  lemma OrderedBefore(rows: seq<Row>, max: nat, i: nat, j: nat)
    requires InOrder(rows, max) && i < |rows| && j < |rows| && Eligible(rows[i], max) && !Eligible(rows[j], max)
    ensures rows[j].created <= rows[i].created
  {
  }

  /** Dispatching keeps the order, whatever the broker does, however small the batch and
      however the database orders equal stamps. */
  lemma DispatchKeepsOrder(rows: seq<Row>, limit: nat, max: nat, tie: Tie, broker: Broker, now: int)
    requires InOrder(rows, max)
    ensures InOrder(Dispatch(rows, limit, max, tie, broker, now).0, max)
  {
    var sent := Dispatch(rows, limit, max, tie, broker, now);
    BatchMatches(rows, limit, max, tie);
    SendWorks(rows, Batch(rows, limit, max, tie), broker, now);
    hide Batch;
    forall i: nat, j: nat | i < |rows| && j < |rows| && Eligible(sent.0[i], max) && !Eligible(sent.0[j], max)
      ensures sent.0[j].created <= sent.0[i].created
    {
      OrderedPair(rows, sent.0, limit, sent.1, max, tie, now, i, j);
    }
  }

  /** A batch that reaches a row has published every eligible row with an earlier stamp. */
  lemma OlderReached(rows: seq<Row>, limit: nat, max: nat, tie: Tie, p: nat, i: nat) returns (q: nat)
    requires p < |Batch(rows, limit, max, tie)| && Batch(rows, limit, max, tie)[p] < |rows|
    requires i < |rows| && Eligible(rows[i], max) && rows[i].created < rows[Batch(rows, limit, max, tie)[p]].created
    ensures q < p && Batch(rows, limit, max, tie)[q] == i
  {
    hide Batch;
    var ids := Batch(rows, limit, max, tie);
    if i !in ids[..p + 1] {
      ReachedFirst(rows, limit, max, tie, p, i);
    }
    q :| 0 <= q < p + 1 && ids[..p + 1][q] == i;
  }

  /** No message is published while an older one could still be: an eligible message stamped
      earlier is published in the same batch. */
  lemma OldestFirst(rows: seq<Row>, limit: nat, max: nat, tie: Tie, broker: Broker, now: int, i: nat, j: nat)
    requires i < |rows| && j < |rows| && Eligible(rows[i], max) && rows[i].created < rows[j].created
    requires rows[j].published.None? && Dispatch(rows, limit, max, tie, broker, now).0[j].published.Some?
    ensures Dispatch(rows, limit, max, tie, broker, now).0[i].published.Some?
  {
    var ids, sent := Batch(rows, limit, max, tie), Dispatch(rows, limit, max, tie, broker, now);
    SendWorks(rows, ids, broker, now) by {
      BatchMatches(rows, limit, max, tie);
    }
    hide Batch, Dispatch;
    OlderSettled(rows, sent.0, limit, sent.1, max, tie, now, i, j);
  }

  lemma OlderSettled(
    rows: seq<Row>, sent: seq<Row>, limit: nat, count: nat, max: nat, tie: Tie, now: int, i: nat, j: nat)
    requires SentUpTo(rows, sent, Batch(rows, limit, max, tie), count, now) && i < |rows| && j < |rows|
    requires Eligible(rows[i], max) && rows[i].created < rows[j].created && sent[j] != rows[j]
    ensures sent[i].published.Some?
  {
    hide Batch;
    var ids := Batch(rows, limit, max, tie);
    RowAfter(rows, sent, ids, count, now, j);
    var p :| 0 <= p <= count && p < |ids| && ids[p] == j;
    var q := OlderReached(rows, limit, max, tie, p, i);
    assert sent[ids[q]].published == Some(now);
  }

  /** A message added while others are being published keeps the order exactly if no settled
      message is younger than it. */
  lemma AppendKeepsOrderIff(rows: seq<Row>, max: nat, row: Row)
    requires InOrder(rows, max) && Eligible(row, max)
    ensures InOrder(rows + [row], max) <==>
            forall j :: 0 <= j < |rows| && !Eligible(rows[j], max) ==> rows[j].created <= row.created
  {
    var all := rows + [row];
    if InOrder(all, max) {
      forall j | 0 <= j < |rows| && !Eligible(rows[j], max)
        ensures rows[j].created <= row.created
      {
        assert Eligible(all[|rows|], max) && !Eligible(all[j], max);
      }
    }
  }

  // ----- Order of insertion -----

  /** The settled rows are a prefix of the table. */
  ghost predicate Prefix(rows: seq<Row>, max: nat) {
    forall i, j :: 0 <= i < j < |rows| && !Eligible(rows[j], max) ==> !Eligible(rows[i], max)
  }

  /** Rows still to be published are stamped in the order in which they were inserted, without
      ties. */
  ghost predicate Strict(rows: seq<Row>, max: nat) {
    forall i, j :: 0 <= i < j < |rows| && Eligible(rows[i], max) && Eligible(rows[j], max) ==>
      rows[i].created < rows[j].created
  }

  lemma StrictPair(rows: seq<Row>, limit: nat, max: nat, tie: Tie, broker: Broker, now: int, i: nat, j: nat)
    requires Prefix(rows, max) && Strict(rows, max) && i < j < |rows|
    requires !Eligible(Dispatch(rows, limit, max, tie, broker, now).0[j], max)
    ensures !Eligible(Dispatch(rows, limit, max, tie, broker, now).0[i], max)
  {
    var ids, sent := Batch(rows, limit, max, tie), Dispatch(rows, limit, max, tie, broker, now);
    SendWorks(rows, ids, broker, now) by {
      BatchMatches(rows, limit, max, tie);
    }
    hide Batch, Dispatch;
    if Eligible(rows[i], max) {
      assert Eligible(rows[j], max) && rows[i].created < rows[j].created;
      OlderSettled(rows, sent.0, limit, sent.1, max, tie, now, i, j);
    } else {
      RowAfter(rows, sent.0, ids, sent.1, now, i);
    }
  }

  /** A limit that ends the batch with row `j`. */
  lemma BatchUpTo(rows: seq<Row>, max: nat, tie: Tie, i: nat, j: nat) returns (limit: nat)
    requires i < |rows| && j < |rows| && Eligible(rows[i], max) && Eligible(rows[j], max)
    requires Before(Age(rows, tie), j, i)
    ensures j in Batch(rows, limit, max, tie) && i !in Batch(rows, limit, max, tie)
  {
    var eligible := (k: nat) => k < |rows| && Eligible(rows[k], max);
    var all := Sort(Age(rows, tie), Select(|rows|, eligible));
    SortSorts(Age(rows, tie), Select(|rows|, eligible));
    assert j in all;
    var p :| 0 <= p < |all| && all[p] == j;
    limit := p + 1;
    assert Batch(rows, limit, max, tie) == all[..p + 1];
    assert all[..p + 1][p] == j;
    forall q | 0 <= q < p + 1
      ensures all[q] != i
    {
      assert q < p ==> Before(Age(rows, tie), all[q], j);
    }
  }

  /** Two rows out of order, or with one stamp, can be settled second before first. */
  lemma SecondBeforeFirst(rows: seq<Row>, max: nat, i: nat, j: nat, now: int)
    returns (limit: nat, tie: Tie, broker: Broker)
    requires i < j < |rows| && Eligible(rows[i], max) && Eligible(rows[j], max) && rows[j].created <= rows[i].created
    ensures var sent := Dispatch(rows, limit, max, tie, broker, now).0;
            sent[i] == rows[i] && sent[j].published == Some(now)
  {
    tie, broker := k => if k == j then 0 else 1, k => true;
    limit := BatchUpTo(rows, max, tie, i, j);
    var ids := Batch(rows, limit, max, tie);
    BatchMatches(rows, limit, max, tie);
    SendWorks(rows, ids, broker, now);
    var sent := Dispatch(rows, limit, max, tie, broker, now);
    hide Batch, Dispatch;
    var p :| 0 <= p < |ids| && ids[p] == j;
    assert sent.1 == |ids|;
    assert ids[..|ids|] == ids;
  }

  /** Messages are settled in the order in which they were inserted, whatever limit, database
      and broker do, if and only if they are stamped in that order without ties. */
  lemma PrefixSurvivesIff(rows: seq<Row>, max: nat, now: int)
    requires Prefix(rows, max)
    ensures (forall limit: nat, tie: Tie, broker: Broker ::
               Prefix(Dispatch(rows, limit, max, tie, broker, now).0, max)) <==> Strict(rows, max)
  {
    hide Dispatch;
    if Strict(rows, max) {
      forall limit: nat, tie: Tie, broker: Broker
        ensures Prefix(Dispatch(rows, limit, max, tie, broker, now).0, max)
      {
        var sent := Dispatch(rows, limit, max, tie, broker, now).0;
        forall i, j | 0 <= i < j < |sent| && !Eligible(sent[j], max)
          ensures !Eligible(sent[i], max)
        {
          StrictPair(rows, limit, max, tie, broker, now, i, j);
        }
      }
    } else {
      var i, j :| 0 <= i < j < |rows| && Eligible(rows[i], max) && Eligible(rows[j], max)
                  && rows[j].created <= rows[i].created;
      var limit, tie, broker := SecondBeforeFirst(rows, max, i, j, now);
      var sent := Dispatch(rows, limit, max, tie, broker, now).0;
      assert Eligible(sent[i], max) && !Eligible(sent[j], max);
      assert !Prefix(sent, max);
    }
  }

  /** The history of an outbox with one dispatcher: rows are added and batches sent in any order. */
  datatype Op = Add(created: int) | Flush(limit: nat, tie: Tie, broker: Broker, now: int)

  function After(ops: seq<Op>, max: nat): seq<Row> {
    if ops == [] then []
    else
      var rows := After(ops[..|ops| - 1], max);
      match ops[|ops| - 1]
      case Add(created) => rows + [Row(created, None, 0, false)]
      case Flush(limit, tie, broker, now) => Dispatch(rows, limit, max, tie, broker, now).0
  }

  ghost predicate Stamped(ops: seq<Op>) {
    forall i, j :: 0 <= i < j < |ops| && ops[i].Add? && ops[j].Add? ==> ops[i].created <= ops[j].created
  }

  ghost predicate Increasing(ops: seq<Op>) {
    forall i, j :: 0 <= i < j < |ops| && ops[i].Add? && ops[j].Add? ==> ops[i].created < ops[j].created
  }

  lemma DispatchKeepsStamps(rows: seq<Row>, limit: nat, max: nat, tie: Tie, broker: Broker, now: int)
    ensures var sent := Dispatch(rows, limit, max, tie, broker, now).0;
            forall x :: 0 <= x < |rows| ==> sent[x].created == rows[x].created
  {
    var ids, sent := Batch(rows, limit, max, tie), Dispatch(rows, limit, max, tie, broker, now);
    BatchMatches(rows, limit, max, tie);
    SendWorks(rows, ids, broker, now);
    forall x | 0 <= x < |rows|
      ensures sent.0[x].created == rows[x].created
    {
      RowAfter(rows, sent.0, ids, sent.1, now, x);
    }
  }

  lemma {:induction false} StampsBounded(ops: seq<Op>, max: nat, bound: int)
    requires forall i :: 0 <= i < |ops| && ops[i].Add? ==> ops[i].created <= bound
    ensures forall x :: 0 <= x < |After(ops, max)| ==> After(ops, max)[x].created <= bound
  {
    if ops != [] {
      var init, op := ops[..|ops| - 1], ops[|ops| - 1];
      StampsBounded(init, max, bound);
      if op.Flush? {
        DispatchKeepsStamps(After(init, max), op.limit, max, op.tie, op.broker, op.now);
      }
    }
  }

  /** In every history whose rows are stamped in the order in which they are added, messages
      are settled in the order of their stamps, whatever the broker does and however the
      database orders equal stamps. */
  lemma {:induction false} AlwaysInOrder(ops: seq<Op>, max: nat)
    requires Stamped(ops)
    ensures InOrder(After(ops, max), max)
  {
    if ops != [] {
      var init, op := ops[..|ops| - 1], ops[|ops| - 1];
      var before := After(init, max);
      AlwaysInOrder(init, max);
      match op {
        case Add(created) =>
          StampsBounded(init, max, created);
          if max > 0 {
            AppendKeepsOrderIff(before, max, Row(created, None, 0, false));
          }
        case Flush(limit, tie, broker, now) =>
          DispatchKeepsOrder(before, limit, max, tie, broker, now);
      }
    }
  }

  ghost predicate Rising(rows: seq<Row>) {
    forall x, y :: 0 <= x < y < |rows| ==> rows[x].created < rows[y].created
  }

  lemma {:induction false} StampsIncrease(ops: seq<Op>, max: nat)
    requires Increasing(ops)
    ensures Rising(After(ops, max))
  {
    if ops != [] {
      var init, op := ops[..|ops| - 1], ops[|ops| - 1];
      var before := After(init, max);
      StampsIncrease(init, max);
      match op {
        case Add(created) =>
          StampsBounded(init, max, created - 1);
          assert After(ops, max) == before + [Row(created, None, 0, false)];
        case Flush(limit, tie, broker, now) => DispatchKeepsStamps(before, limit, max, tie, broker, now);
      }
    }
  }

  /** Where no two rows share a stamp, the settled rows are always a prefix of the table. */
  lemma AlwaysPrefix(ops: seq<Op>, max: nat)
    requires Increasing(ops)
    ensures Prefix(After(ops, max), max)
  {
    hide After;
    AlwaysInOrder(ops, max);
    StampsIncrease(ops, max);
  }

  /** Every row is stamped no earlier than the rows already settled when it is committed. */
  ghost predicate Punctual(ops: seq<Op>, max: nat) {
    forall k | 0 <= k < |ops| && ops[k].Add? :: OnTime(After(ops[..k], max), max, ops[k].created)
  }

  ghost predicate OnTime(rows: seq<Row>, max: nat, created: int) {
    forall j :: 0 <= j < |rows| && !Eligible(rows[j], max) ==> rows[j].created <= created
  }

  lemma OneOpMore(ops: seq<Op>, max: nat, k: nat)
    requires k < |ops| && max > 0 && InOrder(After(ops[..k], max), max)
    ensures InOrder(After(ops[..k + 1], max), max) <==>
            (ops[k].Add? ==> OnTime(After(ops[..k], max), max, ops[k].created))
  {
    var before := After(ops[..k], max);
    assert ops[..k + 1][..k] == ops[..k];
    match ops[k] {
      case Add(created) => AppendKeepsOrderIff(before, max, Row(created, None, 0, false));
      case Flush(limit, tie, broker, now) => DispatchKeepsOrder(before, limit, max, tie, broker, now);
    }
  }

  lemma {:induction false} InOrderUpTo(ops: seq<Op>, max: nat, k: nat)
    requires Punctual(ops, max) && max > 0 && k <= |ops|
    ensures InOrder(After(ops[..k], max), max)
  {
    if k > 0 {
      InOrderUpTo(ops, max, k - 1);
      OneOpMore(ops, max, k - 1);
    }
  }

  /** At all times of a history messages are settled in the order of their stamps, if and only
      if no message is committed behind settled messages with later stamps. */
  lemma OrderSurvivesIff(ops: seq<Op>, max: nat)
    requires max > 0
    ensures (forall k :: 0 <= k <= |ops| ==> InOrder(After(ops[..k], max), max)) <==> Punctual(ops, max)
  {
    hide InOrder, After, OnTime;
    if Punctual(ops, max) {
      forall k | 0 <= k <= |ops|
        ensures InOrder(After(ops[..k], max), max)
      {
        InOrderUpTo(ops, max, k);
      }
    }
    if forall k :: 0 <= k <= |ops| ==> InOrder(After(ops[..k], max), max) {
      forall k | 0 <= k < |ops| && ops[k].Add?
        ensures OnTime(After(ops[..k], max), max, ops[k].created)
      {
        assert InOrder(After(ops[..k + 1], max), max);
        OneOpMore(ops, max, k);
      }
    }
  }

  /** A transaction that began earlier and commits later breaks the order: the message stamped
      10 is published before the one stamped 9 is there. */
  lemma LateCommitBreaksOrder(tie: Tie, broker: Broker)
    requires broker(0)
    ensures !InOrder(After([Add(10), Flush(50, tie, broker, 11), Add(9)], 10), 10)
  {
    var ops := [Add(10), Flush(50, tie, broker, 11), Add(9)];
    var added := Row(10, None, 0, false);
    assert ops[..2] == [Add(10), Flush(50, tie, broker, 11)] && ops[..2][..1] == [Add(10)] && [Add(10)][..0] == [];
    assert After([], 10) == [] && After([Add(10)], 10) == [added];
    FirstIsPublished(added, tie, broker);
    var sent := Dispatch([added], 50, 10, tie, broker, 11).0;
    assert After(ops, 10) == sent + [Row(9, None, 0, false)];
    assert !Eligible(After(ops, 10)[0], 10) && Eligible(After(ops, 10)[1], 10);
  }

  lemma FirstIsPublished(row: Row, tie: Tie, broker: Broker)
    requires Eligible(row, 10) && broker(0)
    ensures Dispatch([row], 50, 10, tie, broker, 11).0 == [Publish(row, 11)]
  {
    var rows := [row];
    var ids := Batch(rows, 50, 10, tie);
    BatchMatches(rows, 50, 10, tie);
    QueryOmits(|rows|, (i: nat) => i < |rows| && Eligible(rows[i], 10), Age(rows, tie), 50, 0);
    SendWorks(rows, ids, broker, 11);
  }

  /** Rows with equal stamps, as all messages of one transaction have them, may be published
      second before first. */
  lemma EqualStampsHaveNoOrder(now: int) returns (limit: nat, tie: Tie, broker: Broker)
    ensures !Prefix(After([Add(5), Add(5), Flush(limit, tie, broker, now)], 10), 10)
  {
    hide Dispatch;
    var added := Row(5, None, 0, false);
    limit, tie, broker := SecondBeforeFirst([added, added], 10, 0, 1, now);
    var ops := [Add(5), Add(5), Flush(limit, tie, broker, now)];
    assert ops[..2] == [Add(5), Add(5)] && ops[..2][..1] == [Add(5)] && [Add(5)][..0] == [];
    assert After([], 10) == [] && After([Add(5)], 10) == [added];
    assert After(ops[..2], 10) == [added, added];
    assert Eligible(After(ops, 10)[0], 10) && !Eligible(After(ops, 10)[1], 10);
  }

  // ----- Draining -----

  function Budget(row: Row, max: nat): nat {
    if Eligible(row, max) then max - row.attempts else 0
  }

  /** The attempts that are left altogether. */
  function Remaining(rows: seq<Row>, max: nat): nat {
    if rows == [] then 0 else Remaining(rows[..|rows| - 1], max) + Budget(rows[|rows| - 1], max)
  }

  lemma {:induction false} RemainingDrops(xs: seq<Row>, ys: seq<Row>, max: nat, drop: nat)
    requires |xs| == |ys| && (forall i :: 0 <= i < |xs| ==> Budget(ys[i], max) <= Budget(xs[i], max))
    requires drop < |xs| ==> Budget(ys[drop], max) < Budget(xs[drop], max)
    ensures Remaining(ys, max) <= Remaining(xs, max)
    ensures drop < |xs| ==> Remaining(ys, max) < Remaining(xs, max)
  {
    if xs != [] {
      RemainingDrops(xs[..|xs| - 1], ys[..|ys| - 1], max, drop);
    }
  }

  /** Every batch over a non-empty set of eligible messages uses up some of the budget. */
  lemma DispatchDrains(rows: seq<Row>, limit: nat, max: nat, tie: Tie, broker: Broker, now: int)
    requires limit > 0
    ensures var sent := Dispatch(rows, limit, max, tie, broker, now).0;
            && Remaining(sent, max) <= Remaining(rows, max)
            && ((exists i :: 0 <= i < |rows| && Eligible(rows[i], max)) ==> Remaining(sent, max) < Remaining(rows, max))
            && ((forall i :: 0 <= i < |rows| ==> rows[i].attempts <= max) ==>
                  forall i :: 0 <= i < |sent| ==> sent[i].attempts <= max)
  {
    var ids, sent := Batch(rows, limit, max, tie), Dispatch(rows, limit, max, tie, broker, now);
    BatchMatches(rows, limit, max, tie);
    SendWorks(rows, ids, broker, now);
    forall x | 0 <= x < |rows|
      ensures Budget(sent.0[x], max) <= Budget(rows[x], max)
      ensures rows[x].attempts <= max ==> sent.0[x].attempts <= max
    {
      RowAfter(rows, sent.0, ids, sent.1, now, x);
    }
    if i :| 0 <= i < |rows| && Eligible(rows[i], max) {
      QueryOmits(|rows|, (i: nat) => i < |rows| && Eligible(rows[i], max), Age(rows, tie), limit, i);
      assert ids != [];
      RemainingDrops(rows, sent.0, max, ids[0]);
    } else {
      RemainingDrops(rows, sent.0, max, |rows|);
    }
  }

  /** What database, broker and clock do in one batch. */
  datatype Luck = Luck(tie: Tie, broker: Broker, now: int)

  /** One batch after the other, each with its own luck. */
  function Drain(rows: seq<Row>, limit: nat, max: nat, lucks: seq<Luck>): seq<Row> {
    if lucks == [] then rows
    else
      var luck := lucks[|lucks| - 1];
      Dispatch(Drain(rows, limit, max, lucks[..|lucks| - 1]), limit, max, luck.tie, luck.broker, luck.now).0
  }

  lemma {:induction false} SettledMeansNothingRemains(rows: seq<Row>, max: nat)
    ensures Remaining(rows, max) == 0 <==> forall i :: 0 <= i < |rows| ==> !Eligible(rows[i], max)
  {
    if rows != [] {
      SettledMeansNothingRemains(rows[..|rows| - 1], max);
      var last := |rows| - 1;
      assert forall i :: 0 <= i < last ==> rows[..last][i] == rows[i];
    }
  }

  lemma {:induction false} DrainUsesBudget(rows: seq<Row>, limit: nat, max: nat, lucks: seq<Luck>)
    requires limit > 0
    ensures var left := Remaining(Drain(rows, limit, max, lucks), max);
            left == 0 || left + |lucks| <= Remaining(rows, max)
  {
    if lucks != [] {
      var init, luck := lucks[..|lucks| - 1], lucks[|lucks| - 1];
      DrainUsesBudget(rows, limit, max, init);
      var before := Drain(rows, limit, max, init);
      DispatchDrains(before, limit, max, luck.tie, luck.broker, luck.now);
      SettledMeansNothingRemains(before, max);
    }
  }

  /** Whatever the broker does, a fixed outbox is settled after as many batches as it has
      attempts left. */
  lemma OutboxDrains(rows: seq<Row>, limit: nat, max: nat, lucks: seq<Luck>)
    requires limit > 0 && |lucks| >= Remaining(rows, max)
    ensures var sent := Drain(rows, limit, max, lucks);
            forall i :: 0 <= i < |sent| ==> !Eligible(sent[i], max)
  {
    DrainUsesBudget(rows, limit, max, lucks);
    SettledMeansNothingRemains(Drain(rows, limit, max, lucks), max);
  }

  // ----- The dispatcher -----

  class Dispatcher {
    var rows: seq<Row>

    constructor ()
      ensures rows == []
    {
      rows := [];
    }

    method Append(created: int)
      modifies this
      ensures rows == old(rows) + [Row(created, None, 0, false)]
    {
      rows := rows + [Row(created, None, 0, false)];
    }

    method DispatchBatch(limit: nat, max: nat, tie: Tie, broker: Broker, now: int) returns (published: nat)
      modifies this
      ensures (rows, published) == Dispatch(old(rows), limit, max, tie, broker, now)
      ensures InOrder(old(rows), max) ==> InOrder(rows, max)
    {
      var messages := Batch(rows, limit, max, tie);
      BatchMatches(rows, limit, max, tie);
      ghost var goal := Send(rows, messages, broker, now);
      if InOrder(rows, max) {
        DispatchKeepsOrder(rows, limit, max, tie, broker, now);
      }
      hide Batch, InOrder, Sorted, Eligible, Send;
      published := 0;
      assert messages[0..] == messages;
      while published < |messages|
        invariant |rows| == |old(rows)| && 0 <= published <= |messages|
        invariant Send(rows, messages[published..], broker, now).0 == goal.0
        invariant published + Send(rows, messages[published..], broker, now).1 == goal.1
      {
        var i := messages[published];
        SendStep(rows, messages, published, broker, now);
        if broker(i) {
          rows := rows[i := Publish(rows[i], now)];
          published := published + 1;
        } else {
          rows := rows[i := Fail(rows[i])];
          return;
        }
      }
      SendNothing(rows, broker, now);
    }
  }
}
