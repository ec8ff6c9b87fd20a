/**
 Selecting and ordering row ids, as the WHERE, ORDER BY and LIMIT clauses of the program's
 queries do. Rows are ordered by a two-column key and, where that ties, by id.
 */
module Ordering {

  type Key = nat -> (int, int)

  predicate Before(key: Key, x: nat, y: nat) {
    || key(x).0 < key(y).0
    || (key(x).0 == key(y).0 && key(x).1 < key(y).1)
    || (key(x) == key(y) && x < y)
  }

  ghost predicate Sorted(key: Key, ids: seq<nat>) {
    forall i, j :: 0 <= i < j < |ids| ==> Before(key, ids[i], ids[j])
  }

  /** The ids below `n` that satisfy `p`. */
  function Select(n: nat, p: nat -> bool): (ids: seq<nat>)
    ensures forall i :: 0 <= i < |ids| ==> ids[i] < n
    ensures forall x: nat :: x in ids <==> x < n && p(x)
    ensures forall i, j :: 0 <= i < j < |ids| ==> ids[i] < ids[j]
  {
    if n == 0 then [] else Select(n - 1, p) + (if p(n - 1) then [n - 1] else [])
  }

  /** Insert `x` before the first id that comes after it. */
  function PutInOrder(key: Key, ids: seq<nat>, x: nat): (placed: seq<nat>)
    ensures forall y :: y in placed <==> y == x || y in ids
  {
    if ids == [] then [x]
    else if Before(key, x, ids[0]) then [x] + ids
    else [ids[0]] + PutInOrder(key, ids[1..], x)
  }

  function Sort(key: Key, ids: seq<nat>): (sorted: seq<nat>)
    ensures forall y :: y in sorted <==> y in ids
  {
    if ids == [] then [] else PutInOrder(key, Sort(key, ids[1..]), ids[0])
  }

  function Limit(ids: seq<nat>, limit: nat): seq<nat> {
    if |ids| <= limit then ids else ids[..limit]
  }

  lemma {:induction false} PutSorts(key: Key, ids: seq<nat>, x: nat)
    requires Sorted(key, ids) && x !in ids
    ensures Sorted(key, PutInOrder(key, ids, x))
  {
    if ids != [] && !Before(key, x, ids[0]) {
      var rest := PutInOrder(key, ids[1..], x);
      PutSorts(key, ids[1..], x);
      forall i | 0 <= i < |rest|
        ensures Before(key, ids[0], rest[i])
      {
        assert rest[i] in rest;
      }
    }
  }

  /** Distinct ids come out in strict order, so none is lost and none is repeated. */
  lemma {:induction false} SortSorts(key: Key, ids: seq<nat>)
    requires forall i, j :: 0 <= i < j < |ids| ==> ids[i] != ids[j]
    ensures Sorted(key, Sort(key, ids))
  {
    if ids != [] {
      SortSorts(key, ids[1..]);
      PutSorts(key, Sort(key, ids[1..]), ids[0]);
    }
  }

  /** The result of a whole query. */
  function Query(n: nat, p: nat -> bool, key: Key, limit: nat): seq<nat> {
    Limit(Sort(key, Select(n, p)), limit)
  }

  /** A query returns matching rows, in order and each once. */
  lemma QueryMatches(n: nat, p: nat -> bool, key: Key, limit: nat)
    ensures var ids := Query(n, p, key, limit);
            && Sorted(key, ids) && |ids| <= limit
            && forall x :: x in ids ==> x < n && p(x)
  {
    SortSorts(key, Select(n, p));
    var all, ids := Sort(key, Select(n, p)), Query(n, p, key, limit);
    forall x | x in ids
      ensures x < n && p(x)
    {
      assert x in all;
    }
  }

  /** It leaves out a matching row only when the limit is used up by rows before it. */
  lemma QueryOmits(n: nat, p: nat -> bool, key: Key, limit: nat, x: nat)
    requires x < n && p(x)
    ensures var ids := Query(n, p, key, limit);
            x !in ids ==> |ids| == limit && forall y :: y in ids ==> Before(key, y, x)
  {
    SortSorts(key, Select(n, p));
    var all, ids := Sort(key, Select(n, p)), Query(n, p, key, limit);
    assert x in all;
    var j :| 0 <= j < |all| && all[j] == x;
    if x !in ids {
      forall y | y in ids
        ensures Before(key, y, x)
      {
        var i :| 0 <= i < |ids| && ids[i] == y;
        assert all[i] == y && i < j;
      }
    }
  }

  lemma Asymmetric(key: Key, x: nat, y: nat)
    requires Before(key, x, y)
    ensures !Before(key, y, x) && x != y
  {
  }

  lemma {:induction false} SortedNext(key: Key, all: seq<nat>, first: seq<nat>, i: nat)
    requires Sorted(key, all) && Sorted(key, first) && i < |first| && i <= |all| && all[..i] == first[..i]
    requires first[i] in all && forall y :: y in all && y !in first ==> Before(key, first[i], y)
    ensures i < |all| && all[i] == first[i]
  {
    hide Before;
    assert forall j :: 0 <= j < i ==> all[j] == all[..i][j] == first[..i][j] == first[j];
    forall j | 0 <= j < i
      ensures first[j] != first[i]
    {
      Asymmetric(key, first[j], first[i]);
    }
    var p :| 0 <= p < |all| && all[p] == first[i];
    var x, y := first[i], all[i];
    forall j | 0 <= j < i
      ensures first[j] != y
    {
      Asymmetric(key, all[j], y);
    }
    assert y == x || Before(key, y, x);
    assert y == x || Before(key, x, y) by {
      if y in first {
        var q :| 0 <= q < |first| && first[q] == y;
      }
    }
    if y != x {
      Asymmetric(key, x, y);
    }
  }

  lemma {:induction false} SortedPrefix(key: Key, all: seq<nat>, first: seq<nat>, k: nat)
    requires Sorted(key, all) && Sorted(key, first) && k <= |first|
    requires forall x :: x in first ==> x in all
    requires forall x, y :: x in first && y in all && y !in first ==> Before(key, x, y)
    ensures k <= |all| && all[..k] == first[..k]
  {
    if k > 0 {
      var i := k - 1;
      SortedPrefix(key, all, first, i);
      SortedNext(key, all, first, i);
      assert all[..k] == all[..i] + [all[i]] && first[..k] == first[..i] + [first[i]];
    }
  }

  /** Matching rows in order, ranked before all others, come first. */
  lemma QueryPrefix(n: nat, p: nat -> bool, key: Key, limit: nat, first: seq<nat>)
    requires Sorted(key, first) && |first| <= limit && forall x :: x in first ==> x < n && p(x)
    requires forall x: nat, y: nat :: x < n && p(x) && x !in first && y in first ==> Before(key, y, x)
    ensures first <= Query(n, p, key, limit)
  {
    SortSorts(key, Select(n, p));
    SortedPrefix(key, Sort(key, Select(n, p)), first, |first|);
    assert first[..|first|] == first;
  }

  ghost function Matching(n: nat, p: nat -> bool): set<nat> {
    set x: nat | x < n && p(x)
  }

  lemma MatchingNext(n: nat, p: nat -> bool)
    ensures |Matching(n + 1, p)| == |Matching(n, p)| + if p(n) then 1 else 0
  {
    assert Matching(n + 1, p) == Matching(n, p) + if p(n) then {n} else {};
  }

  lemma {:induction false} SelectNext(n: nat, p: nat -> bool)
    ensures |Select(n + 1, p)| == |Select(n, p)| + if p(n) then 1 else 0
  {
  }

  lemma NothingMatches(p: nat -> bool)
    ensures Matching(0, p) == {} && Select(0, p) == []
  {
  }

  lemma {:induction false} SelectCounts(n: nat, p: nat -> bool)
    ensures |Select(n, p)| == |Matching(n, p)|
  {
    hide Matching, Select;
    if n == 0 {
      NothingMatches(p);
    } else {
      SelectCounts(n - 1, p);
      MatchingNext(n - 1, p);
      SelectNext(n - 1, p);
    }
  }

  lemma {:induction false} PutCounts(key: Key, ids: seq<nat>, x: nat)
    ensures |PutInOrder(key, ids, x)| == |ids| + 1
  {
    if ids != [] && !Before(key, x, ids[0]) {
      PutCounts(key, ids[1..], x);
    }
  }

  lemma {:induction false} SortCounts(key: Key, ids: seq<nat>)
    ensures |Sort(key, ids)| == |ids|
  {
    if ids != [] {
      SortCounts(key, ids[1..]);
      PutCounts(key, Sort(key, ids[1..]), ids[0]);
    }
  }

  /** A query returns all matching rows, or as many as the limit allows. */
  lemma QueryCounts(n: nat, p: nat -> bool, key: Key, limit: nat)
    ensures var matching := |Matching(n, p)|;
            |Query(n, p, key, limit)| == if matching <= limit then matching else limit
  {
    SelectCounts(n, p);
    SortCounts(key, Select(n, p));
  }
}
