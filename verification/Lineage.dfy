/**
 Retries: the lineage of a run.
 */
module Lineage {
  import opened Options
  import opened Lifecycle
  import opened Tables
  import opened Consistency
  import opened Scheduler
  import opened Protocol
  import opened Guarantees

  /** The run, the run it retries, the run that one retries, and so on. */
  function Chain(runs: seq<Run>, r: nat): (chain: seq<nat>)
    requires r < |runs|
    ensures |chain| > 0 && forall i :: 0 <= i < |chain| ==> chain[i] < |runs|
    decreases r
  {
    [r] + (match runs[r].parent
           case None => []
           case Some(p) => if p < r then Chain(runs, p) else [])
  }

  /** A lineage that counts its attempts, goes back in time and consists of failed attempts at
      the same request, the last one aside. */
  ghost predicate ProperLineage(runs: seq<Run>, r: nat)
    requires r < |runs|
  {
    var chain := Chain(runs, r);
    && runs[r].attempt == |chain| && chain[0] == r
    && runs[chain[|chain| - 1]].parent.None?
    && (forall i, j :: 0 <= i < j < |chain| ==> chain[j] < chain[i])
    && (forall i :: 0 <= i < |chain| ==> SameRequest(runs[chain[i]], runs[r]))
    && (forall i :: 0 < i < |chain| ==> runs[chain[i]].status == Failed)
    && (forall i :: 0 < i < |chain| ==> runs[chain[i - 1]].parent == Some(chain[i]))
  }

  lemma {:induction false} ChainDescends(runs: seq<Run>, r: nat)
    requires r < |runs|
    ensures var chain := Chain(runs, r);
            && chain[0] == r && (forall i :: 0 < i < |chain| ==> chain[i] < r)
            && (forall i, j :: 0 <= i < j < |chain| ==> chain[j] < chain[i])
  {
    if runs[r].parent.Some? && runs[r].parent.value < r {
      ChainDescends(runs, runs[r].parent.value);
    }
  }

  lemma {:induction false} LineageIsProper(runs: seq<Run>, r: nat)
    requires LineageOk(runs) && r < |runs|
    ensures ProperLineage(runs, r)
    decreases r
  {
    assert Descent(runs, r);
    match runs[r].parent {
      case None =>
      case Some(p) =>
        hide LineageOk, ProperLineage;
        LineageIsProper(runs, p);
        OneAttemptMore(runs, r, p);
    }
  }

  lemma {:induction false} OneAttemptMore(runs: seq<Run>, r: nat, p: nat)
    requires p < r < |runs| && runs[r].parent == Some(p) && ChildOf(runs[r], runs[p]) && ProperLineage(runs, p)
    ensures ProperLineage(runs, r)
  {
    ChainDescends(runs, r);
    var chain, rest := Chain(runs, r), Chain(runs, p);
    assert chain == [r] + rest;
    hide Chain;
    assert forall i :: 0 < i < |chain| ==> chain[i] == rest[i - 1];
  }

  /** Retry lineage is a well-founded forest: the attempt number is the length of the chain,
      every ancestor failed (for good), and all attempts ask for the same thing. */
  lemma RetriesFormAForest(cfg: Settings, actions: seq<Action>, r: nat)
    requires r < |Exec(cfg, INIT, actions).db.runs|
    ensures ProperLineage(Exec(cfg, INIT, actions).db.runs, r)
  {
    Always(cfg, actions);
    LineageIsProper(Exec(cfg, INIT, actions).db.runs, r);
  }
}
