/** The end-of-run check of recorded stamps against the true event graph. */
module Checker {
  import opened Wrappers
  import opened Clocks
  import opened Causality

  /** Direct predecessors of each event. */
  type Preds = seq<seq<nat>>

  /** Every predecessor was recorded earlier. */
  ghost predicate Backward(preds: Preds) {
    forall i, k :: 0 <= i < |preds| && 0 <= k < |preds[i]| ==> preds[i][k] < i
  }

  ghost predicate Chain(preds: Preds, via: seq<nat>) {
    && |via| >= 2
    && (forall k :: 0 <= k < |via| ==> via[k] < |preds|)
    && (forall k :: 0 <= k < |via| - 1 ==> via[k] in preds[via[k + 1]])
  }

  /** The transitive closure: some chain of predecessors leads back from `j` to `i`. */
  ghost predicate Reaches(preds: Preds, i: nat, j: nat) {
    exists via :: Chain(preds, via) && via[0] == i && via[|via| - 1] == j
  }

  /** Everything before event `j` through its first `k` predecessors. */
  ghost function Through(preds: Preds, j: nat, k: nat): set<nat>
    requires Backward(preds) && j < |preds| && k <= |preds[j]|
    decreases j, k
  {
    if k == 0 then {}
    else
      var p := preds[j][k - 1];
      Through(preds, j, k - 1) + {p} + Through(preds, p, |preds[p]|)
  }

  ghost function Ancestors(preds: Preds, j: nat): set<nat>
    requires Backward(preds) && j < |preds|
  {
    Through(preds, j, |preds[j]|)
  }

  lemma {:induction false} ThroughIs(preds: Preds, j: nat, k: nat, i: nat)
    requires Backward(preds) && j < |preds| && k <= |preds[j]|
    ensures i in Through(preds, j, k) <==>
            exists m :: 0 <= m < k && (i == preds[j][m] || i in Ancestors(preds, preds[j][m]))
  {
    if k > 0 {
      ThroughIs(preds, j, k - 1, i);
    }
  }

  lemma {:induction false} ChainIsAncestors(preds: Preds, via: seq<nat>)
    requires Backward(preds) && Chain(preds, via)
    ensures via[0] in Ancestors(preds, via[|via| - 1])
    decreases |via|
  {
    var n := |via|;
    var p, j := via[n - 2], via[n - 2 + 1];
    assert p in preds[j];
    var m :| 0 <= m < |preds[j]| && preds[j][m] == p;
    if n > 2 {
      assert Chain(preds, via[..n - 1]);
      ChainIsAncestors(preds, via[..n - 1]);
    }
    ThroughIs(preds, j, |preds[j]|, via[0]);
  }

  lemma {:induction false} AncestorHasChain(preds: Preds, i: nat, j: nat)
    requires Backward(preds) && j < |preds| && i in Ancestors(preds, j)
    ensures Reaches(preds, i, j)
    decreases j
  {
    ThroughIs(preds, j, |preds[j]|, i);
    var m :| 0 <= m < |preds[j]| && (i == preds[j][m] || i in Ancestors(preds, preds[j][m]));
    var p := preds[j][m];
    if i == p {
      assert Chain(preds, [i, j]);
    } else {
      AncestorHasChain(preds, i, p);
      var via :| Chain(preds, via) && via[0] == i && via[|via| - 1] == p;
      assert Chain(preds, via + [j]);
    }
  }

  /** One pass over predecessor lists that only point backwards collects the whole closure. */
  lemma AncestorsAreClosure(preds: Preds, i: nat, j: nat)
    requires Backward(preds) && j < |preds|
    ensures i in Ancestors(preds, j) <==> Reaches(preds, i, j)
  {
    if Reaches(preds, i, j) {
      var via :| Chain(preds, via) && via[0] == i && via[|via| - 1] == j;
      ChainIsAncestors(preds, via);
    }
    if i in Ancestors(preds, j) {
      AncestorHasChain(preds, i, j);
    }
  }

  /** Fills row `j` of the matrix from the rows of its predecessors. */
  method FillRow(preds: Preds, reach: array2<bool>, j: nat)
    requires Backward(preds) && j < |preds| && reach.Length0 == reach.Length1 == |preds|
    requires forall r, i: nat :: 0 <= r < j && i < |preds| ==> (reach[r, i] <==> i in Ancestors(preds, r))
    requires forall i: nat :: i < |preds| ==> !reach[j, i]
    modifies reach
    ensures forall r, i: nat :: 0 <= r < |preds| && r != j && i < |preds| ==> reach[r, i] == old(reach[r, i])
    ensures forall i: nat :: i < |preds| ==> (reach[j, i] <==> i in Ancestors(preds, j))
  {
    for k := 0 to |preds[j]|
      invariant forall r, i: nat :: 0 <= r < |preds| && r != j && i < |preds| ==> reach[r, i] == old(reach[r, i])
      invariant forall i: nat :: i < |preds| ==> (reach[j, i] <==> i in Through(preds, j, k))
    {
      var p := preds[j][k];
      reach[j, p] := true;
      for n := 0 to |preds|
        invariant forall r, i: nat :: 0 <= r < |preds| && r != j && i < |preds| ==> reach[r, i] == old(reach[r, i])
        invariant forall i: nat :: i < |preds| ==>
          (reach[j, i] <==> i in Through(preds, j, k) || i == p || (i < n && i in Ancestors(preds, p)))
      {
        reach[j, n] := reach[j, n] || reach[p, n];
      }
    }
  }

  ghost predicate IsClosure(preds: Preds, reach: array2<bool>)
    reads reach
  {
    && reach.Length0 == reach.Length1 == |preds|
    && forall i: nat, j: nat :: i < |preds| && j < |preds| ==> (reach[j, i] <==> Reaches(preds, i, j))
  }

  /** The forward pass computes exactly the transitive closure. */
  method Closure(preds: Preds) returns (reach: array2<bool>)
    requires Backward(preds)
    ensures fresh(reach) && IsClosure(preds, reach)
  {
    reach := new bool[|preds|, |preds|]((_, _) => false);
    for j := 0 to |preds|
      invariant forall r, i: nat :: 0 <= r < j && i < |preds| ==> (reach[r, i] <==> i in Ancestors(preds, r))
      invariant forall r, i: nat :: j <= r < |preds| && i < |preds| ==> !reach[r, i]
    {
      FillRow(preds, reach, j);
    }
    forall i: nat, j: nat | i < |preds| && j < |preds| ensures reach[j, i] <==> Reaches(preds, i, j) {
      AncestorsAreClosure(preds, i, j);
    }
  }

  /** The stamps of events `i` and `j` agree with the truth about them. */
  ghost predicate Agrees(stamps: seq<Stamp>, preds: Preds, i: nat, j: nat)
    requires i < |stamps| && j < |stamps|
  {
    && (HappenedBefore(stamps[i], stamps[j]) <==> Reaches(preds, i, j))
    && (Reaches(preds, i, j) ==> stamps[i].lamport < stamps[j].lamport)
  }

  /** Passes exactly when every pair of distinct events is stamped as the graph says. */
  method CheckCausality(stamps: seq<Stamp>, preds: Preds) returns (ok: bool)
    requires |stamps| == |preds| && Backward(preds)
    ensures ok <==> forall i: nat, j: nat :: i < |stamps| && j < |stamps| && i != j ==> Agrees(stamps, preds, i, j)
  {
    var reach := Closure(preds);
    for i := 0 to |stamps|
      invariant IsClosure(preds, reach)
      invariant forall i': nat, j: nat :: i' < i && j < |stamps| && i' != j ==> Agrees(stamps, preds, i', j)
    {
      for j := 0 to |stamps|
        invariant IsClosure(preds, reach)
        invariant forall i': nat, j: nat :: i' < i && j < |stamps| && i' != j ==> Agrees(stamps, preds, i', j)
        invariant forall j': nat :: j' < j && i != j' ==> Agrees(stamps, preds, i, j')
      {
        if i != j {
          var order := CompareEntries(stamps[i].vector, stamps[j].vector);
          assert reach[j, i] <==> Reaches(preds, i, j);
          assert HappenedBefore(stamps[i], stamps[j]) <==> order == Clocks.Before;
          if (order == Clocks.Before) != reach[j, i] || (reach[j, i] && stamps[i].lamport >= stamps[j].lamport) {
            assert !Agrees(stamps, preds, i, j);
            return false;
          }
        }
      }
    }
    ok := true;
  }

  // ---- on a recorded run the check always passes ----

  /** The predecessor lists the harness keeps: the send received, then the process's previous event. */
  function PredsOf(log: Log, j: nat): seq<nat>
    requires j < |log|
  {
    var own := LastOf(log, log[j].process, j);
    (match log[j].cause case Some(s) => [s] case None => []) + (match own case Some(k) => [k] case None => [])
  }

  function AllPreds(log: Log): (preds: Preds)
    ensures |preds| == |log|
  {
    seq(|log|, j requires 0 <= j < |log| => PredsOf(log, j))
  }

  function StampsOf(log: Log): (stamps: seq<Stamp>)
    ensures |stamps| == |log|
  {
    seq(|log|, j requires 0 <= j < |log| => log[j].stamp)
  }

  lemma PredsAreEdges(log: Log, i: nat, j: nat)
    requires Recorded(log) && i < |log| && j < |log|
    ensures i in AllPreds(log)[j] <==> Edge(log, i, j)
  {
    assert Stamped(log, j);
  }

  lemma RecordedBackward(log: Log)
    requires Recorded(log)
    ensures Backward(AllPreds(log))
  {
    forall i, k | 0 <= i < |log| && 0 <= k < |AllPreds(log)[i]| ensures AllPreds(log)[i][k] < i {
      assert Stamped(log, i);
    }
  }

  lemma ChainsArePaths(log: Log, via: seq<nat>)
    requires Recorded(log)
    ensures Chain(AllPreds(log), via) <==> Path(log, via)
  {
    if |via| >= 2 && forall k :: 0 <= k < |via| ==> via[k] < |log| {
      forall k | 0 <= k < |via| - 1 ensures via[k] in AllPreds(log)[via[k + 1]] <==> Edge(log, via[k], via[k + 1]) {
        PredsAreEdges(log, via[k], via[k + 1]);
      }
    }
  }

  /** The check the harness runs at the end passes on every log a run can record. */
  lemma RecordedRunsPass(log: Log, i: nat, j: nat)
    requires Recorded(log) && i < |log| && j < |log| && i != j
    ensures Agrees(StampsOf(log), AllPreds(log), i, j)
  {
    forall via ensures Chain(AllPreds(log), via) <==> Path(log, via) {
      ChainsArePaths(log, via);
    }
    assert Reaches(AllPreds(log), i, j) <==> Leads(log, i, j);
    StampsAreExact(log, i, j);
    PastIsGroundTruth(log, i, j);
    if Leads(log, i, j) {
      LamportGrows(log, i, j);
    }
  }
}
