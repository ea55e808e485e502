/** What a request reads on each rank, told from the whole system's run: the tensors last put there. */
module ProtocolReads {
  import opened Wrappers
  import opened Types
  import opened StoreModel
  import opened StoreInvariants
  import opened StoreOperations
  import opened StoreTheorems
  import opened StoreHistory
  import opened ProtocolModel
  import opened ProtocolRuns
  import opened ProtocolPins

  /** The operations of a run that reach one rank's store. */
  function RankTrace(s: Sys, actions: seq<Action>, k: nat): seq<Op>
    decreases |actions|
  {
    if actions == [] then [] else [OperationOn(s, actions[0], k)] + RankTrace(Step(s, actions[0]), actions[1..], k)
  }

  /** A rank's store only ever changes by its own operations. */
  lemma {:induction false} RankRunsAlone(s: Sys, actions: seq<Action>, k: nat)
    requires k < |s.ranks|
    ensures |RunSys(s, actions).ranks| == |s.ranks|
    ensures RunSys(s, actions).ranks[k] == Run(s.ranks[k], RankTrace(s, actions, k))
    decreases |actions|
  {
    hide Step, Apply, OperationOn;
    if actions != [] {
      StepIsOneOperation(s, actions[0], k);
      RankRunsAlone(Step(s, actions[0]), actions[1..], k);
      var op, rest := OperationOn(s, actions[0], k), RankTrace(Step(s, actions[0]), actions[1..], k);
      assert ([op] + rest)[0] == op && ([op] + rest)[1..] == rest;
    }
  }

  /** Reading a layer of a plan's segment on any rank gives the tensor that was last put for it on that rank, at every
      later moment until the request is cleaned up or released, and no other layer can be read. */
  lemma PlannedReadsReturnTheLastPut(n: nat, chunkSize: nat, limits: seq<nat>, sparse: bool, actions: seq<Action>,
                                     more: seq<Action>, r: RequestId, plan: BlendPlan, k: nat, x: BlendSegment,
                                     layer: int)
    requires n > 0 && chunkSize > 0 && |limits| == n && k < n && x in plan.segments
    requires Holds(RunSys(Start(n, chunkSize, limits, sparse), actions), r, plan)
    requires forall a :: a in more ==> !Ends(a, r)
    ensures var s := RunSys(Start(n, chunkSize, limits, sparse), actions);
            var trace := RankTrace(Start(n, chunkSize, limits, sparse), actions, k);
            var put := LastPut(Empty(chunkSize, limits[k]), trace, x.segmentId, layer, None);
            && |s.ranks| == |RunSys(s, more).ranks| == n && IsCommitted(s.ranks[k], x.segmentId)
            && (put.Some? <==> 0 <= layer < s.ranks[k].entries[x.segmentId].numLayers)
            && GetLayer(RunSys(s, more).ranks[k], r, x, layer).1
               == if put.Some? then Ok(put.value) else Raise(NotStored)
  {
    hide RunSys, Run, Reachable, GetLayer, LastPut, Holds, Ends, PinnedThroughout;
    var start := Start(n, chunkSize, limits, sparse);
    var s := RunSys(start, actions);
    assert Reachable(s) by { ReachableByRun(n, chunkSize, limits, sparse, actions); }
    RankRunsAlone(start, actions, k);
    PlannedIsPinned(s, r, plan, k, x);
    var trace := RankTrace(start, actions, k);
    NothingMore(s.ranks[k]);
    ReadsReturnTheLastPut(chunkSize, limits[k], trace, [], r, x, layer);
    PlannedTensorsAreStable(s, more, r, plan, k, x, layer);
  }

  lemma ReachableByRun(n: nat, chunkSize: nat, limits: seq<nat>, sparse: bool, actions: seq<Action>)
    requires n > 0 && chunkSize > 0 && |limits| == n
    ensures Reachable(RunSys(Start(n, chunkSize, limits, sparse), actions))
  {
    hide RunSys, Start;
  }

  lemma NothingMore(st: Store)
    ensures Run(st, []) == st
  {
  }

  lemma PlannedIsPinned(s: Sys, r: RequestId, plan: BlendPlan, k: nat, x: BlendSegment)
    requires Reachable(s) && Holds(s, r, plan) && x in plan.segments && k < |s.ranks|
    ensures r in s.ranks[k].pins && x.segmentId in s.ranks[k].pins[r]
  {
    hide Reachable, Holds, SysInv;
    ReachableIsSound(s);
    SettledPlanStaysPinned(s, [], r, plan, k, x);
  }
}
