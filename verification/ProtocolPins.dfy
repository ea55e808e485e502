/** How long the pins behind an accepted plan last, and with them the tensors that can be read. */
module ProtocolPins {
  import opened Wrappers
  import opened Hashing
  import opened Types
  import opened Matching
  import opened StoreModel
  import opened StoreInvariants
  import opened StoreOperations
  import opened StoreTheorems
  import opened ProtocolModel
  import opened Protocol
  import opened ProtocolRuns

  /** Cleaning the request up, or a worker process giving its pins back. */
  predicate Ends(a: Action, r: RequestId) {
    (a.Cleanup? && a.request == r) || (a.RankOp? && a.op == OpRelease(r))
  }

  /** The plan stays the request's plan: picked up or waiting to be, and its pins not given back. */
  ghost predicate Holds(s: Sys, r: RequestId, plan: BlendPlan) {
    SettledPlan(s, r) == Some(plan) && r !in s.released
  }

  lemma GetMatchedHolds(s: Sys, job: Job, cacheable: bool, r: RequestId, plan: BlendPlan)
    requires BooksOk(s) && Holds(s, r, plan)
    ensures Holds(DoGetMatched(s, job, cacheable), r, plan)
  {
  }

  lemma CleanupHolds(s: Sys, q: RequestId, r: RequestId, plan: BlendPlan)
    requires Holds(s, r, plan) && q != r
    ensures Holds(DoCleanup(s, q), r, plan)
  {
    hide WithoutTicket, Queued;
  }

  lemma FinishHolds(s: Sys, other: BlendPlan, r: RequestId, plan: BlendPlan)
    requires BooksOk(s) && s.worker.LooksUp() && Holds(s, r, plan)
    ensures Holds(Finish(s, other), r, plan)
  {
  }

  lemma DecideHolds(s: Sys, accept: bool, r: RequestId, plan: BlendPlan)
    requires BooksOk(s) && Holds(s, r, plan)
    ensures Holds(DoDecide(s, accept), r, plan)
  {
    hide BooksOk, PlanFor, Keep, Finish;
    match s.worker
    case Undoing(_, job, waiting, rejected) =>
      if waiting == {} && rejected { FinishHolds(s, EmptyPlan(job.apc), r, plan); }
    case Returned(_, job, segments) =>
      FinishHolds(s, EmptyPlan(job.apc), r, plan);
      FinishHolds(s, PlanFor(job, segments, s.sparse), r, plan);
    case _ =>
  }

  lemma WorkerHolds(s: Sys, a: Action, r: RequestId, plan: BlendPlan)
    requires Holds(s, r, plan) && !Ends(a, r) && !a.GetMatched? && !a.Cleanup? && !a.Decide?
    ensures Holds(Step(s, a), r, plan)
  {
    hide Validate, Pin, Release, Apply, Scan, Shift;
  }

  /** Only cleaning the request up, or giving its pins back, ends a settled plan. */
  lemma StepHolds(s: Sys, a: Action, r: RequestId, plan: BlendPlan)
    requires SysInv(s) && Holds(s, r, plan) && !Ends(a, r)
    ensures Holds(Step(s, a), r, plan)
  {
    hide InvHolding, StatusOk, PhaseOk, BooksOk, Holds, DoGetMatched, DoCleanup, DoDecide;
    match a
    case GetMatched(job, cacheable) => GetMatchedHolds(s, job, cacheable, r, plan);
    case Cleanup(q) => CleanupHolds(s, q, r, plan);
    case Decide(accept) => DecideHolds(s, accept, r, plan);
    case _ => WorkerHolds(s, a, r, plan);
  }

  lemma HeldIsPinned(s: Sys, r: RequestId, plan: BlendPlan, k: nat)
    requires SysInv(s) && Holds(s, r, plan) && k < |s.ranks|
    ensures PinsOf(s.ranks[k], r) == SegmentIds(plan.segments)
  {
    hide InvHolding, PhaseOk;
    assert StatusOk(s, r);
  }

  /** From a settled plan on, as long as nobody cleans the request up or gives its pins back, every segment of the
      plan stays pinned on every rank. */
  lemma {:induction false} SettledPlanStaysPinned(s: Sys, actions: seq<Action>, r: RequestId, plan: BlendPlan, k: nat,
                                                  x: BlendSegment)
    requires SysInv(s) && Holds(s, r, plan) && x in plan.segments && k < |s.ranks|
    requires forall a :: a in actions ==> !Ends(a, r)
    ensures PinnedThroughout(s, actions, r, k, x.segmentId)
    decreases |actions|
  {
    hide SysInv, Holds, Step;
    HeldIsPinned(s, r, plan, k);
    SegmentIdsMembers(plan.segments);
    if actions != [] {
      StepHolds(s, actions[0], r, plan);
      StepKeeps(s, actions[0]);
      StepIsOneOperation(s, actions[0], k);
      SettledPlanStaysPinned(Step(s, actions[0]), actions[1..], r, plan, k, x);
    }
  }

  /** So every layer of every planned segment reads the same on every rank, whatever else happens: puts, aborts,
      evictions, other lookups, other requests coming and going. */
  lemma PlannedTensorsAreStable(s: Sys, actions: seq<Action>, r: RequestId, plan: BlendPlan, k: nat, x: BlendSegment,
                                layer: int)
    requires Reachable(s) && Holds(s, r, plan) && x in plan.segments && k < |s.ranks|
    requires forall a :: a in actions ==> !Ends(a, r)
    ensures var after := RunSys(s, actions);
            && |after.ranks| == |s.ranks|
            && IsCommitted(s.ranks[k], x.segmentId)
            && (GetLayer(s.ranks[k], r, x, layer).1.Ok? <==> InRange(s.ranks[k].entries[x.segmentId], layer))
            && GetLayer(after.ranks[k], r, x, layer).1 == GetLayer(s.ranks[k], r, x, layer).1
  {
    hide SysInv, Holds, GetLayer, Reachable;
    ReachableIsSound(s);
    SettledPlanStaysPinned(s, actions, r, plan, k, x);
    PinnedTensorsAreStable(s, actions, r, k, x, layer);
    RankIsSound(s, k);
    PinnedLayersReadable(s.ranks[k], r, x, layer);
  }

  lemma RankIsSound(s: Sys, k: nat)
    requires SysInv(s) && k < |s.ranks|
    ensures Inv(s.ranks[k])
  {
    hide InvHolding, StatusOk, PhaseOk, BooksOk;
  }

  /** A lookup that returns segments, is accepted and has not been cleaned up meanwhile settles its plan. */
  lemma AcceptedLookupSettles(s: Sys)
    requires Reachable(s) && s.worker.Returned? && s.worker.segments != []
    requires CurrentLookup(s, s.worker.job.request) && s.worker.job.request !in s.released
    ensures var job := s.worker.job;
            Holds(Step(s, Decide(true)), job.request, PlanFor(job, s.worker.segments, s.sparse))
  {
    hide Reachable, InvHolding, StatusOk, PlanFor;
    ReachableIsSound(s);
    ReturnedPlan(s.worker.job, s.chunkSize, s.worker.segments, s.sparse);
  }
}
