/** Scheduler actions, whole runs, and the guarantees the protocol gives in every reachable state. */
module ProtocolRuns {
  import opened Wrappers
  import opened Hashing
  import opened Types
  import opened Matching
  import opened StoreModel
  import opened StoreInvariants
  import opened StoreOperations
  import opened StoreTheorems
  import opened ProtocolModel
  import opened Protocol
  import opened ProtocolSteps

  // ---------------------------------------------------------------- scheduler actions

  /** Steps that leave the ranks, the worker and the release history alone. */
  ghost predicate SameRun(s: Sys, s': Sys) {
    s'.ranks == s.ranks && s'.worker == s.worker && s'.released == s.released && s'.chunkSize == s.chunkSize
  }

  lemma SameRunFacts(s: Sys, s': Sys, r: RequestId)
    requires SameRun(s, s')
    ensures Quiet(s', r) == Quiet(s, r) && BeingDrained(s', r) == BeingDrained(s, r)
    ensures forall segments :: PinnedEverywhere(s', r, segments) == PinnedEverywhere(s, r, segments)
  {
    PinFactsSame(s, s', r);
    if s.worker.Draining? {
      forall k | 0 <= k < |s.ranks| ensures NoPins(s', r, k) == NoPins(s, r, k) {}
    }
  }

  lemma SameRunPhase(s: Sys, s': Sys)
    requires SameRun(s, s') && PhaseOk(s)
    ensures PhaseOk(s')
  {
    hide Planable, SuffixPlanable, Pinless, PinlessOutside, PinnedEverywhere, PinnedOutside;
    forall r ensures PinsKeptOrReleased(s, s', r) {}
    PhaseFrame(s, s');
  }

  lemma CoveredAppend(queue: seq<Task>, task: Task, r: RequestId)
    requires Covered(queue, r)
    ensures Covered(queue + [task], r)
  {
    var i :| 0 <= i < |queue| && queue[i] == Cancel(r) && forall j :: 0 <= j < i ==> !IsLookup(queue[j], r);
    assert (queue + [task])[i] == Cancel(r);
  }

  lemma CancelQueuedAppend(queue: seq<Task>, task: Task, r: RequestId)
    requires CancelQueued(queue + [task], r) && task != Cancel(r)
    ensures CancelQueued(queue, r)
  {
    var i :| 0 <= i < |queue + [task]| && (queue + [task])[i] == Cancel(r);
    assert queue[i] == Cancel(r);
  }

  /** The state after the bookkeeping every call does first. */
  function Greeted(s: Sys, r: RequestId): Sys {
    s.(cancelled := s.cancelled - {r}, live := s.live + {r})
  }

  lemma EnqueueBooks(s: Sys, job: Job)
    requires BooksOk(s) && job.request !in s.futures && job.request !in s.plans && job.apc < |job.prompt|
    requires job.request !in s.cancelled && job.request in s.live
    ensures BooksOk(s.(futures := s.futures[job.request := s.nextTicket],
                       queue := s.queue + [Lookup(s.nextTicket, job)], nextTicket := s.nextTicket + 1))
  {
    var task := Lookup(s.nextTicket, job);
    forall i | 0 <= i < |s.queue| ensures (s.queue + [task])[i] == s.queue[i] {}
    QueuedAppend(s.queue, task);
  }

  lemma QueuedAppend(queue: seq<Task>, task: Task)
    requires task.Lookup?
    ensures forall t :: t != task.ticket && Queued(queue + [task], t) ==> Queued(queue, t)
  {
    forall t | t != task.ticket && Queued(queue + [task], t) ensures Queued(queue, t) {
      var i :| 0 <= i < |queue + [task]| && (queue + [task])[i].Lookup? && (queue + [task])[i].ticket == t;
      assert queue[i] == (queue + [task])[i];
    }
  }

  lemma GreetedBooks(s: Sys, r: RequestId)
    requires BooksOk(s)
    ensures BooksOk(Greeted(s, r))
  {
  }

  lemma PickUpBooks(s: Sys, r: RequestId, plan: BlendPlan)
    requires BooksOk(s) && r in s.live && (forall i :: 0 <= i < |s.queue| ==> !IsLookup(s.queue[i], r))
    ensures BooksOk(s.(futures := s.futures - {r}, plans := s.plans[r := plan]))
  {
  }

  lemma GetMatchedBooks(s: Sys, job: Job, cacheable: bool)
    requires BooksOk(s)
    ensures BooksOk(DoGetMatched(s, job, cacheable))
  {
    hide Queued;
    var r, g := job.request, Greeted(s, job.request);
    GreetedBooks(s, r);
    NoLookupWithoutFuture(g, r);
    hide BooksOk;
    if cacheable && r !in g.plans {
      if r in g.futures {
        if g.futures[r] in g.results { PickUpBooks(g, r, g.results[g.futures[r]]); }
      } else if |job.prompt| - job.apc <= g.chunkSize {
        assert g.futures - {r} == g.futures;
        PickUpBooks(g, r, EmptyPlan(job.apc));
      } else {
        EnqueueBooks(g, job);
      }
    }
  }

  lemma NoLookupWithoutFuture(s: Sys, r: RequestId)
    requires BooksOk(s)
    ensures r !in s.futures || s.futures[r] in s.results ==> forall i :: 0 <= i < |s.queue| ==> !IsLookup(s.queue[i], r)
  {
  }

  lemma GetMatchedStatus(s: Sys, job: Job, cacheable: bool, r: RequestId)
    requires BooksOk(s) && StatusOk(s, r)
    ensures StatusOk(DoGetMatched(s, job, cacheable), r)
  {
    var s' := DoGetMatched(s, job, cacheable);
    SameRunFacts(s, s', r);
    if s'.queue != s.queue {
      var task := Lookup(s.nextTicket, job);
      assert s'.queue == s.queue + [task];
      if CancelQueued(s'.queue, r) { CancelQueuedAppend(s.queue, task, r); }
      if Covered(s.queue, r) { CoveredAppend(s.queue, task, r); }
    }
    GetMatchedPlans(s, job, cacheable, r);
  }

  /** What the scheduler and the worker have settled for r is the same before and after. */
  ghost predicate SamePlans(s: Sys, s': Sys, r: RequestId) {
    SettledPlan(s', r) == SettledPlan(s, r) && (CurrentLookup(s', r) <==> CurrentLookup(s, r)) && SameRun(s, s')
  }

  lemma PickUpPlans(s: Sys, q: RequestId, r: RequestId)
    requires BooksOk(s) && q in s.futures && s.futures[q] in s.results
    ensures SamePlans(s, s.(futures := s.futures - {q}, plans := s.plans[q := s.results[s.futures[q]]]), r)
  {
    hide QueueOk, Queued;
  }

  lemma EmptyPlans(s: Sys, q: RequestId, apc: int, r: RequestId)
    requires q !in s.futures && q !in s.plans
    ensures SamePlans(s, s.(plans := s.plans[q := EmptyPlan(apc)]), r)
  {
  }

  lemma EnqueuePlans(s: Sys, job: Job, r: RequestId)
    requires BooksOk(s) && job.request !in s.futures && job.request !in s.plans
    ensures SamePlans(s, s.(futures := s.futures[job.request := s.nextTicket],
                            queue := s.queue + [Lookup(s.nextTicket, job)],
                            nextTicket := s.nextTicket + 1), r)
  {
    hide QueueOk, Queued;
  }

  /** A settled plan is at most moved, never changed, and no other becomes settled. */
  lemma GetMatchedPlans(s: Sys, job: Job, cacheable: bool, r: RequestId)
    requires BooksOk(s)
    ensures SamePlans(s, DoGetMatched(s, job, cacheable), r)
  {
    var q, g := job.request, Greeted(s, job.request);
    GreetedBooks(s, q);
    hide BooksOk;
    if cacheable && q !in g.plans {
      if q in g.futures {
        if g.futures[q] in g.results { PickUpPlans(g, q, r); }
      } else if |job.prompt| - job.apc <= g.chunkSize {
        EmptyPlans(g, q, job.apc, r);
      } else {
        EnqueuePlans(g, job, r);
      }
    }
  }

  lemma GetMatchedKeeps(s: Sys, job: Job, cacheable: bool)
    requires SysInv(s)
    ensures SysInv(DoGetMatched(s, job, cacheable))
  {
    hide InvHolding, BooksOk, StatusOk, PhaseOk;
    GetMatchedBooks(s, job, cacheable);
    SameRunPhase(s, DoGetMatched(s, job, cacheable));
    forall r ensures StatusOk(DoGetMatched(s, job, cacheable), r) {
      GetMatchedStatus(s, job, cacheable, r);
    }
  }

  lemma {:induction false} WithoutTicketElements(queue: seq<Task>, ticket: nat)
    ensures forall t :: t in WithoutTicket(queue, ticket) <==> t in queue && !(t.Lookup? && t.ticket == ticket)
  {
    if queue != [] {
      WithoutTicketElements(queue[1..], ticket);
    }
  }

  /** No later lookup or cancel of a queued lookup's request. */
  ghost predicate LookupsLast(queue: seq<Task>) {
    forall i, j :: 0 <= i < j < |queue| && queue[i].Lookup? ==>
      !IsLookup(queue[j], queue[i].job.request) && queue[j] != Cancel(queue[i].job.request)
  }

  lemma {:induction false} WithoutTicketOrder(queue: seq<Task>, ticket: nat)
    requires LookupsLast(queue)
    ensures LookupsLast(WithoutTicket(queue, ticket))
  {
    if queue != [] {
      var rest := WithoutTicket(queue[1..], ticket);
      WithoutTicketOrder(queue[1..], ticket);
      WithoutTicketElements(queue[1..], ticket);
      if queue[0].Lookup? {
        forall j | 0 <= j < |rest|
          ensures !IsLookup(rest[j], queue[0].job.request) && rest[j] != Cancel(queue[0].job.request)
        {
          assert rest[j] in queue[1..];
          var k :| 0 <= k < |queue[1..]| && queue[1..][k] == rest[j];
          assert queue[k + 1] == rest[j];
        }
      }
    }
  }

  lemma {:induction false} WithoutTicketCovered(queue: seq<Task>, ticket: nat, r: RequestId)
    requires Covered(queue, r)
    ensures Covered(WithoutTicket(queue, ticket), r)
  {
    if queue[0] == Cancel(r) {
      assert WithoutTicket(queue, ticket)[0] == Cancel(r);
    } else {
      CoveredTail(queue, r);
      WithoutTicketCovered(queue[1..], ticket, r);
      if !(queue[0].Lookup? && queue[0].ticket == ticket) {
        CoveredCons(queue[0], WithoutTicket(queue[1..], ticket), r);
      }
    }
  }

  lemma CoveredCons(task: Task, queue: seq<Task>, r: RequestId)
    requires Covered(queue, r) && !IsLookup(task, r)
    ensures Covered([task] + queue, r)
  {
    var i :| 0 <= i < |queue| && queue[i] == Cancel(r) && forall j :: 0 <= j < i ==> !IsLookup(queue[j], r);
    assert ([task] + queue)[i + 1] == Cancel(r);
    forall j | 0 <= j < i + 1 ensures !IsLookup(([task] + queue)[j], r) {
      if j > 0 { assert ([task] + queue)[j] == queue[j - 1]; }
    }
  }

  /** The queue as cleanup leaves it, before the CANCEL is appended. */
  function Pruned(s: Sys, r: RequestId): seq<Task> {
    if r in s.futures && Queued(s.queue, s.futures[r]) then WithoutTicket(s.queue, s.futures[r]) else s.queue
  }

  /** After pruning no lookup of the cleaned-up request is left. */
  lemma PrunedHasNoLookup(s: Sys, r: RequestId)
    requires BooksOk(s)
    ensures forall t :: t in Pruned(s, r) ==> t in s.queue && !IsLookup(t, r)
    ensures LookupsLast(Pruned(s, r))
  {
    forall t | t in s.queue && IsLookup(t, r)
      ensures r in s.futures && s.futures[r] == t.ticket && Queued(s.queue, t.ticket) {
      LookupIsQueued(s, t);
    }
    if r in s.futures {
      WithoutTicketElements(s.queue, s.futures[r]);
      WithoutTicketOrder(s.queue, s.futures[r]);
    }
  }

  /** A queued lookup's request holds its ticket. */
  lemma LookupIsQueued(s: Sys, t: Task)
    requires BooksOk(s) && t in s.queue && t.Lookup?
    ensures t.job.request in s.futures && s.futures[t.job.request] == t.ticket && Queued(s.queue, t.ticket)
  {
    var i :| 0 <= i < |s.queue| && s.queue[i] == t;
  }

  lemma QueuedShrinks(queue: seq<Task>, queue': seq<Task>)
    requires forall i :: 0 <= i < |queue'| && queue'[i].Lookup? ==> queue'[i] in queue
    ensures forall t :: Queued(queue', t) ==> Queued(queue, t)
  {
  }

  /** The pruned queue, closed by a CANCEL, is in order for the remaining futures. */
  lemma CleanupQueue(s: Sys, r: RequestId)
    requires BooksOk(s)
    ensures QueueOk(Pruned(s, r) + [Cancel(r)], s.futures - {r}, s.results, s.nextTicket)
  {
    var pruned, queue := Pruned(s, r), Pruned(s, r) + [Cancel(r)];
    PrunedHasNoLookup(s, r);
    forall i | 0 <= i < |queue| && queue[i].Lookup?
      ensures queue[i] in s.queue && queue[i].job.request != r
    {
      assert queue[i] in pruned;
    }
  }

  lemma CleanupWorker(s: Sys, r: RequestId)
    requires BooksOk(s)
    ensures WorkerOk(s.worker, Pruned(s, r) + [Cancel(r)], s.futures - {r}, s.results, s.nextTicket)
  {
    var pruned, queue := Pruned(s, r), Pruned(s, r) + [Cancel(r)];
    PrunedHasNoLookup(s, r);
    forall i | 0 <= i < |queue| && queue[i].Lookup? ensures queue[i] in s.queue {
      assert queue[i] in pruned;
    }
    QueuedShrinks(s.queue, queue);
  }

  lemma CleanupBooks(s: Sys, r: RequestId)
    requires BooksOk(s)
    ensures BooksOk(DoCleanup(s, r))
  {
    CleanupQueue(s, r);
    CleanupWorker(s, r);
    hide QueueOk, WorkerOk;
    assert DoCleanup(s, r).queue == Pruned(s, r) + [Cancel(r)];
  }

  /** The cleaned-up request is covered by the CANCEL just queued. */
  lemma CleanupCovers(s: Sys, r: RequestId)
    requires BooksOk(s)
    ensures Covered(DoCleanup(s, r).queue, r)
  {
    var pruned := Pruned(s, r);
    PrunedHasNoLookup(s, r);
    var queue := pruned + [Cancel(r)];
    assert DoCleanup(s, r).queue == queue && queue[|pruned|] == Cancel(r);
    forall j | 0 <= j < |pruned| ensures !IsLookup(queue[j], r) { assert pruned[j] in pruned; }
  }

  /** Cleaning up another request neither uncovers a request nor queues a cancel of it. */
  lemma CleanupOther(s: Sys, q: RequestId, r: RequestId)
    requires BooksOk(s) && r != q
    ensures Covered(s.queue, r) ==> Covered(DoCleanup(s, q).queue, r)
    ensures CancelQueued(DoCleanup(s, q).queue, r) ==> CancelQueued(s.queue, r)
  {
    hide BooksOk;
    var s', pruned := DoCleanup(s, q), Pruned(s, q);
    PrunedHasNoLookup(s, q);
    if Covered(s.queue, r) {
      if q in s.futures { WithoutTicketCovered(s.queue, s.futures[q], r); }
      CoveredAppend(pruned, Cancel(q), r);
    }
    if CancelQueued(s'.queue, r) {
      CancelQueuedAppend(pruned, Cancel(q), r);
      var i :| 0 <= i < |pruned| && pruned[i] == Cancel(r);
      assert pruned[i] in s.queue;
    }
  }

  lemma CleanupStatus(s: Sys, q: RequestId, r: RequestId)
    requires BooksOk(s) && StatusOk(s, r)
    ensures StatusOk(DoCleanup(s, q), r)
  {
    var s' := DoCleanup(s, q);
    SameRunFacts(s, s', r);
    if r == q {
      CleanupCovers(s, r);
    } else {
      CleanupOther(s, q, r);
      assert CurrentLookup(s', r) == CurrentLookup(s, r) && SettledPlan(s', r) == SettledPlan(s, r);
    }
    hide BooksOk, PinnedEverywhere, Quiet, BeingDrained, Covered, CancelQueued;
  }

  lemma CleanupKeeps(s: Sys, r: RequestId)
    requires SysInv(s)
    ensures SysInv(DoCleanup(s, r))
  {
    hide InvHolding, BooksOk, StatusOk, PhaseOk;
    CleanupBooks(s, r);
    SameRunPhase(s, DoCleanup(s, r));
    forall q ensures StatusOk(DoCleanup(s, r), q) {
      CleanupStatus(s, r, q);
    }
  }

  // ---------------------------------------------------------------- runs

  lemma StepKeeps(s: Sys, a: Action)
    requires SysInv(s)
    ensures SysInv(Step(s, a))
  {
    hide SysInv;
    match a
    case RankOp(rank, op) => RankOpKeeps(s, rank, op);
    case GetMatched(job, cacheable) => GetMatchedKeeps(s, job, cacheable);
    case Cleanup(r) => CleanupKeeps(s, r);
    case Dequeue =>
      if s.worker.Idle? && s.queue != [] {
        if s.queue[0].Lookup? { DequeueLookupKeeps(s); } else { DequeueCancelKeeps(s); }
      }
    case Search => SearchKeeps(s);
    case Confirm => ConfirmKeeps(s);
    case ValidateRank(rank) => ValidateRankKeeps(s, rank);
    case PrefetchRank(rank) => PrefetchRankKeeps(s, rank);
    case CancelRank(rank) => CancelRankKeeps(s, rank);
    case Decide(accept) => DecideKeeps(s, accept);
  }

  lemma {:induction false} RunSysKeeps(s: Sys, actions: seq<Action>)
    requires SysInv(s)
    ensures SysInv(RunSys(s, actions))
    decreases |actions|
  {
    hide SysInv;
    if actions != [] {
      StepKeeps(s, actions[0]);
      RunSysKeeps(Step(s, actions[0]), actions[1..]);
    }
  }

  lemma StartIsSound(n: nat, chunkSize: nat, limits: seq<nat>, sparse: bool)
    requires n > 0 && chunkSize > 0 && |limits| == n
    ensures SysInv(Start(n, chunkSize, limits, sparse))
  {
    var s := Start(n, chunkSize, limits, sparse);
    forall k | 0 <= k < n ensures Inv(s.ranks[k]) { EmptyIsSound(chunkSize, limits[k]); }
    forall r ensures StatusOk(s, r) {
      assert Quiet(s, r);
    }
  }

  ghost predicate Reachable(s: Sys) {
    exists n: nat, chunkSize: nat, limits: seq<nat>, sparse: bool, actions: seq<Action> ::
      n > 0 && chunkSize > 0 && |limits| == n && s == RunSys(Start(n, chunkSize, limits, sparse), actions)
  }

  lemma ReachableIsSound(s: Sys)
    requires Reachable(s)
    ensures SysInv(s)
  {
    hide SysInv;
    var n: nat, chunkSize: nat, limits: seq<nat>, sparse: bool, actions: seq<Action> :|
      n > 0 && chunkSize > 0 && |limits| == n && s == RunSys(Start(n, chunkSize, limits, sparse), actions);
    StartIsSound(n, chunkSize, limits, sparse);
    RunSysKeeps(Start(n, chunkSize, limits, sparse), actions);
  }

  // ---------------------------------------------------------------- guarantees

  /** A returned lookup is all or nothing: a non-empty result is pinned, segment for segment, and committed on
      every rank (unless a worker process has released the request meanwhile), an empty one leaves no pin. */
  lemma LookupIsAllOrNothing(s: Sys)
    requires Reachable(s) && s.worker.Returned?
    ensures var r, segments := s.worker.job.request, s.worker.segments;
            && (segments == [] ==> forall k :: 0 <= k < |s.ranks| ==> r !in s.ranks[k].pins)
            && (segments != [] && r !in s.released ==>
                 forall k :: 0 <= k < |s.ranks| ==>
                   && PinsOf(s.ranks[k], r) == SegmentIds(segments)
                   && forall x :: x in segments ==> IsCommitted(s.ranks[k], x.segmentId))
  {
    ReachableIsSound(s);
    var r, segments := s.worker.job.request, s.worker.segments;
    forall k | 0 <= k < |s.ranks|
      ensures segments == [] ==> r !in s.ranks[k].pins
      ensures segments != [] && r !in s.released ==> forall x :: x in segments ==> IsCommitted(s.ranks[k], x.segmentId)
    {
      assert Inv(s.ranks[k]);
      if segments == [] {
        assert NoPins(s, r, k);
      } else if r !in s.released {
        PinnedSegmentsCommitted(s.ranks[k], r, segments);
      }
    }
  }

  lemma {:induction false} SegmentIdsMembers(segments: seq<BlendSegment>)
    ensures forall x :: x in segments ==> x.segmentId in SegmentIds(segments)
  {
    if segments != [] {
      SegmentIdsMembers(segments[1..]);
    }
  }

  lemma PinnedSegmentsCommitted(st: Store, r: RequestId, segments: seq<BlendSegment>)
    requires Inv(st) && PinsOf(st, r) == SegmentIds(segments)
    ensures forall x :: x in segments ==> IsCommitted(st, x.segmentId)
  {
    hide InvHolding;
    SegmentIdsMembers(segments);
    forall x | x in segments ensures IsCommitted(st, x.segmentId) {
      PinnedIsCounted(st, r, x.segmentId);
    }
  }

  /** If a rank still holds pins for a request that is no longer live, a CANCEL of it is queued and no lookup of
      it is, or that CANCEL is being delivered and has yet to reach this rank. */
  lemma PinsAreLiveOrBeingCancelled(s: Sys, r: RequestId, k: nat)
    requires Reachable(s) && r !in s.live && k < |s.ranks| && r in s.ranks[k].pins
    ensures CancelQueued(s.queue, r) || (s.worker.Draining? && s.worker.request == r && k in s.worker.waiting)
    ensures forall i :: 0 <= i < |s.queue| ==> !IsLookup(s.queue[i], r)
  {
    ReachableIsSound(s);
    assert StatusOk(s, r);
    assert Inv(s.ranks[k]);
    assert !NoPins(s, r, k);
  }

  /** Once the queue has drained, only live requests hold pins. */
  lemma DrainedQueueLeavesOnlyLivePins(s: Sys, r: RequestId, k: nat)
    requires Reachable(s) && s.queue == [] && s.worker.Idle? && k < |s.ranks| && r in s.ranks[k].pins
    ensures r in s.live
  {
    if r !in s.live {
      PinsAreLiveOrBeingCancelled(s, r, k);
    }
  }

  /** An accepted plan that the scheduler holds is backed by its pins on every rank until a worker process
      gives them back: no stale CANCEL of an earlier request with the same id is still to come. */
  lemma HeldPlansArePinned(s: Sys, r: RequestId)
    requires Reachable(s) && r in s.plans && s.plans[r].segments != []
    ensures !CancelQueued(s.queue, r) && !s.worker.WorksFor(r)
    ensures r !in s.released ==> forall k :: 0 <= k < |s.ranks| ==>
        PinsOf(s.ranks[k], r) == SegmentIds(s.plans[r].segments)
  {
    ReachableIsSound(s);
    assert StatusOk(s, r);
  }

  /** Every result the worker hands over is a well-formed plan over exactly the returned segments. */
  lemma ReturnedLookupPlans(s: Sys)
    requires Reachable(s) && s.worker.Returned?
    ensures var job, plan := s.worker.job, PlanFor(s.worker.job, s.worker.segments, s.sparse);
            && plan.WellFormed() && IsPlanOf(job, s.chunkSize, s.worker.segments, s.sparse, plan)
            && plan.allocationEnd < |job.prompt|
            && plan.GapTokens() == |Uncovered(s.worker.segments, job.apc, plan.allocationEnd)|
  {
    ReachableIsSound(s);
    ReturnedPlan(s.worker.job, s.chunkSize, s.worker.segments, s.sparse);
  }

  // ---------------------------------------------------------------- what the pinned chunks contain

  /** A returned segment claims one chunk of the prompt by its hash. */
  lemma ReturnedClaims(s: Sys, x: BlendSegment)
    requires Reachable(s) && s.worker.Returned? && x in s.worker.segments
    ensures Claims(s.worker.job, s.chunkSize, x)
  {
    hide Reachable, InvHolding, Claims, StatusOk;
    ReachableIsSound(s);
    var i :| 0 <= i < |s.worker.segments| && s.worker.segments[i] == x;
  }

  /** The tokens stored under a pinned segment on any rank hash like the prompt tokens they stand for; they are
      those tokens exactly when the two chunks do not collide. */
  lemma PinnedTokensMatchUpToCollision(s: Sys, k: nat, x: BlendSegment)
    requires Reachable(s) && s.worker.Returned? && s.worker.job.request !in s.released
    requires k < |s.ranks| && x in s.worker.segments
    ensures IsCommitted(s.ranks[k], x.segmentId)
    ensures var stored := s.ranks[k].entries[x.segmentId].record.tokens;
            && 0 <= x.targetStart <= x.TargetEnd() <= |s.worker.job.prompt|
            && HashOf(stored) == HashOf(s.worker.job.prompt[x.targetStart..x.TargetEnd()])
            && |stored| == x.Length()
  {
    hide Reachable, InvHolding, StatusOk, HashOf;
    LookupIsAllOrNothing(s);
    ReachableIsSound(s);
    ReturnedClaims(s, x);
    assert Inv(s.ranks[k]);
    InvEntry(s.ranks[k], x.segmentId);
  }

  function Window(prompt: seq<Token>, at: nat, length: nat): seq<Token>
    requires at + length <= |prompt|
  {
    prompt[at..at + length]
  }

  predicate Uncollided(stored: seq<Token>, window: seq<Token>) {
    HashOf(stored) == HashOf(window) ==> stored == window
  }

  /** These tokens share their hash with no window of the prompt but their own copies. */
  ghost predicate ClearOf(stored: seq<Token>, prompt: seq<Token>, chunkSize: nat) {
    forall p: nat :: p + chunkSize <= |prompt| ==> Uncollided(stored, Window(prompt, p, chunkSize))
  }

  /** No entry stored here has the hash of a chunk-sized window of the prompt while holding other tokens. */
  ghost predicate NoStoredCollision(st: Store, prompt: seq<Token>, chunkSize: nat) {
    forall id :: id in st.entries ==> ClearOf(st.entries[id].record.tokens, prompt, chunkSize)
  }

  /** On a rank without such an entry the pinned data is for the prompt's own tokens, under any interleaving. */
  lemma PinnedTokensMatch(s: Sys, k: nat, x: BlendSegment)
    requires Reachable(s) && s.worker.Returned? && s.worker.job.request !in s.released
    requires k < |s.ranks| && x in s.worker.segments
    requires NoStoredCollision(s.ranks[k], s.worker.job.prompt, s.chunkSize)
    ensures IsCommitted(s.ranks[k], x.segmentId) && 0 <= x.targetStart <= x.TargetEnd() <= |s.worker.job.prompt|
    ensures s.ranks[k].entries[x.segmentId].record.tokens == s.worker.job.prompt[x.targetStart..x.TargetEnd()]
  {
    hide Reachable, HashOf;
    PinnedTokensMatchUpToCollision(s, k, x);
    ReturnedClaims(s, x);
    var stored := s.ranks[k].entries[x.segmentId].record.tokens;
    assert ClearOf(stored, s.worker.job.prompt, s.chunkSize);
    assert Uncollided(stored, Window(s.worker.job.prompt, x.targetStart, s.chunkSize));
  }

  /** The store operation an action performs on rank k, if it performs one there. */
  function OperationOn(s: Sys, a: Action, k: nat): Op {
    match a
    case RankOp(rank, op) => if rank == k && !op.OpPin? && !op.OpClear? then op else OpTick(0)
    case Confirm => if s.worker.Confirming? && k == 0 then OpValidate(s.worker.found) else OpTick(0)
    case ValidateRank(rank) =>
      if s.worker.Validating? && rank == k && k in s.worker.waiting then OpValidate(s.worker.candidates) else OpTick(0)
    case PrefetchRank(rank) =>
      if s.worker.Prefetching? && rank == k && k in s.worker.waiting then OpPin(s.worker.job.request, s.worker.final)
        else OpTick(0)
    case CancelRank(rank) =>
      if s.worker.Undoing? && rank == k && k in s.worker.waiting then OpRelease(s.worker.job.request)
      else if s.worker.Draining? && rank == k && k in s.worker.waiting then OpRelease(s.worker.request)
      else OpTick(0)
    case _ => OpTick(0)
  }

  lemma LocalStepsKeepRanks(s: Sys, a: Action)
    requires a.GetMatched? || a.Cleanup? || a.Dequeue? || a.Search? || a.Decide?
    ensures Step(s, a).ranks == s.ranks
  {
    hide Scan, PlanFor, Keep, WithoutTicket, Queued, DoSearch, DoDecide;
    match a
    case Search => SearchKeepsRanks(s);
    case Decide(accept) => DecideKeepsRanks(s, accept);
    case _ =>
  }

  lemma SearchKeepsRanks(s: Sys)
    ensures DoSearch(s).ranks == s.ranks
  {
    hide Scan;
  }

  lemma DecideKeepsRanks(s: Sys, accept: bool)
    ensures DoDecide(s, accept).ranks == s.ranks
  {
    hide DoDecide;
    DecideShape(s, accept);
  }

  /** Every action is at most one operation on a given rank's store, and never `clear`. */
  lemma StepIsOneOperation(s: Sys, a: Action, k: nat)
    requires k < |s.ranks|
    ensures |Step(s, a).ranks| == |s.ranks|
    ensures OperationOn(s, a, k) != OpClear && Step(s, a).ranks[k] == Apply(s.ranks[k], OperationOn(s, a, k))
  {
    hide Apply, Step;
    NoTime(s.ranks[k]);
    if a.GetMatched? || a.Cleanup? || a.Dequeue? || a.Search? || a.Decide? {
      LocalStepsKeepRanks(s, a);
    } else {
      RankStepIsOneOperation(s, a, k);
    }
  }

  lemma NoTime(st: Store)
    ensures Apply(st, OpTick(0)) == st
  {
  }

  lemma RankStepIsOneOperation(s: Sys, a: Action, k: nat)
    requires k < |s.ranks| && !a.GetMatched? && !a.Cleanup? && !a.Dequeue? && !a.Search? && !a.Decide?
    ensures |Step(s, a).ranks| == |s.ranks|
    ensures OperationOn(s, a, k) != OpClear && Step(s, a).ranks[k] == Apply(s.ranks[k], OperationOn(s, a, k))
  {
    hide DoRankOp, DoConfirm, DoValidateRank, DoPrefetchRank, DoCancelRank, Apply, OperationOn;
    match a
    case RankOp(rank, op) => RankOpIsOneOperation(s, rank, op, k);
    case Confirm => ConfirmIsOneOperation(s, k);
    case ValidateRank(rank) => ValidateIsOneOperation(s, rank, k);
    case PrefetchRank(rank) => PrefetchIsOneOperation(s, rank, k);
    case CancelRank(rank) => CancelIsOneOperation(s, rank, k);
  }

  /** A step replaces rank k's store by what the operation makes of it. */
  ghost predicate OneOperation(s: Sys, s': Sys, op: Op, k: nat)
    requires k < |s.ranks|
  {
    |s'.ranks| == |s.ranks| && op != OpClear && s'.ranks[k] == Apply(s.ranks[k], op)
  }

  lemma RankOpIsOneOperation(s: Sys, rank: nat, op: Op, k: nat)
    requires k < |s.ranks|
    ensures OneOperation(s, DoRankOp(s, rank, op), OperationOn(s, RankOp(rank, op), k), k)
  {
    hide Apply;
    NoTime(s.ranks[k]);
  }

  lemma ConfirmIsOneOperation(s: Sys, k: nat)
    requires k < |s.ranks|
    ensures OneOperation(s, DoConfirm(s), OperationOn(s, Confirm, k), k)
  {
    hide Validate;
    NoTime(s.ranks[k]);
  }

  lemma ValidateIsOneOperation(s: Sys, rank: nat, k: nat)
    requires k < |s.ranks|
    ensures OneOperation(s, DoValidateRank(s, rank), OperationOn(s, ValidateRank(rank), k), k)
  {
    hide Validate;
    NoTime(s.ranks[k]);
  }

  lemma PrefetchIsOneOperation(s: Sys, rank: nat, k: nat)
    requires k < |s.ranks|
    ensures OneOperation(s, DoPrefetchRank(s, rank), OperationOn(s, PrefetchRank(rank), k), k)
  {
    hide Pin;
    NoTime(s.ranks[k]);
  }

  lemma CancelIsOneOperation(s: Sys, rank: nat, k: nat)
    requires k < |s.ranks|
    ensures OneOperation(s, DoCancelRank(s, rank), OperationOn(s, CancelRank(rank), k), k)
  {
    hide Release;
    NoTime(s.ranks[k]);
  }

  /** The request keeps the id pinned on rank k at every moment of the run. */
  ghost predicate PinnedThroughout(s: Sys, actions: seq<Action>, r: RequestId, k: nat, id: SegmentId)
    decreases |actions|
  {
    && k < |s.ranks| && id in PinsOf(s.ranks[k], r)
    && (actions == [] || PinnedThroughout(Step(s, actions[0]), actions[1..], r, k, id))
  }

  /** For as long as a request keeps a segment pinned, reading any of its layers on that rank gives the same
      tensor, under any interleaving of puts, aborts, evictions, lookups and other requests. */
  lemma {:induction false} PinnedTensorsAreStable(s: Sys, actions: seq<Action>, r: RequestId, k: nat, x: BlendSegment,
                                                  layer: int)
    requires SysInv(s) && PinnedThroughout(s, actions, r, k, x.segmentId)
    ensures var after := RunSys(s, actions);
            && |after.ranks| == |s.ranks|
            && GetLayer(after.ranks[k], r, x, layer).1 == GetLayer(s.ranks[k], r, x, layer).1
    decreases |actions|
  {
    if actions != [] {
      var s' := Step(s, actions[0]);
      StepIsOneOperation(s, actions[0], k);
      StepKeeps(s, actions[0]);
      SameReadAcross(s.ranks[k], OperationOn(s, actions[0], k), r, x, layer);
      PinnedTensorsAreStable(s', actions[1..], r, k, x, layer);
    }
  }

  lemma SameReadAcross(st: Store, op: Op, r: RequestId, x: BlendSegment, layer: int)
    requires Inv(st) && Inv(Apply(st, op)) && op != OpClear
    requires x.segmentId in PinsOf(st, r) && x.segmentId in PinsOf(Apply(st, op), r)
    ensures GetLayer(Apply(st, op), r, x, layer).1 == GetLayer(st, r, x, layer).1
  {
    hide InvHolding, Apply;
    PinnedIsCounted(st, r, x.segmentId);
    PinnedIsCounted(Apply(st, op), r, x.segmentId);
    EntryEvolves(st, op, x.segmentId);
  }
}
