/** Each action of the protocol keeps its invariant. */
module ProtocolSteps {
  import opened Wrappers
  import opened Hashing
  import opened Types
  import opened Matching
  import opened StoreModel
  import opened StoreInvariants
  import opened StoreOperations
  import opened StoreTheorems
  import opened ProtocolModel
  import opened Protocol

  // ---------------------------------------------------------------- frames

  /** Pins of r on every rank are as before. */
  ghost predicate SamePins(s: Sys, s': Sys, r: RequestId) {
    |s'.ranks| == |s.ranks| && forall k :: 0 <= k < |s.ranks| ==> PinsOf(s'.ranks[k], r) == PinsOf(s.ranks[k], r)
  }

  /** Pins of r are as before, or given back on some ranks with the release on record. */
  ghost predicate PinsKeptOrReleased(s: Sys, s': Sys, r: RequestId) {
    && |s'.ranks| == |s.ranks|
    && (r in s.released ==> r in s'.released)
    && forall k :: 0 <= k < |s.ranks| ==>
         PinsOf(s'.ranks[k], r) == PinsOf(s.ranks[k], r) || (PinsOf(s'.ranks[k], r) == [] && r in s'.released)
  }

  lemma PinFactsKept(s: Sys, s': Sys, r: RequestId, waiting: set<nat>, segments: seq<BlendSegment>)
    requires PinsKeptOrReleased(s, s', r)
    ensures Pinless(s, r) ==> Pinless(s', r)
    ensures PinlessOutside(s, r, waiting) ==> PinlessOutside(s', r, waiting)
    ensures r !in s'.released && PinnedEverywhere(s, r, segments) ==> PinnedEverywhere(s', r, segments)
    ensures r !in s'.released && PinnedOutside(s, r, segments, waiting) ==> PinnedOutside(s', r, segments, waiting)
    ensures forall k :: 0 <= k < |s.ranks| && NoPins(s, r, k) ==> NoPins(s', r, k)
  {
    forall k | 0 <= k < |s.ranks| && NoPins(s, r, k) ensures NoPins(s', r, k) {}
  }

  ghost predicate SameBooks(s: Sys, s': Sys) {
    && s'.queue == s.queue && s'.futures == s.futures && s'.results == s.results && s'.plans == s.plans
    && s'.live == s.live && s'.cancelled == s.cancelled && s'.nextTicket == s.nextTicket && s'.chunkSize == s.chunkSize
  }

  /** The worker stays in the same lookup, or in the same drain, or idle. */
  ghost predicate SameTask(w: Worker, w': Worker) {
    && (w.LooksUp() <==> w'.LooksUp())
    && (w.LooksUp() ==> w'.ticket == w.ticket && w'.job == w.job)
    && (w.Draining? <==> w'.Draining?)
    && (w.Draining? ==> w'.request == w.request)
  }

  lemma BooksFrame(s: Sys, s': Sys)
    requires BooksOk(s) && SameBooks(s, s') && SameTask(s.worker, s'.worker)
    ensures BooksOk(s')
  {
  }

  /** Status survives any step inside the same task that keeps or releases the pins of other requests. */
  lemma StatusFrame(s: Sys, s': Sys, r: RequestId)
    requires StatusOk(s, r) && SameBooks(s, s') && SameTask(s.worker, s'.worker)
    requires (s.worker.LooksUp() && s.worker.job.request == r) || PinsKeptOrReleased(s, s', r)
    requires BeingDrained(s, r) ==> BeingDrained(s', r)
    ensures StatusOk(s', r)
  {
    hide PinnedEverywhere, Pinless, PinlessOutside, PinsKeptOrReleased;
    if !(s.worker.LooksUp() && s.worker.job.request == r) {
      var plan := SettledPlan(s, r);
      PinFactsKept(s, s', r, {}, if plan.Some? then plan.value.segments else []);
      ReleaseGrows(s, s', r);
    }
  }

  lemma ReleaseGrows(s: Sys, s': Sys, r: RequestId)
    requires PinsKeptOrReleased(s, s', r)
    ensures r in s.released ==> r in s'.released
  {
  }

  // ---------------------------------------------------------------- rank operations by others

  lemma RankOpKeeps(s: Sys, k: nat, op: Op)
    requires SysInv(s)
    ensures SysInv(DoRankOp(s, k, op))
  {
    hide InvHolding, BooksOk, StatusOk, PhaseOk;
    var s' := DoRankOp(s, k, op);
    if k < |s.ranks| && !op.OpPin? && !op.OpClear? {
      forall r ensures PinsKeptOrReleased(s, s', r) && (op != OpRelease(r) ==> SamePins(s, s', r)) {
        QuietOpPins(s.ranks[k], op, r);
      }
      QuietOpPins(s.ranks[k], op, "");
      BooksFrame(s, s');
      PhaseFrame(s, s');
      forall r ensures StatusOk(s', r) {
        DrainFrame(s, s', r);
        StatusFrame(s, s', r);
      }
    }
  }

  lemma DrainFrame(s: Sys, s': Sys, r: RequestId)
    requires s'.worker == s.worker && PinsKeptOrReleased(s, s', r)
    ensures BeingDrained(s, r) ==> BeingDrained(s', r)
  {
    if s.worker.Draining? { PinFactsKept(s, s', r, s.worker.waiting, []); }
  }

  lemma PhaseFrame(s: Sys, s': Sys)
    requires PhaseOk(s) && s'.worker == s.worker && s'.chunkSize == s.chunkSize
    requires forall r :: PinsKeptOrReleased(s, s', r)
    ensures PhaseOk(s')
  {
    hide Pinless, PinlessOutside, PinnedOutside, PinnedEverywhere, PinsKeptOrReleased, Planable, SuffixPlanable;
    match s.worker
    case Idle =>
    case Searching(_, job) => PinFactsKept(s, s', job.request, {}, []);
    case Confirming(_, job, _) => PinFactsKept(s, s', job.request, {}, []);
    case Validating(_, job, _, _, _) => PinFactsKept(s, s', job.request, {}, []);
    case Prefetching(_, job, final, waiting, _) =>
      PinFactsKept(s, s', job.request, waiting, final);
      ReleaseGrows(s, s', job.request);
      SameCount(s, s', job.request);
    case Undoing(_, job, waiting, _) => PinFactsKept(s, s', job.request, waiting, []);
    case Returned(_, job, segments) =>
      PinFactsKept(s, s', job.request, {}, segments);
      ReleaseGrows(s, s', job.request);
    case Draining(r, waiting) => PinFactsKept(s, s', r, waiting, []);
  }

  lemma SameCount(s: Sys, s': Sys, r: RequestId)
    requires PinsKeptOrReleased(s, s', r)
    ensures |s'.ranks| == |s.ranks|
  {
  }

  // ---------------------------------------------------------------- worker micro-steps

  /** A micro-step on one rank that concerns only request q leaves every other request as it was. */
  lemma MicroStepKeeps(s: Sys, s': Sys, q: RequestId)
    requires SysInv(s) && RanksOk(s') && PhaseOk(s') && SameBooks(s, s') && SameTask(s.worker, s'.worker)
    requires s'.released == s.released
    requires s.worker.WorksFor(q)
    requires forall r :: r != q ==> SamePins(s, s', r)
    ensures SysInv(s')
  {
    hide InvHolding, BooksOk, StatusOk, PhaseOk;
    BooksFrame(s, s');
    forall r ensures StatusOk(s', r) {
      if r != q {
        SamePinsAreKept(s, s', r);
        StatusFrame(s, s', r);
      } else if s.worker.LooksUp() {
        StatusFrame(s, s', r);
      } else {
        DrainStatus(s, s', r);
      }
    }
  }

  lemma SamePinsAreKept(s: Sys, s': Sys, r: RequestId)
    requires SamePins(s, s', r) && s'.released == s.released
    ensures PinsKeptOrReleased(s, s', r)
  {
  }

  /** While r is drained its status is a queued cancel or the drain itself. */
  lemma DrainStatus(s: Sys, s': Sys, r: RequestId)
    requires StatusOk(s, r) && SameBooks(s, s') && s.worker.Draining? && s'.worker.Draining?
    requires s.worker.request == r && s'.worker.request == r && PhaseOk(s')
    ensures StatusOk(s', r)
  {
    hide PinnedEverywhere, Pinless, PinlessOutside;
  }

  lemma SearchKeeps(s: Sys)
    requires SysInv(s)
    ensures SysInv(DoSearch(s))
  {
    hide InvHolding, StatusOk, Scan, Pinless, SuffixPlanable;
    if s.worker.Searching? {
      var job := s.worker.job;
      SearchPlanable(s.ranks[0], job);
      PinlessSame(s, DoSearch(s), job.request);
      MicroStepKeeps(s, DoSearch(s), job.request);
    }
  }

  lemma PinlessSame(s: Sys, s': Sys, r: RequestId)
    requires SamePins(s, s', r)
    ensures Pinless(s, r) ==> Pinless(s', r)
    ensures forall k :: 0 <= k < |s.ranks| && NoPins(s, r, k) ==> NoPins(s', r, k)
  {
    forall k | 0 <= k < |s.ranks| && NoPins(s, r, k) ensures NoPins(s', r, k) {}
  }

  lemma ConfirmKeeps(s: Sys)
    requires SysInv(s)
    ensures SysInv(DoConfirm(s))
  {
    hide InvHolding, StatusOk, Pinless, SuffixPlanable, Planable, Validate;
    if s.worker.Confirming? {
      var w, s' := s.worker, DoConfirm(s);
      ValidateKeeps(s.ranks[0], w.found);
      ValidateFrame(s.ranks[0], w.found);
      ValidateIsSubsequence(s.ranks[0], w.job, s.chunkSize, w.found);
      ShiftPlanable(w.job, s.chunkSize, Validate(s.ranks[0], w.found).1);
      forall r ensures SamePins(s, s', r) {}
      PinlessSame(s, s', w.job.request);
      NothingPlanable(w.job, s.chunkSize);
      MicroStepKeeps(s, s', w.job.request);
    }
  }

  lemma NothingPlanable(job: Job, chunkSize: nat)
    ensures Planable(job, chunkSize, [])
  {
  }

  lemma ValidateRankKeeps(s: Sys, k: nat)
    requires SysInv(s)
    ensures SysInv(DoValidateRank(s, k))
  {
    hide InvHolding, StatusOk, Pinless, Planable, Validate;
    if s.worker.Validating? && k in s.worker.waiting && k < |s.ranks| {
      var w, s' := s.worker, DoValidateRank(s, k);
      ValidateKeeps(s.ranks[k], w.candidates);
      ValidateFrame(s.ranks[k], w.candidates);
      forall r ensures SamePins(s, s', r) {}
      PinlessSame(s, s', w.job.request);
      MicroStepKeeps(s, s', w.job.request);
    }
  }

  lemma PrefetchRankKeeps(s: Sys, k: nat)
    requires SysInv(s)
    ensures SysInv(DoPrefetchRank(s, k))
  {
    hide InvHolding, StatusOk, Planable, Pin;
    if s.worker.Prefetching? && k in s.worker.waiting && k < |s.ranks| {
      var w, s' := s.worker, DoPrefetchRank(s, k);
      PinOutcome(s.ranks[k], w.job.request, w.final);
      forall r | r != w.job.request ensures SamePins(s, s', r) {}
      PrefetchPhase(s, k);
      MicroStepKeeps(s, s', w.job.request);
    }
  }

  lemma PrefetchPhase(s: Sys, k: nat)
    requires PhaseOk(s) && s.worker.Prefetching? && k in s.worker.waiting && k < |s.ranks| && Inv(s.ranks[k])
    ensures PhaseOk(DoPrefetchRank(s, k))
  {
    hide InvHolding, Planable, Pin;
    var w, s' := s.worker, DoPrefetchRank(s, k);
    var r := w.job.request;
    PinOutcome(s.ranks[k], r, w.final);
    forall j | j in s'.worker.waiting && j < |s.ranks| ensures NoPins(s', r, j) {
      assert NoPins(s, r, j);
    }
    var valid := Pin(s.ranks[k], r, w.final).1;
    if w.agreed * Elements(valid) == Elements(w.final) {
      assert w.agreed == Elements(w.final) && Elements(w.final) <= Elements(valid);
    }
  }

  lemma CancelRankKeeps(s: Sys, k: nat)
    requires SysInv(s)
    ensures SysInv(DoCancelRank(s, k))
  {
    hide InvHolding, StatusOk, Release;
    if k < |s.ranks| && (s.worker.Undoing? || s.worker.Draining?) && k in s.worker.waiting {
      var q := if s.worker.Undoing? then s.worker.job.request else s.worker.request;
      var s' := DoCancelRank(s, k);
      CancelPins(s, k, q, s');
      CancelPhase(s, s', q, k);
      MicroStepKeeps(s, s', q);
    }
  }

  /** Releasing a request on one rank empties its pins there and nothing else. */
  lemma CancelPins(s: Sys, k: nat, q: RequestId, s': Sys)
    requires SysInv(s) && k < |s.ranks| && s'.ranks == s.ranks[k := Release(s.ranks[k], q)]
    ensures Inv(s'.ranks[k]) && s'.ranks[k].chunkSize == s.chunkSize && PinsOf(s'.ranks[k], q) == []
    ensures forall r :: r != q ==> SamePins(s, s', r)
  {
    hide InvHolding, StatusOk, Release;
    forall r ensures Inv(s'.ranks[k]) && s'.ranks[k].chunkSize == s.chunkSize
                     && PinsOf(s'.ranks[k], r) == if r == q then [] else PinsOf(s.ranks[k], r)
    {
      QuietOpPins(s.ranks[k], OpRelease(q), r);
    }
    assert PinsOf(s'.ranks[k], q) == [];
    forall r | r != q ensures SamePins(s, s', r) {}
  }

  lemma CancelPhase(s: Sys, s': Sys, q: RequestId, k: nat)
    requires PhaseOk(s) && k < |s.ranks| && |s'.ranks| == |s.ranks|
    requires s.worker.Undoing? || s.worker.Draining?
    requires s.worker.Undoing? ==>
               q == s.worker.job.request
               && s'.worker == Undoing(s.worker.ticket, s.worker.job, s.worker.waiting - {k}, s.worker.rejected)
    requires s.worker.Draining? ==> q == s.worker.request && s'.worker == Draining(q, s.worker.waiting - {k})
    requires forall j :: 0 <= j < |s.ranks| && j != k ==> s'.ranks[j] == s.ranks[j]
    requires PinsOf(s'.ranks[k], q) == []
    ensures PhaseOk(s')
  {
    forall j | 0 <= j < |s'.ranks| && j !in s'.worker.waiting ensures NoPins(s', q, j) {
      if j != k { assert NoPins(s, q, j); }
    }
  }

  // ---------------------------------------------------------------- decisions inside a lookup

  lemma DecideInsideKeeps(s: Sys, accept: bool)
    requires SysInv(s) && s.worker.LooksUp() && DoDecide(s, accept).worker.LooksUp()
    ensures SysInv(DoDecide(s, accept))
  {
    hide InvHolding, StatusOk, BooksOk, PhaseOk, DoDecide;
    var s' := DoDecide(s, accept);
    DecideFrame(s, accept);
    DecidePhase(s, accept);
    MicroStepKeeps(s, s', s.worker.job.request);
  }

  lemma DecideFrame(s: Sys, accept: bool)
    requires s.worker.LooksUp() && DoDecide(s, accept).worker.LooksUp()
    ensures var s' := DoDecide(s, accept);
            SameBooks(s, s') && SameTask(s.worker, s'.worker) && s'.ranks == s.ranks && s'.released == s.released
  {
    hide DoDecide;
    DecideShape(s, accept);
  }

  /** The plan a decision files, if it files one. */
  function FiledPlan(s: Sys, accept: bool): BlendPlan
    requires s.worker.LooksUp()
  {
    if s.worker.Returned? && accept && s.worker.job.request !in s.cancelled
    then PlanFor(s.worker.job, s.worker.segments, s.sparse) else EmptyPlan(s.worker.job.apc)
  }

  /** A decision moves the worker on within its task, files a result and idles, or ends a drain. */
  lemma DecideShape(s: Sys, accept: bool)
    ensures var s' := DoDecide(s, accept);
            || (s' == s.(worker := s'.worker) && SameTask(s.worker, s'.worker))
            || (s.worker.LooksUp() && s' == Finish(s, FiledPlan(s, accept)))
            || (s.worker.Draining? && s' == s.(worker := Idle, cancelled := s.cancelled - {s.worker.request}))
  {
    hide Keep, PlanFor;
    match s.worker
    case Validating(_, _, _, _, _) =>
    case Prefetching(_, _, _, _, _) =>
    case Undoing(_, _, _, _) =>
    case Returned(_, _, _) =>
    case Draining(_, _) =>
    case _ =>
  }

  lemma DecidePhase(s: Sys, accept: bool)
    requires PhaseOk(s) && s.worker.LooksUp() && DoDecide(s, accept).worker.LooksUp()
    ensures PhaseOk(DoDecide(s, accept))
  {
    match s.worker
    case Validating(_, _, _, _, _) => DecideValidating(s, accept);
    case Prefetching(_, _, _, _, _) => DecidePrefetching(s, accept);
    case Undoing(_, _, _, _) => DecideUndoing(s, accept);
    case Returned(_, job, _) =>
      hide Planable, PinnedEverywhere;
      assert DoDecide(s, accept).worker == Undoing(s.worker.ticket, job, s.AllRanks(), true);
    case _ =>
  }

  lemma DecideValidating(s: Sys, accept: bool)
    requires PhaseOk(s) && s.worker.Validating?
    ensures PhaseOk(DoDecide(s, accept))
  {
    hide Planable, Keep;
    var w, s' := s.worker, DoDecide(s, accept);
    KeepPlanable(w.job, s.chunkSize, w.candidates, w.common);
    NothingPlanable(w.job, s.chunkSize);
    forall k | 0 <= k < |s.ranks| ensures NoPins(s', w.job.request, k) { assert NoPins(s, w.job.request, k); }
  }

  lemma DecidePrefetching(s: Sys, accept: bool)
    requires PhaseOk(s) && s.worker.Prefetching?
    ensures PhaseOk(DoDecide(s, accept))
  {
    hide Planable, SegmentIds;
  }

  lemma DecideUndoing(s: Sys, accept: bool)
    requires PhaseOk(s) && s.worker.Undoing?
    ensures PhaseOk(DoDecide(s, accept))
  {
    hide Planable, SegmentIds, PinnedEverywhere;
    var w, s' := s.worker, DoDecide(s, accept);
    NothingPlanable(w.job, s.chunkSize);
    if w.waiting == {} {
      forall k | 0 <= k < |s.ranks| ensures NoPins(s', w.job.request, k) { assert NoPins(s, w.job.request, k); }
    }
  }

  // ---------------------------------------------------------------- finishing a task

  lemma FinishKeeps(s: Sys, plan: BlendPlan)
    requires SysInv(s) && s.worker.LooksUp()
    requires plan.segments == [] && CurrentLookup(s, s.worker.job.request) ==> Pinless(s, s.worker.job.request)
    requires plan.segments != [] && s.worker.job.request !in s.released ==>
        PinnedEverywhere(s, s.worker.job.request, plan.segments)
    ensures SysInv(Finish(s, plan))
  {
    hide InvHolding, StatusOk, BooksOk, PhaseOk;
    var s' := Finish(s, plan);
    FinishBooks(s, plan);
    assert PhaseOk(s') by { FinishPhase(s'); }
    forall r ensures StatusOk(s', r) {
      FinishStatus(s, plan, r);
    }
  }

  lemma FinishPhase(s: Sys)
    requires s.worker.Idle?
    ensures PhaseOk(s)
  {
  }

  lemma FinishBooks(s: Sys, plan: BlendPlan)
    requires BooksOk(s) && s.worker.LooksUp()
    ensures BooksOk(Finish(s, plan))
  {
    var s' := Finish(s, plan);
    forall i | 0 <= i < |s'.queue| && s'.queue[i].Lookup? ensures s'.queue[i].ticket !in s'.results {
      assert s.queue[i].ticket !in s.results;
    }
  }

  lemma FinishStatus(s: Sys, plan: BlendPlan, r: RequestId)
    requires BooksOk(s) && StatusOk(s, r) && s.worker.LooksUp()
    requires plan.segments == [] && CurrentLookup(s, s.worker.job.request) ==> Pinless(s, s.worker.job.request)
    requires plan.segments != [] && s.worker.job.request !in s.released ==>
        PinnedEverywhere(s, s.worker.job.request, plan.segments)
    ensures StatusOk(Finish(s, plan), r)
  {
    var s' := Finish(s, plan);
    PinFactsSame(s, s', r);
    assert SettledPlan(s, r).Some? ==>
        PinnedEverywhere(s', r, SettledPlan(s, r).value.segments)
        == PinnedEverywhere(s, r, SettledPlan(s, r).value.segments);
    hide PinnedEverywhere, Pinless, PinlessOutside, Covered, CancelQueued;
    if CurrentLookup(s, r) {
      assert r !in s.plans;
    }
  }

  lemma PinFactsSame(s: Sys, s': Sys, r: RequestId)
    requires s'.ranks == s.ranks && s'.released == s.released
    ensures Pinless(s', r) == Pinless(s, r)
    ensures forall segments :: PinnedEverywhere(s', r, segments) == PinnedEverywhere(s, r, segments)
  {
    assert forall k :: 0 <= k < |s.ranks| ==> NoPins(s', r, k) == NoPins(s, r, k);
  }

  lemma DecideReturnedKeeps(s: Sys, accept: bool)
    requires SysInv(s) && s.worker.Returned?
    ensures SysInv(DoDecide(s, accept))
  {
    hide InvHolding, StatusOk, PinnedEverywhere, Pinless, Planable, PlanFor;
    var job, segments := s.worker.job, s.worker.segments;
    if job.request in s.cancelled {
      FinishKeeps(s, EmptyPlan(job.apc));
    } else if accept {
      ReturnedPlan(job, s.chunkSize, segments, s.sparse);
      FinishKeeps(s, PlanFor(job, segments, s.sparse));
    } else {
      DecideInsideKeeps(s, accept);
    }
  }

  lemma DecideUndoingKeeps(s: Sys, accept: bool)
    requires SysInv(s) && s.worker.Undoing?
    ensures SysInv(DoDecide(s, accept))
  {
    hide InvHolding, StatusOk, BooksOk;
    if s.worker.waiting == {} && s.worker.rejected {
      forall k | 0 <= k < |s.ranks| ensures NoPins(s, s.worker.job.request, k) {}
      FinishKeeps(s, EmptyPlan(s.worker.job.apc));
    } else {
      DecideInsideKeeps(s, accept);
    }
  }

  lemma DrainEndKeeps(s: Sys)
    requires SysInv(s) && s.worker.Draining? && s.worker.waiting == {}
    ensures SysInv(s.(worker := Idle, cancelled := s.cancelled - {s.worker.request}))
  {
    hide InvHolding, PinnedEverywhere;
    var s' := s.(worker := Idle, cancelled := s.cancelled - {s.worker.request});
    forall r ensures StatusOk(s', r) {
      assert StatusOk(s, r);
      PinFactsSame(s, s', r);
      if r == s.worker.request {
        forall k | 0 <= k < |s.ranks| ensures NoPins(s', r, k) { assert NoPins(s, r, k); }
      }
    }
  }

  lemma DecideKeeps(s: Sys, accept: bool)
    requires SysInv(s)
    ensures SysInv(DoDecide(s, accept))
  {
    hide SysInv;
    match s.worker
    case Validating(_, _, _, _, _) => DecideInsideKeeps(s, accept);
    case Prefetching(_, _, _, _, _) => DecideInsideKeeps(s, accept);
    case Undoing(_, _, _, _) => DecideUndoingKeeps(s, accept);
    case Returned(_, _, _) => DecideReturnedKeeps(s, accept);
    case Draining(_, waiting) => if waiting == {} { DrainEndKeeps(s); }
    case _ =>
  }

  // ---------------------------------------------------------------- the queue

  lemma CoveredTail(queue: seq<Task>, r: RequestId)
    requires queue != [] && Covered(queue, r)
    ensures queue[0] != Cancel(r) ==> Covered(queue[1..], r)
    ensures !IsLookup(queue[0], r) || queue[0] == Cancel(r)
  {
    var i :| 0 <= i < |queue| && queue[i] == Cancel(r) && forall j :: 0 <= j < i ==> !IsLookup(queue[j], r);
    if i > 0 {
      assert queue[1..][i - 1] == Cancel(r);
      assert !IsLookup(queue[0], r);
    }
  }

  lemma CancelQueuedTail(queue: seq<Task>, r: RequestId)
    requires queue != [] && CancelQueued(queue[1..], r)
    ensures CancelQueued(queue, r)
  {
    var i :| 0 <= i < |queue[1..]| && queue[1..][i] == Cancel(r);
    assert queue[i + 1] == Cancel(r);
  }

  /** Tickets name one request, and no request has two lookups queued, so the ticket leaves with its task. */
  lemma TicketLeaves(s: Sys)
    requires BooksOk(s) && s.queue != [] && s.queue[0].Lookup?
    ensures !Queued(s.queue[1..], s.queue[0].ticket)
  {
    var queue, r := s.queue, s.queue[0].job.request;
    forall i | 0 <= i < |queue| - 1 && queue[1..][i].Lookup? ensures queue[1..][i].ticket != queue[0].ticket {
      assert queue[1..][i] == queue[i + 1] && !IsLookup(queue[i + 1], r);
      assert s.futures[queue[i + 1].job.request] == queue[i + 1].ticket && s.futures[r] == queue[0].ticket;
    }
  }

  lemma DequeueBooks(s: Sys)
    requires BooksOk(s) && s.worker.Idle? && s.queue != []
    ensures BooksOk(DoDequeue(s))
  {
    QueueTail(s.queue, s.futures, s.results, s.nextTicket);
    if s.queue[0].Lookup? {
      TicketLeaves(s);
    }
    if s.queue[0].Lookup? {
      FirstLookupWaits(s);
    }
    hide QueueOk, Queued;
  }

  /** The lookup at the head of the queue is what its request waits for. */
  lemma FirstLookupWaits(s: Sys)
    requires BooksOk(s) && s.queue != [] && s.queue[0].Lookup?
    ensures s.queue[0].ticket < s.nextTicket && s.queue[0].ticket !in s.results
    ensures s.queue[0].job.apc < |s.queue[0].job.prompt|
    ensures forall r :: r in s.futures && s.futures[r] == s.queue[0].ticket ==> r == s.queue[0].job.request
  {
  }

  lemma QueueTail(queue: seq<Task>, futures: map<RequestId, nat>, results: map<nat, BlendPlan>, nextTicket: nat)
    requires queue != [] && QueueOk(queue, futures, results, nextTicket)
    ensures QueueOk(queue[1..], futures, results, nextTicket)
  {
    forall i | 0 <= i < |queue| - 1 ensures queue[1..][i] == queue[i + 1] {}
  }

  /** A lookup leaves the queue only when its request holds no pins and no cancel of it is queued. */
  lemma LookupStartsClean(s: Sys)
    requires BooksOk(s) && s.worker.Idle? && s.queue != [] && s.queue[0].Lookup?
    requires StatusOk(s, s.queue[0].job.request)
    ensures Pinless(s, s.queue[0].job.request) && !CancelQueued(s.queue, s.queue[0].job.request)
  {
    var r := s.queue[0].job.request;
    assert SettledPlan(s, r).None?;
    if Covered(s.queue, r) {
      CoveredTail(s.queue, r);
      assert IsLookup(s.queue[0], r);
      assert false;
    }
    forall i | 0 <= i < |s.queue| ensures s.queue[i] != Cancel(r) {}
  }

  lemma DequeueLookupKeeps(s: Sys)
    requires SysInv(s) && s.worker.Idle? && s.queue != [] && s.queue[0].Lookup?
    ensures SysInv(DoDequeue(s))
  {
    hide InvHolding, BooksOk, StatusOk, Pinless;
    var s', q := DoDequeue(s), s.queue[0].job.request;
    DequeueBooks(s);
    LookupStartsClean(s);
    PinlessSame(s, s', q);
    forall r ensures StatusOk(s', r) {
      DequeueLookupStatus(s, r);
    }
  }

  lemma DequeueLookupStatus(s: Sys, r: RequestId)
    requires BooksOk(s) && s.worker.Idle? && s.queue != [] && s.queue[0].Lookup? && StatusOk(s, r)
    requires !CancelQueued(s.queue, s.queue[0].job.request)
    ensures StatusOk(DoDequeue(s), r)
  {
    var s', q := DoDequeue(s), s.queue[0].job.request;
    assert s.futures[q] == s.queue[0].ticket;
    if CancelQueued(s'.queue, r) { CancelQueuedTail(s.queue, r); }
    if r != q {
      PinlessSame(s, s', r);
      if Covered(s.queue, r) { CoveredTail(s.queue, r); }
      var plan := SettledPlan(s, r);
      assert SettledPlan(s', r) == plan;
      if plan.Some? {
        assert PinnedEverywhere(s, r, plan.value.segments) ==> PinnedEverywhere(s', r, plan.value.segments);
      }
    }
  }

  lemma DequeueCancelKeeps(s: Sys)
    requires SysInv(s) && s.worker.Idle? && s.queue != [] && s.queue[0].Cancel?
    ensures SysInv(DoDequeue(s))
  {
    hide InvHolding, BooksOk, StatusOk;
    var s' := DoDequeue(s);
    DequeueBooks(s);
    forall k | 0 <= k < |s.ranks| ensures k in s.AllRanks() {}
    assert PhaseOk(s');
    forall r ensures StatusOk(s', r) {
      DequeueCancelStatus(s, r);
    }
  }

  lemma DequeueCancelStatus(s: Sys, r: RequestId)
    requires s.worker.Idle? && s.queue != [] && s.queue[0].Cancel? && StatusOk(s, r)
    ensures StatusOk(DoDequeue(s), r)
  {
    var s', q := DoDequeue(s), s.queue[0].request;
    forall k | 0 <= k < |s.ranks| ensures k in s.AllRanks() {}
    if CancelQueued(s'.queue, r) { CancelQueuedTail(s.queue, r); }
    if r == q {
      assert CancelQueued(s.queue, r);
      assert BeingDrained(s', r);
    } else {
      PinlessSame(s, s', r);
      if Covered(s.queue, r) { CoveredTail(s.queue, r); }
      var plan := SettledPlan(s, r);
      assert SettledPlan(s', r) == plan;
      if plan.Some? {
        assert PinnedEverywhere(s, r, plan.value.segments) ==> PinnedEverywhere(s', r, plan.value.segments);
      }
    }
  }
}
