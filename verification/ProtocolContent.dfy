/** What the stored chunks behind a returned lookup contain: on the searching rank the prompt's own tokens, and on
    the other ranks exactly when the ranks agree on the tokens behind their shared ids. */
module ProtocolContent {
  import opened Wrappers
  import opened Hashing
  import opened Types
  import opened Matching
  import opened StoreModel
  import opened StoreInvariants
  import opened StoreOperations
  import opened StoreTheorems
  import opened ProtocolModel
  import opened Protocol
  import opened ProtocolSteps
  import opened ProtocolRuns
  import StoreObject

  // ---------------------------------------------------------------- one lookup, from its search on

  /** What rank 0's search finds for a job, at positions of the suffix. */
  function Found(s: Sys, job: Job): seq<BlendSegment>
    requires s.ranks != [] && s.chunkSize > 0
  {
    Scan(s.ranks[0].matcher, s.chunkSize, job.scope, job.Suffix(), 0)
  }

  ghost predicate Within(segments: seq<BlendSegment>, found: seq<BlendSegment>, offset: int) {
    forall x :: x in segments ==> x in Shift(found, offset)
  }

  /** Whatever the worker still carries of a lookup was found by its search. */
  ghost predicate CarriesFound(w: Worker, found: seq<BlendSegment>, job: Job) {
    match w
    case Idle => true
    case Draining(_, _) => true
    case Searching(_, _) => false
    case Confirming(_, j, f) => j == job && f == found
    case Validating(_, j, candidates, _, _) => j == job && Within(candidates, found, job.apc)
    case Prefetching(_, j, final, _, _) => j == job && Within(final, found, job.apc)
    case Undoing(_, j, _, _) => j == job
    case Returned(_, j, segments) => j == job && Within(segments, found, job.apc)
  }

  lemma ShiftWithin(valid: seq<BlendSegment>, found: seq<BlendSegment>, offset: int)
    requires forall x :: x in valid ==> x in found
    ensures Within(Shift(valid, offset), found, offset)
  {
    forall x | x in Shift(valid, offset) ensures x in Shift(found, offset) {
      var i :| 0 <= i < |valid| && Shift(valid, offset)[i] == x;
      assert valid[i] in found;
      var j :| 0 <= j < |found| && found[j] == valid[i];
      assert Shift(found, offset)[j] == x;
    }
  }

  lemma ConfirmCarries(s: Sys, found: seq<BlendSegment>, job: Job)
    requires CarriesFound(s.worker, found, job)
    ensures CarriesFound(DoConfirm(s).worker, found, job)
  {
    hide Validate, Within;
    if s.worker.Confirming? && s.ranks != [] {
      ValidateFrame(s.ranks[0], s.worker.found);
      ShiftWithin(Validate(s.ranks[0], s.worker.found).1, found, job.apc);
      ShiftWithin([], found, job.apc);
    }
  }

  lemma DecideCarries(s: Sys, accept: bool, found: seq<BlendSegment>, job: Job)
    requires CarriesFound(s.worker, found, job)
    ensures CarriesFound(DoDecide(s, accept).worker, found, job)
  {
    hide PlanFor, Within, Keep;
    match s.worker
    case Validating(_, _, candidates, _, common) =>
      KeepWithin(candidates, common, found, job.apc);
      ShiftWithin([], found, job.apc);
      assert Shift([], job.apc) == [];
    case Undoing(_, _, _, _) =>
      ShiftWithin([], found, job.apc);
      assert Shift([], job.apc) == [];
    case _ =>
  }

  lemma KeepWithin(candidates: seq<BlendSegment>, common: set<BlendSegment>, found: seq<BlendSegment>, offset: int)
    requires Within(candidates, found, offset)
    ensures Within(Keep(candidates, common), found, offset)
  {
    hide Shift;
  }

  lemma StepCarries(s: Sys, a: Action, found: seq<BlendSegment>, job: Job)
    requires CarriesFound(s.worker, found, job) && a != Dequeue
    ensures CarriesFound(Step(s, a).worker, found, job)
  {
    hide Within, Validate, Pin, Release, Apply, DoConfirm, DoDecide, WithoutTicket, Queued;
    match a
    case Confirm => ConfirmCarries(s, found, job);
    case Decide(accept) => DecideCarries(s, accept, found, job);
    case _ =>
  }

  lemma {:induction false} RunCarries(s: Sys, actions: seq<Action>, found: seq<BlendSegment>, job: Job)
    requires CarriesFound(s.worker, found, job) && Dequeue !in actions
    ensures CarriesFound(RunSys(s, actions).worker, found, job)
    decreases |actions|
  {
    hide CarriesFound, Step;
    if actions != [] {
      StepCarries(s, actions[0], found, job);
      RunCarries(Step(s, actions[0]), actions[1..], found, job);
    }
  }

  // ---------------------------------------------------------------- the searching rank

  /** The id is committed on rank k at every moment of the run. */
  ghost predicate CommittedThroughout(s: Sys, actions: seq<Action>, k: nat, id: SegmentId)
    decreases |actions|
  {
    && k < |s.ranks| && IsCommitted(s.ranks[k], id)
    && (actions == [] || CommittedThroughout(Step(s, actions[0]), actions[1..], k, id))
  }

  lemma {:induction false} RecordStays(s: Sys, actions: seq<Action>, k: nat, id: SegmentId)
    requires SysInv(s) && CommittedThroughout(s, actions, k, id)
    ensures var after := RunSys(s, actions);
            k < |after.ranks| && IsCommitted(after.ranks[k], id)
              && after.ranks[k].entries[id].record == s.ranks[k].entries[id].record
    decreases |actions|
  {
    hide InvHolding, Step, Apply, StatusOk, BooksOk, PhaseOk;
    if actions != [] {
      StepKeeps(s, actions[0]);
      StepIsOneOperation(s, actions[0], k);
      EntryEvolves(s.ranks[k], OperationOn(s, actions[0], k), id);
      RecordStays(Step(s, actions[0]), actions[1..], k, id);
    }
  }

  /** What a search finds is committed and holds the prompt's tokens at the shifted position. */
  lemma FoundIsExact(s: Sys, job: Job, x: BlendSegment)
    requires SysInv(s) && job.apc < |job.prompt| && x in Shift(Found(s, job), job.apc)
    ensures IsCommitted(s.ranks[0], x.segmentId) && 0 <= x.targetStart <= x.TargetEnd() <= |job.prompt|
    ensures s.ranks[0].entries[x.segmentId].record.tokens == job.prompt[x.targetStart..x.TargetEnd()]
  {
    hide StatusOk, BooksOk, PhaseOk, HashOf, Scan, EntriesOk, OrderOk, Recency, PinsOk, TotalBytes;
    var st, found := s.ranks[0], Found(s, job);
    assert Inv(st);
    var i :| 0 <= i < |found| && Shift(found, job.apc)[i] == x;
    assert found[i] in found;
    ScanIsSound(st.matcher, s.chunkSize, job.scope, job.Suffix(), 0);
    MatchedRecord(st, s.chunkSize, job, found[i]);
  }

  lemma MatchedRecord(st: Store, chunkSize: nat, job: Job, y: BlendSegment)
    requires Inv(st) && st.chunkSize == chunkSize && job.apc < |job.prompt|
    requires IsMatch(st.matcher, chunkSize, job.scope, job.Suffix(), y)
    ensures IsCommitted(st, y.segmentId) && y.Length() == chunkSize
    ensures var at := y.targetStart + job.apc;
            0 <= at && at + chunkSize <= |job.prompt|
              && st.entries[y.segmentId].record.tokens == job.prompt[at..at + chunkSize]
  {
    hide HashOf, EntriesOk, OrderOk, Recency, PinsOk, TotalBytes, EntryOk;
    var window := job.Suffix()[y.targetStart..y.targetStart + chunkSize];
    var r :| r in st.matcher && r.segmentId == y.segmentId && Fits(r, job.scope, window);
    RegistryIds(st);
    MadeOf(st.matcher, chunkSize, r);
    SuffixWindow(job.prompt, job.apc, y.targetStart, chunkSize);
    var at := y.targetStart + job.apc;
    assert window == job.prompt[at..at + chunkSize];
  }

  /** With no hypothesis on hashes, and under any interleaving: as long as rank 0 keeps the entry that its exact
      comparison found, the chunk behind a returned segment is the prompt's own tokens there. */
  lemma SearchingRankIsExact(s: Sys, actions: seq<Action>, x: BlendSegment)
    requires SysInv(s) && s.worker.Searching? && Dequeue !in actions
    requires var after := RunSys(Step(s, Search), actions); after.worker.Returned? && x in after.worker.segments
    requires CommittedThroughout(Step(s, Search), actions, 0, x.segmentId)
    ensures var after, prompt := RunSys(Step(s, Search), actions), s.worker.job.prompt;
            && 0 < |after.ranks| && IsCommitted(after.ranks[0], x.segmentId)
            && 0 <= x.targetStart <= x.TargetEnd() <= |prompt|
            && after.ranks[0].entries[x.segmentId].record.tokens == prompt[x.targetStart..x.TargetEnd()]
  {
    hide StatusOk, PhaseOk, InvHolding, Scan, HashOf;
    var s', job := Step(s, Search), s.worker.job;
    StepKeeps(s, Search);
    var found := Found(s, job);
    RunCarries(s', actions, found, job);
    FoundIsExact(s, job, x);
    RecordStays(s', actions, 0, x.segmentId);
  }

  // ---------------------------------------------------------------- a lookup that nothing disturbs

  /** Steps of the lookup itself and of the scheduler; no other party changes a store, and no next task starts. */
  predicate QuietAction(a: Action) {
    !a.RankOp? && !a.Dequeue?
  }

  ghost predicate Undisturbed(actions: seq<Action>) {
    forall a :: a in actions ==> QuietAction(a)
  }

  /** The same entries with the same tokens, committed alike, in the same registration order. */
  ghost predicate SameShelf(a: Store, b: Store) {
    && b.matcher == a.matcher && b.entries.Keys == a.entries.Keys
    && forall id :: id in a.entries ==> SameBook(a, b, id)
  }

  ghost predicate SameBook(a: Store, b: Store, id: SegmentId)
    requires id in a.entries && b.entries.Keys == a.entries.Keys
  {
    b.entries[id].record == a.entries[id].record && b.entries[id].committed == a.entries[id].committed
  }

  lemma ShelfChains(a: Store, b: Store, c: Store)
    requires SameShelf(a, b) && SameShelf(b, c)
    ensures SameShelf(a, c)
  {
    forall id | id in a.entries ensures SameBook(a, c, id) {
      assert SameBook(a, b, id) && SameBook(b, c, id);
    }
  }

  lemma SameCommitted(a: Store, b: Store, id: SegmentId)
    requires SameShelf(a, b)
    ensures IsCommitted(a, id) <==> IsCommitted(b, id)
  {
    if id in a.entries { assert SameBook(a, b, id); }
  }

  lemma ValidateShelf(st: Store, segments: seq<BlendSegment>)
    ensures SameShelf(st, Validate(st, segments).0)
  {
    hide Validate;
    ValidateFrame(st, segments);
  }

  lemma ReleaseShelf(st: Store, r: RequestId)
    requires Inv(st)
    ensures SameShelf(st, Release(st, r))
  {
    hide InvHolding, Release;
    ReleaseKeeps(st, r);
  }

  lemma {:induction false} PinLoopMatcher(st: Store, segments: seq<BlendSegment>)
    ensures PinLoop(st, segments).0.matcher == st.matcher
    decreases |segments|
  {
    if segments != [] {
      var id := segments[0].segmentId;
      PinLoopMatcher(if IsCommitted(st, id) then PinOne(st, id) else st, segments[1..]);
    }
  }

  lemma PinShelf(st: Store, r: RequestId, segments: seq<BlendSegment>)
    requires Inv(st)
    ensures SameShelf(st, Pin(st, r, segments).0)
  {
    hide InvHolding, Release, PinLoop;
    ReleaseShelf(st, r);
    PinLoopFrame(Release(st, r), segments);
    PinLoopMatcher(Release(st, r), segments);
    var looped := PinLoop(Release(st, r), segments).0;
    assert SameShelf(Release(st, r), looped);
    ShelfChains(st, Release(st, r), looped);
    var pinned := Pin(st, r, segments).0;
    forall id | id in st.entries ensures SameBook(st, pinned, id) { assert SameBook(st, looped, id); }
  }

  /** The hits of the search, at prompt positions. */
  function Candidates(s: Sys, job: Job): seq<BlendSegment>
    requires s.ranks != [] && s.chunkSize > 0
  {
    Shift(Found(s, job), job.apc)
  }

  ghost predicate OnAllRanks(s: Sys, id: SegmentId) {
    forall k :: 0 <= k < |s.ranks| ==> IsCommitted(s.ranks[k], id)
  }

  /** The hits of rank 0's search whose ids every rank has committed. */
  ghost function Agreed(s: Sys, job: Job): seq<BlendSegment>
    requires s.ranks != [] && s.chunkSize > 0
  {
    Keep(Candidates(s, job), set x | x in Candidates(s, job) && OnAllRanks(s, x.segmentId))
  }

  ghost predicate CommonSoFar(s: Sys, candidates: seq<BlendSegment>, waiting: set<nat>, common: set<BlendSegment>) {
    && (forall x :: x in common <==> x in candidates && OutsideCommitted(s, waiting, x.segmentId))
    && (forall k :: k in waiting ==> k < |s.ranks|)
  }

  ghost predicate OutsideCommitted(s: Sys, waiting: set<nat>, id: SegmentId) {
    forall k :: 0 <= k < |s.ranks| && k !in waiting ==> IsCommitted(s.ranks[k], id)
  }

  ghost predicate QuietPhase(s0: Sys, w: Worker, job: Job)
    requires s0.ranks != [] && s0.chunkSize > 0
  {
    match w
    case Searching(_, j) => j == job
    case Confirming(_, j, found) => j == job && found == Found(s0, job)
    case Validating(_, j, candidates, waiting, common) =>
      j == job && candidates == Candidates(s0, job) && CommonSoFar(s0, candidates, waiting, common)
    case Prefetching(_, j, final, _, agreed) => j == job && final == Agreed(s0, job) && agreed == Elements(final)
    case Undoing(_, _, _, rejected) => rejected
    case Returned(_, j, segments) => j == job && segments == Agreed(s0, job)
    case _ => true
  }

  ghost predicate SameShelves(s0: Sys, s: Sys) {
    |s.ranks| == |s0.ranks| && s.chunkSize == s0.chunkSize
      && forall k :: 0 <= k < |s.ranks| ==> SameShelf(s0.ranks[k], s.ranks[k])
  }

  lemma OneShelfMore(s0: Sys, s: Sys, s': Sys, k: nat, st: Store)
    requires SameShelves(s0, s) && k < |s.ranks| && SameShelf(s.ranks[k], st)
    requires s'.ranks == s.ranks[k := st] && s'.chunkSize == s.chunkSize
    ensures SameShelves(s0, s')
  {
    hide SameShelf;
    ShelfChains(s0.ranks[k], s.ranks[k], st);
  }

  lemma SearchIsQuiet(s0: Sys, s: Sys, job: Job)
    requires SysInv(s0) && SameShelves(s0, s) && QuietPhase(s0, s.worker, job)
    ensures QuietPhase(s0, DoSearch(s).worker, job)
  {
    hide Scan, StatusOk, BooksOk, PhaseOk, InvHolding;
    assert SameShelf(s0.ranks[0], s.ranks[0]);
  }

  lemma ConfirmIsQuiet(s0: Sys, s: Sys, job: Job)
    requires SysInv(s0) && SameShelves(s0, s) && QuietPhase(s0, s.worker, job)
    ensures SameShelves(s0, DoConfirm(s)) && QuietPhase(s0, DoConfirm(s).worker, job)
  {
    hide Scan, StatusOk, BooksOk, PhaseOk, InvHolding, Validate, SameShelf, IsCommitted;
    if s.worker.Confirming? {
      var found := s.worker.found;
      assert Inv(s0.ranks[0]);
      StoreObject.MatchesAreCommitted(s0.ranks[0], job.scope, job.Suffix(), 0);
      FoundStillCommitted(s0.ranks[0], s.ranks[0], found);
      ValidateShelf(s.ranks[0], found);
      OneShelfMore(s0, s, DoConfirm(s), 0, Validate(s.ranks[0], found).0);
      var candidates := Candidates(s0, job);
      forall x | x in candidates ensures OutsideCommitted(s0, s.AllRanks() - {0}, x.segmentId) {
        ShiftedCommitted(s0.ranks[0], found, job.apc, x);
      }
    }
  }

  lemma FoundStillCommitted(a: Store, b: Store, found: seq<BlendSegment>)
    requires SameShelf(a, b) && Validate(a, found).1 == found
    ensures Validate(b, found).1 == found
    ensures forall x :: x in found ==> IsCommitted(a, x.segmentId)
  {
    hide Validate, SameShelf;
    ValidateFrame(a, found);
    forall x | x in found ensures IsCommitted(b, x.segmentId) { SameCommitted(a, b, x.segmentId); }
    StoreObject.CommittedAllValid(b, found);
  }

  lemma ShiftedCommitted(st: Store, found: seq<BlendSegment>, offset: int, x: BlendSegment)
    requires (forall y :: y in found ==> IsCommitted(st, y.segmentId)) && x in Shift(found, offset)
    ensures IsCommitted(st, x.segmentId)
  {
    var i :| 0 <= i < |found| && Shift(found, offset)[i] == x;
    assert found[i] in found;
  }

  lemma ValidateRankIsQuiet(s0: Sys, s: Sys, k: nat, job: Job)
    requires SysInv(s0) && SameShelves(s0, s) && QuietPhase(s0, s.worker, job)
    ensures SameShelves(s0, DoValidateRank(s, k)) && QuietPhase(s0, DoValidateRank(s, k).worker, job)
  {
    hide Scan, StatusOk, BooksOk, PhaseOk, InvHolding, Validate, SameShelf, IsCommitted, Shift;
    if s.worker.Validating? && k in s.worker.waiting && k < |s.ranks| {
      var w := s.worker;
      var valid := Validate(s.ranks[k], w.candidates).1;
      ValidateShelf(s.ranks[k], w.candidates);
      OneShelfMore(s0, s, DoValidateRank(s, k), k, Validate(s.ranks[k], w.candidates).0);
      ValidateFrame(s.ranks[k], w.candidates);
      forall x ensures x in w.common * Elements(valid) <==>
        x in w.candidates && OutsideCommitted(s0, w.waiting - {k}, x.segmentId) {
        SameCommitted(s0.ranks[k], s.ranks[k], x.segmentId);
        OutsideOneMore(s0, w.waiting, k, x.segmentId);
      }
    }
  }

  lemma OutsideOneMore(s: Sys, waiting: set<nat>, k: nat, id: SegmentId)
    requires k in waiting && k < |s.ranks|
    ensures OutsideCommitted(s, waiting - {k}, id) <==> OutsideCommitted(s, waiting, id) && IsCommitted(s.ranks[k], id)
  {
    hide IsCommitted;
  }

  lemma PrefetchRankIsQuiet(s0: Sys, s: Sys, k: nat, job: Job)
    requires SysInv(s0) && SysInv(s) && SameShelves(s0, s) && QuietPhase(s0, s.worker, job)
    ensures SameShelves(s0, DoPrefetchRank(s, k)) && QuietPhase(s0, DoPrefetchRank(s, k).worker, job)
  {
    hide Scan, StatusOk, BooksOk, PhaseOk, InvHolding, Pin, SameShelf, IsCommitted, Candidates;
    if s.worker.Prefetching? && k in s.worker.waiting && k < |s.ranks| {
      var w := s.worker;
      assert Inv(s.ranks[k]);
      PinShelf(s.ranks[k], w.job.request, w.final);
      OneShelfMore(s0, s, DoPrefetchRank(s, k), k, Pin(s.ranks[k], w.job.request, w.final).0);
      PinOutcome(s.ranks[k], w.job.request, w.final);
      forall x | x in w.final ensures IsCommitted(s.ranks[k], x.segmentId) {
        assert OnAllRanks(s0, x.segmentId);
        SameCommitted(s0.ranks[k], s.ranks[k], x.segmentId);
      }
      var valid := Pin(s.ranks[k], w.job.request, w.final).1;
      assert w.agreed * Elements(valid) == Elements(w.final);
    }
  }

  lemma CancelRankIsQuiet(s0: Sys, s: Sys, k: nat, job: Job)
    requires SysInv(s0) && SysInv(s) && SameShelves(s0, s) && QuietPhase(s0, s.worker, job)
    ensures SameShelves(s0, DoCancelRank(s, k)) && QuietPhase(s0, DoCancelRank(s, k).worker, job)
  {
    hide Scan, StatusOk, BooksOk, PhaseOk, InvHolding, Release, SameShelf;
    if k < |s.ranks| && (s.worker.Undoing? || s.worker.Draining?) && k in s.worker.waiting {
      var q := if s.worker.Undoing? then s.worker.job.request else s.worker.request;
      assert Inv(s.ranks[k]);
      ReleaseShelf(s.ranks[k], q);
      OneShelfMore(s0, s, DoCancelRank(s, k), k, Release(s.ranks[k], q));
    }
  }

  lemma DecideIsQuiet(s0: Sys, s: Sys, accept: bool, job: Job)
    requires SysInv(s0) && SameShelves(s0, s) && QuietPhase(s0, s.worker, job)
    ensures QuietPhase(s0, DoDecide(s, accept).worker, job)
  {
    hide Scan, StatusOk, BooksOk, PhaseOk, InvHolding, Candidates, Keep, PlanFor, IsCommitted;
    if s.worker.Validating? && s.worker.waiting == {} {
      var c := s.worker.candidates;
      assert s.worker.common == (set x | x in c && OnAllRanks(s0, x.segmentId));
    }
  }

  lemma StepIsQuiet(s0: Sys, s: Sys, a: Action, job: Job)
    requires SysInv(s0) && SysInv(s) && SameShelves(s0, s) && QuietPhase(s0, s.worker, job) && QuietAction(a)
    ensures SameShelves(s0, Step(s, a)) && QuietPhase(s0, Step(s, a).worker, job)
  {
    hide SysInv, SameShelf, QuietPhase, DoConfirm, DoValidateRank, DoPrefetchRank, DoCancelRank;
    match a
    case Search => LocalKeepsShelves(s0, s, a); SearchIsQuiet(s0, s, job);
    case Confirm => ConfirmIsQuiet(s0, s, job);
    case ValidateRank(k) => ValidateRankIsQuiet(s0, s, k, job);
    case PrefetchRank(k) => PrefetchRankIsQuiet(s0, s, k, job);
    case CancelRank(k) => CancelRankIsQuiet(s0, s, k, job);
    case Decide(accept) => LocalKeepsShelves(s0, s, a); DecideIsQuiet(s0, s, accept, job);
    case _ => LocalKeepsShelves(s0, s, a);
  }

  lemma LocalKeepsShelves(s0: Sys, s: Sys, a: Action)
    requires SameShelves(s0, s) && (a.GetMatched? || a.Cleanup? || a.Search? || a.Decide?)
    ensures SameShelves(s0, Step(s, a))
    ensures a.GetMatched? || a.Cleanup? ==> Step(s, a).worker == s.worker
  {
    hide SameShelf, Scan, PlanFor, Keep, WithoutTicket, Queued, DoSearch, DoDecide;
    LocalStepsKeepRanks(s, a);
    LocalStepsKeepChunkSize(s, a);
  }

  lemma LocalStepsKeepChunkSize(s: Sys, a: Action)
    requires a.GetMatched? || a.Cleanup? || a.Search? || a.Decide?
    ensures Step(s, a).chunkSize == s.chunkSize
  {
    hide Scan, PlanFor, Keep, WithoutTicket, Queued, DoDecide;
    if a.Decide? { DecideKeepsChunkSize(s, a.accept); }
  }

  lemma DecideKeepsChunkSize(s: Sys, accept: bool)
    ensures DoDecide(s, accept).chunkSize == s.chunkSize
  {
    hide DoDecide;
    DecideShape(s, accept);
  }

  lemma {:induction false} RunIsQuiet(s0: Sys, s: Sys, actions: seq<Action>, job: Job)
    requires SysInv(s0) && SysInv(s) && SameShelves(s0, s) && QuietPhase(s0, s.worker, job) && Undisturbed(actions)
    ensures SameShelves(s0, RunSys(s, actions)) && QuietPhase(s0, RunSys(s, actions).worker, job)
    decreases |actions|
  {
    hide SysInv, SameShelves, QuietPhase, Step;
    if actions != [] {
      StepIsQuiet(s0, s, actions[0], job);
      StepKeeps(s, actions[0]);
      RunIsQuiet(s0, Step(s, actions[0]), actions[1..], job);
    }
  }

  // ---------------------------------------------------------------- when every rank holds the prompt's tokens

  /** Behind the ids that rank 0 finds and every rank has committed, every rank stores the same tokens as rank 0. */
  ghost predicate SharedIdsAgree(s: Sys, job: Job)
    requires s.ranks != [] && s.chunkSize > 0
  {
    forall x, k :: x in Candidates(s, job) && OnAllRanks(s, x.segmentId) && 0 <= k < |s.ranks| ==>
      SameTokens(s, x.segmentId, k)
  }

  ghost predicate SameTokens(s: Sys, id: SegmentId, k: nat)
    requires s.ranks != [] && OnAllRanks(s, id) && k < |s.ranks|
  {
    assert IsCommitted(s.ranks[0], id) && IsCommitted(s.ranks[k], id);
    s.ranks[k].entries[id].record.tokens == s.ranks[0].entries[id].record.tokens
  }

  /** Rank k stores, committed, exactly the prompt's tokens behind the segment. */
  ghost predicate HoldsPrompt(st: Store, prompt: seq<Token>, x: BlendSegment) {
    && IsCommitted(st, x.segmentId) && 0 <= x.targetStart <= x.TargetEnd() <= |prompt|
    && st.entries[x.segmentId].record.tokens == prompt[x.targetStart..x.TargetEnd()]
  }

  ghost predicate EveryRankHoldsPrompt(s: Sys, prompt: seq<Token>, segments: seq<BlendSegment>) {
    forall x, k :: x in segments && 0 <= k < |s.ranks| ==> HoldsPrompt(s.ranks[k], prompt, x)
  }

  lemma HoldsPromptIff(s: Sys, job: Job, x: BlendSegment, k: nat)
    requires SysInv(s) && job.apc < |job.prompt| && x in Candidates(s, job) && OnAllRanks(s, x.segmentId)
    requires k < |s.ranks|
    ensures HoldsPrompt(s.ranks[k], job.prompt, x) <==> SameTokens(s, x.segmentId, k)
  {
    hide SysInv, Scan;
    FoundIsExact(s, job, x);
  }

  lemma SameHolds(a: Store, b: Store, prompt: seq<Token>, x: BlendSegment)
    requires SameShelf(a, b)
    ensures HoldsPrompt(a, prompt, x) <==> HoldsPrompt(b, prompt, x)
  {
    if x.segmentId in a.entries { assert SameBook(a, b, x.segmentId); }
  }

  /** A lookup with no interleaved store operations returns the hits of rank 0 that every rank has committed, and
      every rank holds the prompt's tokens behind all of them if and only if, before the lookup, no rank stored other
      tokens than rank 0 under such an id. */
  lemma QuietLookupIsExactIff(s: Sys, actions: seq<Action>)
    requires SysInv(s) && s.worker.Searching? && Undisturbed(actions) && RunSys(s, actions).worker.Returned?
    ensures var after, job := RunSys(s, actions), s.worker.job;
            && after.worker.job == job && after.worker.segments == Agreed(s, job)
            && (EveryRankHoldsPrompt(after, job.prompt, after.worker.segments) <==> SharedIdsAgree(s, job))
  {
    hide SysInv, Scan, Candidates, SameTokens, HoldsPrompt, SameShelf, RunSys, Agreed;
    var after, job := RunSys(s, actions), s.worker.job;
    SearchStarts(s);
    SelfShelves(s);
    RunIsQuiet(s, s, actions, job);
    HoldingIsAgreeing(s, after, job);
  }

  lemma HoldingIsAgreeing(s: Sys, after: Sys, job: Job)
    requires SysInv(s) && job.apc < |job.prompt| && SameShelves(s, after)
    ensures s.ranks != [] && s.chunkSize > 0
    ensures EveryRankHoldsPrompt(after, job.prompt, Agreed(s, job)) <==> SharedIdsAgree(s, job)
  {
    hide InvHolding, StatusOk, BooksOk, PhaseOk, Scan, Candidates, SameTokens, HoldsPrompt, SameShelf, Agreed,
      OnAllRanks;
    AgreedMembers(s, job);
    forall x, k | x in Agreed(s, job) && 0 <= k < |s.ranks|
      ensures HoldsPrompt(after.ranks[k], job.prompt, x) <==> SameTokens(s, x.segmentId, k)
    {
      HoldsPromptIff(s, job, x, k);
      SameHolds(s.ranks[k], after.ranks[k], job.prompt, x);
    }
    if EveryRankHoldsPrompt(after, job.prompt, Agreed(s, job)) {
      forall x, k | x in Candidates(s, job) && OnAllRanks(s, x.segmentId) && 0 <= k < |s.ranks|
        ensures SameTokens(s, x.segmentId, k) {
        assert x in Agreed(s, job) && HoldsPrompt(after.ranks[k], job.prompt, x);
      }
    }
    if SharedIdsAgree(s, job) {
      forall x, k | x in Agreed(s, job) && 0 <= k < |after.ranks| ensures HoldsPrompt(after.ranks[k], job.prompt, x) {
        assert SameTokens(s, x.segmentId, k);
      }
    }
  }

  lemma SearchStarts(s: Sys)
    requires SysInv(s) && s.worker.Searching?
    ensures s.worker.job.apc < |s.worker.job.prompt| && s.ranks != [] && s.chunkSize > 0
  {
    hide StatusOk, PhaseOk, InvHolding;
  }

  lemma AgreedMembers(s: Sys, job: Job)
    requires s.ranks != [] && s.chunkSize > 0
    ensures forall x :: x in Agreed(s, job) <==> x in Candidates(s, job) && OnAllRanks(s, x.segmentId)
  {
    hide Candidates, OnAllRanks;
  }

  lemma SelfShelves(s: Sys)
    ensures SameShelves(s, s)
  {
    forall k | 0 <= k < |s.ranks| ensures SameShelf(s.ranks[k], s.ranks[k]) {
      forall id | id in s.ranks[k].entries ensures SameBook(s.ranks[k], s.ranks[k], id) {}
    }
  }

  // ---------------------------------------------------------------- nothing is missed

  /** Rank 0 has committed a chunk of the scope with exactly these tokens. */
  ghost predicate HasChunk(st: Store, scope: string, tokens: seq<Token>) {
    exists id :: IsCommitted(st, id) && st.entries[id].record.segmentId.modelScope == scope
                 && st.entries[id].record.tokens == tokens
  }

  /** Wherever behind the prefix and before the last prompt token rank 0 holds the prompt's own chunk, the search finds
      that position or one that reaches it from the left. */
  lemma LookupMissesNothing(s: Sys, job: Job, p: nat)
    requires SysInv(s) && job.apc <= p && p + s.chunkSize < |job.prompt|
    requires HasChunk(s.ranks[0], job.scope, job.prompt[p..p + s.chunkSize])
    ensures StartsAround(Candidates(s, job), s.chunkSize, p)
  {
    hide InvHolding, BooksOk, PhaseOk, StatusOk, Scan;
    var st := s.ranks[0];
    var id :| IsCommitted(st, id) && st.entries[id].record.segmentId.modelScope == job.scope
              && st.entries[id].record.tokens == job.prompt[p..p + s.chunkSize];
    CommittedIsRegistered(st, id);
    var at := p - job.apc;
    assert job.Suffix()[at..at + s.chunkSize] == job.prompt[p..p + s.chunkSize];
    assert Fits(st.entries[id].record, job.scope, job.Suffix()[at..at + s.chunkSize]);
    ScanMissesNothing(st.matcher, s.chunkSize, job.scope, job.Suffix(), 0, at);
    var found := Found(s, job);
    var i :| 0 <= i < |found| && found[i].targetStart <= at < found[i].targetStart + s.chunkSize;
    assert Candidates(s, job)[i].targetStart == found[i].targetStart + job.apc;
  }

  lemma CommittedIsRegistered(st: Store, id: SegmentId)
    requires Inv(st) && IsCommitted(st, id)
    ensures st.entries[id].record in st.matcher
  {
  }
}
