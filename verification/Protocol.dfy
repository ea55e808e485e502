/** Safety of the tensor-parallel lookup protocol and its one-worker queue, over every run. */
module Protocol {
  import opened Wrappers
  import opened Hashing
  import opened Types
  import opened Matching
  import opened StoreModel
  import opened StoreInvariants
  import opened StoreOperations
  import opened StoreTheorems
  import opened ProtocolModel

  // ---------------------------------------------------------------- one rank at a time

  lemma QuietOpPins(st: Store, op: Op, r: RequestId)
    requires Inv(st) && !op.OpPin? && !op.OpClear?
    ensures Inv(Apply(st, op)) && Apply(st, op).chunkSize == st.chunkSize
    ensures if op == OpRelease(r) then PinsOf(Apply(st, op), r) == [] else PinsOf(Apply(st, op), r) == PinsOf(st, r)
  {
    hide InvHolding;
    ApplyKeeps(st, op);
    ApplyKeepsLimits(st, op);
    if op == OpRelease(r) {
      ReleaseKeeps(st, r);
    } else {
      PinsUndisturbed(st, op, r);
    }
  }

  lemma {:induction false} PinLoopAll(st: Store, segments: seq<BlendSegment>)
    ensures forall s :: s in PinLoop(st, segments).1 ==> s in segments
    ensures (forall s :: s in segments ==> s in PinLoop(st, segments).1) ==> PinLoop(st, segments).1 == segments
    decreases |segments|
  {
    if segments != [] {
      var s, rest := segments[0], segments[1..];
      PinLoopMembers(st, segments);
      if IsCommitted(st, s.segmentId) {
        PinLoopAll(PinOne(st, s.segmentId), rest);
        PinLoopMembers(PinOne(st, s.segmentId), rest);
      } else {
        PinLoopAll(st, rest);
        PinLoopMembers(st, rest);
      }
    }
  }

  lemma {:induction false} PinLoopMembers(st: Store, segments: seq<BlendSegment>)
    ensures forall s :: s in PinLoop(st, segments).1 <==> s in segments && IsCommitted(st, s.segmentId)
    decreases |segments|
  {
    if segments != [] {
      var s, rest := segments[0], segments[1..];
      if IsCommitted(st, s.segmentId) {
        PinLoopMembers(PinOne(st, s.segmentId), rest);
      } else {
        PinLoopMembers(st, rest);
      }
    }
  }

  /** Pinning records exactly the accepted segments, and accepts all of them only if every one is committed. */
  lemma PinOutcome(st: Store, r: RequestId, segments: seq<BlendSegment>)
    requires Inv(st)
    ensures var (st', valid) := Pin(st, r, segments);
            && Inv(st') && st'.chunkSize == st.chunkSize
            && PinsOf(st', r) == SegmentIds(valid)
            && (forall x :: x in valid <==> x in segments && IsCommitted(st, x.segmentId))
            && (Elements(segments) <= Elements(valid) ==> valid == segments)
            && (forall q :: q != r ==> PinsOf(st', q) == PinsOf(st, q))
  {
    hide Inv, Release, PinLoop;
    PinKeeps(st, r, segments);
    ApplyKeepsLimits(st, OpPin(r, segments));
    ReleaseKeeps(st, r);
    PinLoopAll(Release(st, r), segments);
    PinLoopMembers(Release(st, r), segments);
    PinLoopFrame(Release(st, r), segments);
    var valid := Pin(st, r, segments).1;
    forall q | q != r ensures PinsOf(Pin(st, r, segments).0, q) == PinsOf(st, q) {
      PinsUndisturbed(st, OpPin(r, segments), q);
    }
    if Elements(segments) <= Elements(valid) {
      forall s | s in segments ensures s in valid { assert s in Elements(segments); }
    }
  }

  // ---------------------------------------------------------------- what the segments promise

  lemma SearchPlanable(st: Store, job: Job)
    requires Inv(st) && st.chunkSize > 0 && job.apc < |job.prompt|
    ensures SuffixPlanable(job, st.chunkSize, Scan(st.matcher, st.chunkSize, job.scope, job.Suffix(), 0))
  {
    hide InvHolding, Scan, HashOf, Claims, IsMatch;
    var found := Scan(st.matcher, st.chunkSize, job.scope, job.Suffix(), 0);
    RegistryIds(st);
    ScanOfMadeRecords(st.matcher, st.chunkSize, job.scope, job.Suffix(), 0);
    ScanIsSound(st.matcher, st.chunkSize, job.scope, job.Suffix(), 0);
    forall i | 0 <= i < |found|
      ensures found[i].targetStart >= 0
      ensures Claims(job, st.chunkSize, found[i].(targetStart := found[i].targetStart + job.apc))
    {
      assert found[i] in found;
      MatchClaims(st.matcher, st.chunkSize, job, found[i]);
    }
  }

  lemma MatchClaims(log: Log, chunkSize: nat, job: Job, s: BlendSegment)
    requires AllMade(log, chunkSize) && job.apc < |job.prompt|
    requires s.Valid() && IsMatch(log, chunkSize, job.scope, job.Suffix(), s)
    ensures Claims(job, chunkSize, s.(targetStart := s.targetStart + job.apc))
  {
    hide HashOf;
    var window := job.Suffix()[s.targetStart..s.targetStart + chunkSize];
    var r :| r in log && r.segmentId == s.segmentId && Fits(r, job.scope, window);
    MadeOf(log, chunkSize, r);
    var at := s.targetStart + job.apc;
    SuffixWindow(job.prompt, job.apc, s.targetStart, chunkSize);
    assert window == job.prompt[at..at + chunkSize];
  }

  lemma MadeOf(log: Log, chunkSize: nat, r: FingerprintRecord)
    requires AllMade(log, chunkSize) && r in log
    ensures r.Made(chunkSize)
  {
  }

  lemma SuffixWindow(prompt: seq<Token>, apc: nat, at: nat, length: nat)
    requires apc + at + length <= |prompt|
    ensures prompt[apc..][at..at + length] == prompt[apc + at..apc + at + length]
  {
  }

  lemma DisjointTail(segments: seq<BlendSegment>, valid: seq<BlendSegment>)
    requires segments != [] && Disjoint(segments) && Disjoint(valid)
    requires forall s :: s in valid ==> s in segments[1..]
    ensures Disjoint([segments[0]] + valid)
  {
    forall j | 0 <= j < |valid| ensures segments[0].TargetEnd() <= valid[j].targetStart {
      assert valid[j] in segments[1..];
      var k :| 0 <= k < |segments| - 1 && segments[1..][k] == valid[j];
      assert segments[k + 1] == valid[j];
    }
  }

  lemma {:induction false} ValidateKeepsOrder(st: Store, segments: seq<BlendSegment>)
    requires Disjoint(segments)
    ensures Disjoint(Validate(st, segments).1)
    decreases |segments|
  {
    hide Disjoint, Touch;
    if segments != [] {
      var s, rest := segments[0], segments[1..];
      var st' := if IsCommitted(st, s.segmentId) then Touch(st, s.segmentId) else st;
      TailDisjoint(segments);
      ValidateKeepsOrder(st', rest);
      ValidateFrame(st', rest);
      DisjointTail(segments, Validate(st', rest).1);
    }
  }

  lemma TailDisjoint(segments: seq<BlendSegment>)
    requires segments != [] && Disjoint(segments)
    ensures Disjoint(segments[1..])
  {
  }

  lemma ValidateIsSubsequence(st: Store, job: Job, chunkSize: nat, segments: seq<BlendSegment>)
    requires SuffixPlanable(job, chunkSize, segments)
    ensures SuffixPlanable(job, chunkSize, Validate(st, segments).1)
  {
    hide Claims, Disjoint, Validate;
    ValidateKeepsOrder(st, segments);
    ValidateFrame(st, segments);
    var valid := Validate(st, segments).1;
    forall i | 0 <= i < |valid|
      ensures valid[i].targetStart >= 0
      ensures Claims(job, chunkSize, valid[i].(targetStart := valid[i].targetStart + job.apc))
    {
      assert valid[i] in segments;
    }
  }

  lemma ShiftPlanable(job: Job, chunkSize: nat, segments: seq<BlendSegment>)
    requires SuffixPlanable(job, chunkSize, segments)
    ensures Planable(job, chunkSize, Shift(segments, job.apc))
  {
  }

  lemma KeepPlanable(job: Job, chunkSize: nat, candidates: seq<BlendSegment>, common: set<BlendSegment>)
    requires Planable(job, chunkSize, candidates)
    ensures Planable(job, chunkSize, Keep(candidates, common))
  {
    var kept := Keep(candidates, common);
    forall i | 0 <= i < |candidates| ensures candidates[i].Valid() { assert Claims(job, chunkSize, candidates[i]); }
    KeepStaysOrdered(candidates, common);
    forall i | 0 <= i < |kept| ensures Claims(job, chunkSize, kept[i]) {
      assert kept[i] in candidates;
    }
  }

  /** The plan of a returned lookup: its prefix is the cached one, it keeps exactly the returned segments, and its span
      ends at the prefix without any, before the last prompt token for the Sparse-Q strategies, which have to see the
      trailing question, and otherwise with the last segment. */
  ghost predicate IsPlanOf(job: Job, chunkSize: nat, segments: seq<BlendSegment>, sparse: bool, plan: BlendPlan) {
    && plan.apcPrefixTokens == job.apc && plan.segments == segments && plan.hitTokens == |segments| * chunkSize
    && plan.allocationEnd == (if segments == [] then job.apc
                              else if sparse then |job.prompt| - 1
                              else segments[|segments| - 1].targetStart + chunkSize)
  }

  /** Building the plan of a returned lookup never fails, and leaves at least the last prompt token outside the span. */
  lemma ReturnedPlan(job: Job, chunkSize: nat, segments: seq<BlendSegment>, sparse: bool)
    requires Planable(job, chunkSize, segments) && job.apc < |job.prompt|
    ensures var plan := PlanFor(job, segments, sparse);
            && plan.WellFormed() && IsPlanOf(job, chunkSize, segments, sparse, plan)
            && plan.allocationEnd < |job.prompt|
            && plan.GapTokens() == |Uncovered(segments, job.apc, plan.allocationEnd)|
  {
    hide Planable, SortByTarget, Distinct, MaxTargetEnd, Uncovered;
    PlanableSegments(job, chunkSize, segments);
    OrderedSegmentsPlan(job.apc, segments, |job.prompt| - 1);
    DisjointSegmentsPlan(job.apc, segments);
    TotalOfEqualLengths(segments, chunkSize);
    GapTokensAreUncovered(PlanFor(job, segments, sparse));
  }

  lemma PlanableSegments(job: Job, chunkSize: nat, segments: seq<BlendSegment>)
    requires Planable(job, chunkSize, segments)
    ensures AllValid(segments) && Disjoint(segments) && InSpan(segments, job.apc, |job.prompt| - 1)
    ensures forall i :: 0 <= i < |segments| ==> segments[i].Length() == chunkSize
  {
    hide HashOf;
    forall i | 0 <= i < |segments|
      ensures segments[i].Valid() && job.apc <= segments[i].targetStart && segments[i].TargetEnd() <= |job.prompt| - 1
      ensures segments[i].Length() == chunkSize
    {
      assert Claims(job, chunkSize, segments[i]);
    }
  }
}
