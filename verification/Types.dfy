/** Segment identities, placed segments, and the span plan built from them. */
module Types {
  import opened Wrappers
  import opened Hashing

  /** Source tokens `sourceStart .. sourceStart + tokenCount` of one model scope, named by content hash. */
  datatype SegmentId = SegmentId(modelScope: string, contentHash: int, sourceStart: int, tokenCount: int)
  {
    /** What the constructor accepts. */
    predicate Valid() {
      modelScope != "" && sourceStart >= 0 && tokenCount > 0
    }
  }

  /** A stored segment placed at `targetStart` of a prompt. */
  datatype BlendSegment = BlendSegment(segmentId: SegmentId, targetStart: int)
  {
    function Length(): int { segmentId.tokenCount }

    function TargetEnd(): int { targetStart + Length() }

    predicate Valid() { segmentId.Valid() && targetStart >= 0 }

    predicate Covers(p: int) { targetStart <= p < TargetEnd() }
  }

  datatype BlendPlan = BlendPlan(apcPrefixTokens: int, allocationEnd: int, hitTokens: int, segments: seq<BlendSegment>)
  {
    function AllocationTokens(): int { allocationEnd - apcPrefixTokens }

    function GapTokens(): int { AllocationTokens() - hitTokens }

    /** The plan invariant, stated position by position rather than as the validation loop. */
    ghost predicate WellFormed() {
      && 0 <= apcPrefixTokens <= allocationEnd
      && InSpan(segments, apcPrefixTokens, allocationEnd)
      && Disjoint(segments)
      && hitTokens == TotalLength(segments)
    }
  }

  datatype PlanError = InvalidSpan | BeforePrefix | Overlap | ExceedsSpan | WrongHitCount | Unsorted

  ghost predicate AllValid(segments: seq<BlendSegment>) {
    forall i :: 0 <= i < |segments| ==> segments[i].Valid()
  }

  ghost predicate InSpan(segments: seq<BlendSegment>, lo: int, hi: int) {
    forall i :: 0 <= i < |segments| ==> lo <= segments[i].targetStart && segments[i].TargetEnd() <= hi
  }

  /** Each segment ends before every later one starts. */
  ghost predicate Disjoint(segments: seq<BlendSegment>) {
    forall i, j :: 0 <= i < j < |segments| ==> segments[i].TargetEnd() <= segments[j].targetStart
  }

  ghost predicate IsCovered(segments: seq<BlendSegment>, p: int) {
    exists i :: 0 <= i < |segments| && segments[i].Covers(p)
  }

  ghost predicate Increasing(positions: seq<int>) {
    forall x, y :: 0 <= x < y < |positions| ==> positions[x] < positions[y]
  }

  function TotalLength(segments: seq<BlendSegment>): int {
    if segments == [] then 0 else TotalLength(segments[..|segments| - 1]) + segments[|segments| - 1].Length()
  }

  // ---------------------------------------------------------------- sorting by target start

  ghost predicate SortedByTarget(segments: seq<BlendSegment>) {
    forall i, j :: 0 <= i < j < |segments| ==> segments[i].targetStart <= segments[j].targetStart
  }

  /** Inserts after every element that is not larger, so equal keys keep their order. */
  function Insert(sorted: seq<BlendSegment>, s: BlendSegment): seq<BlendSegment> {
    if sorted == [] || sorted[|sorted| - 1].targetStart <= s.targetStart then sorted + [s]
    else Insert(sorted[..|sorted| - 1], s) + [sorted[|sorted| - 1]]
  }

  function SortByTarget(segments: seq<BlendSegment>): seq<BlendSegment> {
    if segments == [] then [] else Insert(SortByTarget(segments[..|segments| - 1]), segments[|segments| - 1])
  }

  lemma {:induction false} InsertPermutes(sorted: seq<BlendSegment>, s: BlendSegment)
    ensures multiset(Insert(sorted, s)) == multiset(sorted) + multiset{s}
  {
    if sorted != [] && sorted[|sorted| - 1].targetStart > s.targetStart {
      var front, last := sorted[..|sorted| - 1], sorted[|sorted| - 1];
      assert sorted == front + [last];
      InsertPermutes(front, s);
    }
  }

  /** An inserted element is found among the old ones and itself. */
  lemma InsertElements(sorted: seq<BlendSegment>, s: BlendSegment)
    ensures forall x :: x in Insert(sorted, s) ==> x in sorted || x == s
  {
    InsertPermutes(sorted, s);
    forall x | x in Insert(sorted, s) ensures x in sorted || x == s {
      assert x in multiset(Insert(sorted, s));
    }
  }

  lemma SortedAppend(front: seq<BlendSegment>, last: BlendSegment)
    requires SortedByTarget(front) && forall x :: x in front ==> x.targetStart <= last.targetStart
    ensures SortedByTarget(front + [last])
  {
  }

  lemma {:induction false} InsertKeepsOrder(sorted: seq<BlendSegment>, s: BlendSegment)
    requires SortedByTarget(sorted)
    ensures SortedByTarget(Insert(sorted, s))
  {
    if sorted == [] || sorted[|sorted| - 1].targetStart <= s.targetStart {
      SortedAppend(sorted, s);
    } else {
      var front, last := sorted[..|sorted| - 1], sorted[|sorted| - 1];
      InsertKeepsOrder(front, s);
      InsertElements(front, s);
      SortedAppend(Insert(front, s), last);
    }
  }

  lemma {:induction false} SortByTargetSorts(segments: seq<BlendSegment>)
    ensures SortedByTarget(SortByTarget(segments))
    ensures multiset(SortByTarget(segments)) == multiset(segments)
  {
    if segments != [] {
      var front, last := segments[..|segments| - 1], segments[|segments| - 1];
      assert segments == front + [last];
      SortByTargetSorts(front);
      InsertKeepsOrder(SortByTarget(front), last);
      InsertPermutes(SortByTarget(front), last);
    }
  }

  lemma {:induction false} SortFixesSorted(segments: seq<BlendSegment>)
    requires SortedByTarget(segments)
    ensures SortByTarget(segments) == segments
  {
    if segments != [] {
      SortFixesSorted(segments[..|segments| - 1]);
    }
  }

  // ---------------------------------------------------------------- plan construction

  lemma TotalOfPrefix(segments: seq<BlendSegment>, i: nat)
    requires i < |segments|
    ensures TotalLength(segments[..i + 1]) == TotalLength(segments[..i]) + segments[i].Length()
  {
    assert segments[..i + 1][..i] == segments[..i];
  }

  /** The first i segments pass every check, and end at or before `previousEnd`. */
  ghost predicate Passed(ordered: seq<BlendSegment>, i: nat, lo: int, hi: int, previousEnd: int)
    requires i <= |ordered|
  {
    && InSpan(ordered[..i], lo, hi) && Disjoint(ordered[..i])
    && (forall k: nat :: k < i ==> ordered[k].TargetEnd() <= previousEnd)
    && (previousEnd == lo || (i > 0 && previousEnd == ordered[i - 1].TargetEnd()))
  }

  /** The next segment passes too, or the whole list does not. */
  lemma PassedStep(ordered: seq<BlendSegment>, i: nat, lo: int, hi: int, previousEnd: int)
    requires i < |ordered| && Passed(ordered, i, lo, hi, previousEnd)
    ensures var next := ordered[i];
            if lo <= next.targetStart && previousEnd <= next.targetStart && next.TargetEnd() <= hi
            then next.Valid() ==> Passed(ordered, i + 1, lo, hi, next.TargetEnd())
            else !(InSpan(ordered, lo, hi) && Disjoint(ordered))
  {
    forall k: nat | k < i ensures ordered[..i + 1][k] == ordered[..i][k] == ordered[k] {
    }
    if i > 0 {
      assert ordered[i - 1].TargetEnd() <= previousEnd;
    }
  }

  /** The loop over the ordered segments: in the span, disjoint, and their total length. */
  method CheckOrdered(ordered: seq<BlendSegment>, lo: int, hi: int) returns (r: Result<int, PlanError>)
    requires AllValid(ordered)
    ensures r.Ok? <==> InSpan(ordered, lo, hi) && Disjoint(ordered)
    ensures r.Ok? ==> r.value == TotalLength(ordered)
  {
    hide Passed, TotalLength, InSpan, Disjoint;
    var previousEnd, total := lo, 0;
    NothingPassed(ordered, lo, hi);
    for i := 0 to |ordered|
      invariant Passed(ordered, i, lo, hi, previousEnd)
      invariant total == TotalLength(ordered[..i])
    {
      var segment := ordered[i];
      PassedStep(ordered, i, lo, hi, previousEnd);
      if segment.targetStart < lo {
        return Raise(BeforePrefix);
      }
      if segment.targetStart < previousEnd {
        return Raise(Overlap);
      }
      if segment.TargetEnd() > hi {
        return Raise(ExceedsSpan);
      }
      TotalOfPrefix(ordered, i);
      total := total + segment.Length();
      previousEnd := segment.TargetEnd();
    }
    AllPassed(ordered, lo, hi, previousEnd);
    return Ok(total);
  }

  lemma NothingPassed(ordered: seq<BlendSegment>, lo: int, hi: int)
    ensures Passed(ordered, 0, lo, hi, lo) && TotalLength(ordered[..0]) == 0
  {
  }

  lemma AllPassed(ordered: seq<BlendSegment>, lo: int, hi: int, previousEnd: int)
    requires Passed(ordered, |ordered|, lo, hi, previousEnd)
    ensures InSpan(ordered, lo, hi) && Disjoint(ordered) && ordered[..|ordered|] == ordered
  {
    assert ordered[..|ordered|] == ordered;
  }

  /** The constructor's validation. It succeeds exactly on well-formed fields. */
  method MakePlan(apcPrefixTokens: int, allocationEnd: int, hitTokens: int, segments: seq<BlendSegment>)
    returns (r: Result<BlendPlan, PlanError>)
    requires AllValid(segments)
    ensures r.Ok? <==> BlendPlan(apcPrefixTokens, allocationEnd, hitTokens, segments).WellFormed()
    ensures r.Ok? ==> r.value == BlendPlan(apcPrefixTokens, allocationEnd, hitTokens, segments)
  {
    if apcPrefixTokens < 0 || allocationEnd < apcPrefixTokens {
      return Raise(InvalidSpan);
    }
    var ordered := SortByTarget(segments);
    SortedElementsValid(segments);
    OrderedWhenWellFormed(segments);
    var checked := CheckOrdered(ordered, apcPrefixTokens, allocationEnd);
    if checked.Raise? {
      return Raise(checked.error);
    }
    if checked.value != hitTokens {
      return Raise(WrongHitCount);
    }
    if ordered != segments {
      return Raise(Unsorted);
    }
    return Ok(BlendPlan(apcPrefixTokens, allocationEnd, hitTokens, segments));
  }

  lemma SortedElementsValid(segments: seq<BlendSegment>)
    requires AllValid(segments)
    ensures AllValid(SortByTarget(segments))
  {
    SortByTargetSorts(segments);
    var sorted := SortByTarget(segments);
    forall i | 0 <= i < |sorted|
      ensures sorted[i].Valid()
    {
      assert sorted[i] in multiset(segments);
    }
  }

  /** Disjoint segments of positive length are strictly ordered, so sorting leaves them alone. */
  lemma OrderedWhenWellFormed(segments: seq<BlendSegment>)
    requires AllValid(segments)
    ensures Disjoint(segments) ==> SortByTarget(segments) == segments
  {
    if Disjoint(segments) {
      forall i, j | 0 <= i < j < |segments|
        ensures segments[i].targetStart <= segments[j].targetStart
      {
        assert segments[i].Valid();
      }
      SortFixesSorted(segments);
    }
  }

  ghost predicate NoneRepeated(segments: seq<BlendSegment>) {
    forall i, j :: 0 <= i < j < |segments| ==> segments[i] != segments[j]
  }

  /** `sorted(set(segments), key=...)`: each value once, by target start. */
  function Distinct(segments: seq<BlendSegment>): (d: seq<BlendSegment>)
    ensures forall s :: s in d <==> s in segments
    ensures NoneRepeated(d)
  {
    if segments == [] then []
    else
      var rest, last := segments[..|segments| - 1], segments[|segments| - 1];
      assert segments == rest + [last];
      if last in Distinct(rest) then Distinct(rest) else Distinct(rest) + [last]
  }

  function MaxTargetEnd(segments: seq<BlendSegment>): int
    requires segments != []
  {
    var rest, last := segments[..|segments| - 1], segments[|segments| - 1];
    if rest == [] || MaxTargetEnd(rest) < last.TargetEnd() then last.TargetEnd() else MaxTargetEnd(rest)
  }

  /** The fields `from_segments` hands to the constructor for ordered segments. */
  function SpanOf(apcPrefixTokens: int, ordered: seq<BlendSegment>): BlendPlan {
    if ordered == [] then BlendPlan(apcPrefixTokens, apcPrefixTokens, 0, [])
    else BlendPlan(apcPrefixTokens, MaxTargetEnd(ordered), TotalLength(ordered), ordered)
  }

  /** Building a plan succeeds exactly when no two different segments overlap and none starts before the prefix. The
      plan then lists those segments once each, in order, and its span ends with the last of them, so neither the
      order nor the repetition of the given segments matters. */
  method FromSegments(apcPrefixTokens: int, segments: seq<BlendSegment>) returns (r: Result<BlendPlan, PlanError>)
    requires AllValid(segments)
    ensures r.Ok? <==> 0 <= apcPrefixTokens && PairwiseApart(segments) && AllBehind(segments, apcPrefixTokens)
    ensures r.Ok? ==> r.value == SpanOf(apcPrefixTokens, SortByTarget(Distinct(segments)))
    ensures r.Ok? ==>
              && r.value.apcPrefixTokens == apcPrefixTokens && Disjoint(r.value.segments)
              && (forall s :: s in r.value.segments <==> s in segments)
              && r.value.hitTokens == TotalLength(r.value.segments)
              && EndsWith(segments, apcPrefixTokens, r.value.allocationEnd)
  {
    var ordered := SortByTarget(Distinct(segments));
    DistinctSortedElements(segments);
    SpanOfSet(apcPrefixTokens, segments);
    forall i | 0 <= i < |ordered| ensures ordered[i].Valid() { assert ordered[i] in segments; }
    if ordered == [] {
      r := MakePlan(apcPrefixTokens, apcPrefixTokens, 0, []);
      return;
    }
    r := MakePlan(apcPrefixTokens, MaxTargetEnd(ordered), TotalLength(ordered), ordered);
  }

  ghost predicate PairwiseApart(segments: seq<BlendSegment>) {
    forall s, u :: s in segments && u in segments && s != u ==>
      s.TargetEnd() <= u.targetStart || u.TargetEnd() <= s.targetStart
  }

  ghost predicate AllBehind(segments: seq<BlendSegment>, apcPrefixTokens: int) {
    forall s :: s in segments ==> apcPrefixTokens <= s.targetStart
  }

  /** The largest end of a segment, or the prefix without any. */
  ghost predicate EndsWith(segments: seq<BlendSegment>, apcPrefixTokens: int, end: int) {
    && (segments == [] ==> end == apcPrefixTokens)
    && (segments != [] ==> exists s :: s in segments && s.TargetEnd() == end)
    && (forall s :: s in segments ==> s.TargetEnd() <= end)
  }

  lemma SpanOfSet(apcPrefixTokens: int, segments: seq<BlendSegment>)
    requires AllValid(segments)
    ensures var plan := SpanOf(apcPrefixTokens, SortByTarget(Distinct(segments)));
            && (plan.WellFormed() <==>
                  0 <= apcPrefixTokens && PairwiseApart(segments) && AllBehind(segments, apcPrefixTokens))
            && plan.apcPrefixTokens == apcPrefixTokens && plan.segments == SortByTarget(Distinct(segments))
            && EndsWith(segments, apcPrefixTokens, plan.allocationEnd)
  {
    hide SortByTarget, Distinct, MaxTargetEnd, Disjoint, PairwiseApart, TotalLength;
    var ordered := SortByTarget(Distinct(segments));
    var end := SpanOf(apcPrefixTokens, ordered).allocationEnd;
    DistinctSortedElements(segments);
    DisjointIffApart(segments);
    SpanEnd(apcPrefixTokens, segments, ordered);
    BehindIsInSpan(apcPrefixTokens, end, segments, ordered);
    if ordered == [] {
      NoLength();
    } else if AllBehind(segments, apcPrefixTokens) {
      assert ordered[0] in segments;
      ValidElement(segments, ordered[0]);
    }
  }

  lemma NoLength()
    ensures TotalLength([]) == 0 && Disjoint([])
  {
  }

  lemma ValidElement(segments: seq<BlendSegment>, s: BlendSegment)
    requires AllValid(segments) && s in segments
    ensures s.Valid() && s.targetStart < s.TargetEnd()
  {
    var i :| 0 <= i < |segments| && segments[i] == s;
  }

  lemma SpanEnd(apcPrefixTokens: int, segments: seq<BlendSegment>, ordered: seq<BlendSegment>)
    requires forall s :: s in ordered <==> s in segments
    ensures EndsWith(segments, apcPrefixTokens, SpanOf(apcPrefixTokens, ordered).allocationEnd)
  {
    assert segments == [] || segments[0] in segments;
    if ordered != [] {
      assert ordered[0] in segments;
      MaxEndBounds(ordered);
      var i :| 0 <= i < |ordered| && ordered[i].TargetEnd() == MaxTargetEnd(ordered);
      assert ordered[i] in segments;
    }
  }

  lemma BehindIsInSpan(lo: int, hi: int, segments: seq<BlendSegment>, ordered: seq<BlendSegment>)
    requires forall s :: s in ordered <==> s in segments
    requires forall s :: s in segments ==> s.TargetEnd() <= hi
    ensures InSpan(ordered, lo, hi) <==> AllBehind(segments, lo)
  {
    if InSpan(ordered, lo, hi) {
      forall s | s in segments ensures lo <= s.targetStart {
        var i :| 0 <= i < |ordered| && ordered[i] == s;
      }
    }
    if AllBehind(segments, lo) {
      forall i | 0 <= i < |ordered| ensures lo <= ordered[i].targetStart && ordered[i].TargetEnd() <= hi {
        assert ordered[i] in segments;
      }
    }
  }

  lemma {:induction false} MultisetOfDistinct(xs: seq<BlendSegment>, x: BlendSegment)
    requires NoneRepeated(xs)
    ensures multiset(xs)[x] <= 1
  {
    if xs != [] {
      var front, last := xs[..|xs| - 1], xs[|xs| - 1];
      assert xs == front + [last];
      MultisetOfDistinct(front, x);
      if x == last { assert x !in front; assert x !in multiset(front); }
    }
  }

  lemma SortedDistinct(xs: seq<BlendSegment>, i: nat, j: nat)
    requires NoneRepeated(xs)
    requires i < j < |SortByTarget(xs)|
    ensures SortByTarget(xs)[i] != SortByTarget(xs)[j]
  {
    SortByTargetSorts(xs);
    var a := SortByTarget(xs);
    MultisetOfDistinct(xs, a[i]);
    assert a == a[..j] + [a[j]] + a[j + 1..];
    assert a[i] in a[..j] by { assert a[..j][i] == a[i]; }
    assert multiset(a) == multiset(a[..j]) + multiset{a[j]} + multiset(a[j + 1..]);
  }

  lemma DisjointIffApart(segments: seq<BlendSegment>)
    requires AllValid(segments)
    ensures Disjoint(SortByTarget(Distinct(segments))) <==> PairwiseApart(segments)
  {
    hide SortByTarget, Distinct;
    var ordered := SortByTarget(Distinct(segments));
    DistinctSortedElements(segments);
    SortByTargetSorts(Distinct(segments));
    if Disjoint(ordered) {
      forall s, u | s in segments && u in segments && s != u
        ensures s.TargetEnd() <= u.targetStart || u.TargetEnd() <= s.targetStart
      {
        var i :| 0 <= i < |ordered| && ordered[i] == s;
        var j :| 0 <= j < |ordered| && ordered[j] == u;
        assert i < j || j < i;
      }
    }
    if PairwiseApart(segments) {
      forall i, j | 0 <= i < j < |ordered| ensures ordered[i].TargetEnd() <= ordered[j].targetStart {
        SortedDistinct(Distinct(segments), i, j);
        assert ordered[i] in segments && ordered[j] in segments;
        ValidElement(segments, ordered[j]);
      }
    }
  }

  /** On disjoint segments after the prefix, planning succeeds and keeps exactly those segments;
      the span then ends with the last of them. */
  lemma DisjointSegmentsPlan(apcPrefixTokens: int, segments: seq<BlendSegment>)
    requires AllValid(segments) && Disjoint(segments) && 0 <= apcPrefixTokens
    requires forall i :: 0 <= i < |segments| ==> apcPrefixTokens <= segments[i].targetStart
    ensures SortByTarget(Distinct(segments)) == segments
    ensures SpanOf(apcPrefixTokens, segments).WellFormed()
    ensures segments == [] ==> SpanOf(apcPrefixTokens, segments).allocationEnd == apcPrefixTokens
    ensures segments != [] ==> SpanOf(apcPrefixTokens, segments).allocationEnd == segments[|segments| - 1].TargetEnd()
    ensures SpanOf(apcPrefixTokens, segments).apcPrefixTokens == apcPrefixTokens
    ensures SpanOf(apcPrefixTokens, segments).segments == segments
  {
    DistinctOfDisjoint(segments);
    if segments != [] {
      MaxEndIsLast(segments);
      MaxEndBounds(segments);
      assert segments[0].Valid();
    }
  }

  lemma DistinctSortedElements(segments: seq<BlendSegment>)
    ensures forall s :: s in SortByTarget(Distinct(segments)) <==> s in segments
  {
    SortByTargetSorts(Distinct(segments));
    forall s ensures s in SortByTarget(Distinct(segments)) <==> s in segments {
      assert s in SortByTarget(Distinct(segments)) <==> s in multiset(Distinct(segments));
    }
  }

  lemma DistinctAppend(rest: seq<BlendSegment>, last: BlendSegment)
    requires last !in rest
    ensures Distinct([]) == [] && Distinct(rest + [last]) == Distinct(rest) + [last]
  {
    assert (rest + [last])[..|rest|] == rest;
  }

  lemma NoneRepeatedBefore(segments: seq<BlendSegment>)
    requires segments != [] && NoneRepeated(segments)
    ensures var rest, last := segments[..|segments| - 1], segments[|segments| - 1];
            NoneRepeated(rest) && last !in rest && segments == rest + [last]
  {
  }

  lemma {:induction false} DistinctOfUnique(segments: seq<BlendSegment>)
    requires NoneRepeated(segments)
    ensures Distinct(segments) == segments
  {
    if segments != [] {
      hide Distinct, NoneRepeated;
      var rest, last := segments[..|segments| - 1], segments[|segments| - 1];
      NoneRepeatedBefore(segments);
      DistinctOfUnique(rest);
      DistinctAppend(rest, last);
    }
  }

  lemma DistinctOfDisjoint(segments: seq<BlendSegment>)
    requires AllValid(segments)
    ensures Disjoint(segments) ==> SortByTarget(Distinct(segments)) == segments
  {
    if Disjoint(segments) {
      forall i, j | 0 <= i < j < |segments|
        ensures segments[i] != segments[j]
      {
        assert segments[i].Valid();
      }
      DistinctOfUnique(segments);
      OrderedWhenWellFormed(segments);
    }
  }

  lemma {:induction false} MaxEndBounds(segments: seq<BlendSegment>)
    requires segments != []
    ensures forall i :: 0 <= i < |segments| ==> segments[i].TargetEnd() <= MaxTargetEnd(segments)
    ensures exists i :: 0 <= i < |segments| && segments[i].TargetEnd() == MaxTargetEnd(segments)
  {
    var n := |segments| - 1;
    if n > 0 {
      MaxEndBounds(segments[..n]);
      var k :| 0 <= k < n && segments[..n][k].TargetEnd() == MaxTargetEnd(segments[..n]);
      assert segments[k].TargetEnd() == MaxTargetEnd(segments[..n]);
    }
    assert segments[n].TargetEnd() <= MaxTargetEnd(segments);
  }

  lemma MaxEndIsLast(segments: seq<BlendSegment>)
    requires segments != [] && AllValid(segments) && Disjoint(segments)
    ensures MaxTargetEnd(segments) == segments[|segments| - 1].TargetEnd()
  {
    MaxEndBounds(segments);
    var k :| 0 <= k < |segments| && segments[k].TargetEnd() == MaxTargetEnd(segments);
    assert segments[|segments| - 1].Valid();
  }

  // ---------------------------------------------------------------- gap accounting

  function Interval(lo: int, hi: int): (s: set<int>)
    ensures forall p :: p in s <==> lo <= p < hi
    decreases hi - lo
  {
    if lo >= hi then {} else Interval(lo, hi - 1) + {hi - 1}
  }

  /** Positions of the span that no segment covers. */
  ghost function Uncovered(segments: seq<BlendSegment>, lo: int, hi: int): set<int> {
    set p | p in Interval(lo, hi) && forall i :: 0 <= i < |segments| ==> !segments[i].Covers(p)
  }

  lemma {:induction false} IntervalSize(lo: int, hi: int)
    requires lo <= hi
    ensures |Interval(lo, hi)| == hi - lo
    decreases hi - lo
  {
    if lo < hi {
      IntervalSize(lo, hi - 1);
      assert Interval(lo, hi) == Interval(lo, hi - 1) + {hi - 1};
    } else {
      assert Interval(lo, hi) == {};
    }
  }

  lemma {:induction false} UncoveredCount(segments: seq<BlendSegment>, lo: int, hi: int)
    requires AllValid(segments) && lo <= hi && InSpan(segments, lo, hi) && Disjoint(segments)
    ensures |Uncovered(segments, lo, hi)| == hi - lo - TotalLength(segments)
    decreases |segments|
  {
    if segments == [] {
      assert Uncovered(segments, lo, hi) == Interval(lo, hi);
      IntervalSize(lo, hi);
    } else {
      var n := |segments| - 1;
      var front, last := segments[..n], segments[n];
      assert last.Valid();
      UncoveredCount(front, lo, last.targetStart);
      IntervalSize(last.TargetEnd(), hi);
      UncoveredSplit(segments, lo, hi);
      UnionSize(Uncovered(front, lo, last.targetStart), Interval(last.TargetEnd(), hi));
    }
  }

  lemma UncoveredSplit(segments: seq<BlendSegment>, lo: int, hi: int)
    requires segments != [] && AllValid(segments) && InSpan(segments, lo, hi) && Disjoint(segments)
    ensures var n := |segments| - 1;
            Uncovered(segments, lo, hi)
            == Uncovered(segments[..n], lo, segments[n].targetStart) + Interval(segments[n].TargetEnd(), hi)
  {
    var n := |segments| - 1;
    var front, last := segments[..n], segments[n];
    var left, whole := Uncovered(front, lo, last.targetStart), Uncovered(segments, lo, hi);
    forall p | p in whole
      ensures p in left || p in Interval(last.TargetEnd(), hi)
    {
      assert !segments[n].Covers(p);
      if p < last.targetStart {
        forall i | 0 <= i < n ensures !front[i].Covers(p) { assert !segments[i].Covers(p); }
      }
    }
    forall p | p in left || p in Interval(last.TargetEnd(), hi)
      ensures p in whole
    {
      assert last.Valid();
      forall i | 0 <= i < |segments| ensures !segments[i].Covers(p) {
        if i < n { assert p in left ==> !front[i].Covers(p); }
      }
    }
  }

  lemma UnionSize<T>(a: set<T>, b: set<T>)
    requires a !! b
    ensures |a + b| == |a| + |b|
  {
  }

  /** The reported gap count is the number of span positions no segment covers. */
  lemma GapTokensAreUncovered(plan: BlendPlan)
    requires AllValid(plan.segments) && plan.WellFormed()
    ensures plan.GapTokens() == |Uncovered(plan.segments, plan.apcPrefixTokens, plan.allocationEnd)|
  {
    UncoveredCount(plan.segments, plan.apcPrefixTokens, plan.allocationEnd);
  }
}
