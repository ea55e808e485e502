/** What token-range matching means: the registration log, the naive left-to-right scan over it,
    and the laws of that scan. The indexed matcher is proved equal to this scan in module Matcher. */
module Matching {
  import opened Wrappers
  import opened Hashing
  import opened Types

  datatype FingerprintRecord = FingerprintRecord(segmentId: SegmentId, tokens: seq<Token>)
  {
    /** The hash field really is the hash of the tokens. */
    predicate HashIsRight() { segmentId.contentHash == HashOf(tokens) }

    /** What `make_record` builds for one chunk length. */
    predicate Made(chunkSize: nat) {
      HashIsRight() && segmentId.Valid() && |tokens| == segmentId.tokenCount == chunkSize
    }
  }

  /** Surviving records in registration order. */
  type Log = seq<FingerprintRecord>

  ghost predicate AllMade(log: Log, chunkSize: nat) {
    forall r :: r in log ==> r.Made(chunkSize)
  }

  ghost predicate UniqueIds(log: Log) {
    forall i, j :: 0 <= i < j < |log| ==> log[i].segmentId != log[j].segmentId
  }

  // ---------------------------------------------------------------- the log

  function IdsOf(log: Log): set<SegmentId> {
    set r | r in log :: r.segmentId
  }

  function Without(log: Log, id: SegmentId): Log {
    if log == [] then []
    else
      var rest, last := log[..|log| - 1], log[|log| - 1];
      if last.segmentId == id then Without(rest, id) else Without(rest, id) + [last]
  }

  /** Registering the same record again changes nothing; a different record under a known id
      replaces it and moves to the end of the order. */
  function Registered(log: Log, record: FingerprintRecord): Log {
    if record in log then log else Without(log, record.segmentId) + [record]
  }

  lemma {:induction false} WithoutElements(log: Log, id: SegmentId)
    ensures forall r :: r in Without(log, id) <==> r in log && r.segmentId != id
    ensures UniqueIds(log) ==> UniqueIds(Without(log, id))
  {
    if log != [] {
      var rest, last := log[..|log| - 1], log[|log| - 1];
      assert log == rest + [last];
      WithoutElements(rest, id);
      var w := Without(rest, id);
      if UniqueIds(log) && last.segmentId != id {
        forall i | 0 <= i < |w| ensures w[i].segmentId != last.segmentId {
          assert w[i] in rest;
          var k :| 0 <= k < |rest| && rest[k] == w[i];
          assert log[k] == rest[k];
        }
      }
    }
  }

  lemma {:induction false} WithoutAbsent(log: Log, id: SegmentId)
    requires id !in IdsOf(log)
    ensures Without(log, id) == log
  {
    if log != [] {
      var rest, last := log[..|log| - 1], log[|log| - 1];
      assert log == rest + [last];
      assert last in log && last.segmentId in IdsOf(log);
      assert IdsOf(rest) <= IdsOf(log);
      WithoutAbsent(rest, id);
    }
  }

  // ---------------------------------------------------------------- the naive scan

  predicate Fits(r: FingerprintRecord, scope: string, window: seq<Token>) {
    r.segmentId.modelScope == scope && r.tokens == window
  }

  /** The earliest registered record of the scope whose tokens are exactly the window. */
  function Candidate(log: Log, scope: string, window: seq<Token>): Option<FingerprintRecord> {
    if log == [] then None
    else if Fits(log[0], scope, window) then Some(log[0])
    else Candidate(log[1..], scope, window)
  }

  lemma {:induction false} CandidateIsEarliest(log: Log, scope: string, window: seq<Token>)
    ensures var c := Candidate(log, scope, window);
            && (c.None? ==> forall r :: r in log ==> !Fits(r, scope, window))
            && (c.Some? ==> exists k :: 0 <= k < |log| && log[k] == c.value && Fits(log[k], scope, window)
                                        && forall j :: 0 <= j < k ==> !Fits(log[j], scope, window))
  {
    if log != [] && !Fits(log[0], scope, window) {
      CandidateIsEarliest(log[1..], scope, window);
      if Candidate(log, scope, window).Some? {
        var k :| 0 <= k < |log[1..]| && log[1..][k] == Candidate(log, scope, window).value
                 && Fits(log[1..][k], scope, window)
                 && forall j :: 0 <= j < k ==> !Fits(log[1..][j], scope, window);
        forall j | 0 <= j < k + 1 ensures !Fits(log[j], scope, window) {
          if j > 0 { assert log[j] == log[1..][j - 1]; }
        }
        assert log[k + 1] == log[1..][k];
      }
    }
  }

  /** Test every offset by exact comparison; on a hit emit it and skip one chunk. */
  function Scan(log: Log, chunkSize: nat, scope: string, tokens: seq<Token>, from: nat): seq<BlendSegment>
    requires chunkSize > 0
    decreases |tokens| - from
  {
    if from + chunkSize > |tokens| then []
    else
      match Candidate(log, scope, tokens[from..from + chunkSize])
      case Some(r) =>
        [BlendSegment(r.segmentId, from)] + Scan(log, chunkSize, scope, tokens, from + chunkSize)
      case None =>
        Scan(log, chunkSize, scope, tokens, from + 1)
  }

  /** Some stored chunk occurs exactly at offset p. */
  ghost predicate Occurs(log: Log, chunkSize: nat, scope: string, tokens: seq<Token>, p: int) {
    && 0 <= p && p + chunkSize <= |tokens|
    && exists r :: r in log && Fits(r, scope, tokens[p..p + chunkSize])
  }

  ghost predicate IsMatch(log: Log, chunkSize: nat, scope: string, tokens: seq<Token>, s: BlendSegment) {
    && 0 <= s.targetStart && s.targetStart + chunkSize <= |tokens|
    && exists r :: r in log && r.segmentId == s.segmentId
                   && Fits(r, scope, tokens[s.targetStart..s.targetStart + chunkSize])
  }

  /** Every emitted segment is an exact token match at or after the starting offset. */
  lemma {:induction false} ScanIsSound(log: Log, chunkSize: nat, scope: string, tokens: seq<Token>, from: nat)
    requires chunkSize > 0
    ensures forall s :: s in Scan(log, chunkSize, scope, tokens, from) ==>
              s.targetStart >= from && IsMatch(log, chunkSize, scope, tokens, s)
    decreases |tokens| - from
  {
    if from + chunkSize <= |tokens| {
      match Candidate(log, scope, tokens[from..from + chunkSize])
      case Some(r) =>
        ScanIsSound(log, chunkSize, scope, tokens, from + chunkSize);
        CandidateIsEarliest(log, scope, tokens[from..from + chunkSize]);
        assert r in log && Fits(r, scope, tokens[from..from + chunkSize]);
        assert IsMatch(log, chunkSize, scope, tokens, BlendSegment(r.segmentId, from));
      case None =>
        ScanIsSound(log, chunkSize, scope, tokens, from + 1);
    }
  }

  ghost predicate Spaced(found: seq<BlendSegment>, chunkSize: nat) {
    forall i, j :: 0 <= i < j < |found| ==> found[i].targetStart + chunkSize <= found[j].targetStart
  }

  /** Emitted chunks never overlap. */
  lemma {:induction false} ScanIsSpaced(log: Log, chunkSize: nat, scope: string, tokens: seq<Token>, from: nat)
    requires chunkSize > 0
    ensures Spaced(Scan(log, chunkSize, scope, tokens, from), chunkSize)
    decreases |tokens| - from
  {
    if from + chunkSize <= |tokens| {
      match Candidate(log, scope, tokens[from..from + chunkSize])
      case Some(r) =>
        ScanIsSpaced(log, chunkSize, scope, tokens, from + chunkSize);
        var rest := Scan(log, chunkSize, scope, tokens, from + chunkSize);
        ScanIsSound(log, chunkSize, scope, tokens, from + chunkSize);
        forall j | 0 <= j < |rest| ensures rest[j].targetStart >= from + chunkSize {
          assert rest[j] in rest;
        }
      case None =>
        ScanIsSpaced(log, chunkSize, scope, tokens, from + 1);
        assert Scan(log, chunkSize, scope, tokens, from) == Scan(log, chunkSize, scope, tokens, from + 1);
    }
  }

  /** Every emitted segment names the earliest registered record of its window. */
  lemma {:induction false} ScanTakesEarliest(log: Log, chunkSize: nat, scope: string, tokens: seq<Token>, from: nat,
                                             i: nat)
    requires chunkSize > 0 && i < |Scan(log, chunkSize, scope, tokens, from)|
    ensures var s := Scan(log, chunkSize, scope, tokens, from)[i];
            && 0 <= s.targetStart && s.targetStart + chunkSize <= |tokens|
            && var c := Candidate(log, scope, tokens[s.targetStart..s.targetStart + chunkSize]);
            c.Some? && c.value.segmentId == s.segmentId
    decreases |tokens| - from
  {
    match Candidate(log, scope, tokens[from..from + chunkSize])
    case Some(r) => if i > 0 { ScanTakesEarliest(log, chunkSize, scope, tokens, from + chunkSize, i - 1); }
    case None => ScanTakesEarliest(log, chunkSize, scope, tokens, from + 1, i);
  }

  ghost predicate StartsAround(found: seq<BlendSegment>, chunkSize: nat, p: int) {
    exists i :: 0 <= i < |found| && found[i].targetStart <= p < found[i].targetStart + chunkSize
  }

  /** An exact occurrence is passed over only inside a chunk emitted at it or before it, so the scan is the leftmost
      one. */
  lemma {:induction false} ScanMissesNothing(log: Log, chunkSize: nat, scope: string, tokens: seq<Token>, from: nat,
                                             p: nat)
    requires chunkSize > 0 && p >= from && Occurs(log, chunkSize, scope, tokens, p)
    ensures StartsAround(Scan(log, chunkSize, scope, tokens, from), chunkSize, p)
    decreases |tokens| - from
  {
    var found := Scan(log, chunkSize, scope, tokens, from);
    match Candidate(log, scope, tokens[from..from + chunkSize])
    case Some(r) =>
      if p < from + chunkSize {
        assert found[0].targetStart == from;
      } else {
        ScanMissesNothing(log, chunkSize, scope, tokens, from + chunkSize, p);
        var rest := Scan(log, chunkSize, scope, tokens, from + chunkSize);
        var i :| 0 <= i < |rest| && rest[i].targetStart <= p < rest[i].targetStart + chunkSize;
        assert found[i + 1] == rest[i];
      }
    case None =>
      CandidateIsEarliest(log, scope, tokens[from..from + chunkSize]);
      ScanMissesNothing(log, chunkSize, scope, tokens, from + 1, p);
  }

  lemma ScanOfMadeRecords(log: Log, chunkSize: nat, scope: string, tokens: seq<Token>, from: nat)
    requires chunkSize > 0 && AllMade(log, chunkSize)
    ensures var found := Scan(log, chunkSize, scope, tokens, from);
            && AllValid(found) && Disjoint(found) && InSpan(found, from, |tokens|)
            && (forall i :: 0 <= i < |found| ==> found[i].Length() == chunkSize)
  {
    ScanIsSound(log, chunkSize, scope, tokens, from);
    ScanIsSpaced(log, chunkSize, scope, tokens, from);
    var found := Scan(log, chunkSize, scope, tokens, from);
    forall i | 0 <= i < |found|
      ensures found[i].Valid() && found[i].Length() == chunkSize
      ensures from <= found[i].targetStart <= |tokens| - chunkSize
    {
      assert found[i] in found;
      assert IsMatch(log, chunkSize, scope, tokens, found[i]);
      var r :| r in log && r.segmentId == found[i].segmentId;
      assert r.Made(chunkSize);
    }
  }

  // ---------------------------------------------------------------- greedy is optimal

  /** Offsets of pairwise non-overlapping exact matches at or after `from`. */
  ghost predicate Packing(starts: set<int>, log: Log, chunkSize: nat, scope: string, tokens: seq<Token>, from: nat) {
    && (forall p :: p in starts ==> p >= from && Occurs(log, chunkSize, scope, tokens, p))
    && (forall p, q :: p in starts && q in starts && p < q ==> p + chunkSize <= q)
  }

  lemma OnlyElement<T>(s: set<T>, p: T)
    requires p in s && forall q :: q in s ==> q == p
    ensures |s| == 1
  {
    assert s == {p};
  }

  /** The members of a packing that start at or after a position. */
  function Late(starts: set<int>, from: int): set<int> {
    set p | p in starts && p >= from
  }

  lemma LatePacks(starts: set<int>, log: Log, chunkSize: nat, scope: string, tokens: seq<Token>, from: nat)
    requires chunkSize > 0 && Packing(starts, log, chunkSize, scope, tokens, from)
    ensures Packing(Late(starts, from + chunkSize), log, chunkSize, scope, tokens, from + chunkSize)
    ensures forall p, q :: p in starts && q in starts && p < from + chunkSize && q < from + chunkSize ==> p == q
  {
    hide Occurs;
  }

  lemma AtMostOneBefore(starts: set<int>, log: Log, chunkSize: nat, scope: string, tokens: seq<Token>, from: nat)
    requires chunkSize > 0 && Packing(starts, log, chunkSize, scope, tokens, from)
    ensures Packing(Late(starts, from + chunkSize), log, chunkSize, scope, tokens, from + chunkSize)
    ensures |starts| <= |Late(starts, from + chunkSize)| + 1
  {
    LatePacks(starts, log, chunkSize, scope, tokens, from);
    hide Packing;
    var late := Late(starts, from + chunkSize);
    var early := starts - late;
    assert starts == early + late;
    if early != {} {
      var p :| p in early;
      OnlyElement(early, p);
    }
  }

  /** Exchange argument over all packings: none has more chunks than the scan. */
  lemma {:induction false} GreedyCount(starts: set<int>, log: Log, chunkSize: nat, scope: string, tokens: seq<Token>,
                                       from: nat)
    requires chunkSize > 0 && Packing(starts, log, chunkSize, scope, tokens, from)
    ensures |starts| <= |Scan(log, chunkSize, scope, tokens, from)|
    decreases |tokens| - from
  {
    if from + chunkSize > |tokens| {
      forall p ensures p !in starts {
        assert p in starts ==> p >= from && Occurs(log, chunkSize, scope, tokens, p);
      }
      assert starts == {};
    } else {
      match Candidate(log, scope, tokens[from..from + chunkSize])
      case Some(r) =>
        AtMostOneBefore(starts, log, chunkSize, scope, tokens, from);
        GreedyCount(Late(starts, from + chunkSize), log, chunkSize, scope, tokens, from + chunkSize);
      case None =>
        CandidateIsEarliest(log, scope, tokens[from..from + chunkSize]);
        forall p | p in starts ensures p >= from + 1 {
          assert Occurs(log, chunkSize, scope, tokens, p);
        }
        GreedyCount(starts, log, chunkSize, scope, tokens, from + 1);
    }
  }

  lemma {:induction false} TotalOfEqualLengths(segments: seq<BlendSegment>, n: nat)
    requires forall i :: 0 <= i < |segments| ==> segments[i].Length() == n
    ensures TotalLength(segments) == |segments| * n
  {
    if segments != [] {
      TotalOfEqualLengths(segments[..|segments| - 1], n);
      Distribute(|segments| - 1, 1, n);
    }
  }

  /** No set of non-overlapping exact matches covers more tokens than the scan returns. */
  lemma GreedyIsOptimal(starts: set<int>, log: Log, chunkSize: nat, scope: string, tokens: seq<Token>, from: nat)
    requires chunkSize > 0 && AllMade(log, chunkSize)
    requires Packing(starts, log, chunkSize, scope, tokens, from)
    ensures |starts| * chunkSize <= TotalLength(Scan(log, chunkSize, scope, tokens, from))
  {
    var found := Scan(log, chunkSize, scope, tokens, from);
    GreedyCount(starts, log, chunkSize, scope, tokens, from);
    ScanOfMadeRecords(log, chunkSize, scope, tokens, from);
    TotalOfEqualLengths(found, chunkSize);
    MonotoneProduct(|starts|, |found|, chunkSize);
  }

  lemma MonotoneProduct(a: nat, b: nat, n: nat)
    requires a <= b
    ensures a * n <= b * n
  {
    Distribute(b - a, a, n);
  }

  // ---------------------------------------------------------------- matching a suffix and shifting

  function Shift(segments: seq<BlendSegment>, offset: int): seq<BlendSegment> {
    seq(|segments|, i requires 0 <= i < |segments| => segments[i].(targetStart := segments[i].targetStart + offset))
  }

  lemma ShiftCons(s: BlendSegment, rest: seq<BlendSegment>, offset: int)
    ensures Shift([s] + rest, offset) == [s.(targetStart := s.targetStart + offset)] + Shift(rest, offset)
  {
  }

  /** Matching only the suffix at offset 0 and shifting is matching the whole prompt from that offset. */
  lemma {:induction false} SuffixScanShifts(log: Log, chunkSize: nat, scope: string, tokens: seq<Token>, start: nat,
                                            from: nat)
    requires chunkSize > 0 && start <= |tokens|
    ensures Shift(Scan(log, chunkSize, scope, tokens[start..], from), start)
            == Scan(log, chunkSize, scope, tokens, start + from)
    decreases |tokens| - start - from
  {
    var suffix := tokens[start..];
    var at := start + from;
    if from + chunkSize <= |suffix| {
      var window := tokens[at..at + chunkSize];
      assert suffix[from..from + chunkSize] == window;
      match Candidate(log, scope, window)
      case Some(r) =>
        var rest := Scan(log, chunkSize, scope, suffix, from + chunkSize);
        SuffixScanShifts(log, chunkSize, scope, tokens, start, from + chunkSize);
        assert Scan(log, chunkSize, scope, suffix, from) == [BlendSegment(r.segmentId, from)] + rest;
        ShiftCons(BlendSegment(r.segmentId, from), rest, start);
        assert Scan(log, chunkSize, scope, tokens, at)
            == [BlendSegment(r.segmentId, at)] + Scan(log, chunkSize, scope, tokens, at + chunkSize);
      case None =>
        assert Scan(log, chunkSize, scope, suffix, from) == Scan(log, chunkSize, scope, suffix, from + 1);
        assert Scan(log, chunkSize, scope, tokens, at) == Scan(log, chunkSize, scope, tokens, at + 1);
        SuffixScanShifts(log, chunkSize, scope, tokens, start, from + 1);
    }
  }

  // ---------------------------------------------------------------- what rank intersection leaves

  /** The candidates that survive, in their order: `sorted(common)` for a subset of the candidates. */
  function Keep(candidates: seq<BlendSegment>, common: set<BlendSegment>): (kept: seq<BlendSegment>)
    ensures forall s :: s in kept <==> s in candidates && s in common
  {
    if candidates == [] then []
    else
      var rest, last := candidates[..|candidates| - 1], candidates[|candidates| - 1];
      assert candidates == rest + [last];
      if last in common then Keep(rest, common) + [last] else Keep(rest, common)
  }

  lemma {:induction false} KeepStaysOrdered(candidates: seq<BlendSegment>, common: set<BlendSegment>)
    requires AllValid(candidates) && Disjoint(candidates)
    ensures AllValid(Keep(candidates, common)) && Disjoint(Keep(candidates, common))
  {
    if candidates != [] {
      var rest, last := candidates[..|candidates| - 1], candidates[|candidates| - 1];
      KeepStaysOrdered(rest, common);
      var kept := Keep(rest, common);
      forall i | 0 <= i < |kept| ensures kept[i].TargetEnd() <= last.targetStart {
        assert kept[i] in rest;
        var k :| 0 <= k < |rest| && rest[k] == kept[i];
        assert candidates[k] == rest[k];
      }
    }
  }

  /** Any enumeration of the surviving set, sorted by target start, is the filtered candidate list. */
  lemma SortedSubsetIsKeep(candidates: seq<BlendSegment>, common: set<BlendSegment>, enumeration: seq<BlendSegment>)
    requires AllValid(candidates) && Disjoint(candidates)
    requires forall s :: s in enumeration <==> s in common && s in candidates
    requires forall i, j :: 0 <= i < j < |enumeration| ==> enumeration[i] != enumeration[j]
    ensures SortByTarget(enumeration) == Keep(candidates, common)
  {
    KeepStaysOrdered(candidates, common);
    SortByTargetSorts(enumeration);
    var a, b := SortByTarget(enumeration), Keep(candidates, common);
    forall s ensures s in a <==> s in b {
      assert s in a <==> s in multiset(enumeration);
    }
    forall i, j | 0 <= i < j < |a| ensures a[i].targetStart < a[j].targetStart {
      SortedDistinct(enumeration, i, j);
      assert a[i] in b && a[j] in b;
      DisjointInjective(b, a[i], a[j]);
    }
    forall i, j | 0 <= i < j < |b| ensures b[i].targetStart < b[j].targetStart {
      assert b[i].Valid();
    }
    StrictlySortedEqual(a, b);
  }

  lemma DisjointInjective(b: seq<BlendSegment>, s: BlendSegment, t: BlendSegment)
    requires AllValid(b) && Disjoint(b) && s in b && t in b && s != t
    ensures s.targetStart != t.targetStart
  {
    var i :| 0 <= i < |b| && b[i] == s;
    var j :| 0 <= j < |b| && b[j] == t;
    assert b[i].Valid() && b[j].Valid();
  }

  ghost predicate StrictlySorted(a: seq<BlendSegment>) {
    forall i, j :: 0 <= i < j < |a| ==> a[i].targetStart < a[j].targetStart
  }

  lemma DropLast(a: seq<BlendSegment>, s: BlendSegment)
    requires a != [] && StrictlySorted(a)
    ensures s in a[..|a| - 1] <==> s in a && s != a[|a| - 1]
  {
    var m := |a| - 1;
    assert a == a[..m] + [a[m]];
    if s in a[..m] {
      var k :| 0 <= k < m && a[..m][k] == s;
      assert a[k].targetStart < a[m].targetStart;
    }
  }

  lemma LastIsGreatest(a: seq<BlendSegment>, s: BlendSegment)
    requires a != [] && StrictlySorted(a) && s in a
    ensures s == a[|a| - 1] || s.targetStart < a[|a| - 1].targetStart
  {
    var k :| 0 <= k < |a| && a[k] == s;
  }

  lemma HasElement<T>(b: seq<T>)
    requires b != []
    ensures exists s :: s in b
  {
    assert b[0] in b;
  }

  lemma {:induction false} StrictlySortedEqual(a: seq<BlendSegment>, b: seq<BlendSegment>)
    requires StrictlySorted(a) && StrictlySorted(b)
    requires forall s :: s in a <==> s in b
    ensures a == b
    decreases |a|
  {
    if a == [] {
      if b != [] {
        HasElement(b);
        assert false;
      }
    } else {
      var m, n := |a| - 1, |b| - 1;
      assert a[m] in b;
      LastIsGreatest(a, b[n]);
      LastIsGreatest(b, a[m]);
      forall s ensures s in a[..m] <==> s in b[..n] {
        DropLast(a, s);
        DropLast(b, s);
      }
      StrictlySortedEqual(a[..m], b[..n]);
      assert a == a[..m] + [a[m]] && b == b[..n] + [b[n]];
    }
  }

  lemma KeptWithin(found: seq<BlendSegment>, common: set<BlendSegment>, lo: int, hi: int)
    requires AllValid(found) && Disjoint(found) && InSpan(found, lo, hi)
    ensures InSpan(Keep(found, common), lo, hi)
  {
    var kept := Keep(found, common);
    forall i | 0 <= i < |kept|
      ensures lo <= kept[i].targetStart && kept[i].TargetEnd() <= hi
    {
      assert kept[i] in found;
    }
  }

  lemma OrderedSegmentsPlan(apc: nat, kept: seq<BlendSegment>, end: int)
    requires AllValid(kept) && Disjoint(kept) && InSpan(kept, apc, end) && apc <= end
    ensures SpanOf(apc, SortByTarget(Distinct(kept))) == SpanOf(apc, kept)
    ensures SpanOf(apc, kept).WellFormed() && SpanOf(apc, kept).allocationEnd <= end
    ensures BlendPlan(apc, end, TotalLength(kept), kept).WellFormed()
  {
    DisjointSegmentsPlan(apc, kept);
  }

  /** For whatever subset the ranks agree on, planning the lookup result never fails: neither the
      default span nor the span stretched to the last prompt token but one. */
  lemma IntersectionPlans(log: Log, chunkSize: nat, scope: string, prompt: seq<Token>, apc: nat,
                          common: set<BlendSegment>)
    requires chunkSize > 0 && AllMade(log, chunkSize) && apc < |prompt|
    ensures var kept := Keep(Scan(log, chunkSize, scope, prompt[..|prompt| - 1], apc), common);
            && SpanOf(apc, SortByTarget(Distinct(kept))) == SpanOf(apc, kept)
            && SpanOf(apc, kept).WellFormed()
            && SpanOf(apc, kept).allocationEnd < |prompt|
            && BlendPlan(apc, |prompt| - 1, TotalLength(kept), kept).WellFormed()
  {
    var searched := prompt[..|prompt| - 1];
    var found := Scan(log, chunkSize, scope, searched, apc);
    ScanOfMadeRecords(log, chunkSize, scope, searched, apc);
    KeepStaysOrdered(found, common);
    KeptWithin(found, common, apc, |prompt| - 1);
    OrderedSegmentsPlan(apc, Keep(found, common), |prompt| - 1);
  }
}
