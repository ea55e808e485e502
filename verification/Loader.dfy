/** Assembling one layer of the span in a staging buffer: cached prefix, zeroed gaps and relocated hits. */
module Loader {
  import opened Types
  import opened Paging

  /** The key and the value of one token in one layer. */
  datatype KV<E> = KV(key: E, value: E)

  /** Moves one key from its old to its new position. */
  type Relocation<!E> = (int, int, E) -> E

  /** Rotating by no angle changes nothing. */
  ghost predicate StaysPut<E(!new)>(rel: Relocation<E>) {
    forall p: int, k: E :: rel(p, p, k) == k
  }

  function Sources(s: BlendSegment): (r: seq<int>)
    requires s.Valid()
  {
    seq(s.Length(), j requires 0 <= j < s.Length() => s.segmentId.sourceStart + j)
  }

  function Targets(s: BlendSegment): (r: seq<int>)
    requires s.Valid()
  {
    seq(s.Length(), j requires 0 <= j < s.Length() => s.targetStart + j)
  }

  /** Relocates the key plane; the keys are returned as they are when no token moves. */
  function Moved<E>(rel: Relocation<E>, olds: seq<int>, news: seq<int>, kvs: seq<KV<E>>): (r: seq<KV<E>>)
    requires |olds| == |news| == |kvs|
    ensures |r| == |kvs|
  {
    if olds == news then kvs
    else seq(|kvs|, j requires 0 <= j < |kvs| => KV(rel(olds[j], news[j], kvs[j].key), kvs[j].value))
  }

  lemma MovedAt<E(!new)>(rel: Relocation<E>, olds: seq<int>, news: seq<int>, kvs: seq<KV<E>>, j: nat)
    requires |olds| == |news| == |kvs| && j < |kvs| && StaysPut(rel)
    ensures Moved(rel, olds, news, kvs)[j] == KV(rel(olds[j], news[j], kvs[j].key), kvs[j].value)
  {
    if olds == news {
      var p := olds[j];
      assert p == news[j] && rel(p, p, kvs[j].key) == kvs[j].key;
    }
  }

  // ---------------------------------------------------------------- what the plan asks for

  type Hosts<E> = map<SegmentId, seq<KV<E>>>

  ghost predicate HasHost<E>(hosts: Hosts<E>, s: BlendSegment) {
    s.segmentId in hosts && |hosts[s.segmentId]| == s.Length()
  }

  /** Every segment has its stored tensor, of the segment's length. */
  ghost predicate Stored<E>(hosts: Hosts<E>, segments: seq<BlendSegment>) {
    forall i :: 0 <= i < |segments| ==> HasHost(hosts, segments[i])
  }

  /** The stored token for position p, its key moved to p. */
  function FromHost<E>(rel: Relocation<E>, hosts: Hosts<E>, s: BlendSegment, p: int): KV<E>
    requires s.segmentId in hosts && 0 <= p - s.targetStart < |hosts[s.segmentId]|
  {
    var kv := hosts[s.segmentId][p - s.targetStart];
    KV(rel(s.segmentId.sourceStart + (p - s.targetStart), p, kv.key), kv.value)
  }

  ghost predicate HitsLoaded<E>(rel: Relocation<E>, hosts: Hosts<E>, segments: seq<BlendSegment>, b: seq<KV<E>>)
    requires Stored(hosts, segments)
  {
    forall i, p :: 0 <= i < |segments| && 0 <= p < |b| && segments[i].Covers(p) ==>
      HitLoaded(rel, hosts, segments[i], b, p)
  }

  ghost predicate HitLoaded<E>(rel: Relocation<E>, hosts: Hosts<E>, s: BlendSegment, b: seq<KV<E>>, p: int)
    requires HasHost(hosts, s) && 0 <= p < |b| && s.Covers(p)
  {
    b[p] == FromHost(rel, hosts, s, p)
  }

  ghost predicate GapsZero<E>(segments: seq<BlendSegment>, lo: int, hi: int, zero: E, b: seq<KV<E>>)
    requires 0 <= lo && hi <= |b|
  {
    forall p :: lo <= p < hi && !IsCovered(segments, p) ==> b[p] == KV(zero, zero)
  }

  /** Every position of the span is what the plan says: prefix pages, zeros, or a relocated stored token. */
  ghost predicate Determined<E>(plan: BlendPlan, rel: Relocation<E>, hosts: Hosts<E>, prefix: seq<KV<E>>, zero: E,
                                b: seq<KV<E>>)
    requires plan.WellFormed() && Stored(hosts, plan.segments)
  {
    && |b| == plan.allocationEnd && |prefix| == plan.apcPrefixTokens
    && b[..|prefix|] == prefix
    && GapsZero(plan.segments, plan.apcPrefixTokens, plan.allocationEnd, zero, b)
    && HitsLoaded(rel, hosts, plan.segments, b)
  }

  /** The plan leaves no freedom, so nothing stale can survive and all loading paths agree. */
  lemma DeterminedIsUnique<E>(plan: BlendPlan, rel: Relocation<E>, hosts: Hosts<E>, prefix: seq<KV<E>>, zero: E,
                              a: seq<KV<E>>, b: seq<KV<E>>)
    requires plan.WellFormed() && Stored(hosts, plan.segments)
    requires Determined(plan, rel, hosts, prefix, zero, a) && Determined(plan, rel, hosts, prefix, zero, b)
    ensures a == b
  {
    forall p | 0 <= p < |a| ensures a[p] == b[p] {
      if p < plan.apcPrefixTokens {
        assert a[p] == prefix[p] == b[p];
      } else if IsCovered(plan.segments, p) {
        var i :| 0 <= i < |plan.segments| && plan.segments[i].Covers(p);
        assert HitLoaded(rel, hosts, plan.segments[i], a, p) && HitLoaded(rel, hosts, plan.segments[i], b, p);
      }
    }
  }

  // ---------------------------------------------------------------- gaps

  method ZeroRange<E>(buffer: array<KV<E>>, lo: nat, hi: nat, zero: E)
    requires lo <= hi <= buffer.Length
    modifies buffer
    ensures forall p :: 0 <= p < buffer.Length ==> buffer[p] == if lo <= p < hi then KV(zero, zero) else old(buffer[p])
  {
    forall p | lo <= p < hi { buffer[p] := KV(zero, zero); }
  }

  /** Zeroes exactly the positions after the prefix that no segment covers. */
  method ZeroGaps<E>(plan: BlendPlan, buffer: array<KV<E>>, zero: E)
    requires AllValid(plan.segments) && plan.WellFormed() && buffer.Length == plan.allocationEnd
    modifies buffer
    ensures GapsZero(plan.segments, plan.apcPrefixTokens, plan.allocationEnd, zero, buffer[..])
    ensures forall p :: 0 <= p < buffer.Length && (p < plan.apcPrefixTokens || IsCovered(plan.segments, p)) ==>
        buffer[p] == old(buffer[p])
  {
    var lo, segments := plan.apcPrefixTokens, plan.segments;
    var cursor := lo;
    for i := 0 to |segments|
      invariant lo <= cursor <= plan.allocationEnd
      invariant cursor == if i == 0 then lo else segments[i - 1].TargetEnd()
      invariant forall p :: lo <= p < cursor && !IsCovered(segments, p) ==> buffer[p] == KV(zero, zero)
      invariant forall p :: 0 <= p < buffer.Length && (p < lo || p >= cursor || IsCovered(segments, p)) ==>
          buffer[p] == old(buffer[p])
    {
      var segment := segments[i];
      assert segment.Valid();
      if segment.targetStart > cursor {
        forall p | cursor <= p < segment.targetStart ensures !IsCovered(segments, p) {
          BetweenIsUncovered(segments, i, cursor, p);
        }
        ZeroRange(buffer, cursor, segment.targetStart, zero);
      }
      forall p | segment.targetStart <= p < segment.TargetEnd() ensures IsCovered(segments, p) {
        assert segment.Covers(p);
      }
      cursor := if cursor > segment.TargetEnd() then cursor else segment.TargetEnd();
    }
    if cursor < plan.allocationEnd {
      forall p | cursor <= p < plan.allocationEnd ensures !IsCovered(segments, p) {
        BetweenIsUncovered(segments, |segments|, cursor, p);
      }
      ZeroRange(buffer, cursor, plan.allocationEnd, zero);
    }
  }

  /** Nothing covers a position between the end of the first i segments and the start of the next one. */
  lemma BetweenIsUncovered(segments: seq<BlendSegment>, i: nat, cursor: int, p: int)
    requires AllValid(segments) && Disjoint(segments) && i <= |segments| && cursor <= p
    requires i > 0 ==> cursor == segments[i - 1].TargetEnd()
    requires i < |segments| ==> p < segments[i].targetStart
    ensures !IsCovered(segments, p)
  {
    forall k | 0 <= k < |segments| ensures !segments[k].Covers(p) {
      if k < i {
        if k < i - 1 { assert segments[k].TargetEnd() <= segments[i - 1].targetStart && segments[i - 1].Valid(); }
      } else if i < k {
        assert segments[i].TargetEnd() <= segments[k].targetStart && segments[i].Valid();
      }
    }
  }

  // ---------------------------------------------------------------- segment by segment

  ghost predicate SameShape<E>(a: Hosts<E>, b: Hosts<E>) {
    a.Keys == b.Keys && forall id :: id in a ==> |a[id]| == |b[id]|
  }

  /** The relocated tensor of one segment. */
  ghost function MovedHost<E>(rel: Relocation<E>, s: BlendSegment, hosts: Hosts<E>): (r: seq<KV<E>>)
    requires s.Valid() && HasHost(hosts, s)
    ensures |r| == s.Length()
  {
    Moved(rel, Sources(s), Targets(s), hosts[s.segmentId])
  }

  /** The stored tensors after loading the segments one by one: untouched when the device works on copies, but
      overwritten by the relocated keys when the device copy is the stored tensor itself. */
  ghost function HostsAfter<E>(rel: Relocation<E>, segments: seq<BlendSegment>, hosts: Hosts<E>, aliased: bool)
    : (r: Hosts<E>)
    requires AllValid(segments) && Stored(hosts, segments)
    ensures SameShape(hosts, r)
  {
    if segments == [] then hosts
    else
      var n := |segments| - 1;
      var before := HostsAfter(rel, segments[..n], hosts, aliased);
      assert HasHost(hosts, segments[n]) && segments[n].Valid();
      if aliased then before[segments[n].segmentId := MovedHost(rel, segments[n], before)] else before
  }

  /** Every hit position of the first n segments holds the relocated token of the tensor as it was when its
      segment was loaded. */
  ghost predicate HitsPlaced<E>(rel: Relocation<E>, segments: seq<BlendSegment>, n: nat, hosts: Hosts<E>, aliased: bool,
                                b: seq<KV<E>>)
    requires AllValid(segments) && Stored(hosts, segments) && n <= |segments|
  {
    forall i, p :: 0 <= i < n && 0 <= p < |b| && segments[i].Covers(p) ==>
      HitPlaced(rel, segments, hosts, aliased, b, i, p)
  }

  ghost predicate HitPlaced<E>(rel: Relocation<E>, segments: seq<BlendSegment>, hosts: Hosts<E>, aliased: bool,
                               b: seq<KV<E>>, i: int, p: int)
    requires AllValid(segments) && Stored(hosts, segments) && 0 <= i < |segments| && 0 <= p < |b|
    requires segments[i].Covers(p)
  {
    assert HasHost(hosts, segments[i]);
    b[p] == FromHost(rel, HostsAfter(rel, segments[..i], hosts, aliased), segments[i], p)
  }

  ghost function HostArrays<E>(hosts: map<SegmentId, array<KV<E>>>): set<object> {
    set id | id in hosts :: hosts[id]
  }

  ghost function Snapshot<E>(hosts: map<SegmentId, array<KV<E>>>): (h: Hosts<E>)
    reads HostArrays(hosts)
    ensures h.Keys == hosts.Keys
  {
    map id | id in hosts :: hosts[id][..]
  }

  ghost predicate OwnTensors<E>(hosts: map<SegmentId, array<KV<E>>>, buffer: array<KV<E>>) {
    && buffer !in HostArrays(hosts)
    && forall a, b :: a in hosts && b in hosts && a != b ==> hosts[a] != hosts[b]
  }

  /** `host.to(device)`: the same tensor on the same device, a copy elsewhere. */
  method ToDevice<E>(host: array<KV<E>>, sameDevice: bool) returns (deviceKv: array<KV<E>>)
    ensures sameDevice ==> deviceKv == host
    ensures !sameDevice ==> fresh(deviceKv)
    ensures deviceKv[..] == host[..]
  {
    if sameDevice {
      deviceKv := host;
    } else {
      deviceKv := new KV<E>[host.Length](j requires 0 <= j < host.Length reads host => host[j]);
    }
  }

  method LoadSegmentsIndividually<E(!new)>(segments: seq<BlendSegment>, rel: Relocation<E>,
                                           hosts: map<SegmentId, array<KV<E>>>, sameDevice: bool, buffer: array<KV<E>>)
    requires AllValid(segments) && Disjoint(segments) && InSpan(segments, 0, buffer.Length) && StaysPut(rel)
    requires OwnTensors(hosts, buffer) && Stored(Snapshot(hosts), segments)
    modifies buffer, if sameDevice then HostArrays(hosts) else {}
    ensures Snapshot(hosts) == HostsAfter(rel, segments, old(Snapshot(hosts)), sameDevice)
    ensures HitsPlaced(rel, segments, |segments|, old(Snapshot(hosts)), sameDevice, buffer[..])
    ensures forall p :: 0 <= p < buffer.Length && !IsCovered(segments, p) ==> buffer[p] == old(buffer[p])
  {
    hide StaysPut, HitsPlaced, HostsAfter, OwnTensors, FromHost, InSpan;
    ghost var stored := Snapshot(hosts);
    NothingPlaced(rel, segments, stored, sameDevice, buffer[..]);
    for i := 0 to |segments|
      invariant Snapshot(hosts) == HostsAfter(rel, segments[..i], stored, sameDevice)
      invariant HitsPlaced(rel, segments, i, stored, sameDevice, buffer[..])
      invariant forall p :: 0 <= p < buffer.Length && !IsCovered(segments[..i], p) ==> buffer[p] == old(buffer[p])
    {
      ghost var current, was := Snapshot(hosts), buffer[..];
      var segment := segments[i];
      SegmentFits(segments, i, stored, buffer.Length);
      assert HasHost(current, segment);
      PlaceSegment(segment, rel, hosts, sameDevice, buffer);
      PlacedStep(rel, segments, i, stored, sameDevice, was, buffer[..]);
      forall p | 0 <= p < buffer.Length && !IsCovered(segments[..i + 1], p)
        ensures !IsCovered(segments[..i], p) && !segment.Covers(p)
      {
        UncoveredPrefix(segments, i, p);
      }
    }
    assert segments[..|segments|] == segments;
  }

  lemma NothingPlaced<E>(rel: Relocation<E>, segments: seq<BlendSegment>, hosts: Hosts<E>, aliased: bool, b: seq<KV<E>>)
    requires AllValid(segments) && Stored(hosts, segments)
    ensures HitsPlaced(rel, segments, 0, hosts, aliased, b) && HostsAfter(rel, segments[..0], hosts, aliased) == hosts
  {
  }

  lemma SegmentFits<E>(segments: seq<BlendSegment>, i: nat, hosts: Hosts<E>, size: int)
    requires i < |segments| && AllValid(segments) && InSpan(segments, 0, size) && Stored(hosts, segments)
    ensures segments[i].Valid() && segments[i].TargetEnd() <= size && HasHost(hosts, segments[i])
  {
  }

  /** Placing segment i adds its hits, leaves the earlier ones alone, and moves the stored tensors on. */
  lemma PlacedStep<E>(rel: Relocation<E>, segments: seq<BlendSegment>, i: nat, hosts: Hosts<E>, aliased: bool,
                      was: seq<KV<E>>, b: seq<KV<E>>)
    requires AllValid(segments) && Disjoint(segments) && Stored(hosts, segments) && i < |segments| && |b| == |was|
    requires HitsPlaced(rel, segments, i, hosts, aliased, was)
    requires var current := HostsAfter(rel, segments[..i], hosts, aliased);
             HasHost(current, segments[i])
             && forall p :: 0 <= p < |b| ==> b[p] == if segments[i].Covers(p)
                then FromHost(rel, current, segments[i], p) else was[p]
    ensures HitsPlaced(rel, segments, i + 1, hosts, aliased, b)
    ensures var current := HostsAfter(rel, segments[..i], hosts, aliased);
            HasHost(current, segments[i]) &&
            HostsAfter(rel, segments[..i + 1], hosts, aliased)
            == if aliased then current[segments[i].segmentId := MovedHost(rel, segments[i], current)] else current
  {
    hide FromHost, MovedHost, AllValid, Stored;
    assert segments[..i + 1][..i] == segments[..i];
    forall k, p | 0 <= k < i + 1 && 0 <= p < |b| && segments[k].Covers(p)
      ensures HitPlaced(rel, segments, hosts, aliased, b, k, p)
    {
      if k < i {
        assert segments[k].TargetEnd() <= segments[i].targetStart
          && HitPlaced(rel, segments, hosts, aliased, was, k, p);
      }
    }
  }

  lemma UncoveredPrefix(segments: seq<BlendSegment>, i: nat, p: int)
    requires i < |segments| && !IsCovered(segments[..i + 1], p)
    ensures !IsCovered(segments[..i], p) && !segments[i].Covers(p)
  {
    forall k | 0 <= k < i + 1 ensures !segments[k].Covers(p) { assert !segments[..i + 1][k].Covers(p); }
  }

  /** One turn of the loop. */
  method PlaceSegment<E(!new)>(segment: BlendSegment, rel: Relocation<E>, hosts: map<SegmentId, array<KV<E>>>,
                               sameDevice: bool, buffer: array<KV<E>>)
    requires segment.Valid() && segment.TargetEnd() <= buffer.Length && StaysPut(rel)
    requires OwnTensors(hosts, buffer) && HasHost(Snapshot(hosts), segment)
    modifies buffer, if sameDevice then HostArrays(hosts) else {}
    ensures var before := old(Snapshot(hosts));
            Snapshot(hosts) == if sameDevice then before[segment.segmentId := MovedHost(rel, segment, before)]
              else before
    ensures forall p :: 0 <= p < buffer.Length ==>
              buffer[p] == if segment.Covers(p) then FromHost(rel, old(Snapshot(hosts)), segment, p) else old(buffer[p])
  {
    ghost var before := Snapshot(hosts);
    var host := hosts[segment.segmentId];
    var deviceKv := ToDevice(host, sameDevice);
    var moved := Moved(rel, Sources(segment), Targets(segment), deviceKv[..]);
    assert moved == MovedHost(rel, segment, before);
    forall j | 0 <= j < deviceKv.Length { deviceKv[j] := moved[j]; }
    assert deviceKv[..] == moved;
    forall j | 0 <= j < deviceKv.Length { buffer[segment.targetStart + j] := deviceKv[j]; }
    assert deviceKv[..] == moved;
    forall p | segment.Covers(p) ensures buffer[p] == FromHost(rel, before, segment, p) {
      var j := p - segment.targetStart;
      assert buffer[segment.targetStart + j] == moved[j];
      MovedAt(rel, Sources(segment), Targets(segment), before[segment.segmentId], j);
    }
    HostsWithOne(hosts, before, segment.segmentId, moved, deviceKv, sameDevice, buffer);
  }

  lemma HostsWithOne<E>(hosts: map<SegmentId, array<KV<E>>>, before: Hosts<E>, id: SegmentId, moved: seq<KV<E>>,
                        deviceKv: array<KV<E>>, sameDevice: bool, buffer: array<KV<E>>)
    requires OwnTensors(hosts, buffer) && id in hosts && before.Keys == hosts.Keys && deviceKv[..] == moved
    requires if sameDevice then deviceKv == hosts[id] else deviceKv !in HostArrays(hosts)
    requires forall k :: k in hosts && hosts[k] != deviceKv ==> hosts[k][..] == before[k]
    ensures Snapshot(hosts) == if sameDevice then before[id := moved] else before
  {
    var after := if sameDevice then before[id := moved] else before;
    forall k | k in hosts ensures hosts[k][..] == after[k] {
      if !sameDevice || k != id { assert hosts[k] != deviceKv; }
    }
  }

  // ---------------------------------------------------------------- fused

  function OldPositions(segments: seq<BlendSegment>): (r: seq<int>)
    requires AllValid(segments)
    ensures |r| == TotalLength(segments)
  {
    if segments == [] then []
    else
      assert segments[|segments| - 1].Valid();
      OldPositions(segments[..|segments| - 1]) + Sources(segments[|segments| - 1])
  }

  function NewPositions(segments: seq<BlendSegment>): (r: seq<int>)
    requires AllValid(segments)
    ensures |r| == TotalLength(segments)
  {
    if segments == [] then []
    else
      assert segments[|segments| - 1].Valid();
      NewPositions(segments[..|segments| - 1]) + Targets(segments[|segments| - 1])
  }

  /** The stored tokens of all segments, one after the other. */
  ghost function Packed<E>(segments: seq<BlendSegment>, hosts: Hosts<E>): (r: seq<KV<E>>)
    requires Stored(hosts, segments)
    ensures |r| == TotalLength(segments)
  {
    if segments == [] then []
    else
      assert HasHost(hosts, segments[|segments| - 1]);
      Packed(segments[..|segments| - 1], hosts) + hosts[segments[|segments| - 1].segmentId]
  }

  /** Packed index of token j of segment i. */
  function PackedIndex(segments: seq<BlendSegment>, i: nat, j: nat): int
    requires i < |segments|
  {
    TotalLength(segments[..i]) + j
  }

  /** What the three packed sequences hold at x, for token j of one segment. */
  ghost predicate HoldsAt<E>(segments: seq<BlendSegment>, hosts: Hosts<E>, x: int, s: BlendSegment, j: nat)
    requires AllValid(segments) && Stored(hosts, segments) && HasHost(hosts, s) && j < s.Length()
  {
    && 0 <= x < TotalLength(segments)
    && Packed(segments, hosts)[x] == hosts[s.segmentId][j]
    && OldPositions(segments)[x] == s.segmentId.sourceStart + j
    && NewPositions(segments)[x] == s.targetStart + j
  }

  lemma LastPackedAt<E>(segments: seq<BlendSegment>, hosts: Hosts<E>, j: nat)
    requires AllValid(segments) && Stored(hosts, segments) && segments != [] && j < segments[|segments| - 1].Length()
    ensures var n := |segments| - 1;
            HasHost(hosts, segments[n])
            && HoldsAt(segments, hosts, PackedIndex(segments, n, j), segments[n], j)
  {
    var n := |segments| - 1;
    assert segments[n].Valid() && HasHost(hosts, segments[n]);
    assert |OldPositions(segments[..n])| == TotalLength(segments[..n]);
  }

  lemma FrontPackedAt<E>(segments: seq<BlendSegment>, hosts: Hosts<E>, x: int, s: BlendSegment, j: nat)
    requires AllValid(segments) && Stored(hosts, segments) && segments != [] && HasHost(hosts, s) && j < s.Length()
    requires HoldsAt(segments[..|segments| - 1], hosts, x, s, j)
    ensures HoldsAt(segments, hosts, x, s, j)
  {
    assert segments[|segments| - 1].Valid();
  }

  lemma {:induction false} PackedAt<E>(segments: seq<BlendSegment>, hosts: Hosts<E>, i: nat, j: nat)
    requires AllValid(segments) && Stored(hosts, segments) && i < |segments| && j < segments[i].Length()
    ensures HasHost(hosts, segments[i]) && HoldsAt(segments, hosts, PackedIndex(segments, i, j), segments[i], j)
  {
    hide HoldsAt, TotalLength;
    var n := |segments| - 1;
    if i < n {
      assert segments[..n][..i] == segments[..i];
      PackedAt(segments[..n], hosts, i, j);
      FrontPackedAt(segments, hosts, PackedIndex(segments, i, j), segments[i], j);
    } else {
      LastPackedAt(segments, hosts, j);
    }
  }

  /** The packed target positions are strictly increasing, and every one is covered by a segment. */
  lemma {:induction false} NewPositionsIncrease(segments: seq<BlendSegment>)
    requires AllValid(segments) && Disjoint(segments)
    ensures Increasing(NewPositions(segments))
    ensures forall x :: 0 <= x < |NewPositions(segments)| ==> IsCovered(segments, NewPositions(segments)[x])
  {
    if segments != [] {
      var n := |segments| - 1;
      var front, last := segments[..n], segments[n];
      assert last.Valid();
      NewPositionsIncrease(front);
      var a, b := NewPositions(front), Targets(last);
      assert NewPositions(segments) == a + b;
      forall x | 0 <= x < |a|
        ensures IsCovered(segments, a[x]) && a[x] < last.targetStart
      {
        var i :| 0 <= i < n && front[i].Covers(a[x]);
        assert segments[i].Covers(a[x]) && segments[i].TargetEnd() <= last.targetStart;
      }
      forall x | 0 <= x < |b|
        ensures IsCovered(segments, b[x])
      {
        assert segments[n].Covers(b[x]);
      }
    }
  }

  /** Where position p lives in the paged view of the buffer. */
  function ViewCell(p: nat, blockSize: nat): (c: nat)
    requires blockSize > 0
    ensures c == p
  {
    (p / blockSize) * blockSize + p % blockSize
  }

  /** Both ways of scattering the packed tokens: through the paged view, or by direct indexing. */
  method ScatterPacked<E>(packed: array<KV<E>>, positions: seq<int>, blockSize: nat, buffer: array<KV<E>>)
    requires blockSize > 0 && packed != buffer && packed.Length == |positions| && Increasing(positions)
    requires forall x :: 0 <= x < |positions| ==> 0 <= positions[x] < buffer.Length
    modifies buffer
    ensures forall x :: 0 <= x < |positions| ==> buffer[positions[x]] == packed[x]
    ensures forall p :: 0 <= p < buffer.Length && p !in positions ==> buffer[p] == old(buffer[p])
  {
    for x := 0 to |positions|
      invariant forall y :: 0 <= y < x ==> buffer[positions[y]] == packed[y]
      invariant forall p :: 0 <= p < buffer.Length && p !in positions[..x] ==> buffer[p] == old(buffer[p])
    {
      if buffer.Length % blockSize == 0 {
        buffer[ViewCell(positions[x], blockSize)] := packed[x];
      } else {
        buffer[positions[x]] := packed[x];
      }
      assert positions[x] in positions[..x + 1];
    }
    assert positions[..|positions|] == positions;
  }

  /** Packs the stored tokens, relocates them at once and scatters them to their targets. */
  method LoadSegmentsFused<E(!new)>(plan: BlendPlan, rel: Relocation<E>, hosts: map<SegmentId, array<KV<E>>>,
                                    blockSize: nat, packed: array<KV<E>>, buffer: array<KV<E>>)
    requires AllValid(plan.segments) && plan.WellFormed() && Stored(Snapshot(hosts), plan.segments) && StaysPut(rel)
    requires blockSize > 0
    requires OwnTensors(hosts, buffer) && packed !in HostArrays(hosts) && packed != buffer
    requires packed.Length == plan.hitTokens && buffer.Length == plan.allocationEnd
    modifies packed, buffer
    ensures Snapshot(hosts) == old(Snapshot(hosts))
    ensures HitsLoaded(rel, Snapshot(hosts), plan.segments, buffer[..])
    ensures forall p :: 0 <= p < buffer.Length && !IsCovered(plan.segments, p) ==> buffer[p] == old(buffer[p])
  {
    ghost var stored := Snapshot(hosts);
    var segments := plan.segments;
    if segments == [] {
      return;
    }
    PackHosts(segments, hosts, packed);
    assert Snapshot(hosts) == stored;
    var olds, news := OldPositions(segments), NewPositions(segments);
    var moved := Moved(rel, olds, news, packed[..]);
    forall x | 0 <= x < packed.Length { packed[x] := moved[x]; }
    assert packed[..] == moved;
    NewPositionsIncrease(segments);
    forall x | 0 <= x < |news| ensures 0 <= news[x] < buffer.Length {
      CoveredInSpan(plan, news[x]);
    }
    ScatterPacked(packed, news, blockSize, buffer);
    assert Snapshot(hosts) == stored;
    ScatteredHits(segments, rel, stored, moved, buffer[..]);
  }

  lemma CoveredInSpan(plan: BlendPlan, p: int)
    requires AllValid(plan.segments) && plan.WellFormed() && IsCovered(plan.segments, p)
    ensures 0 <= plan.apcPrefixTokens <= p < plan.allocationEnd
  {
    var i :| 0 <= i < |plan.segments| && plan.segments[i].Covers(p);
    assert plan.segments[i].Valid();
  }

  lemma ScatteredHits<E(!new)>(segments: seq<BlendSegment>, rel: Relocation<E>, hosts: Hosts<E>, moved: seq<KV<E>>,
                               b: seq<KV<E>>)
    requires AllValid(segments) && Stored(hosts, segments) && StaysPut(rel)
    requires moved == Moved(rel, OldPositions(segments), NewPositions(segments), Packed(segments, hosts))
    requires forall x :: 0 <= x < |moved| ==>
        0 <= NewPositions(segments)[x] < |b| && b[NewPositions(segments)[x]] == moved[x]
    ensures HitsLoaded(rel, hosts, segments, b)
  {
    forall i, p | 0 <= i < |segments| && 0 <= p < |b| && segments[i].Covers(p)
      ensures HasHost(hosts, segments[i]) && HitLoaded(rel, hosts, segments[i], b, p)
    {
      var j := p - segments[i].targetStart;
      PackedAt(segments, hosts, i, j);
      var x := PackedIndex(segments, i, j);
      MovedAt(rel, OldPositions(segments), NewPositions(segments), Packed(segments, hosts), x);
      assert b[NewPositions(segments)[x]] == moved[x];
    }
  }

  method PackHosts<E>(segments: seq<BlendSegment>, hosts: map<SegmentId, array<KV<E>>>, packed: array<KV<E>>)
    requires AllValid(segments) && Stored(Snapshot(hosts), segments)
    requires packed !in HostArrays(hosts) && packed.Length == TotalLength(segments)
    modifies packed
    ensures packed[..] == Packed(segments, Snapshot(hosts))
  {
    ghost var stored := Snapshot(hosts);
    var offset := 0;
    for i := 0 to |segments|
      invariant offset == TotalLength(segments[..i]) && 0 <= offset <= packed.Length
      invariant Snapshot(hosts) == stored
      invariant packed[..offset] == Packed(segments[..i], stored)
    {
      var segment := segments[i];
      assert HasHost(stored, segment) && segment.Valid();
      var host := hosts[segment.segmentId];
      assert host[..] == stored[segment.segmentId];
      assert segments[..i + 1][..i] == segments[..i];
      LengthsAdd(segments, i + 1);
      ghost var was := packed[..offset];
      forall j | 0 <= j < host.Length { packed[offset + j] := host[j]; }
      assert packed[..offset] == was;
      offset := offset + segment.Length();
      assert packed[..offset] == was + host[..];
    }
    assert segments[..|segments|] == segments;
  }

  lemma {:induction false} LengthsAdd(segments: seq<BlendSegment>, i: nat)
    requires AllValid(segments) && i <= |segments|
    ensures 0 <= TotalLength(segments[..i]) <= TotalLength(segments)
  {
    if i == |segments| {
      assert segments[..i] == segments;
      if i > 0 {
        LengthsAdd(segments[..i - 1], i - 1);
        assert segments[i - 1].Valid();
        assert segments[..i - 1][..i - 1] == segments[..i - 1];
      }
    } else {
      var front := segments[..|segments| - 1];
      LengthsAdd(front, i);
      assert front[..i] == segments[..i] && segments[|segments| - 1].Valid();
    }
  }

  // ---------------------------------------------------------------- copies against the stored tensors themselves

  /** Working on copies, the loop reads every segment as stored and leaves the store alone. */
  lemma {:induction false} CopiesKeepTheStore<E>(rel: Relocation<E>, segments: seq<BlendSegment>, hosts: Hosts<E>)
    requires AllValid(segments) && Stored(hosts, segments)
    ensures HostsAfter(rel, segments, hosts, false) == hosts
  {
    if segments != [] {
      CopiesKeepTheStore(rel, segments[..|segments| - 1], hosts);
    }
  }

  lemma CopiesLoadTheHits<E>(rel: Relocation<E>, segments: seq<BlendSegment>, hosts: Hosts<E>, b: seq<KV<E>>)
    requires AllValid(segments) && Stored(hosts, segments) && HitsPlaced(rel, segments, |segments|, hosts, false, b)
    ensures HitsLoaded(rel, hosts, segments, b)
  {
    forall i, p | 0 <= i < |segments| && 0 <= p < |b| && segments[i].Covers(p)
      ensures HasHost(hosts, segments[i]) && HitLoaded(rel, hosts, segments[i], b, p)
    {
      assert HitPlaced(rel, segments, hosts, false, b, i, p);
      CopiesKeepTheStore(rel, segments[..i], hosts);
    }
  }

  predicate Stationary(s: BlendSegment) { s.targetStart == s.segmentId.sourceStart }

  /** No segment is loaded again after an earlier load of it moved its keys. */
  ghost predicate NoMovedReuse(segments: seq<BlendSegment>) {
    forall k, i :: 0 <= k < i < |segments| && segments[k].segmentId == segments[i].segmentId ==> Stationary(segments[k])
  }

  /** Whatever the relocation does, without a moved reuse every segment is read as it was stored. */
  lemma {:induction false} UnmovedIsUnchanged<E>(rel: Relocation<E>, segments: seq<BlendSegment>, hosts: Hosts<E>,
                                                 id: SegmentId)
    requires AllValid(segments) && Stored(hosts, segments) && id in hosts
    requires forall k :: 0 <= k < |segments| && segments[k].segmentId == id ==> Stationary(segments[k])
    ensures id in HostsAfter(rel, segments, hosts, true) && HostsAfter(rel, segments, hosts, true)[id] == hosts[id]
  {
    if segments != [] {
      var n := |segments| - 1;
      UnmovedIsUnchanged(rel, segments[..n], hosts, id);
      if segments[n].segmentId == id {
        assert Stationary(segments[n]) && segments[n].Valid();
        assert Sources(segments[n]) == Targets(segments[n]);
      }
    }
  }

  lemma UnmovedReuseIsSound<E>(rel: Relocation<E>, segments: seq<BlendSegment>, hosts: Hosts<E>, b: seq<KV<E>>)
    requires AllValid(segments) && Stored(hosts, segments) && HitsPlaced(rel, segments, |segments|, hosts, true, b)
    requires NoMovedReuse(segments)
    ensures HitsLoaded(rel, hosts, segments, b)
  {
    forall i, p | 0 <= i < |segments| && 0 <= p < |b| && segments[i].Covers(p)
      ensures HasHost(hosts, segments[i]) && HitLoaded(rel, hosts, segments[i], b, p)
    {
      assert HitPlaced(rel, segments, hosts, true, b, i, p) && HasHost(hosts, segments[i]);
      forall k | 0 <= k < i && segments[..i][k].segmentId == segments[i].segmentId
        ensures Stationary(segments[..i][k]) {
        assert segments[k].segmentId == segments[i].segmentId;
      }
      UnmovedIsUnchanged(rel, segments[..i], hosts, segments[i].segmentId);
    }
  }
}
