/** The double-buffered loader over two staging buffers, and the layer loop that drives it: the loop writes back
    what a plain layer-by-layer computation on freshly assembled buffers would. */
module LayerLoader {
  import opened Types
  import opened Wrappers
  import opened Paging
  import opened Loader

  // ---------------------------------------------------------------- pages as values

  /** What a layer's pages hold, slot by slot. */
  ghost function Image<E>(layer: KvLayer<E>, blockSize: nat): imap<nat, KV<E>>
    requires layer.Supported() && layer.Shaped(blockSize)
    reads layer.Footprint()
  {
    imap t: nat | layer.InRange(blockSize, t) :: KV(layer.Cell(blockSize, 0, t), layer.Cell(blockSize, 1, t))
  }

  ghost predicate Mapped<E>(image: imap<nat, KV<E>>, slots: seq<nat>) {
    forall i :: 0 <= i < |slots| ==> slots[i] in image
  }

  /** The cached prefix of the span. */
  ghost function PrefixOf<E>(plan: BlendPlan, image: imap<nat, KV<E>>, slots: seq<nat>): (r: seq<KV<E>>)
    requires plan.WellFormed() && |slots| == plan.allocationEnd && Mapped(image, slots)
    ensures |r| == plan.apcPrefixTokens
  {
    seq(plan.apcPrefixTokens, i requires 0 <= i < plan.apcPrefixTokens => image[slots[i]])
  }

  /** The suffix slots hold the blended tokens and every other slot holds what it held. */
  ghost predicate Committed<E>(before: imap<nat, KV<E>>, after: imap<nat, KV<E>>, slots: seq<nat>, start: nat,
                               kvs: seq<KV<E>>)
    requires |kvs| == |slots| && start <= |slots| && Mapped(before, slots)
  {
    && after.Keys == before.Keys
    && (forall i :: start <= i < |slots| ==> after[slots[i]] == kvs[i])
    && (forall t :: t in before && t !in slots[start..] ==> after[t] == before[t])
  }

  /** The span the plan asks for, written down once for the whole layer. */
  ghost function Planned<E>(plan: BlendPlan, rel: Relocation<E>, hosts: Hosts<E>, prefix: seq<KV<E>>, zero: E)
    : (b: seq<KV<E>>)
    requires AllValid(plan.segments) && plan.WellFormed() && Stored(hosts, plan.segments)
    requires |prefix| == plan.apcPrefixTokens
    ensures Determined(plan, rel, hosts, prefix, zero, b)
  {
    var b := seq(plan.allocationEnd, p requires 0 <= p < plan.allocationEnd =>
      PlannedAt(plan, rel, hosts, prefix, zero, p));
    PlannedIsDetermined(plan, rel, hosts, prefix, zero, b);
    b
  }

  ghost function PlannedAt<E>(plan: BlendPlan, rel: Relocation<E>, hosts: Hosts<E>, prefix: seq<KV<E>>, zero: E, p: int)
    : KV<E>
    requires Stored(hosts, plan.segments) && |prefix| == plan.apcPrefixTokens && 0 <= p
  {
    if p < |prefix| then prefix[p]
    else if i :| 0 <= i < |plan.segments| && plan.segments[i].Covers(p) then
      assert HasHost(hosts, plan.segments[i]);
      FromHost(rel, hosts, plan.segments[i], p)
    else KV(zero, zero)
  }

  lemma PlannedIsDetermined<E>(plan: BlendPlan, rel: Relocation<E>, hosts: Hosts<E>, prefix: seq<KV<E>>, zero: E,
                               b: seq<KV<E>>)
    requires AllValid(plan.segments) && plan.WellFormed() && Stored(hosts, plan.segments)
    requires |prefix| == plan.apcPrefixTokens
    requires |b| == plan.allocationEnd
    requires forall p :: 0 <= p < |b| ==> b[p] == PlannedAt(plan, rel, hosts, prefix, zero, p)
    ensures Determined(plan, rel, hosts, prefix, zero, b)
  {
    hide FromHost;
    forall i, p | 0 <= i < |plan.segments| && 0 <= p < |b| && plan.segments[i].Covers(p)
      ensures HasHost(hosts, plan.segments[i]) && HitLoaded(rel, hosts, plan.segments[i], b, p)
    {
      OneCover(plan, i, p);
    }
    assert b[..|prefix|] == prefix;
  }

  /** At most one segment covers a position, and none covers the prefix. */
  lemma OneCover(plan: BlendPlan, i: nat, p: int)
    requires AllValid(plan.segments) && plan.WellFormed() && i < |plan.segments| && plan.segments[i].Covers(p)
    ensures p >= plan.apcPrefixTokens
    ensures forall k :: 0 <= k < |plan.segments| && plan.segments[k].Covers(p) ==> k == i
  {
  }

  /** What a slot of the pages holds, told of the arrays themselves. */
  lemma ImageFromArrays<E>(layer: KvLayer<E>, blockSize: nat, b: nat, o: nat)
    requires layer.Supported() && layer.Shaped(blockSize) && o < blockSize
    requires match layer
             case Separate(key, _) => b < key.Length0
             case Stacked(pages) => b < if pages.Length0 == 2 then pages.Length1 else pages.Length0
    ensures b * blockSize + o in Image(layer, blockSize)
    ensures var kv := Image(layer, blockSize)[b * blockSize + o];
            match layer
            case Separate(key, value) => kv == KV(key[b, o], value[b, o])
            case Stacked(pages) =>
              kv == if pages.Length0 == 2 then KV(pages[0, b, o], pages[1, b, o])
                else KV(pages[b, 0, o], pages[b, 1, o])
  {
    CellsInArrays(layer, blockSize, b, o);
  }

  // ---------------------------------------------------------------- loading one layer into a buffer

  method CopyPrefix<E>(prefix: nat, layer: KvLayer<E>, slots: seq<nat>, blockSize: nat, buffer: array<KV<E>>)
    requires layer.Supported() && layer.Shaped(blockSize) && prefix <= buffer.Length && prefix <= |slots|
    requires Mapped(Image(layer, blockSize), slots) && buffer !in layer.Footprint()
    modifies buffer
    ensures forall p :: 0 <= p < buffer.Length ==>
              buffer[p] == if p < prefix then Image(layer, blockSize)[slots[p]] else old(buffer[p])
  {
    var sampleSlots := slots[..if prefix > 0 then prefix else Min(1, |slots|)];
    ghost var image := Image(layer, blockSize);
    forall i | 0 <= i < |sampleSlots| ensures layer.InRange(blockSize, sampleSlots[i]) {
      assert slots[i] in image;
    }
    var sample := GatherPagedKv(layer, sampleSlots, blockSize);
    var keys, values := sample.value.0, sample.value.1;
    if prefix > 0 {
      forall p | 0 <= p < prefix ensures KV(keys[p], values[p]) == image[slots[p]] {
        assert slots[p] in image && sampleSlots[p] == slots[p];
      }
      forall p | 0 <= p < prefix { buffer[p] := KV(keys[p], values[p]); }
    }
    assert Image(layer, blockSize) == image;
  }

  /** The prefix and the gaps of the span are in place. */
  ghost predicate Prepared<E>(plan: BlendPlan, prefix: seq<KV<E>>, zero: E, b: seq<KV<E>>) {
    && |prefix| == plan.apcPrefixTokens && |b| == plan.allocationEnd && |prefix| <= |b| && b[..|prefix|] == prefix
    && GapsZero(plan.segments, plan.apcPrefixTokens, plan.allocationEnd, zero, b)
  }

  /** Prefix pages, then zeroed gaps. */
  method PrepareSpan<E>(plan: BlendPlan, layer: KvLayer<E>, slots: seq<nat>, blockSize: nat, buffer: array<KV<E>>,
                        zero: E)
    requires AllValid(plan.segments) && plan.WellFormed() && buffer.Length == plan.allocationEnd == |slots|
    requires layer.Supported() && layer.Shaped(blockSize) && Mapped(Image(layer, blockSize), slots)
    requires buffer !in layer.Footprint()
    modifies buffer
    ensures Prepared(plan, PrefixOf(plan, Image(layer, blockSize), slots), zero, buffer[..])
  {
    ghost var prefix := PrefixOf(plan, Image(layer, blockSize), slots);
    CopyPrefix(plan.apcPrefixTokens, layer, slots, blockSize, buffer);
    assert buffer[..|prefix|] == prefix;
    ZeroGaps(plan, buffer, zero);
    assert buffer[..|prefix|] == prefix;
    assert Image(layer, blockSize) == old(Image(layer, blockSize));
  }

  /** The stored segments, fused or one by one. */
  method LoadHits<E(!new)>(plan: BlendPlan, rel: Relocation<E>, hosts: map<SegmentId, array<KV<E>>>, blockSize: nat,
                           fused: bool, sameDevice: bool, packed: array<KV<E>>, buffer: array<KV<E>>,
                           ghost prefix: seq<KV<E>>, zero: E)
    requires AllValid(plan.segments) && plan.WellFormed() && StaysPut(rel) && Stored(Snapshot(hosts), plan.segments)
    requires blockSize > 0
    requires buffer.Length == plan.allocationEnd && packed.Length == plan.hitTokens && packed != buffer
    requires OwnTensors(hosts, buffer) && packed !in HostArrays(hosts) && Prepared(plan, prefix, zero, buffer[..])
    modifies buffer, packed, if sameDevice && !fused then HostArrays(hosts) else {}
    ensures fused || !sameDevice ==>
              Snapshot(hosts) == old(Snapshot(hosts)) && Determined(plan, rel, Snapshot(hosts), prefix, zero,
                                                                    buffer[..])
    ensures !fused ==>
              && Snapshot(hosts) == HostsAfter(rel, plan.segments, old(Snapshot(hosts)), sameDevice)
              && HitsPlaced(rel, plan.segments, |plan.segments|, old(Snapshot(hosts)), sameDevice, buffer[..])
  {
    hide StaysPut, FromHost, HostsAfter, HitPlaced, Prepared, Determined;
    ghost var stored, prepared := Snapshot(hosts), buffer[..];
    if fused {
      LoadSegmentsFused(plan, rel, hosts, blockSize, packed, buffer);
    } else {
      LoadSegmentsIndividually(plan.segments, rel, hosts, sameDevice, buffer);
      if !sameDevice {
        CopiesKeepTheStore(rel, plan.segments, stored);
        CopiesLoadTheHits(rel, plan.segments, stored, buffer[..]);
      }
    }
    if fused || !sameDevice {
      AllPartsDetermine(plan, rel, stored, prefix, zero, prepared, buffer[..]);
    }
  }

  /** The copying step that a prefetch queues: prefix pages, zeroed gaps, then the stored segments. */
  method LoadLayer<E(!new)>(plan: BlendPlan, rel: Relocation<E>, hosts: map<SegmentId, array<KV<E>>>, layer: KvLayer<E>,
                            slots: seq<nat>, blockSize: nat, fused: bool, sameDevice: bool, packed: array<KV<E>>,
                            buffer: array<KV<E>>, zero: E)
    requires AllValid(plan.segments) && plan.WellFormed() && StaysPut(rel) && Stored(Snapshot(hosts), plan.segments)
    requires buffer.Length == plan.allocationEnd == |slots| && packed.Length == plan.hitTokens && packed != buffer
    requires OwnTensors(hosts, buffer) && packed !in HostArrays(hosts)
    requires layer.Supported() && layer.Shaped(blockSize) && Mapped(Image(layer, blockSize), slots)
    requires {buffer, packed} !! layer.Footprint() && HostArrays(hosts) !! layer.Footprint()
    modifies buffer, packed, if sameDevice && !fused then HostArrays(hosts) else {}
    ensures Image(layer, blockSize) == old(Image(layer, blockSize))
    ensures fused || !sameDevice ==>
              && Snapshot(hosts) == old(Snapshot(hosts))
              && Determined(plan, rel, Snapshot(hosts), PrefixOf(plan, Image(layer, blockSize), slots), zero,
                            buffer[..])
    ensures !fused ==>
              && Snapshot(hosts) == HostsAfter(rel, plan.segments, old(Snapshot(hosts)), sameDevice)
              && HitsPlaced(rel, plan.segments, |plan.segments|, old(Snapshot(hosts)), sameDevice, buffer[..])
  {
    hide StaysPut, HostsAfter, HitsPlaced, Prepared, Determined;
    ghost var stored, image := Snapshot(hosts), Image(layer, blockSize);
    PrepareSpan(plan, layer, slots, blockSize, buffer, zero);
    assert Snapshot(hosts) == stored && Image(layer, blockSize) == image;
    LoadHits(plan, rel, hosts, blockSize, fused, sameDevice, packed, buffer, PrefixOf(plan, image, slots), zero);
    assert Image(layer, blockSize) == image;
  }

  lemma AllPartsDetermine<E>(plan: BlendPlan, rel: Relocation<E>, hosts: Hosts<E>, prefix: seq<KV<E>>, zero: E,
                             prepared: seq<KV<E>>, b: seq<KV<E>>)
    requires AllValid(plan.segments) && plan.WellFormed() && Stored(hosts, plan.segments)
    requires Prepared(plan, prefix, zero, prepared) && |b| == |prepared|
    requires forall p :: 0 <= p < |b| && !IsCovered(plan.segments, p) ==> b[p] == prepared[p]
    requires HitsLoaded(rel, hosts, plan.segments, b)
    ensures |prefix| == plan.apcPrefixTokens && Determined(plan, rel, hosts, prefix, zero, b)
  {
    hide HitsLoaded;
    forall p | 0 <= p < |prefix| ensures b[p] == prefix[p] {
      if IsCovered(plan.segments, p) { CoveredInSpan(plan, p); }
      assert prepared[..|prefix|][p] == prepared[p];
    }
    assert b[..|prefix|] == prefix;
  }

  // ---------------------------------------------------------------- the loader object

  ghost predicate TensorsFit<E>(hosts: map<SegmentId, array<KV<E>>>, segments: seq<BlendSegment>) {
    forall i :: 0 <= i < |segments| ==>
      segments[i].segmentId in hosts && hosts[segments[i].segmentId].Length == segments[i].Length()
  }

  lemma TensorsAreStored<E>(hosts: map<SegmentId, array<KV<E>>>, segments: seq<BlendSegment>)
    requires TensorsFit(hosts, segments)
    ensures Stored(Snapshot(hosts), segments)
  {
  }

  ghost predicate OwnTensorArrays<E>(hosts: map<SegmentId, array<KV<E>>>) {
    forall a, b :: a in hosts && b in hosts && a != b ==> hosts[a] != hosts[b]
  }

  /** The fixed surroundings of one request's loader: per layer its pages and the tensors `get_layer` returns. */
  datatype Setup<!E> = Setup(plan: BlendPlan, rel: Relocation<E>, zero: E, slots: seq<nat>, blockSize: nat, fused: bool,
                             sameDevice: bool, kvCaches: seq<KvLayer<E>>, stored: seq<map<SegmentId, array<KV<E>>>>)
  {
    ghost predicate Ok() {
      && AllValid(plan.segments) && plan.WellFormed() && |slots| == plan.allocationEnd && Paging.Distinct(slots)
      && blockSize > 0 && |kvCaches| == |stored|
      && (fused || !sameDevice)
      && (forall l :: 0 <= l < |kvCaches| ==> LayerOk(l))
      && (forall l, m :: 0 <= l < m < |kvCaches| ==> kvCaches[l].Footprint() !! kvCaches[m].Footprint())
      && (forall l, m :: 0 <= l < |stored| && 0 <= m < |kvCaches| ==> HostArrays(stored[l]) !! kvCaches[m].Footprint())
    }

    ghost predicate LayerOk(l: int)
      requires 0 <= l < |kvCaches| == |stored| && blockSize > 0
    {
      && kvCaches[l].Supported() && kvCaches[l].Shaped(blockSize)
      && (forall i :: 0 <= i < |slots| ==> kvCaches[l].InRange(blockSize, slots[i]))
      && TensorsFit(stored[l], plan.segments) && OwnTensorArrays(stored[l])
    }

    /** An array that belongs to neither the pages nor the store. */
    ghost predicate Private(a: array<KV<E>>) {
      && (forall l :: 0 <= l < |kvCaches| ==> a !in kvCaches[l].Footprint())
      && (forall l :: 0 <= l < |stored| ==> a !in HostArrays(stored[l]))
    }

    /** The layer's planned span, from its pages and its stored tensors. */
    ghost function Span(l: nat): (b: seq<KV<E>>)
      requires Ok() && l < |kvCaches|
      reads kvCaches[l].Footprint(), HostArrays(stored[l])
      ensures |b| == |slots|
    {
      assert LayerOk(l);
      TensorsAreStored(stored[l], plan.segments);
      Planned(plan, rel, Snapshot(stored[l]), PrefixOf(plan, Image(kvCaches[l], blockSize), slots), zero)
    }

    ghost function LayerImage(l: nat): (r: imap<nat, KV<E>>)
      requires Ok() && l < |kvCaches|
      reads kvCaches[l].Footprint()
      ensures Mapped(r, slots)
    {
      assert LayerOk(l);
      Image(kvCaches[l], blockSize)
    }

    /** Layer l's pages now, against the images and the blended span given. */
    ghost predicate CommittedLayer(l: nat, images: seq<imap<nat, KV<E>>>, kvs: seq<KV<E>>)
      requires Ok() && l < |kvCaches| == |images|
      reads kvCaches[l].Footprint()
    {
      && |kvs| == |slots| && Mapped(images[l], slots)
      && Committed(images[l], LayerImage(l), slots, plan.apcPrefixTokens, kvs)
    }

    ghost function LayerWorld(l: nat): set<object>
      requires l < |kvCaches| && l < |stored|
    {
      kvCaches[l].Footprint() + HostArrays(stored[l])
    }

    ghost function WorldBefore(l: nat): set<object> {
      (set m, o | 0 <= m < l && m < |kvCaches| && o in kvCaches[m].Footprint() :: o)
      + (set m, o | 0 <= m < l && m < |stored| && o in HostArrays(stored[m]) :: o)
    }

    ghost function WorldFrom(l: nat): set<object> {
      (set m, o | l <= m < |kvCaches| && o in kvCaches[m].Footprint() :: o)
      + (set m, o | l <= m < |stored| && o in HostArrays(stored[m]) :: o)
    }

    /** Layers from l on still have their initial pages and tensors. */
    ghost predicate Rest(l: nat, spans: seq<seq<KV<E>>>, images: seq<imap<nat, KV<E>>>)
      requires Ok() && |kvCaches| == |images| == |spans|
      reads WorldFrom(l)
    {
      forall m :: l <= m < |kvCaches| ==> Span(m) == spans[m] && LayerImage(m) == images[m]
    }

    /** The first l layers hold their blended spans. */
    ghost predicate Done(l: nat, images: seq<imap<nat, KV<E>>>, blended: seq<seq<KV<E>>>)
      requires Ok() && l <= |kvCaches| == |images| == |blended|
      reads WorldBefore(l)
    {
      forall m :: 0 <= m < l ==> CommittedLayer(m, images, blended[m])
    }

    lemma NothingDone(spans: seq<seq<KV<E>>>, images: seq<imap<nat, KV<E>>>, blended: seq<seq<KV<E>>>)
      requires Ok() && spans == Spans() && images == Images() && |blended| == |kvCaches|
      ensures Rest(0, spans, images) && Done(0, images, blended)
    {
    }

    lemma RestSplits(l: nat, spans: seq<seq<KV<E>>>, images: seq<imap<nat, KV<E>>>)
      requires Ok() && l < |kvCaches| == |images| == |spans| && Rest(l, spans, images)
      ensures Span(l) == spans[l] && LayerImage(l) == images[l] && Rest(l + 1, spans, images)
      ensures l + 1 < |kvCaches| ==> Span(l + 1) == spans[l + 1]
    {
      hide Ok;
    }

    lemma DoneExtends(l: nat, images: seq<imap<nat, KV<E>>>, blended: seq<seq<KV<E>>>)
      requires Ok() && l < |kvCaches| == |images| == |blended| && Done(l, images, blended)
      requires CommittedLayer(l, images, blended[l])
      ensures Done(l + 1, images, blended)
    {
      hide Ok;
    }

    /** Layers share neither pages nor, with any pages, stored tensors. */
    lemma LayersApart(l: nat, m: nat)
      requires Ok() && l < |kvCaches| && m < |kvCaches| && l != m
      ensures m < |stored| && kvCaches[l].Footprint() !! LayerWorld(m)
    {
      assert HostArrays(stored[m]) !! kvCaches[l].Footprint();
    }

    ghost function Pages(): set<object> {
      set l, o | 0 <= l < |kvCaches| && o in kvCaches[l].Footprint() :: o
    }

    ghost function World(): set<object> {
      (set l, o | 0 <= l < |kvCaches| && o in kvCaches[l].Footprint() :: o)
        + (set l, o | 0 <= l < |stored| && o in HostArrays(stored[l]) :: o)
    }

    ghost function Spans(): (r: seq<seq<KV<E>>>)
      requires Ok()
      reads World()
      ensures |r| == |kvCaches| && forall l :: 0 <= l < |r| ==> r[l] == Span(l)
    {
      seq(|kvCaches|, l requires 0 <= l < |kvCaches| && Ok() reads World() => Span(l))
    }

    ghost function Images(): (r: seq<imap<nat, KV<E>>>)
      requires Ok()
      reads World()
      ensures |r| == |kvCaches| && forall l :: 0 <= l < |r| ==> r[l] == LayerImage(l)
    {
      seq(|kvCaches|, l requires 0 <= l < |kvCaches| && Ok() reads World() => LayerImage(l))
    }
  }

  /** One layer's computation on its contiguous span, threading the hidden state. */
  type LayerCompute<!H, !E> = (nat, H, seq<KV<E>>) -> (H, seq<KV<E>>)

  ghost predicate KeepsLength<H(!new), E(!new)>(compute: LayerCompute<H, E>) {
    forall l: nat, h: H, b: seq<KV<E>> :: |compute(l, h, b).1| == |b|
  }

  /** The hidden state before layer l when every layer is computed in turn on its own freshly assembled span. */
  ghost function Hidden<H, E>(compute: LayerCompute<H, E>, h0: H, spans: seq<seq<KV<E>>>, l: nat): H
    requires l <= |spans|
  {
    if l == 0 then h0 else compute(l - 1, Hidden(compute, h0, spans, l - 1), spans[l - 1]).0
  }

  /** What layer l computes from its hidden state and its span. */
  ghost function Blended<H, E>(compute: LayerCompute<H, E>, h0: H, spans: seq<seq<KV<E>>>, l: nat): seq<KV<E>>
    requires l < |spans|
  {
    compute(l, Hidden(compute, h0, spans, l), spans[l]).1
  }

  ghost function AllBlended<H, E>(compute: LayerCompute<H, E>, h0: H, spans: seq<seq<KV<E>>>): (r: seq<seq<KV<E>>>)
    ensures |r| == |spans| && forall l :: 0 <= l < |r| ==> r[l] == Blended(compute, h0, spans, l)
  {
    seq(|spans|, l requires 0 <= l < |spans| => Blended(compute, h0, spans, l))
  }

  /** The reference: each layer computes on its own span, from what the layer before it hands on. */
  lemma LayerAfterLayer<H, E>(compute: LayerCompute<H, E>, h0: H, spans: seq<seq<KV<E>>>, l: nat)
    requires l < |spans|
    ensures Hidden(compute, h0, spans, 0) == h0
    ensures compute(l, Hidden(compute, h0, spans, l), spans[l])
         == (Hidden(compute, h0, spans, l + 1), AllBlended(compute, h0, spans)[l])
  {
  }

  /** What the setup promises about one layer and two private arrays. */
  lemma SetupAt<E>(setup: Setup<E>, layer: nat, packed: array<KV<E>>, buffer: array<KV<E>>)
    requires setup.Ok() && layer < |setup.kvCaches| && setup.Private(packed) && setup.Private(buffer)
    ensures |setup.stored| == |setup.kvCaches|
    ensures var hosts, pages := setup.stored[layer], setup.kvCaches[layer];
            && pages.Supported() && pages.Shaped(setup.blockSize) && Mapped(Image(pages, setup.blockSize), setup.slots)
            && {buffer, packed} !! pages.Footprint() && HostArrays(hosts) !! pages.Footprint()
            && OwnTensors(hosts, buffer) && packed !in HostArrays(hosts) && Stored(Snapshot(hosts), setup.plan.segments)
            && AllValid(setup.plan.segments) && setup.plan.WellFormed() && |setup.slots| == setup.plan.allocationEnd
            && (setup.fused || !setup.sameDevice)
            && setup.Span(layer) == Planned(setup.plan, setup.rel, Snapshot(hosts),
                                            PrefixOf(setup.plan, Image(pages, setup.blockSize), setup.slots),
                                              setup.zero)
  {
    assert setup.LayerOk(layer);
  }

  /** Every position of a layer's span: the page slot of a prefix token, the stored token of a hit with its key moved
      from its source to its target position, and zeros in a gap. */
  lemma SpanFromParts<E>(setup: Setup<E>, l: nat, p: nat)
    requires setup.Ok() && l < |setup.kvCaches| && p < |setup.slots|
    ensures p < setup.plan.apcPrefixTokens ==>
              setup.slots[p] in setup.LayerImage(l) && setup.Span(l)[p] == setup.LayerImage(l)[setup.slots[p]]
    ensures forall i :: 0 <= i < |setup.plan.segments| ==>
              var s := setup.plan.segments[i];
              0 <= p - s.targetStart < s.segmentId.tokenCount ==>
                && s.segmentId in setup.stored[l] && p - s.targetStart < setup.stored[l][s.segmentId].Length
                && var kv := setup.stored[l][s.segmentId][p - s.targetStart];
                   setup.Span(l)[p] == KV(setup.rel(s.segmentId.sourceStart + (p - s.targetStart), p, kv.key), kv.value)
    ensures p >= setup.plan.apcPrefixTokens && !IsCovered(setup.plan.segments, p) ==>
              setup.Span(l)[p] == KV(setup.zero, setup.zero)
  {
    assert setup.LayerOk(l);
    TensorsAreStored(setup.stored[l], setup.plan.segments);
    var hosts, prefix := Snapshot(setup.stored[l]), PrefixOf(setup.plan, setup.LayerImage(l), setup.slots);
    var b := Planned(setup.plan, setup.rel, hosts, prefix, setup.zero);
    assert setup.Span(l) == b && Determined(setup.plan, setup.rel, hosts, prefix, setup.zero, b);
    if p < setup.plan.apcPrefixTokens {
      assert b[..|prefix|][p] == prefix[p];
    }
    forall i | 0 <= i < |setup.plan.segments| && setup.plan.segments[i].Covers(p)
      ensures HasHost(hosts, setup.plan.segments[i]) && HitLoaded(setup.rel, hosts, setup.plan.segments[i], b, p)
    {
    }
  }

  /** Loading a layer into a private buffer leaves exactly the planned span in it. */
  method LoadSpan<E(!new)>(setup: Setup<E>, layer: nat, packed: array<KV<E>>, buffer: array<KV<E>>)
    requires setup.Ok() && StaysPut(setup.rel) && layer < |setup.kvCaches|
    requires setup.Private(packed) && setup.Private(buffer) && packed != buffer
    requires buffer.Length == setup.plan.allocationEnd && packed.Length == setup.plan.hitTokens
    modifies packed, buffer
    ensures setup.Span(layer) == old(setup.Span(layer)) == buffer[..]
  {
    hide setup.Ok, StaysPut, Determined, Planned, PlannedAt, Stored, OwnTensors, HitsPlaced, HostsAfter;
    SetupAt(setup, layer, packed, buffer);
    var hosts, pages := setup.stored[layer], setup.kvCaches[layer];
    ghost var span := setup.Span(layer);
    LoadLayer(setup.plan, setup.rel, hosts, pages, setup.slots, setup.blockSize, setup.fused, setup.sameDevice, packed,
              buffer, setup.zero);
    SetupAt(setup, layer, packed, buffer);
    DeterminedIsUnique(setup.plan, setup.rel, Snapshot(hosts),
                       PrefixOf(setup.plan, Image(pages, setup.blockSize), setup.slots), setup.zero,
                       buffer[..], span);
  }

  lemma LengthKept<H(!new), E(!new)>(compute: LayerCompute<H, E>, l: nat, h: H, span: seq<KV<E>>)
    requires KeepsLength(compute)
    ensures |compute(l, h, span).1| == |span|
  {
  }

  /** Neighbouring layers use different staging buffers. */
  lemma Parity(l: nat)
    ensures (l + 1) % 2 != l % 2 && (l + 2) % 2 == l % 2
  {
  }

  class PagedBlendLoader<E(0, !new)> {
    const setup: Setup<E>
    var staging: seq<array<KV<E>>>
    var hitStaging: array?<KV<E>>
    var buffers: map<nat, array<KV<E>>>

    ghost predicate Valid()
      reads this
    {
      && setup.Ok() && StaysPut(setup.rel)
      && (staging == [] || |staging| == 2)
      && (forall i :: 0 <= i < |staging| ==> staging[i].Length == setup.plan.allocationEnd && setup.Private(staging[i]))
      && (|staging| == 2 ==> staging[0] != staging[1])
      && (hitStaging != null ==>
            hitStaging.Length == setup.plan.hitTokens && setup.Private(hitStaging) && hitStaging !in staging)
      && (forall l :: l in buffers ==> |staging| == 2 && buffers[l] == staging[l % 2])
    }

    ghost function Own(): set<object>
      reads this
    {
      (set a | a in staging) + if hitStaging == null then {} else {hitStaging}
    }

    constructor (setup: Setup<E>)
      requires setup.Ok() && StaysPut(setup.rel)
      ensures Valid() && this.setup == setup && Own() == {} && buffers == map[]
    {
      this.setup := setup;
      staging, hitStaging, buffers := [], null, map[];
    }

    lemma LoaderIsNoPage(l: nat)
      requires setup.Ok() && l < |setup.kvCaches|
      ensures this !in setup.kvCaches[l].Footprint() && l < |setup.stored| && this !in HostArrays(setup.stored[l])
    {
    }

    /** Own arrays belong to no page and no stored tensor. */
    lemma OwnIsPrivate(l: nat)
      requires Valid() && l < |setup.kvCaches|
      ensures Own() !! setup.kvCaches[l].Footprint() && l < |setup.stored| && Own() !! HostArrays(setup.stored[l])
    {
    }

    lemma LayerIsApart(l: nat, m: nat)
      requires Valid() && l < |setup.kvCaches| && m < |setup.kvCaches| && l != m
      ensures m < |setup.stored|
      ensures Own() !! setup.LayerWorld(m) && setup.kvCaches[l].Footprint() !! setup.LayerWorld(m)
      ensures this !in setup.LayerWorld(m)
    {
      OwnIsPrivate(m);
      LoaderIsNoPage(m);
      setup.LayersApart(l, m);
    }

    /** Two staging tensors of the span's length, allocated at first use, their contents arbitrary. */
    method Allocate()
      requires Valid()
      modifies this
      ensures Valid() && |staging| == 2 && hitStaging != null && buffers == old(buffers)
      ensures old(staging) != [] ==> staging == old(staging)
      ensures old(hitStaging) != null ==> hitStaging == old(hitStaging)
      ensures fresh(Own() - old(Own()))
    {
      if staging == [] {
        var a := new KV<E>[setup.plan.allocationEnd];
        var b := new KV<E>[setup.plan.allocationEnd];
        staging := [a, b];
      }
      if hitStaging == null {
        LengthsAdd(setup.plan.segments, 0);
        hitStaging := new KV<E>[setup.plan.hitTokens];
      }
    }

    /** Assembles a layer in the staging buffer of its parity, unless it is already there or past the last layer.
        Every position is the planned one, whatever the reused buffer held; the other buffer is left alone. */
    method Prefetch(layer: nat)
      requires Valid()
      modifies this, Own()
      ensures Valid() && fresh(Own() - old(Own()))
      ensures layer in old(buffers) || layer >= |setup.kvCaches| ==>
                buffers == old(buffers) && staging == old(staging) && forall a :: a in staging ==> a[..] == old(a[..])
      ensures layer !in old(buffers) && layer < |setup.kvCaches| ==>
                && |staging| == 2 && buffers == old(buffers)[layer := staging[layer % 2]]
                && buffers[layer][..] == setup.Span(layer) == old(setup.Span(layer))
                && (old(staging) != [] ==>
                      staging == old(staging) && staging[(layer + 1) % 2][..] == old(staging[(layer + 1) % 2][..]))
    {
      hide setup.Ok, StaysPut, setup.Span;
      if layer in buffers || layer >= |setup.kvCaches| {
        return;
      }
      ghost var span := setup.Span(layer);
      LoaderIsNoPage(layer);
      Allocate();
      assert setup.Span(layer) == span;
      var buffer := staging[layer % 2];
      ghost var other := staging[(layer + 1) % 2];
      ghost var kept := other[..];
      assert other != buffer && other != hitStaging;
      LoadSpan(setup, layer, hitStaging, buffer);
      assert other[..] == kept;
      buffers := buffers[layer := buffer];
    }

    /** Hands out a prefetched layer's buffer and forgets it. */
    method Get(layer: nat) returns (b: array<KV<E>>)
      requires Valid() && layer in buffers
      modifies this`buffers
      ensures Valid() && b == old(buffers[layer]) && buffers == old(buffers) - {layer}
    {
      b := buffers[layer];
      buffers := buffers - {layer};
    }

    /** Writes the suffix of a blended layer back to its pages. */
    method Commit(layer: nat, contiguous: array<KV<E>>)
      requires Valid() && layer < |setup.kvCaches| && contiguous.Length == setup.plan.allocationEnd
      requires contiguous !in setup.kvCaches[layer].Footprint()
      modifies setup.kvCaches[layer].Footprint()
      ensures Committed(old(setup.LayerImage(layer)), setup.LayerImage(layer), setup.slots, setup.plan.apcPrefixTokens,
                        contiguous[..])
    {
      var kvs := contiguous[..];
      var keys := seq(|kvs|, i requires 0 <= i < |kvs| => kvs[i].key);
      var values := seq(|kvs|, i requires 0 <= i < |kvs| => kvs[i].value);
      assert setup.LayerOk(layer);
      Paging.Commit(setup.plan.apcPrefixTokens, setup.plan.allocationEnd, keys, values, setup.kvCaches[layer],
                    setup.slots, setup.blockSize);
    }

    /** Layer l, and nothing else, is assembled and waiting. */
    ghost predicate Waiting(l: nat, span: seq<KV<E>>)
      reads this, Own()
    {
      |staging| == 2 && buffers == map[l := staging[l % 2]] && staging[l % 2][..] == span
    }

    /** With no layer waiting, assembles layer l + 1 next to the buffer of layer l. */
    method PrefetchNext(l: nat)
      requires Valid() && l + 1 < |setup.kvCaches| && |staging| == 2 && buffers == map[]
      modifies this, Own()
      ensures Valid() && fresh(Own() - old(Own()))
      ensures staging == old(staging) && staging[l % 2][..] == old(staging[l % 2][..])
      ensures Waiting(l + 1, old(setup.Span(l + 1)))
    {
      hide setup.Ok, StaysPut, setup.Span, setup.Private, Valid;
      Parity(l);
      Prefetch(l + 1);
    }

    /** Takes the waiting buffer and assembles the next layer in the other one. */
    method Take(l: nat, ghost span: seq<KV<E>>) returns (oldKv: array<KV<E>>)
      requires Valid() && l < |setup.kvCaches| && Waiting(l, span)
      modifies this, Own()
      ensures Valid() && fresh(Own() - old(Own()))
      ensures |staging| == 2 && oldKv == staging[l % 2] && oldKv[..] == span
      ensures if l + 1 < |setup.kvCaches| then Waiting(l + 1, old(setup.Span(l + 1))) else buffers == map[]
    {
      hide setup.Ok, StaysPut, setup.Span, setup.Private, Valid, setup.LayerImage;
      SetupIsOk();
      oldKv := Get(l);
      assert buffers == map[];
      if l + 1 < |setup.kvCaches| {
        LoaderIsNoPage(l + 1);
        PrefetchNext(l);
      }
    }

    /** Computing in place on the taken buffer leaves the waiting one alone. */
    method ComputeInPlace<H>(l: nat, compute: LayerCompute<H, E>, h: H, oldKv: array<KV<E>>, ghost span: seq<KV<E>>)
      returns (g: H)
      requires |staging| == 2 && oldKv == staging[l % 2] && oldKv != staging[(l + 1) % 2]
      requires oldKv[..] == span && |compute(l, h, span).1| == |span|
      modifies oldKv
      ensures g == compute(l, h, span).0 && oldKv[..] == compute(l, h, span).1
      ensures staging[(l + 1) % 2][..] == old(staging[(l + 1) % 2][..])
    {
      var out := compute(l, h, oldKv[..]);
      g := out.0;
      forall p | 0 <= p < oldKv.Length { oldKv[p] := out.1[p]; }
      assert oldKv[..] == out.1;
    }

    /** One turn of the layer loop: take the waiting buffer, prefetch the next layer, compute in place, write back. */
    method RunLayer<H(!new)>(l: nat, compute: LayerCompute<H, E>, h: H, ghost span: seq<KV<E>>) returns (g: H)
      requires Valid() && l < |setup.kvCaches| && Waiting(l, span) && KeepsLength(compute)
      modifies this, Own(), setup.kvCaches[l].Footprint()
      ensures Valid() && fresh(Own() - old(Own()))
      ensures g == compute(l, h, span).0
      ensures |span| == |setup.slots| && |compute(l, h, span).1| == |span|
      ensures Committed(old(setup.LayerImage(l)), setup.LayerImage(l), setup.slots, setup.plan.apcPrefixTokens,
                        compute(l, h, span).1)
      ensures if l + 1 < |setup.kvCaches| then Waiting(l + 1, old(setup.Span(l + 1))) else buffers == map[]
    {
      hide setup.Ok, StaysPut, setup.Span, setup.LayerImage, Committed, setup.Private, Valid, KeepsLength;
      SetupIsOk();
      ghost var image := setup.LayerImage(l);
      LoaderIsNoPage(l);
      OwnIsPrivate(l);
      SpanLength(l, span);
      var oldKv := Take(l, span);
      OwnIsPrivate(l);
      assert setup.LayerImage(l) == image;
      NeighboursApart(l);
      LengthKept(compute, l, h, span);
      g := ComputeInPlace(l, compute, h, oldKv, span);
      assert setup.LayerImage(l) == image;
      Commit(l, oldKv);
    }

    /** A layer and its successor are assembled in different buffers. */
    lemma NeighboursApart(l: nat)
      requires Valid() && |staging| == 2
      ensures staging[l % 2] != staging[(l + 1) % 2]
    {
      Parity(l);
    }

    lemma SpanLength(l: nat, span: seq<KV<E>>)
      requires Valid() && Waiting(l, span)
      ensures |span| == |setup.slots| == setup.plan.allocationEnd
    {
    }

    /** Nothing this loader writes for layer l belongs to the layers before or after it. */
    lemma WritesStayInLayer(l: nat)
      requires Valid() && l < |setup.kvCaches|
      ensures Own() !! setup.WorldBefore(l) && this !in setup.WorldBefore(l)
      ensures setup.kvCaches[l].Footprint() !! setup.WorldBefore(l)
      ensures Own() !! setup.WorldFrom(l + 1) && this !in setup.WorldFrom(l + 1)
      ensures setup.kvCaches[l].Footprint() !! setup.WorldFrom(l + 1)
    {
      hide setup.Ok, Valid, Own, setup.Private;
      SetupIsOk();
      forall m | 0 <= m < |setup.kvCaches| && m != l
        ensures Own() !! setup.kvCaches[m].Footprint() && Own() !! HostArrays(setup.stored[m])
        ensures setup.kvCaches[l].Footprint() !! setup.kvCaches[m].Footprint()
        ensures setup.kvCaches[l].Footprint() !! HostArrays(setup.stored[m])
        ensures this !in setup.kvCaches[m].Footprint() && this !in HostArrays(setup.stored[m])
      {
        LayerIsApart(l, m);
      }
    }

    lemma SetupIsOk()
      requires Valid()
      ensures setup.Ok() && |setup.stored| == |setup.kvCaches|
    {
    }

    lemma OwnIsOutside()
      requires Valid()
      ensures Own() !! setup.World() && this !in setup.World()
    {
      forall m | 0 <= m < |setup.kvCaches|
        ensures m < |setup.stored| && Own() !! setup.LayerWorld(m) && this !in setup.LayerWorld(m)
      {
        OwnIsPrivate(m);
        LoaderIsNoPage(m);
      }
    }

    lemma WorldIsAllocated()
      ensures forall o: object :: o in setup.World() ==> allocated(o)
    {
    }

    /** Between layers: the first l are written back, the others untouched, layer l is waiting. */
    ghost predicate Between(l: nat, spans: seq<seq<KV<E>>>, images: seq<imap<nat, KV<E>>>, blended: seq<seq<KV<E>>>)
      requires setup.Ok() && l <= |setup.kvCaches| == |spans| == |images| == |blended|
      reads this, Own(), setup.World(), setup.WorldBefore(l), setup.WorldFrom(l)
    {
      && (l < |spans| ==> Waiting(l, spans[l]))
      && setup.Rest(l, spans, images) && setup.Done(l, images, blended)
    }

    /** The prefetch before the loop. */
    method PrefetchFirst()
      requires Valid() && buffers == map[]
      modifies this, Own()
      ensures Valid() && fresh(Own() - old(Own()))
      ensures |setup.kvCaches| > 0 ==> Waiting(0, old(setup.Span(0)))
      ensures setup.Spans() == old(setup.Spans()) && setup.Images() == old(setup.Images())
    {
      hide setup.Ok, StaysPut, setup.Span, setup.LayerImage, Committed, setup.Private, setup.Rest, setup.Done, Valid,
        Own, setup.World;
      SetupIsOk();
      OwnIsOutside();
      WorldIsAllocated();
      Prefetch(0);
    }

    /** One turn of the loop keeps the picture. */
    method Advance<H(!new)>(l: nat, compute: LayerCompute<H, E>, h: H, ghost spans: seq<seq<KV<E>>>,
                            ghost images: seq<imap<nat, KV<E>>>, ghost blended: seq<seq<KV<E>>>)
      returns (g: H)
      requires Valid() && KeepsLength(compute) && l < |setup.kvCaches| == |spans| == |images| == |blended|
      requires Between(l, spans, images, blended) && blended[l] == compute(l, h, spans[l]).1
      modifies this, Own(), setup.kvCaches[l].Footprint()
      ensures Valid() && fresh(Own() - old(Own()))
      ensures g == compute(l, h, spans[l]).0
      ensures Between(l + 1, spans, images, blended)
    {
      hide setup.Ok, StaysPut, setup.Span, setup.LayerImage, Committed, setup.Private, setup.Rest, setup.Done,
        setup.World, Valid, Waiting;
      SetupIsOk();
      setup.RestSplits(l, spans, images);
      WritesStayInLayer(l);
      g := RunLayer(l, compute, h, spans[l]);
      setup.DoneExtends(l, images, blended);
    }

    /** All layers in turn, from the prefetched first one. */
    method RunLayers<H(!new)>(compute: LayerCompute<H, E>, h0: H, ghost spans: seq<seq<KV<E>>>,
                              ghost images: seq<imap<nat, KV<E>>>) returns (h: H)
      requires Valid() && KeepsLength(compute) && |setup.kvCaches| == |spans| == |images|
      requires Between(0, spans, images, AllBlended(compute, h0, spans))
      modifies this, Own(), setup.Pages()
      ensures Valid() && h == Hidden(compute, h0, spans, |setup.kvCaches|)
      ensures setup.Done(|setup.kvCaches|, images, AllBlended(compute, h0, spans))
    {
      hide setup.Ok, StaysPut, setup.Span, setup.LayerImage, Committed, setup.Private, setup.Rest, setup.Done,
        setup.WorldBefore, setup.WorldFrom, setup.World, Valid, Waiting, KeepsLength;
      SetupIsOk();
      ghost var blended := AllBlended(compute, h0, spans);
      h := h0;
      for l := 0 to |setup.kvCaches|
        invariant Valid() && fresh(Own() - old(Own()))
        invariant h == Hidden(compute, h0, spans, l)
        invariant Between(l, spans, images, blended)
      {
        h := Advance(l, compute, h, spans, images, blended);
      }
    }

    /** The layer loop. The suffix pages of every layer end up holding what the plain computation gives, one freshly
        assembled span after the other; no other slot changes, and the span at stake is the one from before the run. */
    method Run<H(!new)>(compute: LayerCompute<H, E>, h0: H) returns (h: H)
      requires Valid() && buffers == map[] && KeepsLength(compute)
      modifies this, Own(), setup.Pages()
      ensures Valid()
      ensures setup.plan.apcPrefixTokens >= setup.plan.allocationEnd ==>
          h == h0 && setup.Images() == old(setup.Images())
      ensures setup.plan.apcPrefixTokens < setup.plan.allocationEnd ==>
                && h == Hidden(compute, h0, old(setup.Spans()), |setup.kvCaches|)
                && setup.Done(|setup.kvCaches|, old(setup.Images()), AllBlended(compute, h0, old(setup.Spans())))
    {
      hide setup.Ok, StaysPut, setup.Span, setup.LayerImage, Committed, setup.Private, setup.Rest, setup.Done,
        setup.WorldBefore, setup.WorldFrom, setup.World, Valid, Waiting;
      SetupIsOk();
      if setup.plan.apcPrefixTokens >= setup.plan.allocationEnd {
        return h0;
      }
      ghost var spans, images := setup.Spans(), setup.Images();
      PrefetchFirst();
      setup.NothingDone(spans, images, AllBlended(compute, h0, spans));
      h := RunLayers(compute, h0, spans, images);
    }
  }
}
