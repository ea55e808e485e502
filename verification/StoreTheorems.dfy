/** What every run of the store guarantees: all-or-nothing publication, immutability of committed
    entries, exact pin accounting, exact capacity rejection and minimal least-recently-used eviction. */
module StoreTheorems {
  import opened Wrappers
  import opened Hashing
  import opened Types
  import opened Matching
  import opened StoreModel
  import opened StoreInvariants
  import opened StoreOperations

  // ---------------------------------------------------------------- every reachable state

  /** Discoverable ids are exactly the committed entries, and those hold every layer and nothing in flight. */
  lemma PublicationIsAllOrNothing(chunkSize: nat, maxBytes: nat, ops: seq<Op>)
    requires chunkSize > 0
    ensures var st := Run(Empty(chunkSize, maxBytes), ops);
            && IdsOf(st.matcher) == (set id | id in st.entries && st.entries[id].committed)
            && AllMade(st.matcher, st.chunkSize)
            && (forall id :: id in st.entries && st.entries[id].committed ==>
                 && st.entries[id].layers.Keys == Interval(0, st.entries[id].numLayers)
                 && st.entries[id].reserved == {} && !st.entries[id].failed)
  {
    var st := Run(Empty(chunkSize, maxBytes), ops);
    EmptyIsSound(chunkSize, maxBytes);
    RunKeeps(Empty(chunkSize, maxBytes), ops);
    RegistryIds(st);
    forall id | id in st.entries && st.entries[id].committed
      ensures st.entries[id].layers.Keys == Interval(0, st.entries[id].numLayers)
              && st.entries[id].reserved == {} && !st.entries[id].failed
    {
      CommittedEntryIsComplete(st.chunkSize, id, st.entries[id]);
    }
  }

  lemma RegistryIds(st: Store)
    requires Inv(st)
    ensures IdsOf(st.matcher) == (set id | id in st.entries && st.entries[id].committed)
    ensures AllMade(st.matcher, st.chunkSize)
  {
    forall id ensures id in IdsOf(st.matcher) <==> id in st.entries && st.entries[id].committed {
      if id in st.entries && st.entries[id].committed {
        assert EntryOk(st.chunkSize, id, st.entries[id]);
        assert st.entries[id].record in st.matcher;
      }
    }
    forall r | r in st.matcher ensures r.Made(st.chunkSize) {
      assert EntryOk(st.chunkSize, r.segmentId, st.entries[r.segmentId]);
    }
  }

  /** The byte counter is the sum of entry sizes, each the sum of its layers, and stays under the limit;
      pin counts are the occurrences over all requests; every pinned id is present and committed. */
  lemma AccountingIsExact(chunkSize: nat, maxBytes: nat, ops: seq<Op>)
    requires chunkSize > 0
    ensures var st := Run(Empty(chunkSize, maxBytes), ops);
            && st.chunkSize == chunkSize && st.maxBytes == maxBytes
            && 0 <= st.bytes == TotalBytes(st.order, st.entries) <= maxBytes
            && (forall id :: id in st.entries ==>
                 st.entries[id].sizeBytes == LayerBytes(st.entries[id].layers, st.entries[id].numLayers)
                 && st.entries[id].pinCount == Occurrences(st.pins)[id])
            && (forall r, id :: r in st.pins && id in st.pins[r] ==> IsCommitted(st, id))
            && (forall id :: id in st.entries && st.entries[id].failed ==> st.entries[id].reserved != {})
  {
    var start := Empty(chunkSize, maxBytes);
    EmptyIsSound(chunkSize, maxBytes);
    RunKeeps(start, ops);
    RunKeepsLimits(start, ops);
    InvAccounting(Run(start, ops));
  }

  lemma InvAccounting(st: Store)
    requires Inv(st)
    ensures st.bytes >= 0
    ensures forall id :: id in st.entries ==>
              st.entries[id].sizeBytes == LayerBytes(st.entries[id].layers, st.entries[id].numLayers)
              && st.entries[id].pinCount == Occurrences(st.pins)[id]
    ensures forall r, id :: r in st.pins && id in st.pins[r] ==> IsCommitted(st, id)
    ensures forall id :: id in st.entries && st.entries[id].failed ==> st.entries[id].reserved != {}
  {
    assert Occurrences(st.pins) + multiset{} == Occurrences(st.pins);
    TotalNonNegative(st.order, st.entries, st.chunkSize);
    forall r, id | r in st.pins && id in st.pins[r]
      ensures IsCommitted(st, id)
    {
      PinnedIsCounted(st, r, id);
    }
    forall id | id in st.entries ensures EntryOk(st.chunkSize, id, st.entries[id]) {}
  }

  lemma PinnedIsCounted(st: Store, r: RequestId, id: SegmentId)
    requires Inv(st) && r in st.pins && id in st.pins[r]
    ensures IsCommitted(st, id) && st.entries[id].pinCount > 0
  {
    OccurrencesSplit(st.pins, r);
    assert multiset(st.pins[r])[id] > 0;
    assert (Occurrences(st.pins) + multiset{})[id] > 0;
    assert EntryOk(st.chunkSize, id, st.entries[id]);
  }

  lemma {:induction false} TotalNonNegative(order: seq<SegmentId>, entries: Entries, chunkSize: nat)
    requires EntriesOk(chunkSize, entries)
    ensures TotalBytes(order, entries) >= 0
  {
    if order != [] {
      TotalNonNegative(order[1..], entries, chunkSize);
      if order[0] in entries { assert EntryOk(chunkSize, order[0], entries[order[0]]); }
    }
  }

  lemma {:induction false} RunKeepsLimits(st: Store, ops: seq<Op>)
    ensures Run(st, ops).maxBytes == st.maxBytes && Run(st, ops).chunkSize == st.chunkSize
    decreases |ops|
  {
    if ops != [] {
      ApplyKeepsLimits(st, ops[0]);
      RunKeepsLimits(Apply(st, ops[0]), ops[1..]);
    }
  }

  lemma ApplyKeepsLimits(st: Store, op: Op)
    ensures Apply(st, op).maxBytes == st.maxBytes && Apply(st, op).chunkSize == st.chunkSize
  {
    match op
    case OpPutLayerHost(id, layer, tensor) => PutFrame(st, id, layer, tensor);
    case OpValidate(segments) => ValidateFrame(st, segments);
    case OpPin(request, segments) =>
      ReleaseFrame(st, request);
      PinLoopLimits(Release(st, request), segments);
    case OpRelease(request) => ReleaseFrame(st, request);
    case _ =>
  }

  lemma ReleaseFrame(st: Store, request: RequestId)
    ensures Release(st, request).maxBytes == st.maxBytes && Release(st, request).chunkSize == st.chunkSize
  {
    var unpinned := st.(pins := st.pins - {request}, entries := UnpinAll(st.entries, PinsOf(st, request)));
    EvictLoopFrame(unpinned, unpinned.order, 0, None);
  }

  lemma {:induction false} ValidateFrame(st: Store, segments: seq<BlendSegment>)
    ensures var (st', valid) := Validate(st, segments);
            && st'.maxBytes == st.maxBytes && st'.chunkSize == st.chunkSize
            && st'.pins == st.pins && st'.entries.Keys == st.entries.Keys && st'.matcher == st.matcher
            && (forall id :: id in st.entries ==>
                 st'.entries[id] == st.entries[id].(lastAccess := st'.entries[id].lastAccess))
            && (forall s :: s in valid <==> s in segments && IsCommitted(st, s.segmentId))
    decreases |segments|
  {
    if segments != [] {
      var id := segments[0].segmentId;
      if IsCommitted(st, id) {
        ValidateFrame(Touch(st, id), segments[1..]);
      } else {
        ValidateFrame(st, segments[1..]);
      }
    }
  }

  lemma {:induction false} PinLoopLimits(st: Store, segments: seq<BlendSegment>)
    ensures PinLoop(st, segments).0.maxBytes == st.maxBytes && PinLoop(st, segments).0.chunkSize == st.chunkSize
    decreases |segments|
  {
    if segments != [] {
      var id := segments[0].segmentId;
      if IsCommitted(st, id) {
        PinLoopLimits(PinOne(st, id), segments[1..]);
      } else {
        PinLoopLimits(st, segments[1..]);
      }
    }
  }

  // ---------------------------------------------------------------- one entry across one operation

  /** The reservation an operation resolves for an entry. */
  function Resolves(op: Op, id: SegmentId): set<int> {
    match op
    case OpCancelLayer(i, layer) => if i == id then {layer} else {}
    case OpPutLayerHost(i, layer, _) => if i == id then {layer} else {}
    case _ => {}
  }

  /** A surviving entry keeps its identity, and a committed one its layers; an entry leaves only when it
      is unpinned and nothing but the resolved reservation was in flight for it. */
  ghost predicate Evolves(op: Op, id: SegmentId, e: Entry, after: Store) {
    if id in after.entries then
      var e' := after.entries[id];
      && e'.record == e.record && e'.numLayers == e.numLayers
      && (e.committed ==> e'.committed && e'.layers == e.layers && e'.sizeBytes == e.sizeBytes)
      && (e.failed ==> e'.failed)
    else
      e.pinCount == 0 && e.reserved <= Resolves(op, id)
  }

  lemma EntryEvolves(st: Store, op: Op, id: SegmentId)
    requires Inv(st) && op != OpClear && id in st.entries
    ensures Evolves(op, id, st.entries[id], Apply(st, op))
  {
    hide InvHolding, Evolves, PutLayerHost, Pin, Release;
    EntryFacts(st, id);
    match op
    case OpPutLayerHost(i, layer, t) => PutEvolves(st, i, layer, t, id);
    case OpPin(request, segments) => PinEvolves(st, request, segments, id);
    case OpRelease(request) => ReleaseEvolves(st, request, id);
    case _ => QuietEvolves(st, op, id);
  }

  lemma ReleaseEvolves(st: Store, request: RequestId, id: SegmentId)
    requires Inv(st) && id in st.entries
    ensures Evolves(OpRelease(request), id, st.entries[id], Release(st, request))
  {
    hide InvHolding;
    ReleaseKeeps(st, request);
  }

  lemma EntryFacts(st: Store, id: SegmentId)
    requires Inv(st) && id in st.entries
    ensures st.entries[id].pinCount >= 0
    ensures st.entries[id].committed ==> st.entries[id].reserved == {} && !st.entries[id].failed
    ensures !st.entries[id].committed ==> st.entries[id].pinCount == 0
  {
    assert EntryOk(st.chunkSize, id, st.entries[id]);
    if st.entries[id].committed { CommittedEntryIsComplete(st.chunkSize, id, st.entries[id]); }
  }

  lemma PinEvolves(st: Store, request: RequestId, segments: seq<BlendSegment>, id: SegmentId)
    requires Inv(st) && id in st.entries
    ensures Evolves(OpPin(request, segments), id, st.entries[id], Pin(st, request, segments).0)
  {
    ReleaseKeeps(st, request);
    hide InvHolding;
    PinLoopFrame(Release(st, request), segments);
  }

  lemma QuietEvolves(st: Store, op: Op, id: SegmentId)
    requires id in st.entries && st.entries[id].pinCount >= 0
    requires !op.OpClear? && !op.OpPin? && !op.OpRelease? && !op.OpPutLayerHost?
    requires !st.entries[id].committed ==> st.entries[id].pinCount == 0
    requires st.entries[id].committed ==> st.entries[id].reserved == {} && !st.entries[id].failed
    ensures Evolves(op, id, st.entries[id], Apply(st, op))
  {
    hide HashOf, Drop;
    match op
    case OpValidate(segments) => ValidateFrame(st, segments);
    case OpCancelLayer(i, layer) => CancelEvolves(st, i, layer, id);
    case _ =>
  }

  lemma CancelEvolves(st: Store, i: SegmentId, layer: int, id: SegmentId)
    requires id in st.entries && st.entries[id].pinCount >= 0
    requires !st.entries[id].committed ==> st.entries[id].pinCount == 0
    requires st.entries[id].committed ==> st.entries[id].reserved == {} && !st.entries[id].failed
    ensures Evolves(OpCancelLayer(i, layer), id, st.entries[id], CancelLayer(st, i, layer))
  {
    hide Drop;
  }

  lemma PutFrame(st: Store, i: SegmentId, layer: int, t: Tensor)
    ensures var after := PutLayerHost(st, i, layer, t).0;
            after.pins == st.pins && after.maxBytes == st.maxBytes && after.chunkSize == st.chunkSize
  {
    hide RoomFor, Accepted, PreviousBytes;
    if i in st.entries { RoomFrame(st, i, t.bytes - PreviousBytes(st.entries[i], layer)); }
  }

  lemma AcceptEvolves(room: Store, i: SegmentId, layer: int, t: Tensor, id: SegmentId)
    requires i in room.entries && !room.entries[i].committed && !room.entries[i].failed && id in room.entries
    ensures Evolves(OpPutLayerHost(i, layer, t), id, room.entries[id], Touch(Accept(room, i, layer, t), i))
  {
  }

  lemma RefuseEvolves(room: Store, i: SegmentId, layer: int, t: Tensor, id: SegmentId)
    requires i in room.entries && !room.entries[i].committed && !room.entries[i].failed && room.entries[i].pinCount == 0
    requires id in room.entries
    ensures var marked := room.entries[i].(reserved := room.entries[i].reserved - {layer}, failed := true);
            Evolves(OpPutLayerHost(i, layer, t), id, room.entries[id], DropIfIdle(WithEntry(room, i, marked), i))
  {
  }

  /** An entry that makes room is gone afterwards. */
  lemma EvictedStaysOut(st: Store, i: SegmentId, layer: int, t: Tensor, id: SegmentId)
    requires id in st.entries && i in st.entries
    requires id !in RoomFor(st, i, t.bytes - PreviousBytes(st.entries[i], layer)).entries
    ensures id !in PutOpen(st, i, layer, t).0.entries && CanEvict(st.entries, id, Some(i))
  {
    hide EvictLoop;
    EvictLoopFrame(st, st.order, t.bytes - PreviousBytes(st.entries[i], layer), Some(i));
  }

  lemma RoomEvolves(st: Store, i: SegmentId, layer: int, t: Tensor, id: SegmentId)
    requires id in st.entries && i in st.entries
    requires !st.entries[i].committed && !st.entries[i].failed && st.entries[i].pinCount == 0
    requires st.entries[id].committed ==> st.entries[id].reserved == {}
    requires id in RoomFor(st, i, t.bytes - PreviousBytes(st.entries[i], layer)).entries
    ensures Evolves(OpPutLayerHost(i, layer, t), id, st.entries[id], PutOpen(st, i, layer, t).0)
  {
    hide EvictLoop, Evict, RoomFor, Evolves, Touch, Accept, DropIfIdle, WithEntry;
    var growth := t.bytes - PreviousBytes(st.entries[i], layer);
    var room := RoomFor(st, i, growth);
    RoomFrame(st, i, growth);
    assert room.entries[id] == st.entries[id] && room.entries[i] == st.entries[i] && room.maxBytes == st.maxBytes;
    AcceptEvolves(room, i, layer, t, id);
    RefuseEvolves(room, i, layer, t, id);
  }

  lemma RoomFrame(st: Store, i: SegmentId, growth: int)
    requires i in st.entries
    ensures var room := RoomFor(st, i, growth);
            && i in room.entries && room.maxBytes == st.maxBytes && room.pins == st.pins
            && room.chunkSize == st.chunkSize && room.clock == st.clock
            && forall id :: id in room.entries ==> id in st.entries && room.entries[id] == st.entries[id]
  {
    hide EvictLoop;
    EvictLoopFrame(st, st.order, growth, Some(i));
  }

  lemma PutOpenEvolves(st: Store, i: SegmentId, layer: int, t: Tensor, id: SegmentId)
    requires id in st.entries && i in st.entries
    requires !st.entries[i].committed && !st.entries[i].failed && st.entries[i].pinCount == 0
    requires st.entries[id].committed ==> st.entries[id].reserved == {}
    ensures Evolves(OpPutLayerHost(i, layer, t), id, st.entries[id], PutOpen(st, i, layer, t).0)
  {
    hide PutOpen, RoomFor;
    if id in RoomFor(st, i, t.bytes - PreviousBytes(st.entries[i], layer)).entries {
      RoomEvolves(st, i, layer, t, id);
    } else {
      EvictedStaysOut(st, i, layer, t, id);
    }
  }

  lemma PutEvolves(st: Store, i: SegmentId, layer: int, t: Tensor, id: SegmentId)
    requires Inv(st) && id in st.entries
    ensures Evolves(OpPutLayerHost(i, layer, t), id, st.entries[id], PutLayerHost(st, i, layer, t).0)
  {
    hide InvHolding;
    EntryFacts(st, id);
    if i in st.entries {
      EntryFacts(st, i);
      if InRange(st.entries[i], layer) && !st.entries[i].failed && !st.entries[i].committed {
        PutOpenEvolves(st, i, layer, t, id);
      }
    }
  }

  /** Once committed, an entry's layers never change for as long as it is present. */
  lemma CommittedEntriesAreImmutable(st: Store, op: Op, id: SegmentId)
    requires Inv(st) && IsCommitted(st, id) && id in Apply(st, op).entries
    ensures IsCommitted(Apply(st, op), id) && Apply(st, op).entries[id].layers == st.entries[id].layers
  {
    if op != OpClear { EntryEvolves(st, op, id); }
  }

  /** Only `clear` can take away an entry that is pinned or still has another layer in flight. */
  lemma OnlyClearRemovesBusyEntries(st: Store, op: Op, id: SegmentId)
    requires Inv(st) && id in st.entries && id !in Apply(st, op).entries
    ensures op == OpClear || (st.entries[id].pinCount == 0 && st.entries[id].reserved <= Resolves(op, id))
  {
    if op != OpClear { EntryEvolves(st, op, id); }
  }

  // ---------------------------------------------------------------- failure drains

  /** A failed entry survives a resolution exactly while another reservation is open; resolving the last
      one, by either path, removes it and returns all its bytes. */
  lemma FailedEntryDrains(st: Store, id: SegmentId, layer: int, t: Tensor)
    requires Inv(st) && id in st.entries && st.entries[id].failed
    requires InRange(st.entries[id], layer)
    ensures CancelLayer(st, id, layer) == PutLayerHost(st, id, layer, t).0
    ensures PutLayerHost(st, id, layer, t).1 == Ok(None)
    ensures var after := CancelLayer(st, id, layer);
            && (id in after.entries <==> st.entries[id].reserved - {layer} != {})
            && (id in after.entries ==> after.entries[id].failed && after.bytes == st.bytes)
            && (id !in after.entries ==> after.bytes == st.bytes - st.entries[id].sizeBytes)
  {
    assert EntryOk(st.chunkSize, id, st.entries[id]);
    assert st.entries[id].pinCount == 0;
  }

  /** Aborting resolves no reservation: it removes an idle entry at once and only marks a busy one. */
  lemma AbortMarksOrRemoves(st: Store, id: SegmentId)
    requires Inv(st) && id in st.entries && !st.entries[id].committed
    ensures var after := AbortPut(st, id);
            && (id in after.entries <==> st.entries[id].reserved != {})
            && (id in after.entries ==> after.entries[id] == st.entries[id].(failed := true) && after.bytes == st.bytes)
            && (id !in after.entries ==> after.bytes == st.bytes - st.entries[id].sizeBytes)
  {
    assert EntryOk(st.chunkSize, id, st.entries[id]);
    assert st.entries[id].pinCount == 0;
  }

  // ---------------------------------------------------------------- capacity

  /** Committed, unpinned entries in least-recently-used order. */
  function Evictables(queue: seq<SegmentId>, entries: Entries, exclude: Option<SegmentId>): seq<SegmentId> {
    if queue == [] then []
    else if CanEvict(entries, queue[0], exclude) then [queue[0]] + Evictables(queue[1..], entries, exclude)
    else Evictables(queue[1..], entries, exclude)
  }

  /** Bytes no eviction can free: entries that are pinned or still incomplete. */
  function FixedBytes(order: seq<SegmentId>, entries: Entries): int {
    if order == [] then 0
    else FixedBytes(order[1..], entries)
         + if order[0] in entries && (entries[order[0]].pinCount > 0 || !entries[order[0]].committed)
           then SizeOf(entries, order[0]) else 0
  }

  function RemoveAll(st: Store, ids: seq<SegmentId>): Store
    decreases |ids|
  {
    if ids == [] then st
    else if ids[0] in st.entries then RemoveAll(Remove(st, ids[0]), ids[1..])
    else RemoveAll(st, ids[1..])
  }

  /** `victims` is the shortest prefix of the evictable entries that makes room, or all of them if none does. */
  ghost predicate ShortestPrefix(st: Store, victims: seq<SegmentId>, all: seq<SegmentId>, required: int) {
    && victims <= all
    && (forall j :: 0 <= j < |victims| ==> st.bytes - TotalBytes(all[..j], st.entries) + required > st.maxBytes)
    && (victims != all ==> st.bytes - TotalBytes(victims, st.entries) + required <= st.maxBytes)
  }

  lemma {:induction false} EvictablesElements(queue: seq<SegmentId>, entries: Entries, exclude: Option<SegmentId>)
    ensures forall id :: id in Evictables(queue, entries, exclude) <==> id in queue && CanEvict(entries, id, exclude)
  {
    if queue != [] {
      EvictablesElements(queue[1..], entries, exclude);
    }
  }

  lemma {:induction false} EvictablesAgree(queue: seq<SegmentId>, a: Entries, b: Entries, exclude: Option<SegmentId>)
    requires forall id :: id in queue ==> (id in a <==> id in b) && (id in a ==> a[id] == b[id])
    ensures Evictables(queue, a, exclude) == Evictables(queue, b, exclude)
  {
    if queue != [] {
      EvictablesAgree(queue[1..], a, b, exclude);
    }
  }

  lemma {:induction false} EvictLoopIsShortestPrefix(st: Store, queue: seq<SegmentId>, required: int,
                                                     exclude: Option<SegmentId>)
    returns (victims: seq<SegmentId>)
    requires Unique(queue)
    ensures ShortestPrefix(st, victims, Evictables(queue, st.entries, exclude), required)
    ensures EvictLoop(st, queue, required, exclude) == RemoveAll(st, victims)
    ensures EvictLoop(st, queue, required, exclude).bytes == st.bytes - TotalBytes(victims, st.entries)
    decreases |queue|
  {
    if queue == [] || st.bytes + required <= st.maxBytes {
      victims := [];
    } else if CanEvict(st.entries, queue[0], exclude) {
      var id, st' := queue[0], Remove(st, queue[0]);
      var rest := EvictLoopIsShortestPrefix(st', queue[1..], required, exclude);
      victims := [id] + rest;
      EvictablesAgree(queue[1..], st.entries, st'.entries, exclude);
      EvictablesElements(queue[1..], st'.entries, exclude);
      PrefixGrows(st, id, rest, Evictables(queue[1..], st'.entries, exclude), required);
      assert victims[1..] == rest;
    } else {
      victims := EvictLoopIsShortestPrefix(st, queue[1..], required, exclude);
    }
  }

  lemma PrefixGrows(st: Store, id: SegmentId, victims: seq<SegmentId>, all: seq<SegmentId>, required: int)
    requires id in st.entries && id !in all && st.bytes + required > st.maxBytes
    requires ShortestPrefix(Remove(st, id), victims, all, required)
    ensures ShortestPrefix(st, [id] + victims, [id] + all, required)
    ensures TotalBytes([id] + victims, st.entries)
        == SizeOf(st.entries, id) + TotalBytes(victims, Remove(st, id).entries)
  {
    var st' := Remove(st, id);
    forall j | 0 <= j <= |all|
      ensures TotalBytes(([id] + all)[..j + 1], st.entries)
          == SizeOf(st.entries, id) + TotalBytes(all[..j], st'.entries)
    {
      assert ([id] + all)[..j + 1] == [id] + all[..j];
      assert ([id] + all[..j])[1..] == all[..j];
      TotalAgree(all[..j], st.entries, st'.entries);
    }
    assert all[..|victims|] == victims;
    assert ([id] + all)[..|victims| + 1] == [id] + victims;
    forall j | 0 <= j < |victims| + 1
      ensures st.bytes - TotalBytes(([id] + all)[..j], st.entries) + required > st.maxBytes
    {
      if j > 0 {
        assert st'.bytes - TotalBytes(all[..j - 1], st'.entries) + required > st'.maxBytes;
      } else {
        assert ([id] + all)[..0] == [];
      }
    }
  }

  lemma {:induction false} TotalSplitsFixed(order: seq<SegmentId>, entries: Entries, exclude: SegmentId)
    requires forall id :: id in order ==> id in entries && entries[id].pinCount >= 0
    requires exclude in entries && !entries[exclude].committed
    ensures TotalBytes(order, entries) == FixedBytes(order, entries)
        + TotalBytes(Evictables(order, entries, Some(exclude)), entries)
  {
    if order != [] {
      TotalSplitsFixed(order[1..], entries, exclude);
      if CanEvict(entries, order[0], Some(exclude)) {
        assert ([order[0]] + Evictables(order[1..], entries, Some(exclude)))[1..]
          == Evictables(order[1..], entries, Some(exclude));
      }
    }
  }

  lemma {:induction false} PrefixTotalBound(prefix: seq<SegmentId>, all: seq<SegmentId>, entries: Entries,
                                            chunkSize: nat)
    requires EntriesOk(chunkSize, entries) && prefix <= all
    ensures TotalBytes(prefix, entries) <= TotalBytes(all, entries)
  {
    if prefix == [] {
      TotalNonNegative(all, entries, chunkSize);
    } else {
      PrefixTotalBound(prefix[1..], all[1..], entries, chunkSize);
    }
  }

  lemma RoomIsShortestPrefix(st: Store, id: SegmentId, growth: int) returns (victims: seq<SegmentId>)
    requires Inv(st) && id in st.entries
    ensures ShortestPrefix(st, victims, Evictables(st.order, st.entries, Some(id)), growth)
    ensures RoomFor(st, id, growth) == RemoveAll(st, victims)
    ensures RoomFor(st, id, growth).bytes == st.bytes - TotalBytes(victims, st.entries)
  {
    if growth > 0 && st.bytes + growth > st.maxBytes {
      victims := EvictLoopIsShortestPrefix(st, st.order, growth, Some(id));
    } else {
      victims := [];
    }
  }

  /** Rejection is exact: an open entry's layer is refused if and only if it grows the store and the growth
      does not fit beside the bytes of all pinned or incomplete entries. */
  lemma RejectionIsExact(st: Store, id: SegmentId, layer: int, t: Tensor)
    requires Inv(st) && id in st.entries && InRange(st.entries[id], layer)
    requires !st.entries[id].committed && !st.entries[id].failed
    ensures var growth := t.bytes - PreviousBytes(st.entries[id], layer);
            PutLayerHost(st, id, layer, t).1 == Ok(None)
            <==> growth > 0 && growth + FixedBytes(st.order, st.entries) > st.maxBytes
  {
    hide InvHolding, PutLayerHost, RoomFor, ShortestPrefix, Evictables, TotalBytes, FixedBytes;
    var growth := t.bytes - PreviousBytes(st.entries[id], layer);
    var all := Evictables(st.order, st.entries, Some(id));
    var victims := RoomIsShortestPrefix(st, id, growth);
    RefusedWithoutRoom(st, id, layer, t);
    PrefixRoom(st, victims, all, growth);
    StoreTotals(st, id, victims, all);
  }

  lemma RefusedWithoutRoom(st: Store, id: SegmentId, layer: int, t: Tensor)
    requires Inv(st) && id in st.entries && InRange(st.entries[id], layer)
    requires !st.entries[id].committed && !st.entries[id].failed
    ensures var growth := t.bytes - PreviousBytes(st.entries[id], layer);
            PutLayerHost(st, id, layer, t).1 == Ok(None) <==> RoomFor(st, id, growth).bytes + growth > st.maxBytes
  {
    hide InvHolding, RoomFor, DropIfIdle, WithEntry, Touch, Accept, Accepted;
  }

  /** The byte counter is what must stay plus what may go. */
  lemma StoreTotals(st: Store, id: SegmentId, victims: seq<SegmentId>, all: seq<SegmentId>)
    requires Inv(st) && id in st.entries && !st.entries[id].committed
    requires all == Evictables(st.order, st.entries, Some(id))
    requires victims <= all
    ensures st.bytes == FixedBytes(st.order, st.entries) + TotalBytes(all, st.entries) <= st.maxBytes
    ensures 0 <= TotalBytes(victims, st.entries) <= TotalBytes(all, st.entries)
  {
    hide TotalBytes, FixedBytes, Evictables, Recency, PinsOk, RegistryOk, EntryOk;
    forall x | x in st.order ensures x in st.entries && st.entries[x].pinCount >= 0 {
      EntryFacts(st, x);
    }
    PrefixTotalBound(victims, all, st.entries, st.chunkSize);
    TotalNonNegative(victims, st.entries, st.chunkSize);
    TotalSplitsFixed(st.order, st.entries, id);
  }

  /** The shortest prefix is all of the evictable entries when even they do not make room. */
  lemma PrefixRoom(st: Store, victims: seq<SegmentId>, all: seq<SegmentId>, growth: int)
    requires ShortestPrefix(st, victims, all, growth)
    ensures victims <= all
    ensures st.bytes - TotalBytes(victims, st.entries) + growth > st.maxBytes ==> victims == all
  {
    hide TotalBytes;
  }

  /** An accepted layer evicts exactly the shortest least-recently-used prefix of the evictable entries that
      makes room; the others keep their relative order until the final touch. */
  lemma EvictionIsMinimal(st: Store, id: SegmentId, layer: int, t: Tensor) returns (victims: seq<SegmentId>)
    requires Inv(st) && id in st.entries && InRange(st.entries[id], layer)
    requires !st.entries[id].committed && !st.entries[id].failed
    requires PutLayerHost(st, id, layer, t).1 != Ok(None)
    ensures ShortestPrefix(st, victims, Evictables(st.order, st.entries, Some(id)),
                           t.bytes - PreviousBytes(st.entries[id], layer))
    ensures RoomFor(st, id, t.bytes - PreviousBytes(st.entries[id], layer)) == RemoveAll(st, victims)
    ensures PutLayerHost(st, id, layer, t).0
            == Touch(Accept(RoomFor(st, id, t.bytes - PreviousBytes(st.entries[id], layer)), id, layer, t), id)
    ensures PutLayerHost(st, id, layer, t).0.order == Filter(st.order, victims + [id]) + [id]
  {
    victims := RoomIsShortestPrefix(st, id, t.bytes - PreviousBytes(st.entries[id], layer));
    var room := RoomFor(st, id, t.bytes - PreviousBytes(st.entries[id], layer));
    RemoveAllOrder(st, victims);
    FilterDrop(st.order, victims, id);
    assert PutOpen(st, id, layer, t).0 == Touch(Accept(room, id, layer, t), id);
  }

  /** A refused layer has already cost every evictable entry. */
  lemma RefusalEvictsEverything(st: Store, id: SegmentId, layer: int, t: Tensor)
    requires Inv(st) && id in st.entries && InRange(st.entries[id], layer)
    requires !st.entries[id].committed && !st.entries[id].failed
    requires PutLayerHost(st, id, layer, t).1 == Ok(None)
    ensures forall x :: x in PutLayerHost(st, id, layer, t).0.entries ==> !CanEvict(st.entries, x, Some(id))
  {
    hide Evictables, RemoveAll, RoomFor, PutLayerHost, InvHolding, Inv;
    var growth := t.bytes - PreviousBytes(st.entries[id], layer);
    var all := Evictables(st.order, st.entries, Some(id));
    var victims := RoomIsShortestPrefix(st, id, growth);
    RefusedWithoutRoom(st, id, layer, t);
    PrefixRoom(st, victims, all, growth);
    EvictablesElements(st.order, st.entries, Some(id));
    OrderListsEntries(st);
    RemoveAllGone(st, victims);
    RefusalKeepsEntries(st, id, layer, t);
  }

  lemma OrderListsEntries(st: Store)
    requires Inv(st)
    ensures Unique(st.order) && forall x :: x in st.order <==> x in st.entries
  {
    hide EntriesOk, TotalBytes, Recency, PinsOk, RegistryOk;
  }

  /** A refusal touches no entry but its own once room has been made. */
  lemma RefusalKeepsEntries(st: Store, id: SegmentId, layer: int, t: Tensor)
    requires Inv(st) && id in st.entries && InRange(st.entries[id], layer)
    requires !st.entries[id].committed && !st.entries[id].failed
    requires PutLayerHost(st, id, layer, t).1 == Ok(None)
    ensures forall x :: x in PutLayerHost(st, id, layer, t).0.entries ==>
              x == id || x in RoomFor(st, id, t.bytes - PreviousBytes(st.entries[id], layer)).entries
  {
    hide InvHolding, RoomFor;
  }

  function Filter(order: seq<SegmentId>, gone: seq<SegmentId>): seq<SegmentId> {
    if order == [] then []
    else if order[0] in gone then Filter(order[1..], gone)
    else [order[0]] + Filter(order[1..], gone)
  }

  lemma {:induction false} FilterDrop(order: seq<SegmentId>, gone: seq<SegmentId>, id: SegmentId)
    ensures Drop(Filter(order, gone), id) == Filter(order, gone + [id])
    ensures Filter(Drop(order, id), gone) == Filter(order, gone + [id])
  {
    if order != [] {
      FilterDrop(order[1..], gone, id);
      var f, d := Filter(order[1..], gone), Drop(order[1..], id);
      assert ([order[0]] + f)[1..] == f && ([order[0]] + d)[1..] == d;
    }
  }

  lemma {:induction false} FilterNone(order: seq<SegmentId>)
    ensures Filter(order, []) == order
  {
    if order != [] {
      FilterNone(order[1..]);
    }
  }

  lemma {:induction false} FilterSwap(order: seq<SegmentId>, id: SegmentId, gone: seq<SegmentId>)
    ensures Filter(order, gone + [id]) == Filter(order, [id] + gone)
  {
    if order != [] {
      FilterSwap(order[1..], id, gone);
    }
  }

  lemma {:induction false} RemoveAllOrder(st: Store, ids: seq<SegmentId>)
    requires OrderOk(st.order, st.entries)
    ensures RemoveAll(st, ids).order == Filter(st.order, ids)
    decreases |ids|
  {
    if ids == [] {
      FilterNone(st.order);
    } else {
      assert ids == [ids[0]] + ids[1..];
      FilterDrop(st.order, ids[1..], ids[0]);
      FilterSwap(st.order, ids[0], ids[1..]);
      DropElements(st.order, ids[0]);
      DropUnique(st.order, ids[0]);
      if ids[0] in st.entries {
        RemoveAllOrder(Remove(st, ids[0]), ids[1..]);
      } else {
        DropAbsent(st.order, ids[0]);
        RemoveAllOrder(st, ids[1..]);
      }
    }
  }

  lemma {:induction false} RemoveAllGone(st: Store, ids: seq<SegmentId>)
    ensures RemoveAll(st, ids).entries.Keys == st.entries.Keys - (set id | id in ids)
    decreases |ids|
  {
    if ids != [] {
      assert ids == [ids[0]] + ids[1..];
      RemoveAllGone(if ids[0] in st.entries then Remove(st, ids[0]) else st, ids[1..]);
    }
  }

  // ---------------------------------------------------------------- pinned data across runs

  /** Operations that can end a request's pins. */
  predicate Disturbs(op: Op, request: RequestId) {
    match op
    case OpPin(r, _) => r == request
    case OpRelease(r) => r == request
    case OpClear => true
    case _ => false
  }

  lemma PinsUndisturbed(st: Store, op: Op, request: RequestId)
    requires Inv(st) && !Disturbs(op, request)
    ensures PinsOf(Apply(st, op), request) == PinsOf(st, request)
  {
    hide InvHolding;
    match op
    case OpPutLayerHost(id, layer, t) => PutFrame(st, id, layer, t);
    case OpValidate(segments) => ValidateFrame(st, segments);
    case OpPin(r, segments) =>
      ReleaseKeeps(st, r);
      PinLoopFrame(Release(st, r), segments);
    case OpRelease(r) => ReleaseKeeps(st, r);
    case _ =>
  }

  /** Until the request is released, re-pinned or the store cleared, reading any layer of a pinned segment
      gives the same tensor (or the same error), whatever else happens to the store. */
  lemma {:induction false} PinnedReadsAreStable(st: Store, ops: seq<Op>, request: RequestId, segment: BlendSegment,
                                                layer: int)
    requires Inv(st) && segment.segmentId in PinsOf(st, request)
    requires forall i :: 0 <= i < |ops| ==> !Disturbs(ops[i], request)
    ensures var after := Run(st, ops);
            && PinsOf(after, request) == PinsOf(st, request)
            && IsCommitted(after, segment.segmentId)
            && GetLayer(after, request, segment, layer).1 == GetLayer(st, request, segment, layer).1
    decreases |ops|
  {
    PinnedIsCounted(st, request, segment.segmentId);
    if ops != [] {
      var next := Apply(st, ops[0]);
      ApplyKeeps(st, ops[0]);
      PinsUndisturbed(st, ops[0], request);
      EntryEvolves(st, ops[0], segment.segmentId);
      PinnedReadsAreStable(next, ops[1..], request, segment, layer);
    }
  }

  /** Every layer of a pinned segment can be read. */
  lemma PinnedLayersReadable(st: Store, request: RequestId, segment: BlendSegment, layer: int)
    requires Inv(st) && segment.segmentId in PinsOf(st, request)
    ensures IsCommitted(st, segment.segmentId)
    ensures GetLayer(st, request, segment, layer).1.Ok? <==> InRange(st.entries[segment.segmentId], layer)
  {
    PinnedIsCounted(st, request, segment.segmentId);
    CommittedEntryIsComplete(st.chunkSize, segment.segmentId, st.entries[segment.segmentId]);
    assert layer in Interval(0, st.entries[segment.segmentId].numLayers) <==>
      InRange(st.entries[segment.segmentId], layer);
  }
}
