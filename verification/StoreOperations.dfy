/** The store invariant along every operation and every run, and what the runs keep. */
module StoreOperations {
  import opened Wrappers
  import opened Hashing
  import opened Types
  import opened Matching
  import opened StoreModel
  import opened StoreInvariants

  // ---------------------------------------------------------------- eviction

  lemma {:induction false} EvictLoopKeeps(st: Store, held: multiset<SegmentId>, queue: seq<SegmentId>, required: int,
                                          exclude: Option<SegmentId>)
    requires InvHolding(st, held)
    ensures InvHolding(EvictLoop(st, queue, required, exclude), held)
    decreases |queue|
  {
    hide InvHolding;
    if queue != [] && st.bytes + required > st.maxBytes {
      if CanEvict(st.entries, queue[0], exclude) {
        RemoveKeeps(st, held, queue[0]);
        EvictLoopKeeps(Remove(st, queue[0]), held, queue[1..], required, exclude);
      } else {
        EvictLoopKeeps(st, held, queue[1..], required, exclude);
      }
    }
  }

  lemma {:induction false} EvictLoopFrame(st: Store, queue: seq<SegmentId>, required: int, exclude: Option<SegmentId>)
    ensures var r := EvictLoop(st, queue, required, exclude);
            && r.chunkSize == st.chunkSize && r.maxBytes == st.maxBytes && r.pins == st.pins && r.clock == st.clock
            && (forall id :: id in r.entries ==> id in st.entries && r.entries[id] == st.entries[id])
            && (forall id :: id in st.entries && !CanEvict(st.entries, id, exclude) ==> id in r.entries)
    decreases |queue|
  {
    if queue != [] && st.bytes + required > st.maxBytes {
      if CanEvict(st.entries, queue[0], exclude) {
        EvictLoopFrame(Remove(st, queue[0]), queue[1..], required, exclude);
      } else {
        EvictLoopFrame(st, queue[1..], required, exclude);
      }
    }
  }

  // ---------------------------------------------------------------- one operation at a time

  /** What the invariant says about one entry: it is sound, and registered once committed. */
  lemma InvEntry(st: Store, id: SegmentId)
    requires Inv(st) && id in st.entries
    ensures EntryOk(st.chunkSize, id, st.entries[id])
    ensures st.entries[id].committed ==> Registered(st.matcher, st.entries[id].record) == st.matcher
    ensures st.entries[id].pinCount >= 0
  {
    hide EntryOk, OrderOk, Recency, TotalBytes, Occurrences;
    EntryAt(st.chunkSize, st.entries, id);
    if st.entries[id].committed { RegisteredAgain(st.entries, st.matcher, id); }
  }

  lemma WithinBudget(st: Store)
    requires Inv(st)
    ensures st.bytes <= st.maxBytes && st.chunkSize > 0
  {
  }

  /** Rewriting only the reservation and failure marks of an entry. */
  lemma MarksKeep(st: Store, id: SegmentId, e: Entry)
    requires Inv(st) && id in st.entries && EntryOk(st.chunkSize, id, e)
    requires e == st.entries[id].(reserved := e.reserved, failed := e.failed)
    ensures Inv(WithEntry(st, id, e))
  {
    hide InvHolding, EntryOk;
    var was := st.entries[id];
    InvEntry(st, id);
    WithinBudget(st);
    UpdateKeeps(st, multiset{}, id, e, st.matcher);
    assert WithEntry(st, id, e).(bytes := st.bytes + e.sizeBytes - was.sizeBytes, matcher := st.matcher)
      == WithEntry(st, id, e);
  }

  lemma RemoveForgetsMarks(st: Store, id: SegmentId, e: Entry)
    requires id in st.entries && e.sizeBytes == st.entries[id].sizeBytes
    ensures Remove(WithEntry(st, id, e), id) == Remove(st, id)
  {
    assert st.entries[id := e] - {id} == st.entries - {id};
  }

  /** Leaving the entry in place needs a sound entry; an idle failed one is removed instead. */
  lemma DropIfIdleKeeps(st: Store, id: SegmentId, e: Entry)
    requires Inv(st) && id in st.entries
    requires var was := st.entries[id];
             && e == was.(reserved := e.reserved, failed := e.failed)
             && e.reserved <= was.reserved && (e.failed ==> !was.committed) && (was.failed ==> e.failed)
    ensures Inv(DropIfIdle(WithEntry(st, id, e), id))
  {
    hide InvHolding;
    var was := st.entries[id];
    InvEntry(st, id);
    if e.failed && e.reserved == {} {
      RemoveForgetsMarks(st, id, e);
      RemoveKeeps(st, multiset{}, id);
    } else {
      MarksKeep(st, id, e);
    }
  }

  lemma BeginPutKeeps(st: Store, scope: string, sourceStart: int, tokens: seq<Token>, numLayers: int)
    requires Inv(st)
    ensures Inv(BeginPut(st, scope, sourceStart, tokens, numLayers).0)
  {
    hide InvHolding, HashOf;
    WithinBudget(st);
    if numLayers > 0 && |tokens| == st.chunkSize && scope != "" && sourceStart >= 0 {
      var record := RecordOf(scope, sourceStart, tokens);
      var id := record.segmentId;
      if id in st.entries {
        TouchKeeps(st, multiset{}, id);
      } else {
        var e := Entry(record, numLayers, map[], {}, 0, 0, false, false, st.clock);
        NoLayersNoBytes(numLayers);
        assert record.Made(st.chunkSize);
        InsertKeeps(st, multiset{}, id, e);
      }
    }
  }

  lemma {:induction false} NoLayersNoBytes(n: nat)
    ensures LayerBytes(map[], n) == 0
  {
    if n > 0 {
      NoLayersNoBytes(n - 1);
    }
  }

  lemma ReserveLayerKeeps(st: Store, id: SegmentId, layer: int)
    requires Inv(st)
    ensures Inv(ReserveLayer(st, id, layer).0)
  {
    hide InvHolding;
    if id in st.entries {
      var e := st.entries[id];
      InvEntry(st, id);
      if InRange(e, layer) && !e.failed && layer !in e.layers && layer !in e.reserved {
        MarksKeep(st, id, e.(reserved := e.reserved + {layer}));
      }
    }
  }

  lemma CancelLayerKeeps(st: Store, id: SegmentId, layer: int)
    requires Inv(st)
    ensures Inv(CancelLayer(st, id, layer))
  {
    hide InvHolding;
    if id in st.entries {
      var e := st.entries[id];
      InvEntry(st, id);
      DropIfIdleKeeps(st, id, e.(reserved := e.reserved - {layer}, failed := e.failed || !e.committed));
    }
  }

  lemma AbortPutKeeps(st: Store, id: SegmentId)
    requires Inv(st)
    ensures Inv(AbortPut(st, id))
  {
    hide InvHolding;
    if id in st.entries && !st.entries[id].committed {
      DropIfIdleKeeps(st, id, st.entries[id].(failed := true));
    }
  }

  lemma AcceptedIsOk(chunkSize: nat, id: SegmentId, e: Entry, layer: int, t: Tensor)
    requires EntryOk(chunkSize, id, e) && !e.committed && !e.failed && InRange(e, layer)
    ensures EntryOk(chunkSize, id, Accepted(e, layer, t))
  {
    LayerBytesUpdate(e.layers, e.numLayers, layer, t);
  }

  lemma AcceptKeeps(st: Store, id: SegmentId, layer: int, t: Tensor)
    requires Inv(st) && id in st.entries
    requires var e := st.entries[id];
             !e.committed && !e.failed && InRange(e, layer)
               && st.bytes + t.bytes - PreviousBytes(e, layer) <= st.maxBytes
    ensures Inv(Accept(st, id, layer, t))
  {
    hide InvHolding, EntryOk;
    var e := st.entries[id];
    InvEntry(st, id);
    AcceptedIsOk(st.chunkSize, id, e, layer, t);
    var e' := Accepted(e, layer, t);
    var matcher := if e'.committed then Registered(st.matcher, e.record) else st.matcher;
    UpdateKeeps(st, multiset{}, id, e', matcher);
    assert st.bytes + e'.sizeBytes - e.sizeBytes == st.bytes - PreviousBytes(e, layer) + t.bytes;
  }

  lemma RoomForKeeps(st: Store, id: SegmentId, growth: int)
    requires Inv(st) && id in st.entries
    ensures Inv(RoomFor(st, id, growth)) && id in RoomFor(st, id, growth).entries
    ensures RoomFor(st, id, growth).entries[id] == st.entries[id] && RoomFor(st, id, growth).maxBytes == st.maxBytes
  {
    EvictLoopKeeps(st, multiset{}, st.order, growth, Some(id));
    EvictLoopFrame(st, st.order, growth, Some(id));
  }

  lemma PutOpenKeeps(st: Store, id: SegmentId, layer: int, t: Tensor)
    requires Inv(st) && id in st.entries
    requires InRange(st.entries[id], layer) && !st.entries[id].committed && !st.entries[id].failed
    ensures Inv(PutOpen(st, id, layer, t).0)
  {
    hide InvHolding;
    var e := st.entries[id];
    var growth := t.bytes - PreviousBytes(e, layer);
    var room := RoomFor(st, id, growth);
    RoomForKeeps(st, id, growth);
    if room.bytes + growth > st.maxBytes {
      DropIfIdleKeeps(room, id, e.(reserved := e.reserved - {layer}, failed := true));
    } else {
      AcceptKeeps(room, id, layer, t);
      TouchKeeps(Accept(room, id, layer, t), multiset{}, id);
    }
  }

  lemma PutLayerHostKeeps(st: Store, id: SegmentId, layer: int, t: Tensor)
    requires Inv(st)
    ensures Inv(PutLayerHost(st, id, layer, t).0)
  {
    hide InvHolding;
    if id in st.entries && InRange(st.entries[id], layer) {
      var e := st.entries[id];
      var cleared := e.(reserved := e.reserved - {layer});
      if e.failed || e.committed {
        MarksShrink(st, id, cleared);
        DropIfIdleKeeps(st, id, cleared);
      } else {
        PutOpenKeeps(st, id, layer, t);
      }
    }
  }

  /** Committed entries are never failed, so clearing a reservation never removes one. */
  lemma MarksShrink(st: Store, id: SegmentId, e: Entry)
    requires Inv(st) && id in st.entries
    requires e == st.entries[id].(reserved := e.reserved)
    ensures e.failed ==> !e.committed
    ensures e.committed ==> DropIfIdle(WithEntry(st, id, e), id) == WithEntry(st, id, e)
  {
    hide InvHolding;
    InvEntry(st, id);
  }

  lemma {:induction false} ValidateKeeps(st: Store, segments: seq<BlendSegment>)
    requires Inv(st)
    ensures Inv(Validate(st, segments).0)
    decreases |segments|
  {
    hide InvHolding;
    if segments != [] {
      var id := segments[0].segmentId;
      if IsCommitted(st, id) {
        TouchKeeps(st, multiset{}, id);
        ValidateKeeps(Touch(st, id), segments[1..]);
      } else {
        ValidateKeeps(st, segments[1..]);
      }
    }
  }

  /** A pin count is at least the occurrences in hand, and a counted entry is committed. */
  lemma HeldCounts(st: Store, held: multiset<SegmentId>, id: SegmentId)
    requires InvHolding(st, held)
    ensures id in st.entries ==> st.entries[id].pinCount >= held[id]
    ensures held[id] > 0 ==> IsCommitted(st, id)
  {
    assert (Occurrences(st.pins) + held)[id] >= held[id];
    if id in st.entries { assert EntryOk(st.chunkSize, id, st.entries[id]); }
  }

  lemma PinOneKeeps(st: Store, held: multiset<SegmentId>, id: SegmentId)
    requires InvHolding(st, held) && IsCommitted(st, id)
    ensures InvHolding(PinOne(st, id), held + multiset{id})
  {
    hide InvHolding;
    HeldCounts(st, held, id);
    PinCountKeeps(st, held, id, st.entries[id].pinCount + 1, held + multiset{id});
    TouchKeeps(WithEntry(st, id, st.entries[id].(pinCount := st.entries[id].pinCount + 1)), held + multiset{id}, id);
  }

  lemma {:induction false} PinLoopKeeps(st: Store, held: multiset<SegmentId>, segments: seq<BlendSegment>)
    requires InvHolding(st, held)
    ensures InvHolding(PinLoop(st, segments).0, held + multiset(SegmentIds(PinLoop(st, segments).1)))
    decreases |segments|
  {
    if segments == [] {
      assert held + multiset(SegmentIds([])) == held;
    } else {
      var id := segments[0].segmentId;
      if IsCommitted(st, id) {
        PinOneKeeps(st, held, id);
        PinLoopKeeps(PinOne(st, id), held + multiset{id}, segments[1..]);
        HeldGrows(held, segments[0], PinLoop(PinOne(st, id), segments[1..]).1);
      } else {
        PinLoopKeeps(st, held, segments[1..]);
      }
    }
  }

  lemma HeldGrows(held: multiset<SegmentId>, s: BlendSegment, rest: seq<BlendSegment>)
    ensures held + multiset{s.segmentId} + multiset(SegmentIds(rest)) == held + multiset(SegmentIds([s] + rest))
  {
    assert ([s] + rest)[1..] == rest;
    assert SegmentIds([s] + rest) == [s.segmentId] + SegmentIds(rest);
  }

  /** All pin counts lowered by the given occurrences. */
  function Lowered(entries: Entries, by_: multiset<SegmentId>): Entries {
    map id | id in entries :: entries[id].(pinCount := entries[id].pinCount - by_[id])
  }

  lemma UnpinOne(st: Store, id: SegmentId, rest: seq<SegmentId>)
    requires InvHolding(st, multiset([id] + rest))
    ensures id in st.entries && st.entries[id].pinCount >= 1
    ensures InvHolding(st.(entries := Unpin(st.entries, id)), multiset(rest))
  {
    hide InvHolding;
    assert multiset([id] + rest) == multiset{id} + multiset(rest);
    HeldCounts(st, multiset([id] + rest), id);
    PinCountKeeps(st, multiset([id] + rest), id, st.entries[id].pinCount - 1, multiset(rest));
    assert st.(entries := Unpin(st.entries, id))
      == WithEntry(st, id, st.entries[id].(pinCount := st.entries[id].pinCount - 1));
  }

  lemma LoweredStep(entries: Entries, id: SegmentId, rest: seq<SegmentId>)
    requires id in entries && entries[id].pinCount >= 1
    ensures Lowered(Unpin(entries, id), multiset(rest)) == Lowered(entries, multiset([id] + rest))
  {
    assert multiset([id] + rest) == multiset{id} + multiset(rest);
  }

  /** Every decrement is matched by an occurrence in hand, so the clamp at zero never takes effect. */
  lemma {:induction false} UnpinAllKeeps(st: Store, ids: seq<SegmentId>)
    requires InvHolding(st, multiset(ids))
    ensures Inv(st.(entries := UnpinAll(st.entries, ids)))
    ensures UnpinAll(st.entries, ids) == Lowered(st.entries, multiset(ids))
    decreases |ids|
  {
    hide InvHolding;
    if ids == [] {
      assert Lowered(st.entries, multiset(ids)) == st.entries;
      assert st.(entries := UnpinAll(st.entries, ids)) == st && multiset(ids) == multiset{};
    } else {
      assert ids == [ids[0]] + ids[1..];
      UnpinOne(st, ids[0], ids[1..]);
      UnpinAllKeeps(st.(entries := Unpin(st.entries, ids[0])), ids[1..]);
      LoweredStep(st.entries, ids[0], ids[1..]);
    }
  }

  lemma ReleaseInHand(st: Store, request: RequestId)
    requires Inv(st)
    ensures InvHolding(st.(pins := st.pins - {request}), multiset(PinsOf(st, request)))
  {
    if request in st.pins {
      OccurrencesSplit(st.pins, request);
      assert Occurrences(st.pins) + multiset{} == Occurrences(st.pins - {request}) + multiset(st.pins[request]);
    } else {
      assert st.pins - {request} == st.pins;
    }
  }

  /** Releasing lowers each pin count by exactly the request's occurrences, never below zero,
      and its trailing eviction removes nothing. */
  lemma ReleaseKeeps(st: Store, request: RequestId)
    requires Inv(st)
    ensures Inv(Release(st, request))
    ensures Release(st, request) == st.(pins := st.pins - {request},
                                        entries := Lowered(st.entries, multiset(PinsOf(st, request))))
    ensures forall id :: id in st.entries ==> st.entries[id].pinCount >= multiset(PinsOf(st, request))[id]
  {
    ReleaseInHand(st, request);
    UnpinAllKeeps(st.(pins := st.pins - {request}), PinsOf(st, request));
  }

  lemma PinKeeps(st: Store, request: RequestId, segments: seq<BlendSegment>)
    requires Inv(st)
    ensures Inv(Pin(st, request, segments).0)
  {
    ReleaseKeeps(st, request);
    var released := Release(st, request);
    PinLoopKeeps(released, multiset{}, segments);
    PinLoopFrame(released, segments);
    var (st', valid) := PinLoop(released, segments);
    if valid != [] {
      RecordPins(st', request, SegmentIds(valid));
    } else {
      assert multiset{} + multiset(SegmentIds([])) == multiset{};
    }
  }

  /** Handing the occurrences of a finished loop over to the request table. */
  lemma RecordPins(st: Store, request: RequestId, ids: seq<SegmentId>)
    requires InvHolding(st, multiset{} + multiset(ids)) && request !in st.pins && ids != []
    ensures Inv(st.(pins := st.pins[request := ids]))
  {
    OccurrencesSet(st.pins, request, ids);
    assert Occurrences(st.pins[request := ids]) + multiset{} == Occurrences(st.pins) + (multiset{} + multiset(ids));
  }

  lemma {:induction false} PinLoopFrame(st: Store, segments: seq<BlendSegment>)
    ensures var (st', valid) := PinLoop(st, segments);
            && st'.pins == st.pins && st'.entries.Keys == st.entries.Keys
            && (forall id :: id in st.entries ==>
                 st'.entries[id] == st.entries[id].(pinCount := st'.entries[id].pinCount,
                                                    lastAccess := st'.entries[id].lastAccess))
    decreases |segments|
  {
    if segments != [] {
      var id := segments[0].segmentId;
      if IsCommitted(st, id) {
        PinLoopFrame(PinOne(st, id), segments[1..]);
      } else {
        PinLoopFrame(st, segments[1..]);
      }
    }
  }

  lemma GetLayerKeeps(st: Store, request: RequestId, segment: BlendSegment, layer: int)
    requires Inv(st)
    ensures Inv(GetLayer(st, request, segment, layer).0)
  {
    if GetLayer(st, request, segment, layer).1.Ok? {
      TouchKeeps(st, multiset{}, segment.segmentId);
    }
  }

  lemma ClearKeeps(st: Store)
    requires Inv(st)
    ensures Inv(Clear(st))
  {
  }

  lemma TickKeeps(st: Store, elapsed: nat)
    requires Inv(st)
    ensures Inv(Tick(st, elapsed))
  {
    hide EntriesOk, OrderOk, PinsOk, RegistryOk, TotalBytes, Recency;
    RecencyLater(st.order, st.entries, st.clock, st.clock + elapsed);
  }

  lemma ApplyKeeps(st: Store, op: Op)
    requires Inv(st)
    ensures Inv(Apply(st, op))
  {
    hide Inv, BeginPut, ReserveLayer, CancelLayer, PutLayerHost, AbortPut, Validate, Pin, Release, GetLayer, Clear,
      Tick;
    match op
    case OpBeginPut(scope, sourceStart, tokens, numLayers) => BeginPutKeeps(st, scope, sourceStart, tokens, numLayers);
    case OpReserveLayer(id, layer) => ReserveLayerKeeps(st, id, layer);
    case OpCancelLayer(id, layer) => CancelLayerKeeps(st, id, layer);
    case OpPutLayerHost(id, layer, tensor) => PutLayerHostKeeps(st, id, layer, tensor);
    case OpAbortPut(id) => AbortPutKeeps(st, id);
    case OpValidate(segments) => ValidateKeeps(st, segments);
    case OpPin(request, segments) => PinKeeps(st, request, segments);
    case OpRelease(request) => ReleaseKeeps(st, request);
    case OpGetLayer(request, segment, layer) => GetLayerKeeps(st, request, segment, layer);
    case OpClear => ClearKeeps(st);
    case OpTick(elapsed) => TickKeeps(st, elapsed);
  }

  lemma {:induction false} RunKeeps(st: Store, ops: seq<Op>)
    requires Inv(st)
    ensures Inv(Run(st, ops))
    decreases |ops|
  {
    if ops != [] {
      ApplyKeeps(st, ops[0]);
      RunKeeps(Apply(st, ops[0]), ops[1..]);
    }
  }

  lemma EmptyIsSound(chunkSize: nat, maxBytes: nat)
    requires chunkSize > 0
    ensures Inv(Empty(chunkSize, maxBytes))
  {
  }
}
