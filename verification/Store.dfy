/** The store object itself: entry records updated in place under one lock, each public method proved
    to take the abstract state exactly where the corresponding transition of StoreModel takes it. */
module StoreObject {
  import opened Wrappers
  import opened Hashing
  import opened Types
  import opened Matching
  import opened Matcher
  import opened StoreModel
  import opened StoreInvariants
  import opened StoreOperations
  import opened StoreTheorems

  class StoredEntry {
    const record: FingerprintRecord
    const numLayers: nat
    var layers: map<int, Tensor>
    var reserved: set<int>
    var sizeBytes: int
    var pinCount: int
    var committed: bool
    var failed: bool
    var lastAccess: nat

    constructor (record: FingerprintRecord, numLayers: nat, now: nat)
      ensures View() == Entry(record, numLayers, map[], {}, 0, 0, false, false, now)
      ensures this.record == record
    {
      this.record, this.numLayers, lastAccess := record, numLayers, now;
      layers, reserved, sizeBytes, pinCount, committed, failed := map[], {}, 0, 0, false, false;
    }

    function View(): Entry
      reads this
    {
      Entry(record, numLayers, layers, reserved, sizeBytes, pinCount, committed, failed, lastAccess)
    }

    method Access(now: nat)
      modifies this
      ensures View() == old(View()).(lastAccess := now)
    {
      lastAccess := now;
    }

    method SetMarks(reserved: set<int>, failed: bool)
      modifies this
      ensures View() == old(View()).(reserved := reserved, failed := failed)
    {
      this.reserved, this.failed := reserved, failed;
    }

    method SetPinCount(pinCount: int)
      modifies this
      ensures View() == old(View()).(pinCount := pinCount)
    {
      this.pinCount := pinCount;
    }

    /** Replaces or adds one layer; the caller publishes the record when this was the last one. */
    method StoreLayer(layer: int, tensor: Tensor, previousSize: nat) returns (full: bool)
      requires !committed && previousSize == PreviousBytes(View(), layer)
      modifies this
      ensures View() == Accepted(old(View()), layer, tensor)
      ensures full == View().committed
    {
      reserved := reserved - {layer};
      sizeBytes := sizeBytes - previousSize;
      layers := layers[layer := tensor];
      sizeBytes := sizeBytes + tensor.bytes;
      full := !committed && |layers| == numLayers;
      if full {
        committed := true;
      }
    }
  }

  /** Every entry object stands for its abstract value, and under its own id. */
  ghost predicate Linked(objects: map<SegmentId, StoredEntry>, values: map<SegmentId, Entry>)
    reads objects.Values
  {
    && objects.Keys == values.Keys
    && (forall id :: id in objects ==> objects[id].record.segmentId == id && objects[id].View() == values[id])
  }

  lemma LinkedWithout(objects: map<SegmentId, StoredEntry>, values: map<SegmentId, Entry>, id: SegmentId)
    requires Linked(objects, values)
    ensures Linked(objects - {id}, values - {id})
  {
    hide StoredEntry.View;
  }

  lemma LinkedWith(objects: map<SegmentId, StoredEntry>, values: map<SegmentId, Entry>, entry: StoredEntry)
    requires Linked(objects, values)
    ensures var id := entry.record.segmentId; Linked(objects[id := entry], values[id := entry.View()])
  {
    hide StoredEntry.View;
  }

  /** All entries but one stand for their values, and are other objects than that one. */
  ghost predicate LinkedBut(objects: map<SegmentId, StoredEntry>, values: map<SegmentId, Entry>, id: SegmentId)
    reads objects.Values
  {
    && objects.Keys == values.Keys && id in objects && objects[id].record.segmentId == id
    && (forall x :: x in objects && x != id ==>
          objects[x] != objects[id] && objects[x].record.segmentId == x && objects[x].View() == values[x])
  }

  lemma LinkedExcept(objects: map<SegmentId, StoredEntry>, values: map<SegmentId, Entry>, id: SegmentId)
    requires Linked(objects, values) && id in objects
    ensures LinkedBut(objects, values, id)
  {
    hide StoredEntry.View;
  }

  lemma LinkedUpdate(objects: map<SegmentId, StoredEntry>, values: map<SegmentId, Entry>, id: SegmentId)
    requires LinkedBut(objects, values, id)
    ensures Linked(objects, values[id := objects[id].View()])
  {
    hide StoredEntry.View;
  }

  class LocalPinnedCPUStore {
    const matcher: TokenRangeMatcher
    const maxBytes: nat
    var order: seq<SegmentId>
    var entries: map<SegmentId, StoredEntry>
    var bytes: int
    var requestPins: map<RequestId, seq<SegmentId>>
    var clock: nat
    ghost var model: Store

    function Footprint(): set<object>
      reads this
    {
      {this, matcher} + entries.Values
    }

    /** The concrete fields are those of the abstract state; an entry's own id keeps entry objects apart. */
    ghost predicate Shape()
      reads Footprint()
    {
      && matcher.Valid() && matcher.chunkSize == model.chunkSize && matcher.log == model.matcher
      && maxBytes == model.maxBytes && order == model.order && bytes == model.bytes
      && requestPins == model.pins && clock == model.clock
      && Linked(entries, model.entries)
    }

    ghost predicate Valid()
      reads Footprint()
    {
      Shape() && Inv(model)
    }

    constructor (chunkSize: nat, limit: nat)
      requires chunkSize > 0
      ensures Valid() && fresh(Footprint())
      ensures model == Empty(chunkSize, limit)
    {
      matcher := new TokenRangeMatcher(chunkSize);
      maxBytes, order, entries, bytes, requestPins, clock := limit, [], map[], 0, map[], 0;
      model := Empty(chunkSize, limit);
    }

    /** The fields of a stored entry are those of its abstract value. */
    lemma Look(id: SegmentId)
      requires Shape() && id in entries
      ensures id in model.entries
      ensures var e, entry := model.entries[id], entries[id];
              && e == entry.View() && e.record == entry.record && e.numLayers == entry.numLayers
              && e.layers == entry.layers && e.reserved == entry.reserved && e.sizeBytes == entry.sizeBytes
              && e.pinCount == entry.pinCount && e.committed == entry.committed && e.failed == entry.failed
    {
    }

    // -------------------------------------------------------------- helpers under the lock

    method Touch(id: SegmentId)
      requires Shape() && id in entries
      modifies this`order, this`model, entries[id]
      ensures Shape() && model == StoreModel.Touch(old(model), id)
    {
      hide TokenRangeMatcher.Valid, StoredEntry.View, Linked;
      Look(id);
      LinkedExcept(entries, model.entries, id);
      entries[id].Access(clock);
      LinkedUpdate(entries, model.entries, id);
      order := MoveToEnd(order, id);
      model := StoreModel.Touch(model, id);
    }

    method Remove(id: SegmentId)
      requires Shape() && id in entries
      modifies this`order, this`entries, this`bytes, this`model, matcher
      ensures Shape()
      ensures entries == old(entries) - {id}
      ensures model == StoreModel.Remove(old(model), id)
    {
      hide TokenRangeMatcher.Valid, StoredEntry.View, Drop, Without, Linked;
      Look(id);
      LinkedWithout(entries, model.entries, id);
      bytes := bytes - entries[id].sizeBytes;
      matcher.Unregister(id);
      order := Drop(order, id);
      entries := entries - {id};
      model := StoreModel.Remove(model, id);
    }

    method DropIfIdle(id: SegmentId)
      requires Shape() && id in entries
      modifies this`order, this`entries, this`bytes, this`model, matcher
      ensures Shape()
      ensures forall id :: id in entries ==> id in old(entries) && entries[id] == old(entries)[id]
      ensures model == StoreModel.DropIfIdle(old(model), id)
    {
      hide TokenRangeMatcher.Valid, StoredEntry.View;
      Look(id);
      var entry := entries[id];
      if entry.failed && entry.reserved == {} && entry.pinCount == 0 {
        Remove(id);
      }
    }

    /** Rewrites the reservation and failure marks of one entry. */
    method Mark(id: SegmentId, reserved: set<int>, failed: bool)
      requires Shape() && id in entries
      modifies this`model, entries[id]
      ensures Shape()
      ensures model == WithEntry(old(model), id, old(model).entries[id].(reserved := reserved, failed := failed))
    {
      hide TokenRangeMatcher.Valid, StoredEntry.View, Linked;
      Look(id);
      LinkedExcept(entries, model.entries, id);
      entries[id].SetMarks(reserved, failed);
      LinkedUpdate(entries, model.entries, id);
      model := WithEntry(model, id, model.entries[id].(reserved := reserved, failed := failed));
    }

    method CountPins(id: SegmentId, pinCount: int)
      requires Shape() && id in entries
      modifies this`model, entries[id]
      ensures Shape()
      ensures model == WithEntry(old(model), id, old(model).entries[id].(pinCount := pinCount))
    {
      hide TokenRangeMatcher.Valid, StoredEntry.View, Linked;
      Look(id);
      LinkedExcept(entries, model.entries, id);
      entries[id].SetPinCount(pinCount);
      LinkedUpdate(entries, model.entries, id);
      model := WithEntry(model, id, model.entries[id].(pinCount := pinCount));
    }

    /** One candidate of the eviction loop. */
    method EvictIfFree(id: SegmentId, exclude: Option<SegmentId>)
      requires Valid() && id in entries
      modifies this`order, this`entries, this`bytes, this`model, matcher
      ensures Valid()
      ensures entries == old(entries) || entries == old(entries) - {id}
      ensures model == if CanEvict(old(model).entries, id, exclude) then StoreModel.Remove(old(model), id)
          else old(model)
    {
      hide TokenRangeMatcher.Valid, StoredEntry.View, InvHolding;
      Look(id);
      var entry := entries[id];
      if exclude != Some(id) && entry.pinCount == 0 && entry.committed {
        RemoveKeeps(model, multiset{}, id);
        Remove(id);
      }
    }

    lemma OrderIsOfEntries()
      requires Valid()
      ensures Unique(order) && forall id :: id in order <==> id in entries
    {
      hide TokenRangeMatcher.Valid, StoredEntry.View;
      OrderListsEntries(model);
    }

    method Evict(required: int, exclude: Option<SegmentId>)
      requires Valid()
      modifies this`order, this`entries, this`bytes, this`model, matcher
      ensures Valid()
      ensures forall id :: id in entries ==> id in old(entries) && entries[id] == old(entries)[id]
      ensures model == StoreModel.Evict(old(model), required, exclude)
    {
      hide TokenRangeMatcher.Valid, StoredEntry.View, InvHolding, EvictLoop, StoreModel.Remove, CanEvict, Unique,
        Linked;
      if bytes + required <= maxBytes {
        return;
      }
      OrderIsOfEntries();
      var items := order;
      ghost var goal := EvictLoop(model, items, required, exclude);
      var i := 0;
      assert items[0..] == items;
      while i < |items| && bytes + required > maxBytes
        invariant 0 <= i <= |items|
        invariant Valid()
        invariant forall id :: id in entries ==> id in old(entries) && entries[id] == old(entries)[id]
        invariant Unique(items[i..]) && (forall id :: id in items[i..] ==> id in entries)
        invariant EvictLoop(model, items[i..], required, exclude) == goal
      {
        EvictLoopStep(model, items, i, required, exclude);
        EvictIfFree(items[i], exclude);
        i := i + 1;
      }
      EvictLoopDone(model, items[i..], required, exclude);
    }

    // -------------------------------------------------------------- publishing

    method BeginPut(modelScope: string, sourceStart: int, tokens: seq<Token>, numLayers: int)
      returns (r: Result<SegmentId, StoreError>)
      requires Valid()
      modifies Footprint()
      ensures Valid() && fresh(Footprint() - old(Footprint()))
      ensures (model, r) == StoreModel.BeginPut(old(model), modelScope, sourceStart, tokens, numLayers)
    {
      hide StoredEntry.View, InvHolding;
      BeginPutKeeps(model, modelScope, sourceStart, tokens, numLayers);
      if numLayers <= 0 {
        return Raise(BadLayerCount);
      }
      var made := matcher.MakeRecord(modelScope, sourceStart, tokens);
      if made.Raise? {
        return Raise(BadRecord);
      }
      var record := made.value;
      var id := record.segmentId;
      assert record == RecordOf(modelScope, sourceStart, tokens);
      if id in entries {
        Look(id);
        var existing := entries[id];
        if existing.record.tokens != tokens {
          return Raise(HashCollides);
        }
        if existing.numLayers != numLayers {
          return Raise(LayerCountChanged);
        }
        Touch(id);
        return Ok(id);
      }
      Insert(record, numLayers);
      return Ok(id);
    }

    method Insert(record: FingerprintRecord, numLayers: nat)
      requires Shape() && record.segmentId !in entries
      modifies this`entries, this`order, this`model
      ensures Shape() && fresh(Footprint() - old(Footprint()))
      ensures var e := Entry(record, numLayers, map[], {}, 0, 0, false, false, old(model).clock);
              model == old(model).(entries := old(model).entries[record.segmentId := e],
                                   order := old(model).order + [record.segmentId])
    {
      hide TokenRangeMatcher.Valid, Linked;
      var entry := new StoredEntry(record, numLayers, clock);
      LinkedWith(entries, model.entries, entry);
      entries := entries[record.segmentId := entry];
      order := order + [record.segmentId];
      model := model.(entries := model.entries[record.segmentId := entry.View()], order := order);
    }

    method ReserveLayer(id: SegmentId, layer: int) returns (r: Result<bool, StoreError>)
      requires Valid()
      modifies Footprint()
      ensures Valid() && entries == old(entries)
      ensures (model, r) == StoreModel.ReserveLayer(old(model), id, layer)
    {
      hide TokenRangeMatcher.Valid, StoredEntry.View, InvHolding;
      ReserveLayerKeeps(model, id, layer);
      if id !in entries {
        return Ok(false);
      }
      Look(id);
      var entry := entries[id];
      if !(0 <= layer < entry.numLayers) {
        return Raise(LayerOutOfRange);
      }
      if entry.failed || layer in entry.layers || layer in entry.reserved {
        return Ok(false);
      }
      Mark(id, entry.reserved + {layer}, entry.failed);
      return Ok(true);
    }

    method CancelLayer(id: SegmentId, layer: int)
      requires Valid()
      modifies Footprint()
      ensures Valid()
      ensures forall id :: id in entries ==> id in old(entries) && entries[id] == old(entries)[id]
      ensures model == StoreModel.CancelLayer(old(model), id, layer)
    {
      hide TokenRangeMatcher.Valid, StoredEntry.View, InvHolding;
      CancelLayerKeeps(model, id, layer);
      if id !in entries {
        return;
      }
      Look(id);
      var entry := entries[id];
      Mark(id, entry.reserved - {layer}, entry.failed || !entry.committed);
      DropIfIdle(id);
    }

    method AbortPut(id: SegmentId)
      requires Valid()
      modifies Footprint()
      ensures Valid()
      ensures forall id :: id in entries ==> id in old(entries) && entries[id] == old(entries)[id]
      ensures model == StoreModel.AbortPut(old(model), id)
    {
      hide TokenRangeMatcher.Valid, StoredEntry.View, InvHolding;
      AbortPutKeeps(model, id);
      if id !in entries {
        return;
      }
      Look(id);
      var entry := entries[id];
      if entry.committed {
        return;
      }
      Mark(id, entry.reserved, true);
      DropIfIdle(id);
    }

    method PutLayerHost(id: SegmentId, layer: int, tensor: Tensor) returns (r: Result<Option<bool>, StoreError>)
      requires Valid()
      modifies Footprint()
      ensures Valid()
      ensures forall id :: id in entries ==> id in old(entries) && entries[id] == old(entries)[id]
      ensures (model, r) == StoreModel.PutLayerHost(old(model), id, layer, tensor)
    {
      hide TokenRangeMatcher.Valid, StoredEntry.View, InvHolding, StoreModel.PutOpen;
      PutLayerHostKeeps(model, id, layer, tensor);
      if id !in entries {
        return Ok(None);
      }
      Look(id);
      var entry := entries[id];
      if !(0 <= layer < entry.numLayers) {
        return Raise(LayerOutOfRange);
      }
      if entry.failed {
        Mark(id, entry.reserved - {layer}, entry.failed);
        DropIfIdle(id);
        return Ok(None);
      }
      if entry.committed {
        Mark(id, entry.reserved - {layer}, entry.failed);
        return Ok(Some(false));
      }
      var accepted := PutOpen(id, layer, tensor);
      return Ok(accepted);
    }

    /** The part of `put_layer_host` for an entry that is still collecting layers. */
    method PutOpen(id: SegmentId, layer: int, tensor: Tensor) returns (accepted: Option<bool>)
      requires Valid() && id in entries && !entries[id].committed && !entries[id].failed
      modifies Footprint()
      ensures Shape()
      ensures forall id :: id in entries ==> id in old(entries) && entries[id] == old(entries)[id]
      ensures model == StoreModel.PutOpen(old(model), id, layer, tensor).0
      ensures accepted == StoreModel.PutOpen(old(model), id, layer, tensor).1
    {
      hide TokenRangeMatcher.Valid, StoredEntry.View, InvHolding, RoomFor, StoreModel.PutOpen, StoreModel.DropIfIdle,
        Accept, StoreModel.Touch, WithEntry, Linked;
      Look(id);
      var entry := entries[id];
      var previousSize := if layer in entry.layers then entry.layers[layer].bytes else 0;
      var growth := tensor.bytes - previousSize;
      MakeRoom(id, growth);
      PutOpenCases(old(model), id, layer, tensor, growth, model);
      Look(id);
      if bytes + growth > maxBytes {
        Mark(id, entries[id].reserved - {layer}, true);
        DropIfIdle(id);
        return None;
      }
      var became := AcceptLayer(id, layer, tensor, previousSize);
      Touch(id);
      return Some(became);
    }

    method MakeRoom(id: SegmentId, growth: int)
      requires Valid() && id in entries
      modifies this`order, this`entries, this`bytes, this`model, matcher
      ensures Valid() && id in entries && model.entries[id] == old(model).entries[id]
      ensures forall id :: id in entries ==> id in old(entries) && entries[id] == old(entries)[id]
      ensures model == RoomFor(old(model), id, growth)
    {
      hide TokenRangeMatcher.Valid, StoredEntry.View, InvHolding, EvictLoop;
      if growth > 0 {
        Evict(growth, Some(id));
      }
      assert id in model.entries;
    }

    method AcceptLayer(id: SegmentId, layer: int, tensor: Tensor, previousSize: nat) returns (became: bool)
      requires Shape() && id in entries && !entries[id].committed
      requires previousSize == PreviousBytes(model.entries[id], layer)
      modifies this`bytes, this`model, entries[id], matcher
      ensures Shape()
      ensures became == Accepted(old(model).entries[id], layer, tensor).committed
      ensures model == Accept(old(model), id, layer, tensor)
    {
      hide TokenRangeMatcher.Valid, StoredEntry.View, Accepted, PreviousBytes, Linked;
      Look(id);
      became := StoreInEntry(id, layer, tensor, previousSize);
      Look(id);
      if became {
        matcher.Register(entries[id].record);
        model := model.(matcher := Registered(model.matcher, model.entries[id].record));
      }
    }

    /** The layer enters its entry, with the byte counter kept in step. */
    method StoreInEntry(id: SegmentId, layer: int, tensor: Tensor, previousSize: nat) returns (full: bool)
      requires Shape() && id in entries && !entries[id].committed
      requires previousSize == PreviousBytes(model.entries[id], layer)
      modifies this`bytes, this`model, entries[id]
      ensures Shape() && entries[id].record == old(entries[id].record)
      ensures var e := Accepted(old(model).entries[id], layer, tensor);
              && full == e.committed && e.record == old(model).entries[id].record
              && model == WithEntry(old(model), id, e).(bytes := old(model).bytes - previousSize + tensor.bytes)
    {
      hide TokenRangeMatcher.Valid, StoredEntry.View, Linked;
      Look(id);
      var entry := entries[id];
      LinkedExcept(entries, model.entries, id);
      bytes := bytes - previousSize;
      full := entry.StoreLayer(layer, tensor, previousSize);
      bytes := bytes + tensor.bytes;
      LinkedUpdate(entries, model.entries, id);
      ghost var total := model.bytes - previousSize + tensor.bytes;
      model := WithEntry(model, id, Accepted(model.entries[id], layer, tensor)).(bytes := total);
    }

    // -------------------------------------------------------------- lookup and pins

    method Validate(segments: seq<BlendSegment>) returns (valid: seq<BlendSegment>)
      requires Valid()
      modifies Footprint()
      ensures Valid() && entries == old(entries)
      ensures (model, valid) == StoreModel.Validate(old(model), segments)
    {
      hide TokenRangeMatcher.Valid, StoredEntry.View, InvHolding;
      ValidateKeeps(model, segments);
      ghost var goal := StoreModel.Validate(model, segments);
      valid := [];
      assert segments[0..] == segments;
      YieldsStart(goal);
      for i := 0 to |segments|
        invariant Shape() && entries == old(entries)
        invariant Yields(valid, StoreModel.Validate(model, segments[i..]), goal)
      {
        var id := segments[i].segmentId;
        ValidateStep(model, segments, i, valid, goal);
        if id in entries { Look(id); }
        if id in entries && entries[id].committed {
          Touch(id);
          valid := valid + [segments[i]];
        }
      }
      assert segments[|segments|..] == [];
      YieldsEnd(valid, model, goal);
    }

    /** Search then validation. With nothing in between, validation keeps every match. */
    method Match(modelScope: string, tokens: seq<Token>, startOffset: int)
      returns (r: Result<seq<BlendSegment>, MatchError>)
      requires Valid()
      modifies Footprint()
      ensures Valid() && entries == old(entries)
      ensures r.Raise? <==> startOffset < 0 || startOffset > |tokens|
      ensures r.Raise? ==> model == old(model)
      ensures r.Ok? ==> r.value == Scan(old(model).matcher, old(model).chunkSize, modelScope, tokens, startOffset)
      ensures r.Ok? ==> model == StoreModel.Validate(old(model), r.value).0
    {
      hide StoredEntry.View, InvHolding, Scan;
      var found := matcher.Match(modelScope, tokens, startOffset);
      if found.Raise? {
        return found;
      }
      RegistryIds(model);
      MadeLogsAreRightlyHashed(model.matcher, model.chunkSize);
      MatchesAreCommitted(model, modelScope, tokens, startOffset);
      var valid := Validate(found.value);
      return Ok(valid);
    }

    method Release(request: RequestId)
      requires Valid()
      modifies Footprint()
      ensures Valid()
      ensures forall id :: id in entries ==> id in old(entries) && entries[id] == old(entries)[id]
      ensures model == StoreModel.Release(old(model), request)
    {
      hide TokenRangeMatcher.Valid, StoredEntry.View, InvHolding, StoreModel.Evict;
      ReleaseInHand(model, request);
      var ids := if request in requestPins then requestPins[request] else [];
      requestPins := requestPins - {request};
      model := model.(pins := model.pins - {request});
      UnpinAllKeeps(model, ids);
      UnpinIds(ids);
      Evict(0, None);
    }

    method UnpinIds(ids: seq<SegmentId>)
      requires Shape()
      modifies Footprint()
      ensures Shape() && entries == old(entries)
      ensures model == old(model).(entries := UnpinAll(old(model).entries, ids))
    {
      hide TokenRangeMatcher.Valid, StoredEntry.View;
      ghost var goal := UnpinAll(model.entries, ids);
      assert ids[0..] == ids;
      for i := 0 to |ids|
        invariant Shape() && entries == old(entries)
        invariant model == old(model).(entries := model.entries)
        invariant UnpinAll(model.entries, ids[i..]) == goal
      {
        var id := ids[i];
        assert ids[i..][1..] == ids[i + 1..];
        if id in entries {
          Look(id);
          var pinCount := entries[id].pinCount;
          CountPins(id, if pinCount - 1 < 0 then 0 else pinCount - 1);
        }
      }
      assert ids[|ids|..] == [];
    }

    method Pin(request: RequestId, segments: seq<BlendSegment>) returns (valid: seq<BlendSegment>)
      requires Valid()
      modifies Footprint()
      ensures Valid()
      ensures forall id :: id in entries ==> id in old(entries) && entries[id] == old(entries)[id]
      ensures (model, valid) == StoreModel.Pin(old(model), request, segments)
    {
      hide TokenRangeMatcher.Valid, StoredEntry.View, InvHolding, StoreModel.Release;
      PinKeeps(model, request, segments);
      Release(request);
      valid := PinCommitted(segments);
      if valid != [] {
        requestPins := requestPins[request := SegmentIds(valid)];
        model := model.(pins := requestPins);
      }
    }

    method PinEntry(id: SegmentId)
      requires Shape() && id in entries
      modifies this`order, this`model, entries[id]
      ensures Shape() && model == PinOne(old(model), id)
    {
      hide TokenRangeMatcher.Valid, StoredEntry.View, StoreModel.Touch;
      Look(id);
      CountPins(id, entries[id].pinCount + 1);
      Touch(id);
    }

    method PinCommitted(segments: seq<BlendSegment>) returns (valid: seq<BlendSegment>)
      requires Shape()
      modifies Footprint()
      ensures Shape() && entries == old(entries)
      ensures (model, valid) == PinLoop(old(model), segments)
    {
      hide TokenRangeMatcher.Valid, StoredEntry.View, PinLoop, PinOne;
      ghost var goal := PinLoop(model, segments);
      valid := [];
      assert segments[0..] == segments;
      YieldsStart(goal);
      for i := 0 to |segments|
        invariant Shape() && entries == old(entries)
        invariant Yields(valid, PinLoop(model, segments[i..]), goal)
      {
        var id := segments[i].segmentId;
        PinLoopStep(model, segments, i, valid, goal);
        if id in entries { Look(id); }
        if id in entries && entries[id].committed {
          PinEntry(id);
          valid := valid + [segments[i]];
        }
      }
      assert segments[|segments|..] == [];
      PinLoopDone(model);
      YieldsEnd(valid, model, goal);
    }

    method GetLayer(request: RequestId, segment: BlendSegment, layer: int) returns (r: Result<Tensor, StoreError>)
      requires Valid()
      modifies Footprint()
      ensures Valid() && entries == old(entries)
      ensures (model, r) == StoreModel.GetLayer(old(model), request, segment, layer)
    {
      hide TokenRangeMatcher.Valid, StoredEntry.View, InvHolding, StoreModel.Touch;
      GetLayerKeeps(model, request, segment, layer);
      var id := segment.segmentId;
      if request !in requestPins || id !in requestPins[request] {
        return Raise(NotPinned);
      }
      if id !in entries {
        return Raise(NotStored);
      }
      Look(id);
      var entry := entries[id];
      if !entry.committed || layer !in entry.layers {
        return Raise(NotStored);
      }
      var tensor := entry.layers[layer];
      Touch(id);
      return Ok(tensor);
    }

    method Clear()
      requires Valid()
      modifies Footprint()
      ensures Valid()
      ensures forall id :: id in entries ==> id in old(entries) && entries[id] == old(entries)[id]
      ensures model == StoreModel.Clear(old(model))
    {
      hide TokenRangeMatcher.Valid, StoredEntry.View, InvHolding;
      ApplyKeeps(model, OpClear);
      UnregisterAll();
      entries, order := map[], [];
      requestPins := map[];
      bytes := 0;
      model := StoreModel.Clear(model);
    }

    /** The monotonic clock moving on. */
    method Tick(elapsed: nat)
      requires Valid()
      modifies this`clock, this`model
      ensures Valid() && model == StoreModel.Tick(old(model), elapsed)
    {
      hide TokenRangeMatcher.Valid, StoredEntry.View, InvHolding;
      ApplyKeeps(model, OpTick(elapsed));
      clock := clock + elapsed;
      model := StoreModel.Tick(model, elapsed);
    }

    /** Unregisters the id of every entry, in order; nothing else was registered. */
    method UnregisterAll()
      requires Valid()
      modifies matcher
      ensures matcher.Valid() && matcher.log == []
    {
      hide TokenRangeMatcher.Valid, StoredEntry.View, InvHolding;
      RegisteredInOrder(model);
      var ids := order;
      for i := 0 to |ids|
        invariant matcher.Valid()
        invariant forall r :: r in matcher.log ==> r.segmentId in ids[i..]
      {
        WithoutElements(matcher.log, ids[i]);
        matcher.Unregister(ids[i]);
      }
      if matcher.log != [] {
        HasElement(matcher.log);
        assert false;
      }
    }
  }

  // ---------------------------------------------------------------- one iteration of each loop

  /** What a loop has output, followed by what the rest of the loop gives, is the whole loop's outcome. */
  ghost predicate Yields(done: seq<BlendSegment>, rest: (Store, seq<BlendSegment>), goal: (Store, seq<BlendSegment>)) {
    goal == (rest.0, done + rest.1)
  }

  lemma YieldsStart(goal: (Store, seq<BlendSegment>))
    ensures Yields([], goal, goal)
  {
    assert [] + goal.1 == goal.1;
  }

  lemma YieldsEnd(done: seq<BlendSegment>, st: Store, goal: (Store, seq<BlendSegment>))
    requires Yields(done, (st, []), goal)
    ensures goal == (st, done)
  {
    assert done + [] == done;
  }

  lemma YieldsMore(done: seq<BlendSegment>, s: BlendSegment, rest: (Store, seq<BlendSegment>),
                   goal: (Store, seq<BlendSegment>))
    requires Yields(done, (rest.0, [s] + rest.1), goal)
    ensures Yields(done + [s], rest, goal)
  {
    assert done + ([s] + rest.1) == (done + [s]) + rest.1;
  }

  lemma ValidateStep(st: Store, segments: seq<BlendSegment>, i: nat, done: seq<BlendSegment>,
                     goal: (Store, seq<BlendSegment>))
    requires i < |segments| && Yields(done, StoreModel.Validate(st, segments[i..]), goal)
    ensures if IsCommitted(st, segments[i].segmentId)
            then Yields(done + [segments[i]], StoreModel.Validate(StoreModel.Touch(st, segments[i].segmentId),
                                                                  segments[i + 1..]), goal)
            else Yields(done, StoreModel.Validate(st, segments[i + 1..]), goal)
  {
    assert segments[i..][1..] == segments[i + 1..];
    if IsCommitted(st, segments[i].segmentId) {
      YieldsMore(done, segments[i], StoreModel.Validate(StoreModel.Touch(st, segments[i].segmentId), segments[i + 1..]),
                 goal);
    }
  }

  lemma PinLoopStep(st: Store, segments: seq<BlendSegment>, i: nat, done: seq<BlendSegment>,
                    goal: (Store, seq<BlendSegment>))
    requires i < |segments| && Yields(done, PinLoop(st, segments[i..]), goal)
    ensures if IsCommitted(st, segments[i].segmentId)
            then Yields(done + [segments[i]], PinLoop(PinOne(st, segments[i].segmentId), segments[i + 1..]), goal)
            else Yields(done, PinLoop(st, segments[i + 1..]), goal)
  {
    assert segments[i..][1..] == segments[i + 1..];
    if IsCommitted(st, segments[i].segmentId) {
      YieldsMore(done, segments[i], PinLoop(PinOne(st, segments[i].segmentId), segments[i + 1..]), goal);
    }
  }

  lemma PutOpenCases(st: Store, id: SegmentId, layer: int, t: Tensor, growth: int, room: Store)
    requires id in st.entries && growth == t.bytes - PreviousBytes(st.entries[id], layer)
    requires room == RoomFor(st, id, growth)
    ensures id in room.entries && room.entries[id] == st.entries[id]
    ensures room.bytes + growth > st.maxBytes ==>
              StoreModel.PutOpen(st, id, layer, t)
              == (StoreModel.DropIfIdle(WithEntry(room, id,
                                                  room.entries[id].(reserved := st.entries[id].reserved - {layer},
                                                                    failed := true)), id), None)
    ensures room.bytes + growth <= st.maxBytes ==>
              StoreModel.PutOpen(st, id, layer, t)
              == (StoreModel.Touch(Accept(room, id, layer, t), id), Some(Accepted(st.entries[id], layer, t).committed))
  {
  }

  lemma PinLoopDone(st: Store)
    ensures PinLoop(st, []) == (st, [])
  {
  }

  lemma MatchesAreCommitted(st: Store, scope: string, tokens: seq<Token>, from: nat)
    requires Inv(st)
    ensures var found := Scan(st.matcher, st.chunkSize, scope, tokens, from);
            StoreModel.Validate(st, found).1 == found
  {
    var found := Scan(st.matcher, st.chunkSize, scope, tokens, from);
    ScanIsSound(st.matcher, st.chunkSize, scope, tokens, from);
    forall s | s in found ensures IsCommitted(st, s.segmentId) {
      assert IsMatch(st.matcher, st.chunkSize, scope, tokens, s);
      var r :| r in st.matcher && r.segmentId == s.segmentId;
    }
    CommittedAllValid(st, found);
  }

  lemma {:induction false} CommittedAllValid(st: Store, segments: seq<BlendSegment>)
    requires forall s :: s in segments ==> IsCommitted(st, s.segmentId)
    ensures StoreModel.Validate(st, segments).1 == segments
    decreases |segments|
  {
    if segments != [] {
      assert segments[0] in segments;
      CommittedAllValid(StoreModel.Touch(st, segments[0].segmentId), segments[1..]);
    }
  }

  lemma RegisteredInOrder(st: Store)
    requires Inv(st)
    ensures forall r :: r in st.matcher ==> r.segmentId in st.order
  {
  }

  lemma EvictLoopDone(st: Store, queue: seq<SegmentId>, required: int, exclude: Option<SegmentId>)
    requires queue == [] || st.bytes + required <= st.maxBytes
    ensures EvictLoop(st, queue, required, exclude) == st
  {
  }

  lemma EvictLoopStep(st: Store, items: seq<SegmentId>, i: nat, required: int, exclude: Option<SegmentId>)
    requires i < |items| && st.bytes + required > st.maxBytes && Unique(items[i..])
    ensures items[i] in items[i..] && items[i] !in items[i + 1..] && Unique(items[i + 1..])
    ensures forall id :: id in items[i + 1..] ==> id in items[i..]
    ensures EvictLoop(st, items[i..], required, exclude)
            == EvictLoop(if CanEvict(st.entries, items[i], exclude) then StoreModel.Remove(st, items[i]) else st,
                         items[i + 1..], required, exclude)
  {
    assert items[i..][1..] == items[i + 1..];
    assert items[i..][0] == items[i];
  }
}
