/** What each operation answers and what it leaves of the entry it names, field by field. */
module StoreEffects {
  import opened Wrappers
  import opened Hashing
  import opened Types
  import opened Matching
  import opened StoreModel
  import opened StoreInvariants
  import opened StoreOperations
  import opened StoreTheorems

  // ---------------------------------------------------------------- publishing

  /** Everything but one entry is as it was, apart from what has been evicted. */
  ghost predicate OthersKept(st: Store, after: Store, id: SegmentId) {
    forall x :: x in after.entries && x != id ==> x in st.entries && after.entries[x] == st.entries[x]
  }

  /** An accepted layer is stored as given, next to the layers that were there; the entry is committed exactly when no
      layer is missing, and the answer says so. */
  lemma AcceptedPut(st: Store, id: SegmentId, layer: int, t: Tensor)
    requires Inv(st) && id in st.entries && 0 <= layer < st.entries[id].numLayers
    requires !st.entries[id].committed && !st.entries[id].failed && PutLayerHost(st, id, layer, t).1 != Ok(None)
    ensures var e, after := st.entries[id], PutLayerHost(st, id, layer, t).0;
            && id in after.entries && OthersKept(st, after, id)
            && var e' := after.entries[id];
            && layer in e'.layers && e'.layers[layer] == t
            && (forall k :: k != layer ==> (k in e'.layers <==> k in e.layers))
            && (forall k :: k != layer && k in e.layers ==> e'.layers[k] == e.layers[k])
            && e'.record == e.record && e'.numLayers == e.numLayers && e'.pinCount == e.pinCount && !e'.failed
            && e'.reserved == e.reserved - {layer}
            && e'.sizeBytes - e.sizeBytes == t.bytes - (if layer in e.layers then e.layers[layer].bytes else 0)
            && e'.lastAccess == st.clock
            && (e'.committed <==> forall k :: 0 <= k < e.numLayers ==> k in e'.layers)
            && PutLayerHost(st, id, layer, t).1 == Ok(Some(e'.committed))
  {
    hide Inv, PutLayerHost, OthersKept;
    InvEntryOk(st, id);
    EntryAfterPut(st, id, layer, t);
    AllLayersCounted(Accepted(st.entries[id], layer, t));
  }

  lemma EntryAfterPut(st: Store, id: SegmentId, layer: int, t: Tensor)
    requires Inv(st) && id in st.entries && InRange(st.entries[id], layer)
    requires !st.entries[id].committed && !st.entries[id].failed && PutLayerHost(st, id, layer, t).1 != Ok(None)
    ensures var after := PutLayerHost(st, id, layer, t).0;
            && id in after.entries && OthersKept(st, after, id)
            && after.entries[id] == Accepted(st.entries[id], layer, t).(lastAccess := st.clock)
            && PutLayerHost(st, id, layer, t).1 == Ok(Some(Accepted(st.entries[id], layer, t).committed))
  {
    hide Inv, RoomFor, Accepted, PreviousBytes;
    var growth := t.bytes - PreviousBytes(st.entries[id], layer);
    RoomFrame(st, id, growth);
    assert PutLayerHost(st, id, layer, t).0 == Touch(Accept(RoomFor(st, id, growth), id, layer, t), id);
  }

  lemma InvEntryOk(st: Store, id: SegmentId)
    requires Inv(st) && id in st.entries
    ensures EntryOk(st.chunkSize, id, st.entries[id])
  {
  }

  /** As many layers as there are numbers means every number. */
  lemma AllLayersCounted(e: Entry)
    requires forall k :: k in e.layers ==> InRange(e, k)
    ensures |e.layers| == e.numLayers <==> forall k :: 0 <= k < e.numLayers ==> k in e.layers
  {
    FullCountIsAllLayers(e.layers, e.numLayers);
    if forall k :: 0 <= k < e.numLayers ==> k in e.layers {
      IntervalSize(0, e.numLayers);
      assert Interval(0, e.numLayers) <= e.layers.Keys;
      SubsetSize(Interval(0, e.numLayers), e.layers.Keys);
      assert |e.layers.Keys| == |e.layers|;
    }
  }

  /** A refused layer is not stored: the entry is marked as failed, and is gone unless another layer is in flight. */
  lemma RefusedPut(st: Store, id: SegmentId, layer: int, t: Tensor)
    requires Inv(st) && id in st.entries && 0 <= layer < st.entries[id].numLayers
    requires !st.entries[id].committed && !st.entries[id].failed && PutLayerHost(st, id, layer, t).1 == Ok(None)
    ensures var e, after := st.entries[id], PutLayerHost(st, id, layer, t).0;
            && OthersKept(st, after, id)
            && (id in after.entries <==> e.reserved - {layer} != {})
            && (id in after.entries ==>
                  && after.entries[id].failed && !after.entries[id].committed
                  && after.entries[id].record == e.record && after.entries[id].numLayers == e.numLayers
                  && after.entries[id].layers == e.layers && after.entries[id].pinCount == e.pinCount
                  && after.entries[id].reserved == e.reserved - {layer})
  {
    hide Inv, PutLayerHost, OthersKept, DropIfIdle;
    EntryFacts(st, id);
    RefusedIsDropped(st, id, layer, t);
  }

  /** A refusal marks the entry in the store as room was made in it, and drops it if nothing is in flight. */
  lemma RefusedIsDropped(st: Store, id: SegmentId, layer: int, t: Tensor)
    requires Inv(st) && id in st.entries && InRange(st.entries[id], layer) && st.entries[id].pinCount == 0
    requires !st.entries[id].committed && !st.entries[id].failed && PutLayerHost(st, id, layer, t).1 == Ok(None)
    ensures var e, after := st.entries[id], PutLayerHost(st, id, layer, t).0;
            && OthersKept(st, after, id)
            && (id in after.entries <==> e.reserved - {layer} != {})
            && (id in after.entries ==> after.entries[id] == e.(reserved := e.reserved - {layer}, failed := true))
  {
    hide Inv, RoomFor, PreviousBytes, Accept, Touch;
    var e := st.entries[id];
    var growth := t.bytes - PreviousBytes(e, layer);
    var marked := e.(reserved := e.reserved - {layer}, failed := true);
    RoomFrame(st, id, growth);
    assert PutLayerHost(st, id, layer, t).0 == DropIfIdle(WithEntry(RoomFor(st, id, growth), id, marked), id);
  }

  /** A layer for an entry that is missing, complete, or has no such number changes nothing. */
  lemma IdlePut(st: Store, id: SegmentId, layer: int, t: Tensor)
    requires Inv(st)
    ensures id !in st.entries ==> PutLayerHost(st, id, layer, t) == (st, Ok(None))
    ensures id in st.entries && !(0 <= layer < st.entries[id].numLayers) ==>
              PutLayerHost(st, id, layer, t) == (st, Raise(LayerOutOfRange))
    ensures id in st.entries && 0 <= layer < st.entries[id].numLayers && st.entries[id].committed ==>
              PutLayerHost(st, id, layer, t) == (st, Ok(Some(false)))
  {
    hide InvHolding;
    if id in st.entries && st.entries[id].committed {
      EntryFacts(st, id);
      var e := st.entries[id];
      assert e.(reserved := e.reserved - {layer}) == e;
      assert st.entries[id := e] == st.entries;
    }
  }

  /** A new put opens an empty entry under the id of its chunk; a repeated one is the same entry, and only used
      again. */
  lemma BegunPut(st: Store, scope: string, sourceStart: int, tokens: seq<Token>, numLayers: int)
    ensures var (after, r) := BeginPut(st, scope, sourceStart, tokens, numLayers);
            var id := SegmentId(scope, HashOf(tokens), sourceStart, |tokens|);
            && (r.Ok? ==>
                  && r.value == id && id in after.entries && OthersKept(st, after, id)
                  && after.entries.Keys == st.entries.Keys + {id}
                  && after.entries[id].record.tokens == tokens && after.entries[id].numLayers == numLayers
                  && after.entries[id].lastAccess == st.clock
                  && if id in st.entries then after.entries[id] == st.entries[id].(lastAccess := st.clock)
                     else after.entries[id].layers == map[] && after.entries[id].reserved == {}
                          && !after.entries[id].failed && !after.entries[id].committed)
            && (r.Raise? ==> after == st)
  {
    hide HashOf;
  }

  /** A put is refused for a bad layer count, a bad chunk, or an entry of its id that is for other tokens or layers. */
  lemma BegunPutAnswers(st: Store, scope: string, sourceStart: int, tokens: seq<Token>, numLayers: int)
    requires Inv(st)
    ensures var r := BeginPut(st, scope, sourceStart, tokens, numLayers).1;
            var id := SegmentId(scope, HashOf(tokens), sourceStart, |tokens|);
            && (r == Raise(BadLayerCount) <==> numLayers <= 0)
            && (r == Raise(BadRecord) <==>
                  numLayers > 0 && (|tokens| != st.chunkSize || scope == "" || sourceStart < 0))
            && (r.Raise? && r.error != BadLayerCount && r.error != BadRecord ==>
                  id in st.entries && r.error == if st.entries[id].record.tokens != tokens then HashCollides
                    else LayerCountChanged)
            && (r.Ok? && id in st.entries ==>
                  st.entries[id].record.tokens == tokens && st.entries[id].numLayers == numLayers)
  {
    hide HashOf, InvHolding;
  }

  // ---------------------------------------------------------------- reservations

  /** A reservation is granted once for a layer that is neither stored nor in flight, and then is in flight. */
  lemma ReserveAnswers(st: Store, id: SegmentId, layer: int)
    ensures var (after, r) := ReserveLayer(st, id, layer);
            && (r == Raise(LayerOutOfRange) <==> id in st.entries && !(0 <= layer < st.entries[id].numLayers))
            && (r == Ok(true) <==>
                  && id in st.entries && 0 <= layer < st.entries[id].numLayers && !st.entries[id].failed
                  && layer !in st.entries[id].layers && layer !in st.entries[id].reserved)
            && (r != Ok(true) ==> after == st)
            && (r == Ok(true) ==>
                  && after.entries.Keys == st.entries.Keys && OthersKept(st, after, id)
                  && after.entries[id] == st.entries[id].(reserved := after.entries[id].reserved)
                  && forall k :: k in after.entries[id].reserved <==> k in st.entries[id].reserved || k == layer)
  {
  }

  /** Cancelling a layer of an unfinished entry fails the entry, which is gone unless another layer is in flight. */
  lemma CancelledLayer(st: Store, id: SegmentId, layer: int)
    requires Inv(st)
    ensures id !in st.entries || st.entries[id].committed ==> CancelLayer(st, id, layer) == st
    ensures id in st.entries && !st.entries[id].committed ==>
              var e, after := st.entries[id], CancelLayer(st, id, layer);
              && OthersKept(st, after, id)
              && (id in after.entries <==> e.reserved - {layer} != {})
              && (id in after.entries ==>
                    && after.entries[id].failed && !after.entries[id].committed
                    && after.entries[id].layers == e.layers && after.entries[id].record == e.record
                    && after.entries[id].reserved == e.reserved - {layer})
  {
    hide InvHolding;
    if id in st.entries {
      EntryFacts(st, id);
      var e := st.entries[id];
      if e.committed {
        assert e.(reserved := e.reserved - {layer}, failed := e.failed || !e.committed) == e;
        assert st.entries[id := e] == st.entries;
      }
    }
  }

  /** A layer for a failed entry is dropped, and with the last one in flight the entry. */
  lemma FailedPut(st: Store, id: SegmentId, layer: int, t: Tensor)
    requires Inv(st) && id in st.entries && 0 <= layer < st.entries[id].numLayers && st.entries[id].failed
    ensures var e, after := st.entries[id], PutLayerHost(st, id, layer, t).0;
            && PutLayerHost(st, id, layer, t).1 == Ok(None) && OthersKept(st, after, id)
            && (id in after.entries <==> e.reserved - {layer} != {})
            && (id in after.entries ==> after.entries[id] == e.(reserved := e.reserved - {layer}))
  {
    hide InvHolding;
    EntryFacts(st, id);
  }

  /** Aborting an unfinished entry fails it, and it is gone unless a layer is in flight. */
  lemma AbortedPut(st: Store, id: SegmentId)
    requires Inv(st)
    ensures id !in st.entries || st.entries[id].committed ==> AbortPut(st, id) == st
    ensures id in st.entries && !st.entries[id].committed ==>
              var e, after := st.entries[id], AbortPut(st, id);
              && OthersKept(st, after, id)
              && (id in after.entries <==> e.reserved != {})
              && (id in after.entries ==> after.entries[id] == e.(failed := true))
  {
    hide InvHolding;
    if id in st.entries { EntryFacts(st, id); }
  }

  // ---------------------------------------------------------------- reading

  /** The answer lists, in their order and with repetitions, exactly the asked segments that are committed. */
  ghost predicate Lists(st: Store, asked: seq<BlendSegment>, answer: seq<BlendSegment>, at: seq<int>) {
    && Increasing(at) && PicksAt(asked, answer, at)
    && (forall j :: 0 <= j < |asked| ==> (j in at <==> IsCommitted(st, asked[j].segmentId)))
  }

  ghost predicate PicksAt(asked: seq<BlendSegment>, answer: seq<BlendSegment>, at: seq<int>) {
    |at| == |answer| && forall i :: 0 <= i < |at| ==> 0 <= at[i] < |asked| && answer[i] == asked[at[i]]
  }

  function OneLater(at: seq<int>): (later: seq<int>)
    ensures |later| == |at| && forall i :: 0 <= i < |at| ==> later[i] == at[i] + 1
  {
    seq(|at|, i requires 0 <= i < |at| => at[i] + 1)
  }

  lemma InOneLater(at: seq<int>, v: int)
    ensures v in OneLater(at) <==> v - 1 in at
  {
    if v - 1 in at {
      var i :| 0 <= i < |at| && at[i] == v - 1;
      assert OneLater(at)[i] == v;
    }
  }

  lemma PicksLater(asked: seq<BlendSegment>, answer: seq<BlendSegment>, at: seq<int>)
    requires asked != [] && PicksAt(asked[1..], answer, at) && Increasing(at)
    ensures PicksAt(asked, answer, OneLater(at)) && PicksAt(asked, [asked[0]] + answer, [0] + OneLater(at))
    ensures Increasing(OneLater(at)) && Increasing([0] + OneLater(at))
    ensures 0 !in OneLater(at)
  {
    InOneLater(at, 0);
  }

  lemma ListsMore(st: Store, asked: seq<BlendSegment>, answer: seq<BlendSegment>, at: seq<int>) returns (all: seq<int>)
    requires asked != [] && Lists(st, asked[1..], answer, at)
    ensures Lists(st, asked, if IsCommitted(st, asked[0].segmentId) then [asked[0]] + answer else answer, all)
  {
    hide IsCommitted, PicksAt, Increasing, OneLater;
    all := if IsCommitted(st, asked[0].segmentId) then [0] + OneLater(at) else OneLater(at);
    PicksLater(asked, answer, at);
    forall j | 0 < j < |asked| ensures j in all <==> IsCommitted(st, asked[j].segmentId) {
      assert asked[j] == asked[1..][j - 1];
      InOneLater(at, j);
    }
  }

  lemma {:induction false} ValidateAnswers(st: Store, segments: seq<BlendSegment>) returns (at: seq<int>)
    ensures Lists(st, segments, Validate(st, segments).1, at)
    decreases |segments|
  {
    if segments == [] {
      at := [];
    } else {
      var id := segments[0].segmentId;
      var next := if IsCommitted(st, id) then Touch(st, id) else st;
      at := ValidateAnswers(next, segments[1..]);
      ListsAgree(next, st, segments[1..], Validate(next, segments[1..]).1, at);
      at := ListsMore(st, segments, Validate(next, segments[1..]).1, at);
    }
  }

  lemma ListsAgree(a: Store, b: Store, asked: seq<BlendSegment>, answer: seq<BlendSegment>, at: seq<int>)
    requires Lists(a, asked, answer, at) && forall id :: IsCommitted(a, id) <==> IsCommitted(b, id)
    ensures Lists(b, asked, answer, at)
  {
  }

  lemma {:induction false} PinLoopAnswers(st: Store, segments: seq<BlendSegment>) returns (at: seq<int>)
    ensures Lists(st, segments, PinLoop(st, segments).1, at)
    decreases |segments|
  {
    if segments == [] {
      at := [];
    } else {
      var id := segments[0].segmentId;
      var next := if IsCommitted(st, id) then PinOne(st, id) else st;
      at := PinLoopAnswers(next, segments[1..]);
      ListsAgree(next, st, segments[1..], PinLoop(next, segments[1..]).1, at);
      at := ListsMore(st, segments, PinLoop(next, segments[1..]).1, at);
    }
  }

  lemma PinAnswers(st: Store, request: RequestId, segments: seq<BlendSegment>) returns (at: seq<int>)
    requires Inv(st)
    ensures Lists(st, segments, Pin(st, request, segments).1, at)
    ensures var (after, valid) := Pin(st, request, segments);
            |PinsOf(after, request)| == |valid| && forall i :: 0 <= i < |valid| ==>
              PinsOf(after, request)[i] == valid[i].segmentId
  {
    hide InvHolding;
    ReleaseKeeps(st, request);
    at := PinLoopAnswers(Release(st, request), segments);
    PinLoopFrame(Release(st, request), segments);
    ListsAgree(Release(st, request), st, segments, Pin(st, request, segments).1, at);
    SegmentIdsAt(Pin(st, request, segments).1);
  }

  lemma {:induction false} SegmentIdsAt(segments: seq<BlendSegment>)
    ensures |SegmentIds(segments)| == |segments|
    ensures forall i :: 0 <= i < |segments| ==> SegmentIds(segments)[i] == segments[i].segmentId
  {
    if segments != [] {
      SegmentIdsAt(segments[1..]);
    }
  }

  /** A layer is read for a request that has pinned the segment, and is the one stored under its number; any other
      request gets an error, and nothing changes. */
  lemma ReadAnswers(st: Store, request: RequestId, segment: BlendSegment, layer: int)
    ensures var (after, r) := GetLayer(st, request, segment, layer);
            var id := segment.segmentId;
            var pinned := request in st.pins && id in st.pins[request];
            && (r == Raise(NotPinned) <==> !pinned)
            && (r.Ok? <==> pinned && IsCommitted(st, id) && layer in st.entries[id].layers)
            && (r.Ok? ==> r.value == st.entries[id].layers[layer])
            && (r.Raise? ==> after == st && (r.error == NotPinned || r.error == NotStored))
            && (r.Ok? ==>
                  && after.entries.Keys == st.entries.Keys && OthersKept(st, after, id)
                  && after.entries[id] == st.entries[id].(lastAccess := st.clock))
  {
  }

  lemma ClearedStore(st: Store)
    ensures var after := Clear(st);
            && after.entries == map[] && after.order == [] && after.pins == map[] && after.bytes == 0
            && IdsOf(after.matcher) == {} && after.maxBytes == st.maxBytes && after.chunkSize == st.chunkSize
  {
  }
}
