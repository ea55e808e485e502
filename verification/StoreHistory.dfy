/** What is stored and in flight, told from the run alone: a layer is the tensor of its last accepted put, reading a
    pinned segment gives that tensor back, and a reservation excludes every other until it is resolved. */
module StoreHistory {
  import opened Wrappers
  import opened Hashing
  import opened Types
  import opened Matching
  import opened StoreModel
  import opened StoreInvariants
  import opened StoreOperations
  import opened StoreTheorems
  import opened StoreEffects

  // ---------------------------------------------------------------- the last accepted put

  /** The operation is a put of this layer that is accepted into an unfinished entry. */
  predicate Puts(st: Store, op: Op, id: SegmentId, layer: int) {
    && op.OpPutLayerHost? && op.id == id && op.layer == layer
    && id in st.entries && !st.entries[id].committed
    && PutLayerHost(st, id, layer, op.tensor).1 in {Ok(Some(false)), Ok(Some(true))}
  }

  /** The tensor of the last accepted put of a layer since its entry came to be, replayed over a run. */
  function LastPut(st: Store, ops: seq<Op>, id: SegmentId, layer: int, held: Option<Tensor>): Option<Tensor>
    decreases |ops|
  {
    if ops == [] then held
    else
      var next := Apply(st, ops[0]);
      LastPut(next, ops[1..], id, layer,
              if id !in next.entries then None else if Puts(st, ops[0], id, layer) then Some(ops[0].tensor) else held)
  }

  /** The tensor an entry holds for a layer. */
  function Held(st: Store, id: SegmentId, layer: int): Option<Tensor> {
    if id in st.entries && layer in st.entries[id].layers then Some(st.entries[id].layers[layer]) else None
  }

  lemma PutHolds(st: Store, i: SegmentId, l: int, t: Tensor, id: SegmentId, layer: int)
    requires Inv(st) && id in PutLayerHost(st, i, l, t).0.entries
    ensures Held(PutLayerHost(st, i, l, t).0, id, layer)
         == if Puts(st, OpPutLayerHost(i, l, t), id, layer) then Some(t) else Held(st, id, layer)
  {
    hide Inv, PutLayerHost;
    IdlePut(st, i, l, t);
    if i in st.entries && InRange(st.entries[i], l) && !st.entries[i].committed {
      if st.entries[i].failed {
        FailedPut(st, i, l, t);
      } else if PutLayerHost(st, i, l, t).1 == Ok(None) {
        RefusedPut(st, i, l, t);
      } else {
        AcceptedPut(st, i, l, t);
      }
    }
  }

  /** Pinning changes nothing of an entry but its pin count and time. */
  lemma PinKeepsEntries(st: Store, request: RequestId, segments: seq<BlendSegment>)
    requires Inv(st)
    ensures var after := Pin(st, request, segments).0;
            && after.entries.Keys == st.entries.Keys
            && forall id :: id in st.entries ==>
                 after.entries[id] == st.entries[id].(pinCount := after.entries[id].pinCount,
                                                      lastAccess := after.entries[id].lastAccess)
  {
    hide Inv, Release, PinLoop;
    ReleaseKeeps(st, request);
    PinLoopFrame(Release(st, request), segments);
  }

  lemma StepHolds(st: Store, op: Op, id: SegmentId, layer: int)
    requires Inv(st) && id in Apply(st, op).entries
    ensures Held(Apply(st, op), id, layer) == if Puts(st, op, id, layer) then Some(op.tensor) else Held(st, id, layer)
  {
    hide Inv, PutLayerHost, BeginPut, ReserveLayer, CancelLayer, AbortPut, Validate, Release, Pin, GetLayer;
    match op
    case OpBeginPut(scope, sourceStart, tokens, numLayers) => BegunPut(st, scope, sourceStart, tokens, numLayers);
    case OpReserveLayer(i, l) => ReserveAnswers(st, i, l);
    case OpCancelLayer(i, l) => CancelledLayer(st, i, l);
    case OpPutLayerHost(i, l, t) => PutHolds(st, i, l, t, id, layer);
    case OpAbortPut(i) => AbortedPut(st, i);
    case OpValidate(segments) => ValidateFrame(st, segments);
    case OpPin(request, segments) => PinKeepsEntries(st, request, segments);
    case OpRelease(request) => ReleaseKeeps(st, request);
    case OpGetLayer(request, segment, l) => ReadAnswers(st, request, segment, l);
    case _ =>
  }

  /** At any moment of any run an entry holds, for each layer, exactly the tensor of the last accepted put of it. */
  lemma {:induction false} LayersAreTheLastPuts(st: Store, ops: seq<Op>, id: SegmentId, layer: int)
    requires Inv(st)
    ensures Held(Run(st, ops), id, layer) == LastPut(st, ops, id, layer, Held(st, id, layer))
    decreases |ops|
  {
    hide Inv, Apply;
    if ops != [] {
      ApplyKeeps(st, ops[0]);
      if id in Apply(st, ops[0]).entries { StepHolds(st, ops[0], id, layer); }
      LayersAreTheLastPuts(Apply(st, ops[0]), ops[1..], id, layer);
    }
  }

  /** Reading gives back what was put: in every reachable state, and after anything that does not disturb the request,
      each layer of a pinned segment reads as the tensor of its last accepted put, and no other number can be read. */
  lemma ReadsReturnTheLastPut(chunkSize: nat, maxBytes: nat, ops: seq<Op>, more: seq<Op>, request: RequestId,
                              segment: BlendSegment, layer: int)
    requires chunkSize > 0
    requires var st := Run(Empty(chunkSize, maxBytes), ops); request in st.pins && segment.segmentId in st.pins[request]
    requires forall i :: 0 <= i < |more| ==> !Disturbs(more[i], request)
    ensures var st := Run(Empty(chunkSize, maxBytes), ops);
            var put := LastPut(Empty(chunkSize, maxBytes), ops, segment.segmentId, layer, None);
            && IsCommitted(st, segment.segmentId)
            && (put.Some? <==> 0 <= layer < st.entries[segment.segmentId].numLayers)
            && GetLayer(Run(st, more), request, segment, layer).1
               == if put.Some? then Ok(put.value) else Raise(NotStored)
  {
    hide Inv, Run, GetLayer, LastPut, Apply;
    var start := Empty(chunkSize, maxBytes);
    var st := Run(start, ops);
    EmptyIsSound(chunkSize, maxBytes);
    RunKeeps(start, ops);
    LayersAreTheLastPuts(start, ops, segment.segmentId, layer);
    PinnedLayersReadable(st, request, segment, layer);
    PinnedReadsAreStable(st, more, request, segment, layer);
    ReadAnswers(st, request, segment, layer);
  }

  // ---------------------------------------------------------------- layers in flight

  /** A reservation of the layer is granted and not yet resolved, replayed over a run. */
  function InFlight(st: Store, ops: seq<Op>, id: SegmentId, layer: int, now: bool): bool
    decreases |ops|
  {
    if ops == [] then now
    else
      var next := Apply(st, ops[0]);
      InFlight(next, ops[1..], id, layer,
               if id !in next.entries || Settles(ops[0], id, layer) then false
                 else now || Grants(st, ops[0], id, layer))
  }

  predicate Settles(op: Op, id: SegmentId, layer: int) {
    || (op.OpCancelLayer? && op.id == id && op.layer == layer)
    || (op.OpPutLayerHost? && op.id == id && op.layer == layer)
  }

  predicate Grants(st: Store, op: Op, id: SegmentId, layer: int) {
    op == OpReserveLayer(id, layer) && ReserveLayer(st, id, layer).1 == Ok(true)
  }

  predicate Reserved(st: Store, id: SegmentId, layer: int) {
    id in st.entries && layer in st.entries[id].reserved
  }

  lemma PutSettles(st: Store, i: SegmentId, l: int, t: Tensor, id: SegmentId, layer: int)
    requires Inv(st) && id in PutLayerHost(st, i, l, t).0.entries
    ensures Reserved(PutLayerHost(st, i, l, t).0, id, layer) <==> Reserved(st, id, layer) && !(i == id && l == layer)
  {
    hide Inv, PutLayerHost;
    IdlePut(st, i, l, t);
    if i in st.entries { ReservedInRange(st, i); }
    if i in st.entries && InRange(st.entries[i], l) && !st.entries[i].committed {
      if st.entries[i].failed {
        FailedPut(st, i, l, t);
      } else if PutLayerHost(st, i, l, t).1 == Ok(None) {
        RefusedPut(st, i, l, t);
      } else {
        AcceptedPut(st, i, l, t);
      }
    }
  }

  lemma ReservedInRange(st: Store, id: SegmentId)
    requires Inv(st) && id in st.entries
    ensures forall k :: k in st.entries[id].reserved ==> InRange(st.entries[id], k)
    ensures st.entries[id].committed ==> st.entries[id].reserved == {}
  {
    hide InvHolding;
    InvEntryOk(st, id);
    EntryFacts(st, id);
  }

  lemma StepReserves(st: Store, op: Op, id: SegmentId, layer: int)
    requires Inv(st) && id in Apply(st, op).entries
    ensures Reserved(Apply(st, op), id, layer)
       <==> !Settles(op, id, layer) && (Reserved(st, id, layer) || Grants(st, op, id, layer))
  {
    hide Inv, PutLayerHost, BeginPut, ReserveLayer, CancelLayer, AbortPut, Validate, Release, Pin, GetLayer;
    if id in st.entries { ReservedInRange(st, id); }
    match op
    case OpBeginPut(scope, sourceStart, tokens, numLayers) => BegunPut(st, scope, sourceStart, tokens, numLayers);
    case OpReserveLayer(i, l) => ReserveAnswers(st, i, l);
    case OpCancelLayer(i, l) => CancelledLayer(st, i, l);
    case OpPutLayerHost(i, l, t) => PutSettles(st, i, l, t, id, layer);
    case OpAbortPut(i) => AbortedPut(st, i);
    case OpValidate(segments) => ValidateFrame(st, segments);
    case OpPin(request, segments) => PinKeepsEntries(st, request, segments);
    case OpRelease(request) => ReleaseKeeps(st, request);
    case OpGetLayer(request, segment, l) => ReadAnswers(st, request, segment, l);
    case _ =>
  }

  /** The reservation marks are exactly the granted reservations that are not resolved. */
  lemma {:induction false} MarksAreInFlight(st: Store, ops: seq<Op>, id: SegmentId, layer: int)
    requires Inv(st)
    ensures Reserved(Run(st, ops), id, layer) <==> InFlight(st, ops, id, layer, Reserved(st, id, layer))
    decreases |ops|
  {
    hide Inv, Apply, Settles, Grants;
    if ops != [] {
      ApplyKeeps(st, ops[0]);
      if id in Apply(st, ops[0]).entries { StepReserves(st, ops[0], id, layer); }
      MarksAreInFlight(Apply(st, ops[0]), ops[1..], id, layer);
    }
  }

  /** A reservation is granted exactly for a numbered layer of an entry that has not failed, when no put of it has been
      accepted and no other reservation of it is still open. */
  lemma ReservationsAreExclusive(chunkSize: nat, maxBytes: nat, ops: seq<Op>, id: SegmentId, layer: int)
    requires chunkSize > 0
    ensures var start := Empty(chunkSize, maxBytes);
            var st := Run(start, ops);
            ReserveLayer(st, id, layer).1 == Ok(true) <==>
              && id in st.entries && 0 <= layer < st.entries[id].numLayers && !st.entries[id].failed
              && LastPut(start, ops, id, layer, None) == None && !InFlight(start, ops, id, layer, false)
  {
    hide Inv, Run, ReserveLayer, LastPut, InFlight, Apply;
    var start := Empty(chunkSize, maxBytes);
    EmptyIsSound(chunkSize, maxBytes);
    LayersAreTheLastPuts(start, ops, id, layer);
    MarksAreInFlight(start, ops, id, layer);
    ReserveAnswers(Run(start, ops), id, layer);
  }
}
