/** The chunk store as a state machine on values: entries, least-recently-used order, byte counter,
    request pins and the registration log, with one function per locked region. */
module StoreModel {
  import opened Wrappers
  import opened Hashing
  import opened Types
  import opened Matching

  type RequestId = string

  /** An owned host tensor: its contents and its size in bytes. */
  datatype Tensor = Tensor(payload: int, bytes: nat)

  datatype Entry = Entry(
    record: FingerprintRecord, numLayers: nat, layers: map<int, Tensor>, reserved: set<int>,
    sizeBytes: int, pinCount: int, committed: bool, failed: bool, lastAccess: nat)

  datatype Store = Store(
    chunkSize: nat, maxBytes: nat, order: seq<SegmentId>, entries: map<SegmentId, Entry>,
    bytes: int, pins: map<RequestId, seq<SegmentId>>, matcher: Log, clock: nat)

  datatype StoreError =
    | BadLayerCount | BadRecord | HashCollides | LayerCountChanged
    | LayerOutOfRange | NotPinned | NotStored

  // ---------------------------------------------------------------- ordered dictionary

  function Drop(order: seq<SegmentId>, id: SegmentId): seq<SegmentId> {
    if order == [] then []
    else if order[0] == id then Drop(order[1..], id)
    else [order[0]] + Drop(order[1..], id)
  }

  function MoveToEnd(order: seq<SegmentId>, id: SegmentId): seq<SegmentId> {
    Drop(order, id) + [id]
  }

  // ---------------------------------------------------------------- private helpers

  function Touch(st: Store, id: SegmentId): Store
    requires id in st.entries
  {
    st.(entries := st.entries[id := st.entries[id].(lastAccess := st.clock)], order := MoveToEnd(st.order, id))
  }

  function Remove(st: Store, id: SegmentId): Store
    requires id in st.entries
  {
    st.(matcher := Without(st.matcher, id), entries := st.entries - {id}, order := Drop(st.order, id),
        bytes := st.bytes - st.entries[id].sizeBytes)
  }

  predicate CanEvict(entries: map<SegmentId, Entry>, id: SegmentId, exclude: Option<SegmentId>) {
    id in entries && exclude != Some(id) && entries[id].pinCount == 0 && entries[id].committed
  }

  /** The eviction loop over a snapshot of the order. */
  function EvictLoop(st: Store, queue: seq<SegmentId>, required: int, exclude: Option<SegmentId>): (r: Store)
    ensures exclude.Some? && exclude.value in st.entries ==>
              exclude.value in r.entries && r.entries[exclude.value] == st.entries[exclude.value]
    decreases |queue|
  {
    if queue == [] || st.bytes + required <= st.maxBytes then st
    else if CanEvict(st.entries, queue[0], exclude) then EvictLoop(Remove(st, queue[0]), queue[1..], required, exclude)
    else EvictLoop(st, queue[1..], required, exclude)
  }

  function Evict(st: Store, required: int, exclude: Option<SegmentId>): (r: Store)
    ensures exclude.Some? && exclude.value in st.entries ==>
              exclude.value in r.entries && r.entries[exclude.value] == st.entries[exclude.value]
  {
    if st.bytes + required <= st.maxBytes then st else EvictLoop(st, st.order, required, exclude)
  }

  // ---------------------------------------------------------------- put

  function RecordOf(scope: string, sourceStart: int, tokens: seq<Token>): FingerprintRecord {
    FingerprintRecord(SegmentId(scope, HashOf(tokens), sourceStart, |tokens|), tokens)
  }

  function BeginPut(st: Store, scope: string, sourceStart: int, tokens: seq<Token>, numLayers: int)
    : (Store, Result<SegmentId, StoreError>) {
    if numLayers <= 0 then (st, Raise(BadLayerCount))
    else if |tokens| != st.chunkSize || scope == "" || sourceStart < 0 then (st, Raise(BadRecord))
    else
      var record := RecordOf(scope, sourceStart, tokens);
      var id := record.segmentId;
      if id in st.entries then
        if st.entries[id].record.tokens != tokens then (st, Raise(HashCollides))
        else if st.entries[id].numLayers != numLayers then (st, Raise(LayerCountChanged))
        else (Touch(st, id), Ok(id))
      else
        (st.(entries := st.entries[id := Entry(record, numLayers, map[], {}, 0, 0, false, false, st.clock)],
             order := st.order + [id]), Ok(id))
  }

  predicate InRange(e: Entry, layer: int) {
    0 <= layer < e.numLayers
  }

  function WithEntry(st: Store, id: SegmentId, e: Entry): Store {
    st.(entries := st.entries[id := e])
  }

  function ReserveLayer(st: Store, id: SegmentId, layer: int): (Store, Result<bool, StoreError>) {
    if id !in st.entries then (st, Ok(false))
    else
      var e := st.entries[id];
      if !InRange(e, layer) then (st, Raise(LayerOutOfRange))
      else if e.failed || layer in e.layers || layer in e.reserved then (st, Ok(false))
      else (WithEntry(st, id, e.(reserved := e.reserved + {layer})), Ok(true))
  }

  /** An incomplete entry leaves as a unit once nothing is in flight for it. */
  function DropIfIdle(st: Store, id: SegmentId): Store
    requires id in st.entries
  {
    var e := st.entries[id];
    if e.failed && e.reserved == {} && e.pinCount == 0 then Remove(st, id) else st
  }

  function CancelLayer(st: Store, id: SegmentId, layer: int): Store {
    if id !in st.entries then st
    else
      var e := st.entries[id];
      DropIfIdle(WithEntry(st, id, e.(reserved := e.reserved - {layer}, failed := e.failed || !e.committed)), id)
  }

  function AbortPut(st: Store, id: SegmentId): Store {
    if id !in st.entries || st.entries[id].committed then st
    else DropIfIdle(WithEntry(st, id, st.entries[id].(failed := true)), id)
  }

  function PreviousBytes(e: Entry, layer: int): nat {
    if layer in e.layers then e.layers[layer].bytes else 0
  }

  function Accepted(e: Entry, layer: int, t: Tensor): Entry {
    var layers := e.layers[layer := t];
    e.(reserved := e.reserved - {layer}, layers := layers,
       sizeBytes := e.sizeBytes - PreviousBytes(e, layer) + t.bytes,
       committed := |layers| == e.numLayers)
  }

  /** Stores an accepted layer, publishing the record when it was the last one missing. */
  function Accept(st: Store, id: SegmentId, layer: int, t: Tensor): Store
    requires id in st.entries
  {
    var e := st.entries[id];
    var e' := Accepted(e, layer, t);
    WithEntry(st, id, e').(bytes := st.bytes - PreviousBytes(e, layer) + t.bytes,
                           matcher := if e'.committed then Registered(st.matcher, e.record) else st.matcher)
  }

  /** The state after making room for a growing entry. */
  function RoomFor(st: Store, id: SegmentId, growth: int): (r: Store)
    ensures id in st.entries ==> id in r.entries && r.entries[id] == st.entries[id]
  {
    if growth > 0 then Evict(st, growth, Some(id)) else st
  }

  /** An entry still collecting layers either takes the layer or, without room, fails as a whole. */
  function PutOpen(st: Store, id: SegmentId, layer: int, t: Tensor): (Store, Option<bool>)
    requires id in st.entries
  {
    var e := st.entries[id];
    var growth := t.bytes - PreviousBytes(e, layer);
    var room := RoomFor(st, id, growth);
    if room.bytes + growth > st.maxBytes then
      (DropIfIdle(WithEntry(room, id, e.(reserved := e.reserved - {layer}, failed := true)), id), None)
    else
      (Touch(Accept(room, id, layer, t), id), Some(Accepted(e, layer, t).committed))
  }

  /** None means rejected or aborted; Some tells whether the entry became committed. */
  function PutLayerHost(st: Store, id: SegmentId, layer: int, t: Tensor): (Store, Result<Option<bool>, StoreError>) {
    if id !in st.entries then (st, Ok(None))
    else
      var e := st.entries[id];
      var cleared := e.(reserved := e.reserved - {layer});
      if !InRange(e, layer) then (st, Raise(LayerOutOfRange))
      else if e.failed then (DropIfIdle(WithEntry(st, id, cleared), id), Ok(None))
      else if e.committed then (WithEntry(st, id, cleared), Ok(Some(false)))
      else
        var (st', accepted) := PutOpen(st, id, layer, t);
        (st', Ok(accepted))
  }

  // ---------------------------------------------------------------- lookup and pins

  predicate IsCommitted(st: Store, id: SegmentId) {
    id in st.entries && st.entries[id].committed
  }

  function Validate(st: Store, segments: seq<BlendSegment>): (Store, seq<BlendSegment>)
    decreases |segments|
  {
    if segments == [] then (st, [])
    else
      var s := segments[0];
      if !IsCommitted(st, s.segmentId) then Validate(st, segments[1..])
      else
        var (st', rest) := Validate(Touch(st, s.segmentId), segments[1..]);
        (st', [s] + rest)
  }

  function Unpin(entries: map<SegmentId, Entry>, id: SegmentId): map<SegmentId, Entry> {
    if id in entries then
      var e := entries[id];
      entries[id := e.(pinCount := if e.pinCount - 1 < 0 then 0 else e.pinCount - 1)]
    else entries
  }

  function UnpinAll(entries: map<SegmentId, Entry>, ids: seq<SegmentId>): map<SegmentId, Entry>
    decreases |ids|
  {
    if ids == [] then entries else UnpinAll(Unpin(entries, ids[0]), ids[1..])
  }

  function PinsOf(st: Store, request: RequestId): seq<SegmentId> {
    if request in st.pins then st.pins[request] else []
  }

  function Release(st: Store, request: RequestId): Store {
    Evict(st.(pins := st.pins - {request}, entries := UnpinAll(st.entries, PinsOf(st, request))), 0, None)
  }

  function PinOne(st: Store, id: SegmentId): Store
    requires id in st.entries
  {
    Touch(WithEntry(st, id, st.entries[id].(pinCount := st.entries[id].pinCount + 1)), id)
  }

  /** The pinning loop: the state after it and the segments that were committed. */
  function PinLoop(st: Store, segments: seq<BlendSegment>): (Store, seq<BlendSegment>)
    decreases |segments|
  {
    if segments == [] then (st, [])
    else
      var s := segments[0];
      if !IsCommitted(st, s.segmentId) then PinLoop(st, segments[1..])
      else
        var (st', rest) := PinLoop(PinOne(st, s.segmentId), segments[1..]);
        (st', [s] + rest)
  }

  function SegmentIds(segments: seq<BlendSegment>): seq<SegmentId> {
    if segments == [] then [] else [segments[0].segmentId] + SegmentIds(segments[1..])
  }

  function Pin(st: Store, request: RequestId, segments: seq<BlendSegment>): (Store, seq<BlendSegment>) {
    var (st', valid) := PinLoop(Release(st, request), segments);
    (if valid == [] then st' else st'.(pins := st'.pins[request := SegmentIds(valid)]), valid)
  }

  function GetLayer(st: Store, request: RequestId, segment: BlendSegment, layer: int)
    : (Store, Result<Tensor, StoreError>) {
    var id := segment.segmentId;
    if id !in PinsOf(st, request) then (st, Raise(NotPinned))
    else if !IsCommitted(st, id) then (st, Raise(NotStored))
    else if layer !in st.entries[id].layers then (st, Raise(NotStored))
    else (Touch(st, id), Ok(st.entries[id].layers[layer]))
  }

  function Clear(st: Store): Store {
    st.(matcher := [], entries := map[], order := [], pins := map[], bytes := 0)
  }

  /** The monotonic clock moves on between operations. */
  function Tick(st: Store, elapsed: nat): Store {
    st.(clock := st.clock + elapsed)
  }

  // ---------------------------------------------------------------- runs

  datatype Op =
    | OpBeginPut(scope: string, sourceStart: int, tokens: seq<Token>, numLayers: int)
    | OpReserveLayer(id: SegmentId, layer: int)
    | OpCancelLayer(id: SegmentId, layer: int)
    | OpPutLayerHost(id: SegmentId, layer: int, tensor: Tensor)
    | OpAbortPut(id: SegmentId)
    | OpValidate(segments: seq<BlendSegment>)
    | OpPin(request: RequestId, segments: seq<BlendSegment>)
    | OpRelease(request: RequestId)
    | OpGetLayer(request: RequestId, segment: BlendSegment, layer: int)
    | OpClear
    | OpTick(elapsed: nat)

  function Apply(st: Store, op: Op): Store {
    match op
    case OpBeginPut(scope, sourceStart, tokens, numLayers) => BeginPut(st, scope, sourceStart, tokens, numLayers).0
    case OpReserveLayer(id, layer) => ReserveLayer(st, id, layer).0
    case OpCancelLayer(id, layer) => CancelLayer(st, id, layer)
    case OpPutLayerHost(id, layer, tensor) => PutLayerHost(st, id, layer, tensor).0
    case OpAbortPut(id) => AbortPut(st, id)
    case OpValidate(segments) => Validate(st, segments).0
    case OpPin(request, segments) => Pin(st, request, segments).0
    case OpRelease(request) => Release(st, request)
    case OpGetLayer(request, segment, layer) => GetLayer(st, request, segment, layer).0
    case OpClear => Clear(st)
    case OpTick(elapsed) => Tick(st, elapsed)
  }

  function Run(st: Store, ops: seq<Op>): Store
    decreases |ops|
  {
    if ops == [] then st else Run(Apply(st, ops[0]), ops[1..])
  }

  function Empty(chunkSize: nat, maxBytes: nat): Store {
    Store(chunkSize, maxBytes, [], map[], 0, map[], [], 0)
  }

  // ---------------------------------------------------------------- the invariant

  function LayerBytes(layers: map<int, Tensor>, n: nat): nat {
    if n == 0 then 0 else LayerBytes(layers, n - 1) + (if n - 1 in layers then layers[n - 1].bytes else 0)
  }

  ghost predicate EntryOk(chunkSize: nat, id: SegmentId, e: Entry) {
    && e.record.segmentId == id && e.record.Made(chunkSize) && e.numLayers > 0
    && (forall k :: k in e.layers ==> InRange(e, k))
    && (forall k :: k in e.reserved ==> InRange(e, k))
    && e.layers.Keys !! e.reserved
    && (e.committed <==> |e.layers| == e.numLayers)
    && (e.failed ==> !e.committed && e.reserved != {})
    && e.sizeBytes == LayerBytes(e.layers, e.numLayers)
    && (e.pinCount > 0 ==> e.committed)
  }

  ghost predicate Unique(order: seq<SegmentId>) {
    order == [] || (order[0] !in order[1..] && Unique(order[1..]))
  }

  function SizeOf(entries: map<SegmentId, Entry>, id: SegmentId): int {
    if id in entries then entries[id].sizeBytes else 0
  }

  function TotalBytes(order: seq<SegmentId>, entries: map<SegmentId, Entry>): int {
    if order == [] then 0 else SizeOf(entries, order[0]) + TotalBytes(order[1..], entries)
  }

  function AccessOf(entries: map<SegmentId, Entry>, id: SegmentId): nat {
    if id in entries then entries[id].lastAccess else 0
  }

  /** The dictionary order is the order of last use. */
  ghost predicate Recency(order: seq<SegmentId>, entries: map<SegmentId, Entry>, clock: nat) {
    order == [] || (AccessOf(entries, order[0]) <= clock
                    && (forall id :: id in order[1..] ==> AccessOf(entries, order[0]) <= AccessOf(entries, id))
                    && Recency(order[1..], entries, clock))
  }

  /** All pinned occurrences, over all requests and with multiplicity. */
  ghost function Occurrences(pins: map<RequestId, seq<SegmentId>>): multiset<SegmentId>
    decreases |pins|
  {
    if pins == map[] then multiset{}
    else
      var r :| r in pins;
      multiset(pins[r]) + Occurrences(pins - {r})
  }

  /** Pin counts are exactly the occurrences recorded for requests plus those a loop holds in hand. */
  ghost predicate PinsOk(entries: map<SegmentId, Entry>, pins: map<RequestId, seq<SegmentId>>,
                         held: multiset<SegmentId>) {
    && (forall id :: id in entries ==> entries[id].pinCount == (Occurrences(pins) + held)[id])
    && (forall id :: id !in entries ==> (Occurrences(pins) + held)[id] == 0)
    && (forall r :: r in pins ==> pins[r] != [])
  }

  /** The registered records are exactly those of the committed entries. */
  ghost predicate RegistryOk(entries: map<SegmentId, Entry>, matcher: Log) {
    && UniqueIds(matcher)
    && (forall r :: r in matcher ==>
          r.segmentId in entries && entries[r.segmentId].committed && entries[r.segmentId].record == r)
    && (forall id :: id in entries && entries[id].committed ==> entries[id].record in matcher)
  }

  ghost predicate EntriesOk(chunkSize: nat, entries: map<SegmentId, Entry>) {
    forall id :: id in entries ==> EntryOk(chunkSize, id, entries[id])
  }

  ghost predicate OrderOk(order: seq<SegmentId>, entries: map<SegmentId, Entry>) {
    Unique(order) && (forall id :: id in order <==> id in entries)
  }

  ghost predicate InvHolding(st: Store, held: multiset<SegmentId>) {
    && st.chunkSize > 0
    && EntriesOk(st.chunkSize, st.entries)
    && OrderOk(st.order, st.entries)
    && st.bytes == TotalBytes(st.order, st.entries) <= st.maxBytes
    && Recency(st.order, st.entries, st.clock)
    && PinsOk(st.entries, st.pins, held)
    && RegistryOk(st.entries, st.matcher)
  }

  ghost predicate Inv(st: Store) {
    InvHolding(st, multiset{})
  }
}
