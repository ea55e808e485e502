/** The eviction order, told from the run alone: entries stand in the order of their last uses, each stamped with its
    time. */
module StoreRecency {
  import opened Wrappers
  import opened Hashing
  import opened Types
  import opened Matching
  import opened StoreModel
  import opened StoreInvariants
  import opened StoreOperations
  import opened StoreTheorems
  import opened StoreEffects

  datatype Use = Use(id: SegmentId, time: nat)

  /** The ids an operation uses, in order: begun, filled, answered, pinned or read. */
  function UsedIds(st: Store, op: Op): seq<SegmentId> {
    match op
    case OpBeginPut(scope, sourceStart, tokens, numLayers) =>
      var r := BeginPut(st, scope, sourceStart, tokens, numLayers).1;
      if r.Ok? then [r.value] else []
    case OpPutLayerHost(id, layer, t) =>
      if id in st.entries && !st.entries[id].committed
        && PutLayerHost(st, id, layer, t).1 in {Ok(Some(false)), Ok(Some(true))}
      then [id] else []
    case OpValidate(segments) => SegmentIds(Validate(st, segments).1)
    case OpPin(request, segments) => SegmentIds(Pin(st, request, segments).1)
    case OpGetLayer(request, segment, layer) =>
      if GetLayer(st, request, segment, layer).1.Ok? then [segment.segmentId] else []
    case _ => []
  }

  function At(ids: seq<SegmentId>, time: nat): (uses: seq<Use>)
    ensures |uses| == |ids| && forall i :: 0 <= i < |ids| ==> uses[i] == Use(ids[i], time)
  {
    seq(|ids|, i requires 0 <= i < |ids| => Use(ids[i], time))
  }

  /** All uses of a run, each at the clock of its moment. */
  function UseLog(st: Store, ops: seq<Op>): seq<Use>
    decreases |ops|
  {
    if ops == [] then [] else At(UsedIds(st, ops[0]), st.clock) + UseLog(Apply(st, ops[0]), ops[1..])
  }

  /** Where an id is used last, or -1. */
  function LastUse(log: seq<Use>, id: SegmentId): (i: int)
    ensures -1 <= i < |log|
    ensures i >= 0 ==> log[i].id == id
    ensures forall j :: i < j < |log| ==> log[j].id != id
  {
    if log == [] then -1
    else if log[|log| - 1].id == id then |log| - 1
    else LastUse(log[..|log| - 1], id)
  }

  // ---------------------------------------------------------------- the order

  ghost predicate ByLastUse(order: seq<SegmentId>, log: seq<Use>) {
    order == [] || (
      && LastUse(log, order[0]) >= 0
      && (forall id :: id in order[1..] ==> LastUse(log, order[0]) < LastUse(log, id))
      && ByLastUse(order[1..], log))
  }

  ghost predicate Stamped(entries: Entries, log: seq<Use>) {
    forall id :: id in entries ==> LastUse(log, id) >= 0 && log[LastUse(log, id)].time == entries[id].lastAccess
  }

  lemma LastUseAppend(log: seq<Use>, use: Use, id: SegmentId)
    ensures LastUse(log + [use], id) == if use.id == id then |log| else LastUse(log, id)
  {
    assert (log + [use])[..|log|] == log;
  }

  lemma {:induction false} DropByUse(order: seq<SegmentId>, log: seq<Use>, id: SegmentId)
    requires ByLastUse(order, log)
    ensures ByLastUse(Drop(order, id), log)
  {
    if order != [] {
      DropByUse(order[1..], log, id);
      DropElements(order[1..], id);
      assert order[0] != id ==> Drop(order, id)[1..] == Drop(order[1..], id);
    }
  }

  lemma {:induction false} AppendByUse(order: seq<SegmentId>, log: seq<Use>, use: Use)
    requires ByLastUse(order, log) && use.id !in order
    ensures ByLastUse(order + [use.id], log + [use])
  {
    if order == [] {
      LastUseAppend(log, use, use.id);
      assert [] + [use.id] == [use.id];
    } else {
      AppendByUse(order[1..], log, use);
      assert (order + [use.id])[1..] == order[1..] + [use.id];
      forall id ensures LastUse(log + [use], id) == if use.id == id then |log| else LastUse(log, id) {
        LastUseAppend(log, use, id);
      }
    }
  }

  /** What the log says of a store. */
  ghost predicate InUseOrder(st: Store, log: seq<Use>) {
    ByLastUse(st.order, log) && Stamped(st.entries, log)
  }

  lemma TouchInOrder(st: Store, log: seq<Use>, id: SegmentId)
    requires InUseOrder(st, log) && id in st.entries
    ensures InUseOrder(Touch(st, id), log + [Use(id, st.clock)])
  {
    DropByUse(st.order, log, id);
    DropElements(st.order, id);
    AppendByUse(Drop(st.order, id), log, Use(id, st.clock));
    forall x ensures LastUse(log + [Use(id, st.clock)], x) == if id == x then |log| else LastUse(log, x) {
      LastUseAppend(log, Use(id, st.clock), x);
    }
  }

  lemma RemoveInOrder(st: Store, log: seq<Use>, id: SegmentId)
    requires InUseOrder(st, log) && id in st.entries
    ensures InUseOrder(Remove(st, id), log)
  {
    DropByUse(st.order, log, id);
  }

  lemma {:induction false} EvictInOrder(st: Store, log: seq<Use>, queue: seq<SegmentId>, required: int,
                                        exclude: Option<SegmentId>)
    requires InUseOrder(st, log)
    ensures InUseOrder(EvictLoop(st, queue, required, exclude), log)
    decreases |queue|
  {
    hide InUseOrder;
    if queue != [] && st.bytes + required > st.maxBytes {
      if CanEvict(st.entries, queue[0], exclude) {
        RemoveInOrder(st, log, queue[0]);
        EvictInOrder(Remove(st, queue[0]), log, queue[1..], required, exclude);
      } else {
        EvictInOrder(st, log, queue[1..], required, exclude);
      }
    }
  }

  /** Changing anything but the time of an entry leaves the order as it is. */
  lemma MarkInOrder(st: Store, log: seq<Use>, id: SegmentId, e: Entry)
    requires InUseOrder(st, log) && id in st.entries && e.lastAccess == st.entries[id].lastAccess
    ensures InUseOrder(WithEntry(st, id, e), log)
  {
  }

  lemma IdleInOrder(st: Store, log: seq<Use>, id: SegmentId, e: Entry)
    requires InUseOrder(st, log) && id in st.entries && e.lastAccess == st.entries[id].lastAccess
    ensures InUseOrder(DropIfIdle(WithEntry(st, id, e), id), log)
  {
    hide InUseOrder;
    MarkInOrder(st, log, id, e);
    RemoveInOrder(WithEntry(st, id, e), log, id);
  }

  lemma PutInOrder(st: Store, log: seq<Use>, id: SegmentId, layer: int, t: Tensor)
    requires InUseOrder(st, log)
    ensures InUseOrder(PutLayerHost(st, id, layer, t).0, log + At(UsedIds(st, OpPutLayerHost(id, layer, t)), st.clock))
  {
    hide InUseOrder, RoomFor;
    assert log + [] == log && At([id], st.clock) == [Use(id, st.clock)];
    if id in st.entries && InRange(st.entries[id], layer) {
      var e := st.entries[id];
      if e.failed || e.committed {
        IdleInOrder(st, log, id, e.(reserved := e.reserved - {layer}));
        MarkInOrder(st, log, id, e.(reserved := e.reserved - {layer}));
      } else {
        PutOpenInOrder(st, log, id, layer, t);
      }
    }
  }

  lemma PutOpenInOrder(st: Store, log: seq<Use>, id: SegmentId, layer: int, t: Tensor)
    requires InUseOrder(st, log) && id in st.entries
    ensures var (after, r) := PutOpen(st, id, layer, t);
            InUseOrder(after, if r.Some? then log + [Use(id, st.clock)] else log)
  {
    hide InUseOrder, RoomFor, DropIfIdle, Touch;
    var e := st.entries[id];
    var growth := t.bytes - PreviousBytes(e, layer);
    var room := RoomFor(st, id, growth);
    RoomInOrder(st, log, id, growth);
    RoomFrame(st, id, growth);
    if room.bytes + growth > st.maxBytes {
      IdleInOrder(room, log, id, e.(reserved := e.reserved - {layer}, failed := true));
    } else {
      AcceptInOrder(room, log, id, layer, t);
      TouchInOrder(Accept(room, id, layer, t), log, id);
    }
  }

  lemma AcceptInOrder(st: Store, log: seq<Use>, id: SegmentId, layer: int, t: Tensor)
    requires InUseOrder(st, log) && id in st.entries
    ensures InUseOrder(Accept(st, id, layer, t), log)
  {
  }

  lemma RoomInOrder(st: Store, log: seq<Use>, id: SegmentId, growth: int)
    requires InUseOrder(st, log)
    ensures InUseOrder(RoomFor(st, id, growth), log)
  {
    hide InUseOrder, EvictLoop;
    EvictInOrder(st, log, st.order, growth, Some(id));
  }

  lemma SplitLog(log: seq<Use>, id: SegmentId, ids: seq<SegmentId>, time: nat)
    ensures log + At([id] + ids, time) == log + [Use(id, time)] + At(ids, time)
  {
    assert At([id] + ids, time) == [Use(id, time)] + At(ids, time);
  }

  lemma {:induction false} ValidateInOrder(st: Store, log: seq<Use>, segments: seq<BlendSegment>)
    requires InUseOrder(st, log)
    ensures InUseOrder(Validate(st, segments).0, log + At(SegmentIds(Validate(st, segments).1), st.clock))
    decreases |segments|
  {
    hide InUseOrder, At;
    if segments == [] {
      assert At([], st.clock) == [] && log + [] == log;
    } else {
      var id := segments[0].segmentId;
      if IsCommitted(st, id) {
        TouchInOrder(st, log, id);
        ValidateInOrder(Touch(st, id), log + [Use(id, st.clock)], segments[1..]);
        SplitLog(log, id, SegmentIds(Validate(Touch(st, id), segments[1..]).1), st.clock);
        SegmentIdsCons(segments[0], Validate(Touch(st, id), segments[1..]).1);
      } else {
        ValidateInOrder(st, log, segments[1..]);
      }
    }
  }

  lemma SegmentIdsCons(s: BlendSegment, rest: seq<BlendSegment>)
    ensures SegmentIds([s] + rest) == [s.segmentId] + SegmentIds(rest)
  {
    assert ([s] + rest)[1..] == rest;
  }

  lemma {:induction false} PinLoopInOrder(st: Store, log: seq<Use>, segments: seq<BlendSegment>)
    requires InUseOrder(st, log)
    ensures InUseOrder(PinLoop(st, segments).0, log + At(SegmentIds(PinLoop(st, segments).1), st.clock))
    decreases |segments|
  {
    hide InUseOrder, At;
    if segments == [] {
      assert At([], st.clock) == [] && log + [] == log;
    } else {
      var id := segments[0].segmentId;
      if IsCommitted(st, id) {
        var counted := WithEntry(st, id, st.entries[id].(pinCount := st.entries[id].pinCount + 1));
        MarkInOrder(st, log, id, counted.entries[id]);
        TouchInOrder(counted, log, id);
        PinLoopInOrder(PinOne(st, id), log + [Use(id, st.clock)], segments[1..]);
        SplitLog(log, id, SegmentIds(PinLoop(PinOne(st, id), segments[1..]).1), st.clock);
        SegmentIdsCons(segments[0], PinLoop(PinOne(st, id), segments[1..]).1);
      } else {
        PinLoopInOrder(st, log, segments[1..]);
      }
    }
  }

  lemma ReleaseInOrder(st: Store, log: seq<Use>, request: RequestId)
    requires Inv(st) && InUseOrder(st, log)
    ensures InUseOrder(Release(st, request), log) && Release(st, request).clock == st.clock
  {
    hide Inv, Release;
    ReleaseKeeps(st, request);
  }

  lemma InsertInOrder(st: Store, log: seq<Use>, id: SegmentId, e: Entry)
    requires InUseOrder(st, log) && id !in st.order && e.lastAccess == st.clock
    ensures InUseOrder(st.(entries := st.entries[id := e], order := st.order + [id]), log + [Use(id, st.clock)])
  {
    AppendByUse(st.order, log, Use(id, st.clock));
    forall x ensures LastUse(log + [Use(id, st.clock)], x) == if id == x then |log| else LastUse(log, x) {
      LastUseAppend(log, Use(id, st.clock), x);
    }
  }

  lemma BeginInOrder(st: Store, log: seq<Use>, scope: string, sourceStart: int, tokens: seq<Token>, numLayers: int)
    requires Inv(st) && InUseOrder(st, log)
    ensures InUseOrder(BeginPut(st, scope, sourceStart, tokens, numLayers).0,
                       log + At(UsedIds(st, OpBeginPut(scope, sourceStart, tokens, numLayers)), st.clock))
  {
    hide Inv, HashOf, InUseOrder, Touch;
    var id := RecordOf(scope, sourceStart, tokens).segmentId;
    OrderListsEntries(st);
    assert log + [] == log && At([id], st.clock) == [Use(id, st.clock)];
    if id in st.entries {
      TouchInOrder(st, log, id);
    } else if numLayers > 0 {
      InsertInOrder(st, log, id, Entry(RecordOf(scope, sourceStart, tokens), numLayers, map[], {}, 0, 0, false, false,
                                       st.clock));
    }
  }

  lemma StepInOrder(st: Store, log: seq<Use>, op: Op)
    requires Inv(st) && InUseOrder(st, log)
    ensures InUseOrder(Apply(st, op), log + At(UsedIds(st, op), st.clock))
  {
    hide Inv, InUseOrder, PutLayerHost, BeginPut, Validate, Release, PinLoop, DropIfIdle;
    assert log + [] == log;
    match op
    case OpBeginPut(scope, sourceStart, tokens, numLayers) =>
      BeginInOrder(st, log, scope, sourceStart, tokens, numLayers);
    case OpReserveLayer(id, layer) =>
      if id in st.entries { MarkInOrder(st, log, id, st.entries[id].(reserved := st.entries[id].reserved + {layer})); }
    case OpCancelLayer(id, layer) =>
      if id in st.entries {
        var e := st.entries[id];
        IdleInOrder(st, log, id, e.(reserved := e.reserved - {layer}, failed := e.failed || !e.committed));
      }
    case OpPutLayerHost(id, layer, t) => PutInOrder(st, log, id, layer, t);
    case OpAbortPut(id) => if id in st.entries { IdleInOrder(st, log, id, st.entries[id].(failed := true)); }
    case OpValidate(segments) => ValidateInOrder(st, log, segments);
    case OpPin(request, segments) => PinInOrder(st, log, request, segments);
    case OpRelease(request) => ReleaseInOrder(st, log, request);
    case OpGetLayer(request, segment, layer) => GetInOrder(st, log, request, segment, layer);
    case OpClear => ClearInOrder(st, log);
    case OpTick(elapsed) => TickInOrder(st, log, elapsed);
  }

  lemma PinInOrder(st: Store, log: seq<Use>, request: RequestId, segments: seq<BlendSegment>)
    requires Inv(st) && InUseOrder(st, log)
    ensures InUseOrder(Pin(st, request, segments).0, log + At(SegmentIds(Pin(st, request, segments).1), st.clock))
  {
    hide Inv, Release;
    ReleaseInOrder(st, log, request);
    PinLoopInOrder(Release(st, request), log, segments);
  }

  lemma GetInOrder(st: Store, log: seq<Use>, request: RequestId, segment: BlendSegment, layer: int)
    requires InUseOrder(st, log)
    ensures InUseOrder(GetLayer(st, request, segment, layer).0,
                       log + At(UsedIds(st, OpGetLayer(request, segment, layer)), st.clock))
  {
    hide InUseOrder, Touch;
    var id := segment.segmentId;
    assert log + [] == log && At([id], st.clock) == [Use(id, st.clock)];
    if id in st.entries { TouchInOrder(st, log, id); }
  }

  lemma ClearInOrder(st: Store, log: seq<Use>)
    ensures InUseOrder(Clear(st), log)
  {
  }

  lemma TickInOrder(st: Store, log: seq<Use>, elapsed: nat)
    requires InUseOrder(st, log)
    ensures InUseOrder(Tick(st, elapsed), log)
  {
  }

  lemma {:induction false} RunInOrder(st: Store, log: seq<Use>, ops: seq<Op>)
    requires Inv(st) && InUseOrder(st, log)
    ensures InUseOrder(Run(st, ops), log + UseLog(st, ops))
    decreases |ops|
  {
    hide Inv, InUseOrder, Apply, UsedIds, At;
    if ops == [] {
      assert log + [] == log;
    } else {
      var more := At(UsedIds(st, ops[0]), st.clock);
      ApplyKeeps(st, ops[0]);
      StepInOrder(st, log, ops[0]);
      RunInOrder(Apply(st, ops[0]), log + more, ops[1..]);
      assert log + more + UseLog(Apply(st, ops[0]), ops[1..]) == log + (more + UseLog(Apply(st, ops[0]), ops[1..]));
    }
  }

  lemma {:induction false} ByLastUseAt(order: seq<SegmentId>, log: seq<Use>)
    requires ByLastUse(order, log)
    ensures forall i, j :: 0 <= i < j < |order| ==> LastUse(log, order[i]) < LastUse(log, order[j])
  {
    if order != [] {
      ByLastUseAt(order[1..], log);
      forall i, j | 0 <= i < j < |order| ensures LastUse(log, order[i]) < LastUse(log, order[j]) {
        if i == 0 {
          assert order[j] == order[1..][j - 1];
        } else {
          assert order[1..][i - 1] == order[i] && order[1..][j - 1] == order[j];
        }
      }
    }
  }

  /** In every reachable state the entries stand in the order of their last uses in the run, and each carries the time
      of its last use; so the eviction order is least recently used first. */
  lemma OrderIsLastUse(chunkSize: nat, maxBytes: nat, ops: seq<Op>)
    requires chunkSize > 0
    ensures var st := Run(Empty(chunkSize, maxBytes), ops);
            var log := UseLog(Empty(chunkSize, maxBytes), ops);
            && (forall id :: id in st.order <==> id in st.entries)
            && (forall i, j :: 0 <= i < j < |st.order| ==> LastUse(log, st.order[i]) < LastUse(log, st.order[j]))
            && (forall id :: id in st.entries ==>
                  LastUse(log, id) >= 0 && log[LastUse(log, id)].time == st.entries[id].lastAccess)
  {
    hide Inv, Run, UseLog;
    var start := Empty(chunkSize, maxBytes);
    EmptyIsSound(chunkSize, maxBytes);
    RunKeeps(start, ops);
    OrderListsEntries(Run(start, ops));
    RunInOrder(start, [], ops);
    assert [] + UseLog(start, ops) == UseLog(start, ops);
    ByLastUseAt(Run(start, ops).order, UseLog(start, ops));
  }

  /** The time that passes in a run. */
  function Elapsed(ops: seq<Op>): nat {
    if ops == [] then 0 else (if ops[0].OpTick? then ops[0].elapsed else 0) + Elapsed(ops[1..])
  }

  lemma ApplyClock(st: Store, op: Op)
    requires Inv(st)
    ensures Apply(st, op).clock == st.clock + if op.OpTick? then op.elapsed else 0
  {
    hide Inv, HashOf, Drop, PutLayerHost, Validate, Release, PinLoop;
    match op
    case OpPutLayerHost(id, layer, t) => PutClock(st, id, layer, t);
    case OpValidate(segments) => ValidateClock(st, segments);
    case OpPin(request, segments) =>
      ReleaseKeeps(st, request);
      PinLoopClock(Release(st, request), segments);
    case OpRelease(request) => ReleaseKeeps(st, request);
    case _ =>
  }

  lemma PutClock(st: Store, id: SegmentId, layer: int, t: Tensor)
    ensures PutLayerHost(st, id, layer, t).0.clock == st.clock
  {
    hide RoomFor, PreviousBytes, Accepted, Drop;
    if id in st.entries { RoomFrame(st, id, t.bytes - PreviousBytes(st.entries[id], layer)); }
  }

  lemma {:induction false} ValidateClock(st: Store, segments: seq<BlendSegment>)
    ensures Validate(st, segments).0.clock == st.clock
    decreases |segments|
  {
    if segments != [] {
      var id := segments[0].segmentId;
      ValidateClock(if IsCommitted(st, id) then Touch(st, id) else st, segments[1..]);
    }
  }

  lemma {:induction false} PinLoopClock(st: Store, segments: seq<BlendSegment>)
    ensures PinLoop(st, segments).0.clock == st.clock
    decreases |segments|
  {
    if segments != [] {
      var id := segments[0].segmentId;
      PinLoopClock(if IsCommitted(st, id) then PinOne(st, id) else st, segments[1..]);
    }
  }

  /** The clock is the time that has passed, so the stamps of uses are comparable across a run. */
  lemma {:induction false} ClockIsElapsedTime(st: Store, ops: seq<Op>)
    requires Inv(st)
    ensures Run(st, ops).clock == st.clock + Elapsed(ops)
    decreases |ops|
  {
    hide Inv, Apply;
    if ops != [] {
      ApplyKeeps(st, ops[0]);
      ApplyClock(st, ops[0]);
      ClockIsElapsedTime(Apply(st, ops[0]), ops[1..]);
    }
  }
}
