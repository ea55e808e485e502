/** Every operation of the store keeps the invariant, so it holds in every reachable state. */
module StoreInvariants {
  import opened Wrappers
  import opened Hashing
  import opened Types
  import opened Matching
  import opened StoreModel

  type Entries = map<SegmentId, Entry>

  // ---------------------------------------------------------------- the order

  lemma {:induction false} DropElements(order: seq<SegmentId>, id: SegmentId)
    ensures forall x :: x in Drop(order, id) <==> x in order && x != id
  {
    if order != [] {
      DropElements(order[1..], id);
    }
  }

  lemma {:induction false} DropUnique(order: seq<SegmentId>, id: SegmentId)
    requires Unique(order)
    ensures Unique(Drop(order, id))
  {
    if order != [] {
      DropUnique(order[1..], id);
      DropElements(order[1..], id);
      assert order[0] != id ==> Drop(order, id)[1..] == Drop(order[1..], id);
    }
  }

  lemma {:induction false} AppendUnique(order: seq<SegmentId>, id: SegmentId)
    requires Unique(order) && id !in order
    ensures Unique(order + [id])
  {
    if order != [] {
      AppendUnique(order[1..], id);
      assert (order + [id])[1..] == order[1..] + [id];
    }
  }

  lemma {:induction false} DropAbsent(order: seq<SegmentId>, id: SegmentId)
    requires id !in order
    ensures Drop(order, id) == order
  {
    if order != [] {
      DropAbsent(order[1..], id);
    }
  }

  lemma {:induction false} TotalAgree(order: seq<SegmentId>, a: Entries, b: Entries)
    requires forall id :: id in order ==> SizeOf(a, id) == SizeOf(b, id)
    ensures TotalBytes(order, a) == TotalBytes(order, b)
  {
    if order != [] {
      TotalAgree(order[1..], a, b);
    }
  }

  lemma {:induction false} TotalDrop(order: seq<SegmentId>, entries: Entries, id: SegmentId)
    requires Unique(order) && id in order
    ensures TotalBytes(order, entries) == TotalBytes(Drop(order, id), entries) + SizeOf(entries, id)
  {
    if order[0] == id {
      DropAbsent(order[1..], id);
    } else {
      TotalDrop(order[1..], entries, id);
      assert Drop(order, id)[1..] == Drop(order[1..], id);
    }
  }

  lemma {:induction false} TotalAppend(order: seq<SegmentId>, id: SegmentId, entries: Entries)
    ensures TotalBytes(order + [id], entries) == TotalBytes(order, entries) + SizeOf(entries, id)
  {
    if order == [] {
      assert [] + [id] == [id];
    } else {
      TotalAppend(order[1..], id, entries);
      assert (order + [id])[1..] == order[1..] + [id];
    }
  }

  lemma {:induction false} RecencyAgree(order: seq<SegmentId>, a: Entries, b: Entries, clock: nat)
    requires Recency(order, a, clock)
    requires forall id :: id in order ==> AccessOf(a, id) == AccessOf(b, id)
    ensures Recency(order, b, clock)
  {
    if order != [] {
      RecencyAgree(order[1..], a, b, clock);
    }
  }

  lemma {:induction false} RecencyDrop(order: seq<SegmentId>, entries: Entries, clock: nat, id: SegmentId)
    requires Recency(order, entries, clock)
    ensures Recency(Drop(order, id), entries, clock)
  {
    if order != [] {
      RecencyDrop(order[1..], entries, clock, id);
      DropElements(order[1..], id);
      assert order[0] != id ==> Drop(order, id)[1..] == Drop(order[1..], id);
    }
  }

  lemma {:induction false} RecencyAppend(order: seq<SegmentId>, entries: Entries, clock: nat, id: SegmentId)
    requires Recency(order, entries, clock) && AccessOf(entries, id) == clock
    ensures Recency(order + [id], entries, clock)
  {
    if order == [] {
      assert [] + [id] == [id];
    } else {
      RecencyAppend(order[1..], entries, clock, id);
      assert (order + [id])[1..] == order[1..] + [id];
    }
  }

  lemma {:induction false} RecencyLater(order: seq<SegmentId>, entries: Entries, clock: nat, later: nat)
    requires Recency(order, entries, clock) && clock <= later
    ensures Recency(order, entries, later)
  {
    if order != [] {
      RecencyLater(order[1..], entries, clock, later);
    }
  }

  // ---------------------------------------------------------------- layers of one entry

  lemma {:induction false} LayerBytesUpdate(layers: map<int, Tensor>, n: nat, k: int, t: Tensor)
    ensures LayerBytes(layers[k := t], n)
            == LayerBytes(layers, n) + if 0 <= k < n then t.bytes - (if k in layers then layers[k].bytes else 0) else 0
  {
    if n > 0 {
      LayerBytesUpdate(layers, n - 1, k, t);
    }
  }

  /** A full count leaves no layer out: the stored layers are exactly 0 .. n. */
  lemma FullCountIsAllLayers(layers: map<int, Tensor>, n: nat)
    requires forall k :: k in layers ==> 0 <= k < n
    ensures |layers| <= n
    ensures |layers| == n ==> layers.Keys == Interval(0, n)
  {
    assert |layers| == |layers.Keys|;
    IntervalSize(0, n);
    SubsetSize(layers.Keys, Interval(0, n));
  }

  lemma {:induction false} SubsetSize<T>(a: set<T>, b: set<T>)
    requires a <= b
    ensures |a| <= |b|
    ensures |a| == |b| ==> a == b
  {
    assert b == a + (b - a);
    assert |b| == |a| + |b - a|;
    if |a| == |b| { assert b - a == {}; }
  }

  lemma CommittedEntryIsComplete(chunkSize: nat, id: SegmentId, e: Entry)
    requires EntryOk(chunkSize, id, e) && e.committed
    ensures e.layers.Keys == Interval(0, e.numLayers) && e.reserved == {} && !e.failed
  {
    FullCountIsAllLayers(e.layers, e.numLayers);
    forall k ensures k !in e.reserved {
      assert k in e.layers.Keys <==> k in Interval(0, e.numLayers);
    }
  }

  // ---------------------------------------------------------------- pinned occurrences

  lemma {:induction false} OccurrencesSplit(pins: map<RequestId, seq<SegmentId>>, r: RequestId)
    requires r in pins
    ensures Occurrences(pins) == multiset(pins[r]) + Occurrences(pins - {r})
    decreases |pins|
  {
    var q :| q in pins && Occurrences(pins) == multiset(pins[q]) + Occurrences(pins - {q});
    if q != r {
      OccurrencesSplit(pins - {q}, r);
      OccurrencesSplit(pins - {r}, q);
      assert pins - {q} - {r} == pins - {r} - {q};
    }
  }

  lemma OccurrencesSet(pins: map<RequestId, seq<SegmentId>>, r: RequestId, ids: seq<SegmentId>)
    requires r !in pins
    ensures Occurrences(pins[r := ids]) == multiset(ids) + Occurrences(pins)
  {
    OccurrencesSplit(pins[r := ids], r);
    assert pins[r := ids] - {r} == pins;
  }

  // ---------------------------------------------------------------- primitive steps

  lemma EntriesSet(chunkSize: nat, entries: Entries, id: SegmentId, e: Entry)
    requires EntriesOk(chunkSize, entries) && EntryOk(chunkSize, id, e)
    ensures EntriesOk(chunkSize, entries[id := e])
  {
    hide EntryOk;
  }

  lemma EntryAt(chunkSize: nat, entries: Entries, id: SegmentId)
    requires EntriesOk(chunkSize, entries) && id in entries
    ensures EntryOk(chunkSize, id, entries[id])
  {
  }

  lemma RecordNames(chunkSize: nat, entries: Entries)
    requires EntriesOk(chunkSize, entries)
    ensures forall x :: x in entries ==> entries[x].record.segmentId == x
  {
    forall x | x in entries ensures entries[x].record.segmentId == x {
      EntryAt(chunkSize, entries, x);
    }
  }

  lemma OrderSet(order: seq<SegmentId>, entries: Entries, id: SegmentId, e: Entry)
    requires OrderOk(order, entries) && id in entries
    ensures OrderOk(order, entries[id := e])
  {
    hide Unique;
  }

  lemma PinsSet(entries: Entries, pins: map<RequestId, seq<SegmentId>>, held: multiset<SegmentId>, id: SegmentId,
                e: Entry)
    requires PinsOk(entries, pins, held) && id in entries && e.pinCount == entries[id].pinCount
    ensures PinsOk(entries[id := e], pins, held)
  {
    hide Occurrences;
  }

  lemma BytesSet(order: seq<SegmentId>, entries: Entries, id: SegmentId, e: Entry)
    requires OrderOk(order, entries) && id in entries
    ensures TotalBytes(order, entries[id := e]) == TotalBytes(order, entries) + e.sizeBytes - entries[id].sizeBytes
  {
    hide TotalBytes, Drop;
    var after := entries[id := e];
    DropElements(order, id);
    TotalDrop(order, entries, id);
    TotalDrop(order, after, id);
    TotalAgree(Drop(order, id), entries, after);
  }

  lemma RecencySet(order: seq<SegmentId>, entries: Entries, clock: nat, id: SegmentId, e: Entry)
    requires Recency(order, entries, clock) && id in entries && e.lastAccess == entries[id].lastAccess
    ensures Recency(order, entries[id := e], clock)
  {
    hide Recency;
    RecencyAgree(order, entries, entries[id := e], clock);
  }

  /** Rewriting one entry without touching its pins or its place, possibly committing it. */
  lemma UpdateKeeps(st: Store, held: multiset<SegmentId>, id: SegmentId, e: Entry, matcher: Log)
    requires InvHolding(st, held) && id in st.entries && EntryOk(st.chunkSize, id, e)
    requires var was := st.entries[id];
             && e.record == was.record && e.pinCount == was.pinCount && e.lastAccess == was.lastAccess
             && (was.committed ==> e.committed)
             && matcher == (if e.committed then Registered(st.matcher, was.record) else st.matcher)
             && st.bytes + e.sizeBytes - was.sizeBytes <= st.maxBytes
    ensures InvHolding(WithEntry(st, id, e).(bytes := st.bytes + e.sizeBytes - st.entries[id].sizeBytes,
                                             matcher := matcher), held)
  {
    hide EntriesOk, EntryOk, OrderOk, Recency, PinsOk, RegistryOk, TotalBytes;
    EntriesSet(st.chunkSize, st.entries, id, e);
    OrderSet(st.order, st.entries, id, e);
    BytesSet(st.order, st.entries, id, e);
    RecencySet(st.order, st.entries, st.clock, id, e);
    PinsSet(st.entries, st.pins, held, id, e);
    RecordNames(st.chunkSize, st.entries);
    RegisterKeeps(st.entries, st.matcher, id, e);
  }

  lemma RegisterKeeps(entries: Entries, matcher: Log, id: SegmentId, e: Entry)
    requires RegistryOk(entries, matcher) && id in entries && e.record.segmentId == id
    requires e.record == entries[id].record && (entries[id].committed ==> e.committed)
    requires forall x :: x in entries ==> entries[x].record.segmentId == x
    ensures RegistryOk(entries[id := e], if e.committed then Registered(matcher, e.record) else matcher)
  {
    hide Registered, UniqueIds;
    if e.committed == entries[id].committed {
      if e.committed { RegisteredAgain(entries, matcher, id); }
      RegistrySame(entries, matcher, id, e);
    } else {
      RegistryGrows(entries, matcher, id, e);
    }
  }

  lemma RegisteredAgain(entries: Entries, matcher: Log, id: SegmentId)
    requires RegistryOk(entries, matcher) && id in entries && entries[id].committed
    ensures Registered(matcher, entries[id].record) == matcher
  {
    hide UniqueIds;
  }

  /** The same commitment and record give the same registry. */
  lemma RegistrySame(entries: Entries, matcher: Log, id: SegmentId, e: Entry)
    requires RegistryOk(entries, matcher) && id in entries && e.record == entries[id].record
    requires e.committed == entries[id].committed
    ensures RegistryOk(entries[id := e], matcher)
  {
    hide UniqueIds;
    var after := entries[id := e];
    forall x | x in after && after[x].committed ensures after[x].record in matcher {
      assert entries[x].committed && entries[x].record in matcher;
    }
  }

  /** A record whose id is not registered yet is appended. */
  lemma RegisteredNew(matcher: Log, record: FingerprintRecord)
    requires UniqueIds(matcher) && forall r :: r in matcher ==> r.segmentId != record.segmentId
    ensures Registered(matcher, record) == matcher + [record] && UniqueIds(matcher + [record])
  {
    WithoutAbsent(matcher, record.segmentId);
    forall i | 0 <= i < |matcher| ensures matcher[i].segmentId != record.segmentId {
      assert matcher[i] in matcher;
    }
  }

  /** Committing an entry appends its record, which was not registered before. */
  lemma RegistryGrows(entries: Entries, matcher: Log, id: SegmentId, e: Entry)
    requires RegistryOk(entries, matcher) && id in entries && e.record == entries[id].record && e.record.segmentId == id
    requires e.committed && !entries[id].committed
    requires forall x :: x in entries ==> entries[x].record.segmentId == x
    ensures RegistryOk(entries[id := e], Registered(matcher, e.record))
  {
    hide UniqueIds, Registered;
    RegisteredNew(matcher, e.record);
    var after, grown := entries[id := e], matcher + [e.record];
    forall x | x in after && after[x].committed ensures after[x].record in grown {
      if x != id { assert entries[x].record in matcher; }
    }
  }

  /** What is left of the order without `id`, read in a map that agrees everywhere else. */
  lemma OrderRest(order: seq<SegmentId>, entries: Entries, clock: nat, id: SegmentId, after: Entries)
    requires OrderOk(order, entries) && id in order && Recency(order, entries, clock)
    requires forall x :: x != id && x in order ==>
        SizeOf(after, x) == SizeOf(entries, x) && AccessOf(after, x) == AccessOf(entries, x)
    ensures var rest := Drop(order, id);
            && Unique(rest) && (forall x :: x in rest <==> x in order && x != id)
            && TotalBytes(rest, after) == TotalBytes(order, entries) - SizeOf(entries, id)
            && Recency(rest, after, clock)
  {
    hide Recency, TotalBytes, Drop, Unique;
    var rest := Drop(order, id);
    DropElements(order, id);
    DropUnique(order, id);
    TotalDrop(order, entries, id);
    TotalAgree(rest, entries, after);
    RecencyDrop(order, entries, clock, id);
    RecencyAgree(rest, entries, after, clock);
  }

  lemma TouchOrder(order: seq<SegmentId>, entries: Entries, clock: nat, id: SegmentId, after: Entries)
    requires OrderOk(order, entries) && id in order && Recency(order, entries, clock)
    requires after.Keys == entries.Keys && AccessOf(after, id) == clock
    requires forall x :: x in order ==>
               SizeOf(after, x) == SizeOf(entries, x) && (x != id ==> AccessOf(after, x) == AccessOf(entries, x))
    ensures var moved := MoveToEnd(order, id);
            OrderOk(moved, after) && Recency(moved, after, clock)
              && TotalBytes(moved, after) == TotalBytes(order, entries)
  {
    hide Recency, TotalBytes, Drop, Unique;
    OrderRest(order, entries, clock, id, after);
    var rest := Drop(order, id);
    AppendUnique(rest, id);
    TotalAppend(rest, id, after);
    RecencyAppend(rest, after, clock, id);
  }

  lemma TouchKeeps(st: Store, held: multiset<SegmentId>, id: SegmentId)
    requires InvHolding(st, held) && id in st.entries
    ensures InvHolding(Touch(st, id), held)
  {
    hide EntriesOk, EntryOk, Recency, PinsOk, RegistryOk, TotalBytes, MoveToEnd;
    var e := st.entries[id].(lastAccess := st.clock);
    TouchEntry(st.chunkSize, st.entries, id, st.clock);
    TouchOrder(st.order, st.entries, st.clock, id, st.entries[id := e]);
    PinsSet(st.entries, st.pins, held, id, e);
    TouchRegistry(st.entries, st.matcher, id, st.clock);
  }

  lemma TouchEntry(chunkSize: nat, entries: Entries, id: SegmentId, clock: nat)
    requires EntriesOk(chunkSize, entries) && id in entries
    ensures EntriesOk(chunkSize, entries[id := entries[id].(lastAccess := clock)])
  {
    EntryAt(chunkSize, entries, id);
    EntriesSet(chunkSize, entries, id, entries[id].(lastAccess := clock));
  }

  lemma TouchRegistry(entries: Entries, matcher: Log, id: SegmentId, clock: nat)
    requires RegistryOk(entries, matcher) && id in entries
    ensures RegistryOk(entries[id := entries[id].(lastAccess := clock)], matcher)
  {
    RegistrySame(entries, matcher, id, entries[id].(lastAccess := clock));
  }

  lemma RemoveEntry(chunkSize: nat, entries: Entries, id: SegmentId)
    requires EntriesOk(chunkSize, entries)
    ensures EntriesOk(chunkSize, entries - {id})
  {
    hide EntryOk;
  }

  lemma RemovePins(entries: Entries, pins: map<RequestId, seq<SegmentId>>, held: multiset<SegmentId>, id: SegmentId)
    requires PinsOk(entries, pins, held) && id in entries && entries[id].pinCount == 0
    ensures PinsOk(entries - {id}, pins, held)
  {
    hide Occurrences;
  }

  lemma RemoveKeeps(st: Store, held: multiset<SegmentId>, id: SegmentId)
    requires InvHolding(st, held) && id in st.entries && st.entries[id].pinCount == 0
    ensures InvHolding(Remove(st, id), held)
  {
    hide EntriesOk, EntryOk, Recency, PinsOk, RegistryOk, TotalBytes, Unique, Drop;
    SizesAreNat(st.chunkSize, st.entries, id);
    RemoveEntry(st.chunkSize, st.entries, id);
    OrderRest(st.order, st.entries, st.clock, id, st.entries - {id});
    RemovePins(st.entries, st.pins, held, id);
    RecordNames(st.chunkSize, st.entries);
    UnregisterKeeps(st.entries, st.matcher, id);
  }

  lemma SizesAreNat(chunkSize: nat, entries: Entries, id: SegmentId)
    requires EntriesOk(chunkSize, entries) && id in entries
    ensures entries[id].sizeBytes >= 0
  {
    EntryAt(chunkSize, entries, id);
  }

  lemma UnregisterKeeps(entries: Entries, matcher: Log, id: SegmentId)
    requires RegistryOk(entries, matcher)
    requires forall x :: x in entries ==> entries[x].record.segmentId == x
    ensures RegistryOk(entries - {id}, Without(matcher, id))
  {
    WithoutElements(matcher, id);
  }

  lemma InsertRegistry(entries: Entries, matcher: Log, id: SegmentId, e: Entry)
    requires RegistryOk(entries, matcher) && id !in entries && !e.committed
    ensures RegistryOk(entries[id := e], matcher)
  {
    var after := entries[id := e];
    forall x | x in after && after[x].committed ensures after[x].record in matcher {
      assert x != id && entries[x].record in matcher;
    }
  }

  lemma InsertPins(entries: Entries, pins: map<RequestId, seq<SegmentId>>, held: multiset<SegmentId>, id: SegmentId,
                   e: Entry)
    requires PinsOk(entries, pins, held) && id !in entries && e.pinCount == 0
    ensures PinsOk(entries[id := e], pins, held)
  {
    hide Occurrences;
  }

  lemma InsertOrder(order: seq<SegmentId>, entries: Entries, clock: nat, id: SegmentId, e: Entry)
    requires OrderOk(order, entries) && id !in entries && Recency(order, entries, clock) && e.lastAccess == clock
    requires e.sizeBytes == 0
    ensures var after := entries[id := e];
            OrderOk(order + [id], after) && Recency(order + [id], after, clock)
              && TotalBytes(order + [id], after) == TotalBytes(order, entries)
  {
    hide Recency, TotalBytes, Unique;
    var after := entries[id := e];
    AppendUnique(order, id);
    TotalAgree(order, entries, after);
    TotalAppend(order, id, after);
    RecencyAgree(order, entries, after, clock);
    RecencyAppend(order, after, clock, id);
  }

  lemma InsertKeeps(st: Store, held: multiset<SegmentId>, id: SegmentId, e: Entry)
    requires InvHolding(st, held) && id !in st.entries && EntryOk(st.chunkSize, id, e)
    requires !e.committed && e.pinCount == 0 && e.sizeBytes == 0 && e.lastAccess == st.clock
    ensures InvHolding(st.(entries := st.entries[id := e], order := st.order + [id]), held)
  {
    hide EntriesOk, EntryOk, OrderOk, Recency, PinsOk, RegistryOk, TotalBytes;
    EntriesSet(st.chunkSize, st.entries, id, e);
    InsertOrder(st.order, st.entries, st.clock, id, e);
    InsertPins(st.entries, st.pins, held, id, e);
    InsertRegistry(st.entries, st.matcher, id, e);
  }

  /** Changing one pin count together with the occurrences in hand. */
  lemma PinCountKeeps(st: Store, held: multiset<SegmentId>, id: SegmentId, count: int, held': multiset<SegmentId>)
    requires InvHolding(st, held) && IsCommitted(st, id) && count >= 0
    requires forall x :: x != id ==> held'[x] == held[x]
    requires held'[id] + st.entries[id].pinCount == held[id] + count
    ensures InvHolding(WithEntry(st, id, st.entries[id].(pinCount := count)), held')
  {
    hide EntriesOk, EntryOk, OrderOk, Recency, PinsOk, RegistryOk, TotalBytes;
    var e := st.entries[id].(pinCount := count);
    PinCountEntry(st.chunkSize, st.entries, id, count);
    OrderSet(st.order, st.entries, id, e);
    BytesSet(st.order, st.entries, id, e);
    RecencySet(st.order, st.entries, st.clock, id, e);
    PinCountRegistry(st.entries, st.matcher, id, count);
    PinCountPins(st.entries, st.pins, held, id, count, held');
  }

  lemma PinCountEntry(chunkSize: nat, entries: Entries, id: SegmentId, count: int)
    requires EntriesOk(chunkSize, entries) && id in entries && entries[id].committed && count >= 0
    ensures EntriesOk(chunkSize, entries[id := entries[id].(pinCount := count)])
  {
    EntryAt(chunkSize, entries, id);
    EntriesSet(chunkSize, entries, id, entries[id].(pinCount := count));
  }

  lemma PinCountRegistry(entries: Entries, matcher: Log, id: SegmentId, count: int)
    requires RegistryOk(entries, matcher) && id in entries
    ensures RegistryOk(entries[id := entries[id].(pinCount := count)], matcher)
  {
    RegistrySame(entries, matcher, id, entries[id].(pinCount := count));
  }

  lemma PinCountPins(entries: Entries, pins: map<RequestId, seq<SegmentId>>, held: multiset<SegmentId>, id: SegmentId,
                     count: int, held': multiset<SegmentId>)
    requires PinsOk(entries, pins, held) && id in entries
    requires forall x :: x != id ==> held'[x] == held[x]
    requires held'[id] + entries[id].pinCount == held[id] + count
    ensures PinsOk(entries[id := entries[id].(pinCount := count)], pins, held')
  {
    forall x ensures (Occurrences(pins) + held')[x] == (Occurrences(pins) + held)[x] + held'[x] - held[x] {
    }
  }
}
