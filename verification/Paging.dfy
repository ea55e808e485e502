/** Slots of the paged cache: the slot mapping of a block list, gather and scatter over the three page
    layouts, and the block table rebuilt for the native gather. */
module Paging {
  import opened Wrappers

  // ---------------------------------------------------------------- division facts

  lemma DivModOf(block: nat, blockSize: nat, offset: nat)
    requires offset < blockSize
    ensures (block * blockSize + offset) / blockSize == block
    ensures (block * blockSize + offset) % blockSize == offset
  {
    var x := block * blockSize + offset;
    var q, r := x / blockSize, x % blockSize;
    assert x == blockSize * q + r;
    if q < block {
      ProductStep(q, block, blockSize);
    } else if q > block {
      ProductStep(block, q, blockSize);
    }
  }

  lemma ProductStep(a: nat, b: nat, n: nat)
    requires a < b
    ensures a * n + n <= b * n
  {
    ProductMonotone(a + 1, b, n);
    assert (a + 1) * n == a * n + n;
  }

  lemma ProductMonotone(a: nat, b: nat, n: nat)
    requires a <= b
    ensures a * n <= b * n
  {
  }

  lemma DivBound(i: nat, blocks: nat, blockSize: nat)
    requires blockSize > 0 && i < blocks * blockSize
    ensures i / blockSize < blocks
  {
    assert i == blockSize * (i / blockSize) + i % blockSize;
    if i / blockSize >= blocks {
      ProductMonotone(blocks, i / blockSize, blockSize);
      assert false;
    }
  }

  lemma SlotIsBlockAndOffset(i: nat, j: nat, blockSize: nat)
    requires blockSize > 0 && i / blockSize == j / blockSize && i % blockSize == j % blockSize
    ensures i == j
  {
    assert i == blockSize * (i / blockSize) + i % blockSize;
    assert j == blockSize * (j / blockSize) + j % blockSize;
  }

  /** Moving on by one either stays in the block or starts the next one. */
  lemma DivStep(x: nat, blockSize: nat)
    requires blockSize > 0
    ensures if x % blockSize == blockSize - 1
            then (x + 1) / blockSize == x / blockSize + 1 && (x + 1) % blockSize == 0
            else (x + 1) / blockSize == x / blockSize && (x + 1) % blockSize == x % blockSize + 1
  {
    var q, r := x / blockSize, x % blockSize;
    assert x == q * blockSize + r;
    if r == blockSize - 1 {
      assert x + 1 == (q + 1) * blockSize + 0;
      DivModOf(q + 1, blockSize, 0);
    } else {
      DivModOf(q, blockSize, r + 1);
    }
  }

  // ---------------------------------------------------------------- slot mapping

  function SlotAt(blockIds: seq<nat>, blockSize: nat, i: nat): nat
    requires blockSize > 0 && i < |blockIds| * blockSize
  {
    DivBound(i, |blockIds|, blockSize);
    blockIds[i / blockSize] * blockSize + i % blockSize
  }

  /** Block ids times block size plus every offset, row by row, cut off after `tokenCount`. */
  function SlotMapping(blockIds: seq<nat>, blockSize: nat, tokenCount: nat): seq<nat>
    requires blockSize > 0
  {
    seq(Min(tokenCount, |blockIds| * blockSize),
        i requires 0 <= i < Min(tokenCount, |blockIds| * blockSize) => SlotAt(blockIds, blockSize, i))
  }

  ghost predicate Distinct<T>(s: seq<T>) {
    forall i, j :: 0 <= i < j < |s| ==> s[i] != s[j]
  }

  /** Distinct blocks give distinct slots for any token count. */
  lemma SlotMappingInjective(blockIds: seq<nat>, blockSize: nat, tokenCount: nat)
    requires blockSize > 0 && Distinct(blockIds)
    ensures Distinct(SlotMapping(blockIds, blockSize, tokenCount))
  {
    hide SlotAt;
    var slots := SlotMapping(blockIds, blockSize, tokenCount);
    forall i, j | 0 <= i < j < |slots|
      ensures slots[i] != slots[j]
    {
      if SlotAt(blockIds, blockSize, i) == SlotAt(blockIds, blockSize, j) {
        SameSlot(blockIds, blockSize, i, j);
        assert false;
      }
    }
  }

  /** The list stops after the tokens asked for, or after the last block. */
  lemma SlotMappingLength(blockIds: seq<nat>, blockSize: nat, tokenCount: nat)
    requires blockSize > 0
    ensures |SlotMapping(blockIds, blockSize, tokenCount)|
         == if tokenCount < |blockIds| * blockSize then tokenCount else |blockIds| * blockSize
  {
  }

  /** Token o of block b is in slot o of the block that the b-th id names. */
  lemma SlotMappingEntry(blockIds: seq<nat>, blockSize: nat, tokenCount: nat, b: nat, o: nat)
    requires b < |blockIds| && o < blockSize && b * blockSize + o < tokenCount
    ensures b * blockSize + o < |SlotMapping(blockIds, blockSize, tokenCount)|
    ensures SlotMapping(blockIds, blockSize, tokenCount)[b * blockSize + o] == blockIds[b] * blockSize + o
  {
    ProductStep(b, |blockIds|, blockSize);
    SlotOfToken(blockIds, blockSize, b, o);
  }

  lemma SlotOfToken(blockIds: seq<nat>, blockSize: nat, b: nat, o: nat)
    requires b < |blockIds| && o < blockSize && b * blockSize + o < |blockIds| * blockSize
    ensures SlotAt(blockIds, blockSize, b * blockSize + o) == blockIds[b] * blockSize + o
  {
    DivModOf(b, blockSize, o);
  }

  lemma SlotAtParts(blockIds: seq<nat>, blockSize: nat, i: nat)
    requires blockSize > 0 && i < |blockIds| * blockSize
    ensures i / blockSize < |blockIds|
    ensures SlotAt(blockIds, blockSize, i) / blockSize == blockIds[i / blockSize]
    ensures SlotAt(blockIds, blockSize, i) % blockSize == i % blockSize
  {
    DivBound(i, |blockIds|, blockSize);
    DivModOf(blockIds[i / blockSize], blockSize, i % blockSize);
  }

  /** With distinct blocks a slot names one token. */
  lemma SameSlot(blockIds: seq<nat>, blockSize: nat, i: nat, j: nat)
    requires blockSize > 0 && Distinct(blockIds) && i < |blockIds| * blockSize && j < |blockIds| * blockSize
    requires SlotAt(blockIds, blockSize, i) == SlotAt(blockIds, blockSize, j)
    ensures i == j
  {
    hide SlotAt;
    SlotAtParts(blockIds, blockSize, i);
    SlotAtParts(blockIds, blockSize, j);
    SlotIsBlockAndOffset(i, j, blockSize);
  }

  /** A repeated block id makes two tokens share a slot as soon as both blocks are in use. */
  lemma RepeatedBlockCollides(blockIds: seq<nat>, blockSize: nat, tokenCount: nat, a: nat, b: nat)
    requires blockSize > 0 && a < b < |blockIds| && blockIds[a] == blockIds[b] && b * blockSize < tokenCount
    ensures !Distinct(SlotMapping(blockIds, blockSize, tokenCount))
  {
    var slots := SlotMapping(blockIds, blockSize, tokenCount);
    ProductStep(a, b, blockSize);
    ProductStep(b, |blockIds|, blockSize);
    DivModOf(a, blockSize, 0);
    DivModOf(b, blockSize, 0);
    assert slots[a * blockSize] == slots[b * blockSize];
  }

  // ---------------------------------------------------------------- page layouts

  /** Two separate page tensors, or one tensor whose K/V axis is found by its length. */
  datatype KvLayer<T> =
    | Separate(key: array2<T>, value: array2<T>)
    | Stacked(pages: array3<T>)
  {
    /** The K/V axis is the first one of length two. */
    predicate Supported() {
      match this
      case Separate(key, value) => true
      case Stacked(pages) => pages.Length0 == 2 || pages.Length1 == 2
    }

    ghost predicate Shaped(blockSize: nat) {
      && blockSize > 0
      && match this
         case Separate(key, value) =>
           key as object != value && key.Length0 == value.Length0 && key.Length1 == value.Length1 == blockSize
         case Stacked(pages) => pages.Length2 == blockSize
    }

    function Blocks(): nat
      requires Supported()
    {
      match this
      case Separate(key, value) => key.Length0
      case Stacked(pages) => if pages.Length0 == 2 then pages.Length1 else pages.Length0
    }

    ghost function Footprint(): set<object> {
      match this
      case Separate(key, value) => {key, value}
      case Stacked(pages) => {pages}
    }

    predicate InRange(blockSize: nat, slot: nat)
      requires Supported() && blockSize > 0
    {
      slot / blockSize < Blocks()
    }

    /** What plane 0 (keys) or 1 (values) holds at a slot. */
    function Cell(blockSize: nat, plane: nat, slot: nat): T
      requires Supported() && Shaped(blockSize) && plane < 2 && InRange(blockSize, slot)
      reads Footprint()
    {
      var block, offset := slot / blockSize, slot % blockSize;
      match this
      case Separate(key, value) => if plane == 0 then key[block, offset] else value[block, offset]
      case Stacked(pages) => if pages.Length0 == 2 then pages[plane, block, offset] else pages[block, plane, offset]
    }

    /** One plane of the gathered tensor. */
    ghost function Gathered(blockSize: nat, plane: nat, slots: seq<nat>): seq<T>
      requires Supported() && Shaped(blockSize) && plane < 2
          && forall i :: 0 <= i < |slots| ==> InRange(blockSize, slots[i])
      reads Footprint()
    {
      seq(|slots|, i requires 0 <= i < |slots| && InRange(blockSize, slots[i]) reads Footprint() =>
        Cell(blockSize, plane, slots[i]))
    }

    method SetCell(blockSize: nat, plane: nat, slot: nat, v: T)
      requires Supported() && Shaped(blockSize) && plane < 2 && InRange(blockSize, slot)
      modifies Footprint()
      ensures Cell(blockSize, plane, slot) == v
      ensures forall p: nat, t: nat :: p < 2 && InRange(blockSize, t) && (p != plane || t != slot) ==>
                Cell(blockSize, p, t) == old(Cell(blockSize, p, t))
    {
      var block, offset := slot / blockSize, slot % blockSize;
      match this {
        case Separate(key, value) =>
          if plane == 0 { key[block, offset] := v; } else { value[block, offset] := v; }
        case Stacked(pages) =>
          if pages.Length0 == 2 { pages[plane, block, offset] := v; } else { pages[block, plane, offset] := v; }
      }
      forall t: nat | t / blockSize == block && t % blockSize == offset ensures t == slot {
        SlotIsBlockAndOffset(t, slot, blockSize);
      }
    }
  }

  datatype LayoutError = UnsupportedLayout

  /** The key of a slot is in the key tensor, or in plane 0 of the K/V axis, at the slot's block and offset; its value
      is in the value tensor or in plane 1. */
  lemma CellsInArrays<T>(layer: KvLayer<T>, blockSize: nat, b: nat, o: nat)
    requires layer.Supported() && layer.Shaped(blockSize) && o < blockSize
    requires match layer
             case Separate(key, _) => b < key.Length0
             case Stacked(pages) => b < if pages.Length0 == 2 then pages.Length1 else pages.Length0
    ensures layer.InRange(blockSize, b * blockSize + o)
    ensures match layer
            case Separate(key, value) =>
              && layer.Cell(blockSize, 0, b * blockSize + o) == key[b, o]
              && layer.Cell(blockSize, 1, b * blockSize + o) == value[b, o]
            case Stacked(pages) =>
              if pages.Length0 == 2 then
                && layer.Cell(blockSize, 0, b * blockSize + o) == pages[0, b, o]
                && layer.Cell(blockSize, 1, b * blockSize + o) == pages[1, b, o]
              else
                && layer.Cell(blockSize, 0, b * blockSize + o) == pages[b, 0, o]
                && layer.Cell(blockSize, 1, b * blockSize + o) == pages[b, 1, o]
  {
    DivModOf(b, blockSize, o);
  }

  /** Entry i of the gathered keys is the cell of its own slot in the key tensor or key plane, and likewise the
      values. */
  lemma GatheredFromArrays<T>(layer: KvLayer<T>, blockSize: nat, slots: seq<nat>, i: nat, b: nat, o: nat)
    requires layer.Supported() && layer.Shaped(blockSize) && o < blockSize
    requires forall k :: 0 <= k < |slots| ==> layer.InRange(blockSize, slots[k])
    requires i < |slots| && slots[i] == b * blockSize + o
    requires match layer
             case Separate(key, _) => b < key.Length0
             case Stacked(pages) => b < if pages.Length0 == 2 then pages.Length1 else pages.Length0
    ensures |layer.Gathered(blockSize, 0, slots)| == |layer.Gathered(blockSize, 1, slots)| == |slots|
    ensures var k, v := layer.Gathered(blockSize, 0, slots)[i], layer.Gathered(blockSize, 1, slots)[i];
            match layer
            case Separate(key, value) => k == key[b, o] && v == value[b, o]
            case Stacked(pages) =>
              if pages.Length0 == 2 then k == pages[0, b, o] && v == pages[1, b, o]
              else k == pages[b, 0, o] && v == pages[b, 1, o]
  {
    CellsInArrays(layer, blockSize, b, o);
  }

  /** The keys and the values of the listed slots. */
  method GatherPagedKv<T>(layer: KvLayer<T>, slots: seq<nat>, blockSize: nat)
    returns (r: Result<(seq<T>, seq<T>), LayoutError>)
    requires layer.Shaped(blockSize)
    requires layer.Supported() ==> forall i :: 0 <= i < |slots| ==> layer.InRange(blockSize, slots[i])
    ensures r.Ok? <==> layer.Separate? || layer.pages.Length0 == 2 || layer.pages.Length1 == 2
    ensures r.Ok? ==> r.value == (layer.Gathered(blockSize, 0, slots), layer.Gathered(blockSize, 1, slots))
    ensures r.Ok? ==> |r.value.0| == |r.value.1| == |slots|
  {
    if !layer.Supported() {
      return Raise(UnsupportedLayout);
    }
    var keys: seq<T>, values: seq<T> := [], [];
    for i := 0 to |slots|
      invariant keys == layer.Gathered(blockSize, 0, slots)[..i]
      invariant values == layer.Gathered(blockSize, 1, slots)[..i]
    {
      keys := keys + [layer.Cell(blockSize, 0, slots[i])];
      values := values + [layer.Cell(blockSize, 1, slots[i])];
    }
    assert layer.Gathered(blockSize, 0, slots)[..|slots|] == layer.Gathered(blockSize, 0, slots);
    assert layer.Gathered(blockSize, 1, slots)[..|slots|] == layer.Gathered(blockSize, 1, slots);
    return Ok((keys, values));
  }

  /** Writes token i to slot i in order. Slots outside the list keep their contents; for a list of distinct
      slots, gathering it afterwards gives back exactly what was written. */
  method ScatterPagedKv<T>(keys: seq<T>, values: seq<T>, layer: KvLayer<T>, slots: seq<nat>, blockSize: nat)
    returns (r: Result<(), LayoutError>)
    requires layer.Shaped(blockSize) && |keys| == |values| == |slots|
    requires layer.Supported() ==> forall i :: 0 <= i < |slots| ==> layer.InRange(blockSize, slots[i])
    modifies layer.Footprint()
    ensures r.Ok? <==> layer.Separate? || layer.pages.Length0 == 2 || layer.pages.Length1 == 2
    ensures layer.Supported() ==> forall p: nat, t: nat :: p < 2 && layer.InRange(blockSize, t) && t !in slots ==>
                                    layer.Cell(blockSize, p, t) == old(layer.Cell(blockSize, p, t))
    ensures layer.Supported() && Distinct(slots) ==>
              layer.Gathered(blockSize, 0, slots) == keys && layer.Gathered(blockSize, 1, slots) == values
  {
    if !layer.Supported() {
      return Raise(UnsupportedLayout);
    }
    for i := 0 to |slots|
      invariant forall p: nat, t: nat :: p < 2 && layer.InRange(blockSize, t) && t !in slots[..i] ==>
                  layer.Cell(blockSize, p, t) == old(layer.Cell(blockSize, p, t))
      invariant Distinct(slots) ==> forall k :: 0 <= k < i ==>
                  layer.Cell(blockSize, 0, slots[k]) == keys[k] && layer.Cell(blockSize, 1, slots[k]) == values[k]
    {
      layer.SetCell(blockSize, 0, slots[i], keys[i]);
      layer.SetCell(blockSize, 1, slots[i], values[i]);
      assert slots[i] in slots[..i + 1];
    }
    assert slots[..|slots|] == slots;
    return Ok(());
  }

  /** Writing back a blended layer touches exactly the suffix slots: the cached prefix keeps its pages. */
  method Commit<T>(apcPrefixTokens: nat, allocationEnd: nat, keys: seq<T>, values: seq<T>, layer: KvLayer<T>,
                   slotMapping: seq<nat>, blockSize: nat)
    requires layer.Supported() && layer.Shaped(blockSize)
    requires |keys| == |values| == allocationEnd <= |slotMapping|
    requires Distinct(slotMapping) && forall i :: 0 <= i < |slotMapping| ==> layer.InRange(blockSize, slotMapping[i])
    modifies layer.Footprint()
    ensures forall i :: apcPrefixTokens <= i < allocationEnd ==>
              layer.Cell(blockSize, 0, slotMapping[i]) == keys[i]
                && layer.Cell(blockSize, 1, slotMapping[i]) == values[i]
    ensures forall p: nat, t: nat :: (p < 2 && layer.InRange(blockSize, t)
        && t !in slotMapping[Min(apcPrefixTokens, allocationEnd)..allocationEnd]) ==>
              layer.Cell(blockSize, p, t) == old(layer.Cell(blockSize, p, t))
    ensures forall p: nat, i :: p < 2 && 0 <= i < apcPrefixTokens && i < |slotMapping| ==>
              layer.Cell(blockSize, p, slotMapping[i]) == old(layer.Cell(blockSize, p, slotMapping[i]))
  {
    if apcPrefixTokens >= allocationEnd {
      return;
    }
    var start := apcPrefixTokens;
    var suffix := slotMapping[start..allocationEnd];
    var _ := ScatterPagedKv(keys[start..], values[start..], layer, suffix, blockSize);
    SuffixCells(layer, blockSize, keys, values, slotMapping, start, allocationEnd);
    forall i | 0 <= i < start ensures slotMapping[i] !in suffix {}
  }

  lemma SuffixCells<T>(layer: KvLayer<T>, blockSize: nat, keys: seq<T>, values: seq<T>, slotMapping: seq<nat>,
                       start: nat, end: nat)
    requires layer.Supported() && layer.Shaped(blockSize) && start <= end == |keys| == |values| <= |slotMapping|
    requires forall i :: 0 <= i < |slotMapping| ==> layer.InRange(blockSize, slotMapping[i])
    requires layer.Gathered(blockSize, 0, slotMapping[start..end]) == keys[start..]
    requires layer.Gathered(blockSize, 1, slotMapping[start..end]) == values[start..]
    ensures forall i :: start <= i < end ==>
              layer.Cell(blockSize, 0, slotMapping[i]) == keys[i]
                && layer.Cell(blockSize, 1, slotMapping[i]) == values[i]
  {
    forall i | start <= i < end
      ensures layer.Cell(blockSize, 0, slotMapping[i]) == keys[i]
      ensures layer.Cell(blockSize, 1, slotMapping[i]) == values[i]
    {
      assert layer.Gathered(blockSize, 0, slotMapping[start..end])[i - start] == keys[start..][i - start];
      assert layer.Gathered(blockSize, 1, slotMapping[start..end])[i - start] == values[start..][i - start];
    }
  }

  // ---------------------------------------------------------------- which axis is the K/V axis

  /** One cell of a tensor laid out block first is read with its own axes. */
  ghost predicate ReadsOwnAxes<T>(pages: array3<T>, blockSize: nat, plane: nat, slot: nat)
    requires pages.Length1 == 2 && pages.Length2 == blockSize > 0 && plane < 2 && slot / blockSize < pages.Length0
    reads pages
  {
    Stacked(pages).Cell(blockSize, plane, slot) == pages[slot / blockSize, plane, slot % blockSize]
  }

  ghost predicate ReadsBlockFirst<T>(pages: array3<T>, blockSize: nat)
    requires pages.Length1 == 2 && pages.Length2 == blockSize > 0
    reads pages
  {
    forall plane: nat, slot: nat :: plane < 2 && slot / blockSize < pages.Length0 ==>
      ReadsOwnAxes(pages, blockSize, plane, slot)
  }

  /** Swapping the two axes of a two-block tensor makes no difference. */
  ghost predicate Symmetric<T>(pages: array3<T>)
    requires pages.Length0 == pages.Length1 == 2
    reads pages
  {
    forall o :: 0 <= o < pages.Length2 ==> pages[0, 1, o] == pages[1, 0, o]
  }

  lemma CrossedCell<T>(pages: array3<T>, blockSize: nat, plane: nat, slot: nat)
    requires pages.Length0 == pages.Length1 == 2 && pages.Length2 == blockSize > 0 && plane < 2 && slot / blockSize < 2
    ensures ReadsOwnAxes(pages, blockSize, plane, slot)
            <==> pages[plane, slot / blockSize, slot % blockSize] == pages[slot / blockSize, plane, slot % blockSize]
  {
  }

  lemma SymmetricReads<T>(pages: array3<T>, blockSize: nat)
    requires pages.Length0 == pages.Length1 == 2 && pages.Length2 == blockSize > 0 && Symmetric(pages)
    ensures ReadsBlockFirst(pages, blockSize)
  {
    hide ReadsOwnAxes;
    forall plane: nat, slot: nat | plane < 2 && slot / blockSize < 2
      ensures ReadsOwnAxes(pages, blockSize, plane, slot) {
      CrossedCell(pages, blockSize, plane, slot);
      assert pages[0, 1, slot % blockSize] == pages[1, 0, slot % blockSize];
    }
  }

  lemma ReadsSymmetric<T>(pages: array3<T>, blockSize: nat)
    requires pages.Length0 == pages.Length1 == 2 && pages.Length2 == blockSize > 0 && ReadsBlockFirst(pages, blockSize)
    ensures Symmetric(pages)
  {
    hide ReadsOwnAxes;
    forall o: nat | o < blockSize ensures pages[0, 1, o] == pages[1, 0, o] {
      DivModOf(0, blockSize, o);
      assert ReadsOwnAxes(pages, blockSize, 1, o);
      CrossedCell(pages, blockSize, 1, o);
    }
  }

  /** The axis is found by its length alone, so with exactly two blocks the block axis is taken for the K/V axis:
      the tensor is then read correctly only if swapping the two axes makes no difference. */
  lemma BlockFirstReadIff<T>(pages: array3<T>, blockSize: nat)
    requires pages.Length1 == 2 && pages.Length2 == blockSize > 0
    ensures ReadsBlockFirst(pages, blockSize) <==> pages.Length0 != 2 || Symmetric(pages)
  {
    if pages.Length0 != 2 {
      forall plane: nat, slot: nat | plane < 2 && slot / blockSize < pages.Length0
        ensures ReadsOwnAxes(pages, blockSize, plane, slot) {}
    } else {
      hide ReadsBlockFirst, Symmetric;
      if Symmetric(pages) { SymmetricReads(pages, blockSize); }
      if ReadsBlockFirst(pages, blockSize) { ReadsSymmetric(pages, blockSize); }
    }
  }

  // ---------------------------------------------------------------- the rebuilt block table

  function BlockOf(slot: nat, blockSize: nat): nat
    requires blockSize > 0
  {
    slot / blockSize
  }

  function OffsetOf(slot: nat, blockSize: nat): nat
    requires blockSize > 0
  {
    slot % blockSize
  }

  function SlotOf(block: nat, offset: nat, blockSize: nat): nat {
    block * blockSize + offset
  }

  lemma SlotParts(slot: nat, blockSize: nat)
    requires blockSize > 0
    ensures SlotOf(BlockOf(slot, blockSize), OffsetOf(slot, blockSize), blockSize) == slot
  {
  }

  lemma PartsOfSlot(block: nat, x: nat, blockSize: nat)
    requires blockSize > 0
    ensures BlockOf(SlotOf(block, OffsetOf(x, blockSize), blockSize), blockSize) == block
    ensures OffsetOf(SlotOf(block, OffsetOf(x, blockSize), blockSize), blockSize) == OffsetOf(x, blockSize)
  {
    DivModOf(block, blockSize, x % blockSize);
  }

  /** Moving on by one either stays in the block or starts the next one. */
  lemma NextSlot(x: nat, blockSize: nat)
    requires blockSize > 0
    ensures if OffsetOf(x, blockSize) == blockSize - 1
            then BlockOf(x + 1, blockSize) == BlockOf(x, blockSize) + 1 && OffsetOf(x + 1, blockSize) == 0
            else
              BlockOf(x + 1, blockSize) == BlockOf(x, blockSize)
              && OffsetOf(x + 1, blockSize) == OffsetOf(x, blockSize) + 1
  {
    DivStep(x, blockSize);
  }

  /** The block of every position that starts a logical block: the first one and each with offset zero. */
  function LogicalBlocks(slots: seq<nat>, blockSize: nat): seq<nat>
    requires blockSize > 0
  {
    if slots == [] then []
    else
      var rest, last := LogicalBlocks(slots[..|slots| - 1], blockSize), slots[|slots| - 1];
      if |slots| == 1 || OffsetOf(last, blockSize) == 0 then rest + [BlockOf(last, blockSize)] else rest
  }

  /** The guard: as many logical blocks as a contiguous run of this length would need. */
  function RebuildTable(slots: seq<nat>, blockSize: nat): Option<seq<nat>>
    requires blockSize > 0 && slots != []
  {
    var table := LogicalBlocks(slots, blockSize);
    if |table| == BlockOf(OffsetOf(slots[0], blockSize) + |slots| + blockSize - 1, blockSize) then Some(table) else None
  }

  /** The slot the native gather reads at logical position x. */
  function NativeSlot(table: seq<nat>, blockSize: nat, x: nat): nat
    requires blockSize > 0 && BlockOf(x, blockSize) < |table|
  {
    SlotOf(table[BlockOf(x, blockSize)], OffsetOf(x, blockSize), blockSize)
  }

  ghost predicate Addresses(slots: seq<nat>, blockSize: nat, table: seq<nat>)
    requires blockSize > 0 && slots != []
  {
    forall i :: 0 <= i < |slots| ==> ReadsSlot(table, blockSize, OffsetOf(slots[0], blockSize) + i, slots[i])
  }

  predicate ReadsSlot(table: seq<nat>, blockSize: nat, x: nat, slot: nat)
    requires blockSize > 0
  {
    BlockOf(x, blockSize) < |table| && NativeSlot(table, blockSize, x) == slot
  }

  /** The native gather is chosen and addresses every listed slot. */
  ghost predicate NativeAgrees(slots: seq<nat>, blockSize: nat)
    requires blockSize > 0 && slots != []
  {
    var table := RebuildTable(slots, blockSize);
    table.Some? && Addresses(slots, blockSize, table.value)
  }

  /** From one slot to the next of an aligned run. */
  predicate AlignedPair(prev: nat, slot: nat, blockSize: nat)
    requires blockSize > 0
  {
    if OffsetOf(slot, blockSize) == 0 then OffsetOf(prev, blockSize) == blockSize - 1 else slot == prev + 1
  }

  /** Inside a block consecutive slots follow each other, and a block is left only at its end. */
  predicate AlignedRuns(slots: seq<nat>, blockSize: nat)
    requires blockSize > 0
  {
    forall i :: 0 < i < |slots| ==> AlignedPair(slots[i - 1], slots[i], blockSize)
  }

  /** One aligned step from `prev` to `last` moves like the logical position x does. */
  lemma AlignedStep(prev: nat, last: nat, x: nat, blockSize: nat)
    requires blockSize > 0 && OffsetOf(prev, blockSize) == OffsetOf(x, blockSize) && AlignedPair(prev, last, blockSize)
    ensures OffsetOf(last, blockSize) == OffsetOf(x + 1, blockSize)
    ensures if OffsetOf(last, blockSize) == 0 then BlockOf(x + 1, blockSize) == BlockOf(x, blockSize) + 1
            else
              BlockOf(x + 1, blockSize) == BlockOf(x, blockSize)
              && BlockOf(last, blockSize) == BlockOf(prev, blockSize)
  {
    hide OffsetOf, BlockOf;
    NextSlot(x, blockSize);
    NextSlot(prev, blockSize);
  }

  /** Slot i lies in the table where a contiguous run starting at `first` would put it. */
  ghost predicate Placed(slot: nat, blockSize: nat, table: seq<nat>, x: nat)
    requires blockSize > 0
  {
    && OffsetOf(slot, blockSize) == OffsetOf(x, blockSize)
    && BlockOf(x, blockSize) < |table|
    && table[BlockOf(x, blockSize)] == BlockOf(slot, blockSize)
  }

  lemma FirstSlot(slot: nat, blockSize: nat)
    requires blockSize > 0
    ensures BlockOf(OffsetOf(slot, blockSize), blockSize) == 0
    ensures OffsetOf(OffsetOf(slot, blockSize), blockSize) == OffsetOf(slot, blockSize)
  {
    DivModOf(0, blockSize, slot % blockSize);
  }

  lemma {:induction false} AlignedRunsTable(slots: seq<nat>, blockSize: nat)
    requires blockSize > 0 && slots != [] && AlignedRuns(slots, blockSize)
    ensures var table, first := LogicalBlocks(slots, blockSize), OffsetOf(slots[0], blockSize);
            && |table| == BlockOf(first + |slots| - 1, blockSize) + 1
            && forall i :: 0 <= i < |slots| ==> Placed(slots[i], blockSize, table, first + i)
  {
    hide OffsetOf, BlockOf, AlignedPair;
    var n, first := |slots| - 1, OffsetOf(slots[0], blockSize);
    var table := LogicalBlocks(slots, blockSize);
    if n == 0 {
      FirstSlot(slots[0], blockSize);
      assert LogicalBlocks(slots[..0], blockSize) == [];
      assert table == [BlockOf(slots[0], blockSize)];
    } else {
      var front := slots[..n];
      AlignedRunsTable(front, blockSize);
      var before := LogicalBlocks(front, blockSize);
      assert Placed(front[n - 1], blockSize, before, first + (n - 1));
      AlignedStep(slots[n - 1], slots[n], first + n - 1, blockSize);
      forall i | 0 <= i < |slots| ensures Placed(slots[i], blockSize, table, first + i) {
        if i < n { assert Placed(front[i], blockSize, before, first + i); }
      }
    }
  }

  lemma CeilingIsLastBlock(x: nat, blockSize: nat)
    requires blockSize > 0 && x > 0
    ensures BlockOf(x + blockSize - 1, blockSize) == BlockOf(x - 1, blockSize) + 1
  {
    var q, r := (x - 1) / blockSize, (x - 1) % blockSize;
    assert x - 1 == q * blockSize + r;
    assert x + blockSize - 1 == (q + 1) * blockSize + r;
    DivModOf(q + 1, blockSize, r);
  }

  lemma AlignedIsAddressed(slots: seq<nat>, blockSize: nat)
    requires blockSize > 0 && slots != [] && AlignedRuns(slots, blockSize)
    ensures NativeAgrees(slots, blockSize)
  {
    hide AlignedRuns, LogicalBlocks, OffsetOf, BlockOf, SlotOf;
    var first := OffsetOf(slots[0], blockSize);
    var table := LogicalBlocks(slots, blockSize);
    AlignedRunsTable(slots, blockSize);
    CeilingIsLastBlock(first + |slots|, blockSize);
    forall i | 0 <= i < |slots|
      ensures ReadsSlot(table, blockSize, first + i, slots[i])
    {
      assert Placed(slots[i], blockSize, table, first + i);
      SlotParts(slots[i], blockSize);
    }
  }

  lemma AddressedStep(table: seq<nat>, blockSize: nat, x: nat)
    requires blockSize > 0 && BlockOf(x, blockSize) < |table| && BlockOf(x + 1, blockSize) < |table|
    ensures AlignedPair(NativeSlot(table, blockSize, x), NativeSlot(table, blockSize, x + 1), blockSize)
  {
    NextSlot(x, blockSize);
    PartsOfSlot(table[BlockOf(x, blockSize)], x, blockSize);
    PartsOfSlot(table[BlockOf(x + 1, blockSize)], x + 1, blockSize);
    hide OffsetOf, BlockOf;
  }

  /** The rebuilt table addresses the same slots as direct indexing if and only if the list is made of
      block-aligned runs. */
  lemma NativeAgreesIffAligned(slots: seq<nat>, blockSize: nat)
    requires blockSize > 0 && slots != []
    ensures NativeAgrees(slots, blockSize) <==> AlignedRuns(slots, blockSize)
  {
    hide LogicalBlocks, OffsetOf, BlockOf, SlotOf, AlignedPair;
    if AlignedRuns(slots, blockSize) {
      AlignedIsAddressed(slots, blockSize);
    }
    if NativeAgrees(slots, blockSize) {
      var first, table := OffsetOf(slots[0], blockSize), RebuildTable(slots, blockSize).value;
      forall i | 0 < i < |slots| ensures AlignedPair(slots[i - 1], slots[i], blockSize) {
        assert ReadsSlot(table, blockSize, first + i, slots[i])
          && ReadsSlot(table, blockSize, first + (i - 1), slots[i - 1]);
        AddressedStep(table, blockSize, first + (i - 1));
      }
    }
  }

  lemma MisalignedTable()
    ensures LogicalBlocks([0, 3], 2) == [0]
  {
    assert [0, 3][..1] == [0];
    assert LogicalBlocks([0], 2) == [0];
  }

  /** The guard alone is not enough: it accepts slots 0 and 3 of two-token blocks but reads slot 1 for slot 3. */
  lemma GuardAcceptsMisalignedSlots()
    ensures RebuildTable([0, 3], 2).Some? && !NativeAgrees([0, 3], 2)
  {
    hide LogicalBlocks, NativeAgrees;
    MisalignedTable();
    assert !AlignedPair([0, 3][0], [0, 3][1], 2);
    NativeAgreesIffAligned([0, 3], 2);
  }

  /** The slots of neighbouring tokens form an aligned pair, whatever the blocks are. */
  lemma NeighboursAligned(blockIds: seq<nat>, blockSize: nat, i: nat)
    requires blockSize > 0 && 0 < i < |blockIds| * blockSize
    ensures AlignedPair(SlotAt(blockIds, blockSize, i - 1), SlotAt(blockIds, blockSize, i), blockSize)
  {
    SlotAtParts(blockIds, blockSize, i - 1);
    SlotAtParts(blockIds, blockSize, i);
    DivStep(i - 1, blockSize);
  }

  /** Every stretch of the mapping that a request is given is read correctly by the native gather. */
  lemma MappingIsAddressed(blockIds: seq<nat>, blockSize: nat, tokenCount: nat, lo: nat, hi: nat)
    requires blockSize > 0 && lo < hi <= |SlotMapping(blockIds, blockSize, tokenCount)|
    ensures NativeAgrees(SlotMapping(blockIds, blockSize, tokenCount)[lo..hi], blockSize)
  {
    hide SlotAt, AlignedPair, NativeAgrees;
    var slots := SlotMapping(blockIds, blockSize, tokenCount);
    forall i | 0 < i < hi - lo ensures AlignedPair(slots[lo..hi][i - 1], slots[lo..hi][i], blockSize) {
      NeighboursAligned(blockIds, blockSize, lo + i);
    }
    NativeAgreesIffAligned(slots[lo..hi], blockSize);
  }

  /** Positions at which a logical block starts: the first, and every slot at a block's beginning. */
  ghost function Starts(slots: seq<nat>, blockSize: nat): set<nat>
    requires blockSize > 0
  {
    set i: nat | i < |slots| && (i == 0 || slots[i] % blockSize == 0)
  }

  lemma {:induction false} TableCountsStarts(slots: seq<nat>, blockSize: nat)
    requires blockSize > 0
    ensures |LogicalBlocks(slots, blockSize)| == |Starts(slots, blockSize)|
  {
    if slots != [] {
      var n := |slots| - 1;
      TableCountsStarts(slots[..n], blockSize);
      hide Starts;
      StartsGrow(slots, blockSize);
    }
  }

  lemma StartsGrow(slots: seq<nat>, blockSize: nat)
    requires blockSize > 0 && slots != []
    ensures var n := |slots| - 1;
            var before := Starts(slots[..n], blockSize);
            n !in before && Starts(slots, blockSize)
                            == if n == 0 || slots[n] % blockSize == 0 then before + {n} else before
  {
    var n := |slots| - 1;
    forall i: nat | i < n ensures slots[..n][i] == slots[i] {
    }
  }

  /** The guard accepts a list exactly when it starts as many blocks as an unbroken run of its length would. */
  lemma GuardCountsStarts(slots: seq<nat>, blockSize: nat)
    requires blockSize > 0 && slots != []
    ensures RebuildTable(slots, blockSize).Some?
       <==> |Starts(slots, blockSize)| == (slots[0] % blockSize + |slots| + blockSize - 1) / blockSize
  {
    TableCountsStarts(slots, blockSize);
  }
}
