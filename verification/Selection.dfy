/** Choosing the tokens to recompute: the base mask plus the best scoring of the rest, agreed on by all ranks. */
module Selection {
  import opened Wrappers
  import opened Types

  // ---------------------------------------------------------------- masks and index lists

  function CountTrue(mask: seq<bool>): (c: nat)
    ensures c <= |mask|
  {
    if mask == [] then 0 else CountTrue(mask[..|mask| - 1]) + if mask[|mask| - 1] then 1 else 0
  }

  /** The list names exactly the true positions, in order. */
  ghost predicate Lists(mask: seq<bool>, indices: seq<nat>) {
    && Increasing(indices) && |indices| == CountTrue(mask)
    && (forall x :: 0 <= x < |indices| ==> indices[x] < |mask| && mask[indices[x]])
    && (forall i :: 0 <= i < |mask| && mask[i] ==> i in indices)
  }

  method Where(mask: seq<bool>) returns (indices: seq<nat>)
    ensures Lists(mask, indices)
  {
    indices := [];
    for i := 0 to |mask|
      invariant Lists(mask[..i], indices)
    {
      assert mask[..i + 1][..i] == mask[..i];
      var before := indices;
      if mask[i] {
        indices := indices + [i];
        assert indices[|before|] == i;
      }
      forall j | 0 <= j < i + 1 && mask[..i + 1][j] ensures j in indices {
        if j < i { assert mask[..i][j] && j in before; }
      }
    }
    assert mask[..|mask|] == mask;
  }

  /** True positions of a mask, as a set. */
  ghost function TrueSet(mask: seq<bool>): set<nat> {
    set i: nat | i < |mask| && mask[i]
  }

  lemma {:induction false} TrueSetSize(mask: seq<bool>)
    ensures |TrueSet(mask)| == CountTrue(mask)
  {
    if mask != [] {
      var n := |mask| - 1;
      TrueSetSize(mask[..n]);
      assert TrueSet(mask) == TrueSet(mask[..n]) + if mask[n] then {n} else {};
    }
  }

  // ---------------------------------------------------------------- top-k

  /** k of the positions outside the base, none of them beaten by one that is left out. */
  ghost predicate IsTopK(scores: seq<real>, base: seq<bool>, k: nat, chosen: set<nat>)
    requires |base| == |scores|
  {
    && |chosen| == k
    && (forall i :: i in chosen ==> i < |scores| && !base[i])
    && (forall i, j: nat :: i in chosen && j < |scores| && !base[j] && j !in chosen ==> scores[j] <= scores[i])
  }

  /** Index of a best score among the positions not masked out. */
  method ArgMax(scores: seq<real>, masked: seq<bool>) returns (best: nat)
    requires |masked| == |scores| && exists i :: 0 <= i < |masked| && !masked[i]
    ensures best < |scores| && !masked[best]
    ensures forall j :: 0 <= j < |scores| && !masked[j] ==> scores[j] <= scores[best]
  {
    var found := false;
    best := 0;
    for i := 0 to |scores|
      invariant found <==> exists j :: 0 <= j < i && !masked[j]
      invariant found ==>
                  best < i && !masked[best] && forall j :: 0 <= j < i && !masked[j] ==> scores[j] <= scores[best]
    {
      if !masked[i] && (!found || scores[best] < scores[i]) {
        best, found := i, true;
      }
    }
  }

  /** Picks the k best positions outside the base, one after the other. */
  method TopK(scores: seq<real>, base: seq<bool>, k: nat) returns (mask: seq<bool>)
    requires |base| == |scores| && k <= |scores| - CountTrue(base)
    ensures |mask| == |base| && (forall i :: 0 <= i < |base| && base[i] ==> mask[i])
    ensures IsTopK(scores, base, k, TrueSet(mask) - TrueSet(base))
  {
    hide IsTopK, TrueSet;
    mask := base;
    NothingChosen(scores, base);
    for c := 0 to k
      invariant |mask| == |base| && forall i :: 0 <= i < |base| && base[i] ==> mask[i]
      invariant IsTopK(scores, base, c, TrueSet(mask) - TrueSet(base))
    {
      TopKSize(scores, base, c, TrueSet(mask) - TrueSet(base));
      SomeLeft(base, mask, c);
      var best := ArgMax(scores, mask);
      OneMore(scores, base, c, mask, best);
      mask := mask[best := true];
    }
  }

  lemma NothingChosen(scores: seq<real>, base: seq<bool>)
    requires |scores| == |base|
    ensures IsTopK(scores, base, 0, TrueSet(base) - TrueSet(base))
  {
  }

  /** Adding a best remaining position to a top-c gives a top-(c + 1). */
  lemma OneMore(scores: seq<real>, base: seq<bool>, c: nat, mask: seq<bool>, best: nat)
    requires |mask| == |base| == |scores| && (forall i :: 0 <= i < |base| && base[i] ==> mask[i])
    requires IsTopK(scores, base, c, TrueSet(mask) - TrueSet(base)) && best < |mask| && !mask[best]
    requires forall j :: 0 <= j < |scores| && !mask[j] ==> scores[j] <= scores[best]
    ensures IsTopK(scores, base, c + 1, TrueSet(mask[best := true]) - TrueSet(base))
  {
    var chosen := TrueSet(mask) - TrueSet(base);
    assert TrueSet(mask[best := true]) - TrueSet(base) == chosen + {best};
    forall i, j: nat | i in chosen + {best} && j < |scores| && !base[j] && j !in chosen + {best}
      ensures scores[j] <= scores[i] {
      assert !mask[j];
    }
  }

  lemma SomeLeft(base: seq<bool>, mask: seq<bool>, c: nat)
    requires |mask| == |base| && (forall i :: 0 <= i < |base| && base[i] ==> mask[i])
    requires |TrueSet(mask) - TrueSet(base)| == c < |base| - CountTrue(base)
    ensures exists i :: 0 <= i < |mask| && !mask[i]
  {
    TrueSetSize(base);
    assert TrueSet(mask) == (TrueSet(mask) - TrueSet(base)) + TrueSet(base);
    if forall i :: 0 <= i < |mask| ==> mask[i] {
      AllTrueSize(mask);
      assert false;
    }
  }

  lemma {:induction false} AllTrueSize(mask: seq<bool>)
    requires forall i :: 0 <= i < |mask| ==> mask[i]
    ensures |TrueSet(mask)| == |mask|
  {
    if mask != [] {
      var n := |mask| - 1;
      AllTrueSize(mask[..n]);
      assert TrueSet(mask) == TrueSet(mask[..n]) + {n};
    }
  }

  // ---------------------------------------------------------------- the selection

  function Union(a: seq<bool>, b: seq<bool>): (r: seq<bool>)
    requires |a| == |b|
    ensures |r| == |a|
  {
    seq(|a|, i requires 0 <= i < |a| => a[i] || b[i])
  }

  /** How many positions outside the base are added: a share of the cached ones, at least one if there is any. */
  function TopkCount(size: nat, gaps: nat, based: nat, ratio: real): (k: nat)
    requires gaps <= size && based <= size && 0.0 <= ratio
    ensures k <= size - based
  {
    var cached, available := size - gaps, size - based;
    if cached > 0 && available > 0 then Min(Max(Share(cached, ratio), 1), available) else 0
  }

  /** `int(cached_count * ratio)`. */
  function Share(cached: nat, ratio: real): nat
    requires 0.0 <= ratio
  {
    (cached as real * ratio).Floor
  }

  /** The size other ranks allocate for the broadcast: it depends on the masks alone. */
  function SelectedCount(gap: seq<bool>, base: seq<bool>, ratio: real): (c: nat)
    requires |gap| == |base| && 0.0 <= ratio
    ensures c <= |gap|
  {
    CountTrue(base) + TopkCount(|gap|, CountTrue(gap), CountTrue(base), ratio)
  }

  datatype SelectError = MaskShape

  /** A selection: sorted positions, the whole base, and the top-k of the rest. */
  ghost predicate Selects(scores: seq<real>, gap: seq<bool>, base: seq<bool>, ratio: real, selected: seq<nat>)
    requires |scores| == |gap| == |base| && 0.0 <= ratio
  {
    && Increasing(selected) && (forall x :: 0 <= x < |selected| ==> selected[x] < |gap|)
    && (forall i :: 0 <= i < |base| && base[i] ==> i in selected)
    && IsTopK(scores, base, TopkCount(|gap|, CountTrue(gap), CountTrue(base), ratio),
              set i | i in selected && i < |base| && !base[i])
    && |selected| == SelectedCount(gap, base, ratio)
  }

  function BaseMask(gap: seq<bool>, forced: Option<seq<bool>>): (base: seq<bool>)
    requires forced.Some? ==> |forced.value| == |gap|
    ensures |base| == |gap|
  {
    if forced.Some? then Union(gap, forced.value) else gap
  }

  /** Positions that are no gap, and among them those that nothing forces either. */
  ghost function Cached(gap: seq<bool>): set<nat> {
    set i: nat | i < |gap| && !gap[i]
  }

  ghost function Open(gap: seq<bool>, forced: Option<seq<bool>>): set<nat>
    requires forced.Some? ==> |forced.value| == |gap|
  {
    set i: nat | i < |gap| && !gap[i] && (forced.Some? ==> !forced.value[i])
  }

  /** k is the whole part of the ratio's share of the cached tokens, but at least one and at most all that are open; it
      is none when nothing is cached or nothing is open. */
  ghost predicate IsShare(cached: nat, open: nat, ratio: real, k: nat) {
    if cached == 0 || open == 0 then k == 0
    else
      && 1 <= k <= open
      && (k > 1 ==> k as real <= cached as real * ratio)
      && (k < open ==> cached as real * ratio < (k + 1) as real)
  }

  /** A selection in sorted order: every gap, everything forced, and of the open positions the ratio's share, none of
      which is beaten by an open position left out. */
  ghost predicate SharesTop(scores: seq<real>, gap: seq<bool>, forced: Option<seq<bool>>, ratio: real,
                            selected: seq<nat>)
    requires |scores| == |gap| && (forced.Some? ==> |forced.value| == |gap|)
  {
    && Increasing(selected) && (forall x :: 0 <= x < |selected| ==> selected[x] < |gap|)
    && (forall i: nat :: i < |gap| && i !in Open(gap, forced) ==> i in selected)
    && IsShare(|Cached(gap)|, |Open(gap, forced)|, ratio, |Open(gap, forced) * Members(selected)|)
    && (forall i, j :: i in Open(gap, forced) && j in Open(gap, forced) && i in selected && j !in selected ==>
          scores[j] <= scores[i])
  }

  ghost function Members(selected: seq<nat>): set<nat> {
    set i | i in selected
  }

  lemma {:induction false} FalseSetSize(mask: seq<bool>)
    ensures |set i: nat | i < |mask| && !mask[i]| == |mask| - CountTrue(mask)
  {
    if mask != [] {
      var n := |mask| - 1;
      FalseSetSize(mask[..n]);
      var before, after := (set i: nat | i < n && !mask[..n][i]), (set i: nat | i < |mask| && !mask[i]);
      assert after == before + if mask[n] then {} else {n};
    }
  }

  lemma CountIsShare(size: nat, gaps: nat, based: nat, ratio: real)
    requires gaps <= size && based <= size && 0.0 <= ratio
    ensures IsShare(size - gaps, size - based, ratio, TopkCount(size, gaps, based, ratio))
  {
  }

  lemma OpenIsOutsideBase(gap: seq<bool>, forced: Option<seq<bool>>)
    requires forced.Some? ==> |forced.value| == |gap|
    ensures |Cached(gap)| == |gap| - CountTrue(gap)
    ensures |Open(gap, forced)| == |gap| - CountTrue(BaseMask(gap, forced))
    ensures forall i: nat :: i in Open(gap, forced) <==> i < |gap| && !BaseMask(gap, forced)[i]
  {
    var base := BaseMask(gap, forced);
    FalseSetSize(gap);
    FalseSetSize(base);
    assert Open(gap, forced) == set i: nat | i < |base| && !base[i];
  }

  lemma AddedIsOpen(gap: seq<bool>, forced: Option<seq<bool>>, selected: seq<nat>, extra: set<nat>)
    requires forced.Some? ==> |forced.value| == |gap|
    requires forall i: nat :: i in extra <==> i in selected && i < |gap| && !BaseMask(gap, forced)[i]
    ensures extra == Open(gap, forced) * Members(selected)
  {
    OpenIsOutsideBase(gap, forced);
    hide Open, BaseMask;
  }

  lemma SelectsShare(scores: seq<real>, gap: seq<bool>, forced: Option<seq<bool>>, ratio: real, selected: seq<nat>)
    requires |scores| == |gap| && (forced.Some? ==> |forced.value| == |gap|) && 0.0 <= ratio
    requires Selects(scores, gap, BaseMask(gap, forced), ratio, selected)
    ensures SharesTop(scores, gap, forced, ratio, selected)
  {
    hide IsShare, TopkCount, Cached, Open, BaseMask, Increasing;
    var base := BaseMask(gap, forced);
    var extra := set i | i in selected && i < |base| && !base[i];
    OpenIsOutsideBase(gap, forced);
    AddedIsOpen(gap, forced, selected, extra);
    CountIsShare(|gap|, CountTrue(gap), CountTrue(base), ratio);
  }

  /** The selecting rank: base mask plus top-k by score, as sorted positions. */
  method Select(scores: seq<real>, gap: seq<bool>, forced: Option<seq<bool>>, ratio: real)
    returns (r: Result<seq<nat>, SelectError>)
    requires |scores| == |gap| && 0.0 <= ratio
    ensures r.Raise? <==> forced.Some? && |forced.value| != |gap|
    ensures r.Ok? ==> Selects(scores, gap, BaseMask(gap, forced), ratio, r.value)
    ensures r.Ok? ==> SharesTop(scores, gap, forced, ratio, r.value)
  {
    if forced.Some? && |forced.value| != |gap| {
      return Raise(MaskShape);
    }
    var base := BaseMask(gap, forced);
    var k := TopkCount(|gap|, CountTrue(gap), CountTrue(base), ratio);
    var mask := TopK(scores, base, k);
    var selected := Where(mask);
    SelectedIsMask(scores, gap, base, ratio, mask, selected);
    SelectsShare(scores, gap, forced, ratio, selected);
    return Ok(selected);
  }

  lemma SelectedIsMask(scores: seq<real>, gap: seq<bool>, base: seq<bool>, ratio: real, mask: seq<bool>,
                       selected: seq<nat>)
    requires |scores| == |gap| == |base| == |mask| && 0.0 <= ratio
    requires forall i :: 0 <= i < |base| && base[i] ==> mask[i]
    requires IsTopK(scores, base, TopkCount(|gap|, CountTrue(gap), CountTrue(base), ratio),
                    TrueSet(mask) - TrueSet(base))
    requires Lists(mask, selected)
    ensures Selects(scores, gap, base, ratio, selected)
  {
    hide IsTopK, TopkCount;
    var extra := set i | i in selected && i < |base| && !base[i];
    forall i ensures i in extra <==> i in TrueSet(mask) - TrueSet(base) {
      if i in selected { assert mask[i]; }
    }
    assert extra == TrueSet(mask) - TrueSet(base);
    TrueSetSize(mask);
    TrueSetSize(base);
    assert TrueSet(mask) == extra + TrueSet(base) && extra !! TrueSet(base);
    TopKSize(scores, base, TopkCount(|gap|, CountTrue(gap), CountTrue(base), ratio), extra);
  }

  /** Something is always selected. */
  lemma SelectionIsNotEmpty(scores: seq<real>, gap: seq<bool>, base: seq<bool>, ratio: real, selected: seq<nat>)
    requires |scores| == |gap| == |base| > 0 && 0.0 <= ratio && Selects(scores, gap, base, ratio, selected)
    requires forall i :: 0 <= i < |gap| && gap[i] ==> base[i]
    ensures selected != []
  {
    if selected == [] {
      NoneTrue(base);
      NoneTrue(gap);
    }
  }

  lemma {:induction false} NoneTrue(mask: seq<bool>)
    ensures CountTrue(mask) == 0 <==> forall i :: 0 <= i < |mask| ==> !mask[i]
  {
    if mask != [] {
      NoneTrue(mask[..|mask| - 1]);
      assert mask[|mask| - 1] == mask[|mask| - 1..][0];
    }
  }

  lemma TopKSize(scores: seq<real>, base: seq<bool>, k: nat, chosen: set<nat>)
    requires |base| == |scores| && IsTopK(scores, base, k, chosen)
    ensures |chosen| == k
  {
  }

  // ---------------------------------------------------------------- selecting across ranks

  /** Element-wise sum over the ranks. */
  function AllReduce(scores: seq<seq<real>>, size: nat): (r: seq<real>)
    requires forall rank :: 0 <= rank < |scores| ==> |scores[rank]| == size
    ensures |r| == size
  {
    if scores == [] then seq(size, _ => 0.0)
    else
      var rest := AllReduce(scores[..|scores| - 1], size);
      seq(size, i requires 0 <= i < size => rest[i] + scores[|scores| - 1][i])
  }

  lemma {:induction false} AllReduceSplits(a: seq<seq<real>>, b: seq<seq<real>>, size: nat, i: nat)
    requires forall rank :: 0 <= rank < |a| ==> |a[rank]| == size
    requires forall rank :: 0 <= rank < |b| ==> |b[rank]| == size
    requires i < size
    ensures AllReduce(a + b, size)[i] == AllReduce(a, size)[i] + AllReduce(b, size)[i]
  {
    if b == [] {
      assert a + b == a;
    } else {
      var n := |b| - 1;
      AllReduceSplits(a, b[..n], size, i);
      assert (a + b)[..|a| + n] == a + b[..n];
    }
  }

  /** Every rank's scores enter the sum once: it is additive over the ranks, and one rank's sum is its own scores. */
  lemma AllReduceSums(a: seq<seq<real>>, own: seq<real>, b: seq<seq<real>>, i: nat)
    requires forall rank :: 0 <= rank < |a| ==> |a[rank]| == |own|
    requires forall rank :: 0 <= rank < |b| ==> |b[rank]| == |own|
    requires i < |own|
    ensures AllReduce(a + [own] + b, |own|)[i] == AllReduce(a, |own|)[i] + own[i] + AllReduce(b, |own|)[i]
    ensures AllReduce([own], |own|)[i] == own[i] && AllReduce([], |own|)[i] == 0.0
  {
    AllReduceSplits(a + [own], b, |own|, i);
    AllReduceSplits(a, [own], |own|, i);
    assert [own][..0] == [];
  }

  /** The broadcast needs every receiver's tensor to have the sender's size. */
  method Broadcast(sent: seq<nat>, sizes: seq<nat>) returns (received: seq<seq<nat>>)
    requires forall rank :: 0 <= rank < |sizes| ==> sizes[rank] == |sent|
    ensures |received| == |sizes| && forall rank :: 0 <= rank < |sizes| ==> received[rank] == sent
  {
    received := seq(|sizes|, _ => sent);
  }

  /** Global selection: rank 0 chooses on the summed scores, and each other rank allocates from its own masks. With
      equal masks every rank ends up with the same selection, whatever the scores are. */
  method SelectOnAllRanks(scores: seq<seq<real>>, gap: seq<bool>, forced: Option<seq<bool>>, ratio: real)
    returns (selected: seq<seq<nat>>)
    requires scores != [] && 0.0 <= ratio && (forced.Some? ==> |forced.value| == |gap|)
    requires forall rank :: 0 <= rank < |scores| ==> |scores[rank]| == |gap|
    ensures |selected| == |scores|
    ensures forall rank :: 0 <= rank < |scores| ==> selected[rank] == selected[0]
    ensures SharesTop(AllReduce(scores, |gap|), gap, forced, ratio, selected[0])
  {
    var chosen := Select(AllReduce(scores, |gap|), gap, forced, ratio);
    var sizes := [];
    for rank := 0 to |scores|
      invariant |sizes| == rank && forall m :: 0 <= m < rank ==> sizes[m] == |chosen.value|
    {
      var size := if rank == 0 then |chosen.value| else SelectedCount(gap, BaseMask(gap, forced), ratio);
      sizes := sizes + [size];
    }
    selected := Broadcast(chosen.value, sizes);
  }

  // ---------------------------------------------------------------- the Sparse-Q masks

  /** Some gap lies within `radius` positions. */
  ghost predicate NearGap(gap: seq<bool>, i: int, radius: nat) {
    exists j :: 0 <= j < |gap| && gap[j] && i - j <= radius && j - i <= radius
  }

  lemma {:induction false} CountGrows(mask: seq<bool>, l: nat, r: nat)
    requires l <= r <= |mask|
    ensures CountTrue(mask[..l]) <= CountTrue(mask[..r])
    ensures CountTrue(mask[..l]) < CountTrue(mask[..r]) <==> exists j :: l <= j < r && mask[j]
    decreases r - l
  {
    if l < r {
      CountGrows(mask, l, r - 1);
      assert mask[..r][..r - 1] == mask[..r - 1];
    }
  }

  /** The prefix sums `0, c(1), …, c(n)` of a mask. */
  method PrefixSums(mask: seq<bool>) returns (prefix: seq<nat>)
    ensures |prefix| == |mask| + 1 && forall i :: 0 <= i <= |mask| ==> prefix[i] == CountTrue(mask[..i])
  {
    prefix := [0];
    for i := 0 to |mask|
      invariant |prefix| == i + 1 && forall k :: 0 <= k <= i ==> prefix[k] == CountTrue(mask[..k])
    {
      assert mask[..i + 1][..i] == mask[..i];
      prefix := prefix + [prefix[i] + if mask[i] then 1 else 0];
    }
  }

  /** The positions a Sparse-Q selection has to keep. */
  ghost function ForcedOf(gap: seq<bool>, tailQueryTokens: nat, radius: nat): (forced: seq<bool>)
    ensures |forced| == |gap|
  {
    seq(|gap|, i requires 0 <= i < |gap| =>
      if true in gap then NearGap(gap, i, radius) else i >= |gap| - Min(tailQueryTokens, |gap|))
  }

  lemma ForcedEntries(gap: seq<bool>, tailQueryTokens: nat, radius: nat)
    ensures true in gap ==> forall i :: 0 <= i < |gap| ==>
              (ForcedOf(gap, tailQueryTokens, radius)[i]
               <==> exists j :: 0 <= j < |gap| && gap[j] && i - j <= radius && j - i <= radius)
    ensures true !in gap ==> forall i :: 0 <= i < |gap| ==>
              (ForcedOf(gap, tailQueryTokens, radius)[i] <==> i + tailQueryTokens >= |gap|)
  {
    var forced := ForcedOf(gap, tailQueryTokens, radius);
    forall i | 0 <= i < |gap| && true !in gap ensures forced[i] <==> i + tailQueryTokens >= |gap| {
      assert forced[i] == (i >= |gap| - Min(tailQueryTokens, |gap|));
    }
  }

  /** The query mask and the forced mask: the gaps, widened by the overflow radius; without any gap, the tail. */
  method SparseMasks(gap: seq<bool>, tailQueryTokens: nat, radius: nat) returns (query: seq<bool>, forced: seq<bool>)
    requires gap != [] && tailQueryTokens > 0
    ensures forced == ForcedOf(gap, tailQueryTokens, radius)
    ensures true in gap ==> query == gap && forall i :: 0 <= i < |gap| ==>
              (forced[i] <==> exists j :: 0 <= j < |gap| && gap[j] && i - j <= radius && j - i <= radius)
    ensures true !in gap ==>
              query == forced && forall i :: 0 <= i < |gap| ==> (forced[i] <==> i + tailQueryTokens >= |gap|)
  {
    query, forced := gap, gap;
    var hasGap := true in gap;
    if !hasGap {
      var tail := Min(tailQueryTokens, |gap|);
      query := seq(|gap|, i requires 0 <= i < |gap| => i >= |gap| - tail || gap[i]);
      forced := query;
    }
    if radius > 0 && hasGap {
      var prefix := PrefixSums(gap);
      forced := seq(|gap|, i requires 0 <= i < |gap| => gap[i]
        || prefix[Right(i, radius, |gap|)] > prefix[Left(i, radius)]);
      forall i | 0 <= i < |gap| ensures forced[i] <==> NearGap(gap, i, radius) {
        CountGrows(gap, Left(i, radius), Right(i, radius, |gap|));
      }
    }
    if radius == 0 {
      forall i | 0 <= i < |gap| ensures gap[i] <==> NearGap(gap, i, 0) {
      }
    }
  }

  function Left(i: nat, radius: nat): nat { Max(i, radius) - radius }

  function Right(i: nat, radius: nat, size: nat): nat { Min(i + radius + 1, size) }
}
