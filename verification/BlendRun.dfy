/** The layer fold of the executor: which tokens are active, which keys and values are written afresh. */
module BlendRun {
  import opened Wrappers
  import opened Types
  import opened Selection

  datatype Strategy = KvDeviation | SparseQ | Compare

  datatype Config = Config(checkLayers: seq<nat>, recomputeRatios: seq<real>, strategy: Strategy,
                           tailQueryTokens: nat, overflowBlocks: nat, blockSize: nat)
  {
    /** What the configuration check accepts. */
    predicate Valid() {
      && checkLayers != [] && (|recomputeRatios| == 1 || |recomputeRatios| == |checkLayers|)
      && (forall i :: 0 <= i < |recomputeRatios| ==> 0.0 <= recomputeRatios[i] <= 1.0)
      && (strategy != KvDeviation ==> |checkLayers| == 1 && tailQueryTokens > 0)
      && blockSize > 0
    }

    function Radius(): nat { overflowBlocks * blockSize }

    /** The ratio of a check layer: its own, or the last one there is. */
    function RatioOf(layer: nat): (r: real)
      requires Valid()
      ensures 0.0 <= r
      ensures layer !in checkLayers || |recomputeRatios| == 1 ==> r == recomputeRatios[0]
      ensures |recomputeRatios| == |checkLayers| ==> forall i ::
                0 <= i < |checkLayers| && checkLayers[i] == layer && layer !in checkLayers[..i] ==>
                  r == recomputeRatios[i]
    {
      recomputeRatios[Min(|recomputeRatios| - 1, if layer in checkLayers then IndexOf(checkLayers, layer) else 0)]
    }
  }

  function IndexOf(layers: seq<nat>, layer: nat): (i: nat)
    requires layer in layers
    ensures i < |layers| && layers[i] == layer && layer !in layers[..i]
  {
    if layers[0] == layer then 0 else 1 + IndexOf(layers[1..], layer)
  }

  /** One token's cache cell in one layer: loaded for that token, or computed in a layer from a token's hidden row
      and rotated to a position. */
  datatype Cell = Loaded(layer: nat, token: nat) | Fresh(layer: nat, row: nat, position: nat)

  class BlendExecutionState {
    const computeStart: nat
    const gapMask: seq<bool>
    var positions: seq<nat>
    var importantIndices: Option<seq<nat>>

    constructor (computeStart: nat, positions: seq<nat>, gapMask: seq<bool>)
      ensures this.computeStart == computeStart && this.gapMask == gapMask
      ensures this.positions == positions && importantIndices == None
    {
      this.computeStart, this.gapMask, this.positions, importantIndices := computeStart, gapMask, positions, None;
    }

    /** Indices of the active tokens, relative to the start of the computed span. */
    function Active(): (r: seq<nat>)
      reads this
    {
      if importantIndices.Some? then importantIndices.value else Range(0, |positions|)
    }

    /** The active list is sorted and lines up with the positions, every hidden row is the row of its own token, and
        no gap has been dropped. */
    ghost predicate Valid(rows: seq<nat>)
      reads this
    {
      && |positions| == |rows| == |Active()|
      && Increasing(Active())
      && (forall x :: 0 <= x < |rows| ==> rows[x] == positions[x] == computeStart + Active()[x] < |gapMask|)
      && (forall t: nat :: t < |gapMask| && gapMask[t] ==> t in positions)
    }
  }

  function Range(lo: nat, hi: nat): (r: seq<nat>)
    ensures lo <= hi ==> |r| == hi - lo && forall x :: 0 <= x < |r| ==> r[x] == lo + x
  {
    if lo >= hi then [] else seq(hi - lo, x requires 0 <= x < hi - lo => lo + x)
  }

  /** `x[selected]`. */
  function Pick<T>(x: seq<T>, selected: seq<nat>): (r: seq<T>)
    requires forall k :: 0 <= k < |selected| ==> selected[k] < |x|
    ensures |r| == |selected| && forall k :: 0 <= k < |r| ==> r[k] == x[selected[k]]
  {
    seq(|selected|, k requires 0 <= k < |selected| => x[selected[k]])
  }

  /** Scores are whatever the layer computes for a token: any function of layer and token. */
  type Scoring = (nat, nat) -> real

  function ScoresOf(score: Scoring, layer: nat, rows: seq<nat>): (s: seq<real>)
    ensures |s| == |rows|
  {
    seq(|rows|, x requires 0 <= x < |rows| => score(layer, rows[x]))
  }

  /** Picking along a sorted selection keeps a sorted list sorted. */
  lemma PickIncreasing(indices: seq<nat>, selected: seq<nat>)
    requires Increasing(indices) && Increasing(selected) && forall k :: 0 <= k < |selected| ==> selected[k] < |indices|
    ensures Increasing(Pick(indices, selected))
  {
  }

  /** Every token whose index is selected is picked. */
  lemma PickKeeps(tokens: seq<nat>, selected: seq<nat>, t: nat)
    requires (forall k :: 0 <= k < |selected| ==> selected[k] < |tokens|) && t in tokens
    requires forall x :: 0 <= x < |tokens| && tokens[x] == t ==> x in selected
    ensures t in Pick(tokens, selected)
  {
    var x :| 0 <= x < |tokens| && tokens[x] == t;
    var k :| 0 <= k < |selected| && selected[k] == x;
    assert Pick(tokens, selected)[k] == t;
  }

  /** Pruning keeps the picked tokens. */
  method Prune(state: BlendExecutionState, rows: seq<nat>, selected: seq<nat>) returns (kept: seq<nat>)
    requires state.Valid(rows) && Increasing(selected) && (forall x :: 0 <= x < |selected| ==> selected[x] < |rows|)
    requires forall x :: 0 <= x < |rows| && state.gapMask[rows[x]] ==> x in selected
    modifies state
    ensures state.Valid(kept) && kept == Pick(rows, selected) && state.importantIndices.Some?
    ensures |old(state.positions)| == |rows| && state.positions == Pick(old(state.positions), selected)
  {
    hide Increasing;
    var queryIndices := Pick(state.Active(), selected);
    ghost var before := state.positions;
    PickIncreasing(state.Active(), selected);
    forall t: nat | t < |state.gapMask| && state.gapMask[t] ensures t in Pick(before, selected) {
      PickKeeps(before, selected, t);
    }
    kept := Pick(rows, selected);
    state.positions := Pick(state.positions, selected);
    state.importantIndices := Some(queryIndices);
  }

  // ---------------------------------------------------------------- one layer

  function ActiveGap(gapMask: seq<bool>, rows: seq<nat>): (g: seq<bool>)
    requires forall x :: 0 <= x < |rows| ==> rows[x] < |gapMask|
    ensures |g| == |rows|
  {
    seq(|rows|, x requires 0 <= x < |rows| => gapMask[rows[x]])
  }

  /** The mask a check layer has to keep: the active gaps, for Sparse-Q widened by the overflow window. */
  ghost function Base(config: Config, gap: seq<bool>): (base: seq<bool>)
    ensures |base| == |gap|
  {
    BaseMask(gap, if config.strategy == SparseQ then Some(ForcedOf(gap, config.tailQueryTokens, config.Radius()))
      else None)
  }

  /** The kept tokens are those of a selection on the strategy's own scores. */
  ghost predicate KeptBy(config: Config, layer: nat, gapMask: seq<bool>, rows: seq<nat>, score: Scoring, kept: seq<nat>)
    requires config.Valid() && forall x :: 0 <= x < |rows| ==> rows[x] < |gapMask|
  {
    var gap := ActiveGap(gapMask, rows);
    exists selected: seq<nat> ::
      && Selects(ScoresOf(score, layer, rows), gap, Base(config, gap), config.RatioOf(layer), selected)
      && kept == Pick(rows, selected)
  }

  /** What a check layer keeps, told of its own rows: of the scores it computes for them, the selection that holds every
      gap and, for Sparse-Q, every row near a gap or else the tail, and beyond them the layer's share of the best. */
  lemma CheckLayerKeeps(config: Config, layer: nat, gapMask: seq<bool>, rows: seq<nat>, score: Scoring, kept: seq<nat>)
    returns (selected: seq<nat>, scores: seq<real>, gap: seq<bool>, forced: Option<seq<bool>>)
    requires config.Valid() && forall x :: 0 <= x < |rows| ==> rows[x] < |gapMask|
    requires KeptBy(config, layer, gapMask, rows, score, kept)
    ensures |scores| == |gap| == |rows| && (forced.Some? ==> |forced.value| == |gap|)
    ensures forall x :: 0 <= x < |rows| ==> scores[x] == score(layer, rows[x]) && gap[x] == gapMask[rows[x]]
    ensures forced.Some? <==> config.strategy == SparseQ
    ensures forced.Some? && true in gap ==> forall x :: 0 <= x < |rows| ==>
              (forced.value[x] <==> exists y ::
                 && 0 <= y < |gap| && gap[y]
                 && x - y <= config.overflowBlocks * config.blockSize
                 && y - x <= config.overflowBlocks * config.blockSize)
    ensures forced.Some? && true !in gap ==>
              forall x :: 0 <= x < |rows| ==> (forced.value[x] <==> x + config.tailQueryTokens >= |rows|)
    ensures SharesTop(scores, gap, forced, config.RatioOf(layer), selected)
    ensures |kept| == |selected| && forall k :: 0 <= k < |kept| ==> selected[k] < |rows| && kept[k] == rows[selected[k]]
  {
    hide IsTopK, SelectedCount, SharesTop, ForcedOf, Increasing, config.RatioOf, config.Valid;
    gap := ActiveGap(gapMask, rows);
    scores := ScoresOf(score, layer, rows);
    forced := if config.strategy == SparseQ then Some(ForcedOf(gap, config.tailQueryTokens, config.Radius())) else None;
    selected :| Selects(scores, gap, Base(config, gap), config.RatioOf(layer), selected)
      && kept == Pick(rows, selected);
    SelectsShare(scores, gap, forced, config.RatioOf(layer), selected);
    ForcedEntries(gap, config.tailQueryTokens, config.Radius());
  }

  /** The key and value a layer computes from a token's hidden row, rotated to a position: whatever they are. */
  type Refresh<!T> = (nat, nat, nat) -> T

  method WriteCells<T>(oldKv: array<T>, absolute: seq<nat>, cells: seq<T>)
    requires |absolute| == |cells| && Increasing(absolute)
        && forall x :: 0 <= x < |absolute| ==> absolute[x] < oldKv.Length
    modifies oldKv
    ensures forall x :: 0 <= x < |absolute| ==> oldKv[absolute[x]] == cells[x]
    ensures forall t :: 0 <= t < oldKv.Length && t !in absolute ==> oldKv[t] == old(oldKv[t])
  {
    for x := 0 to |absolute|
      invariant forall y :: 0 <= y < x ==> oldKv[absolute[y]] == cells[y]
      invariant forall t :: 0 <= t < oldKv.Length && t !in absolute[..x] ==> oldKv[t] == old(oldKv[t])
    {
      oldKv[absolute[x]] := cells[x];
      assert absolute[x] in absolute[..x + 1];
    }
    assert absolute[..|absolute|] == absolute;
  }

  /** Writing the active cells refreshes exactly the active tokens, each from its own row at its own position. */
  method WriteActive<T>(state: BlendExecutionState, rows: seq<nat>, layer: nat, renew: Refresh<T>, cells: seq<T>,
                        oldKv: array<T>)
    requires state.Valid(rows) && oldKv.Length == |state.gapMask|
    requires |cells| == |rows| && forall x :: 0 <= x < |rows| ==> cells[x] == renew(layer, rows[x], state.positions[x])
    modifies oldKv
    ensures forall t :: 0 <= t < oldKv.Length ==> oldKv[t] == if t in rows then renew(layer, t, t) else old(oldKv[t])
  {
    var active := state.Active();
    var absolute := seq(|active|, x requires 0 <= x < |active| => state.computeStart + active[x]);
    assert absolute == rows;
    WriteCells(oldKv, absolute, cells);
    forall t: nat | t < oldKv.Length && t in rows ensures oldKv[t] == renew(layer, t, t) {
      var x :| 0 <= x < |rows| && rows[x] == t;
    }
  }

  /** The check layer's choice: by key deviation, or by Sparse-Q attention with its forced window. */
  method Choose(config: Config, layer: nat, gapMask: seq<bool>, rows: seq<nat>, deviation: Scoring, sparse: Scoring)
    returns (selected: seq<nat>)
    requires config.Valid() && rows != [] && forall x :: 0 <= x < |rows| ==> rows[x] < |gapMask|
    ensures var gap := ActiveGap(gapMask, rows);
            Selects(ScoresOf(if config.strategy == SparseQ then sparse else deviation, layer, rows), gap,
                    Base(config, gap),
                    config.RatioOf(layer), selected)
    ensures selected != []
  {
    var gap := ActiveGap(gapMask, rows);
    var ratio := config.RatioOf(layer);
    if config.strategy != SparseQ {
      var r := Select(ScoresOf(deviation, layer, rows), gap, None, ratio);
      selected := r.value;
    }
    if config.strategy != KvDeviation {
      var query, forced := SparseMasks(gap, config.tailQueryTokens, config.Radius());
      var r := Select(ScoresOf(sparse, layer, rows), gap, Some(forced), ratio);
      if config.strategy == SparseQ {
        selected := r.value;
      }
    }
    SelectionIsNotEmpty(ScoresOf(if config.strategy == SparseQ then sparse else deviation, layer, rows), gap,
                        Base(config, gap), ratio, selected);
  }

  /** One layer on the active rows. Key deviation prunes before the write, Sparse-Q after it; either way the written
      cells are fresh, every other cell stays as loaded, and the kept rows are a selection that holds every gap. */
  method ComputeLayer<T>(config: Config, layer: nat, state: BlendExecutionState, rows: seq<nat>, oldKv: array<T>,
                         renew: Refresh<T>, deviation: Scoring, sparse: Scoring)
    returns (kept: seq<nat>)
    requires config.Valid() && state.Valid(rows) && rows != [] && oldKv.Length == |state.gapMask|
    modifies state, oldKv
    ensures state.Valid(kept) && kept != [] && forall t :: t in kept ==> t in rows
    ensures layer !in config.checkLayers ==> kept == rows && state.importantIndices == old(state.importantIndices)
    ensures layer in config.checkLayers ==>
              KeptBy(config, layer, state.gapMask, rows, if config.strategy == SparseQ then sparse else deviation, kept)
    ensures forall t :: 0 <= t < oldKv.Length ==>
              oldKv[t] == if t in (if config.strategy == SparseQ then rows else kept) then renew(layer, t, t)
                else old(oldKv[t])
  {
    hide Selects, Base, KeptBy, ScoresOf, ActiveGap, config.Valid, state.Valid;
    RowsInMask(state, rows);
    kept := rows;
    var cells := seq(|rows|, x requires 0 <= x < |rows| && |state.positions| == |rows| reads state =>
      renew(layer, rows[x], state.positions[x]));
    var selected := [];
    if layer in config.checkLayers {
      selected := Choose(config, layer, state.gapMask, rows, deviation, sparse);
      GapsSelected(config, layer, state.gapMask, rows, if config.strategy == SparseQ then sparse else deviation,
                   selected);
    }
    if layer in config.checkLayers && config.strategy != SparseQ {
      kept := Prune(state, rows, selected);
      cells := Pick(cells, selected);
    }
    WriteActive(state, kept, layer, renew, cells, oldKv);
    if layer in config.checkLayers && config.strategy == SparseQ {
      kept := Prune(state, rows, selected);
    }
  }

  lemma RowsInMask(state: BlendExecutionState, rows: seq<nat>)
    requires state.Valid(rows)
    ensures |state.positions| == |rows| && forall x :: 0 <= x < |rows| ==> rows[x] < |state.gapMask|
  {
  }

  lemma GapsSelected(config: Config, layer: nat, gapMask: seq<bool>, rows: seq<nat>, score: Scoring, selected: seq<nat>)
    requires config.Valid() && forall x :: 0 <= x < |rows| ==> rows[x] < |gapMask|
    requires var gap := ActiveGap(gapMask, rows);
             Selects(ScoresOf(score, layer, rows), gap, Base(config, gap), config.RatioOf(layer), selected)
    ensures Increasing(selected) && forall x :: 0 <= x < |selected| ==> selected[x] < |rows|
    ensures forall x :: 0 <= x < |rows| && gapMask[rows[x]] ==> x in selected
    ensures KeptBy(config, layer, gapMask, rows, score, Pick(rows, selected))
  {
    var gap := ActiveGap(gapMask, rows);
    forall x | 0 <= x < |rows| && gapMask[rows[x]] ensures x in selected {
      assert gap[x] && Base(config, gap)[x];
    }
  }

  // ---------------------------------------------------------------- the whole run

  /** A position of the computed span that no stored segment covers. */
  ghost predicate IsGap(plan: BlendPlan, t: int) {
    plan.apcPrefixTokens <= t < plan.allocationEnd && !IsCovered(plan.segments, t)
  }

  /** Ones, cleared over the prefix and over every segment. */
  method GapMask(plan: BlendPlan) returns (mask: seq<bool>)
    requires AllValid(plan.segments) && plan.WellFormed()
    ensures |mask| == plan.allocationEnd && forall t :: 0 <= t < |mask| ==> (mask[t] <==> IsGap(plan, t))
  {
    var bits := new bool[plan.allocationEnd](_ => true);
    forall t | 0 <= t < plan.apcPrefixTokens { bits[t] := false; }
    for i := 0 to |plan.segments|
      invariant forall t :: 0 <= t < bits.Length ==>
          (bits[t] <==> t >= plan.apcPrefixTokens && !IsCovered(plan.segments[..i], t))
    {
      var segment := plan.segments[i];
      assert segment.Valid();
      forall t | segment.targetStart <= t < segment.TargetEnd() { bits[t] := false; }
      forall t ensures IsCovered(plan.segments[..i + 1], t) <==> IsCovered(plan.segments[..i], t) || segment.Covers(t) {
        CoveredByOneMore(plan.segments, i, t);
      }
    }
    assert plan.segments[..|plan.segments|] == plan.segments;
    mask := bits[..];
  }

  lemma CoveredByOneMore(segments: seq<BlendSegment>, i: nat, t: int)
    requires i < |segments|
    ensures IsCovered(segments[..i + 1], t) <==> IsCovered(segments[..i], t) || segments[i].Covers(t)
  {
    if IsCovered(segments[..i], t) {
      var k :| 0 <= k < i && segments[..i][k].Covers(t);
      assert segments[..i + 1][k].Covers(t);
    }
    if segments[i].Covers(t) { assert segments[..i + 1][i].Covers(t); }
    if IsCovered(segments[..i + 1], t) {
      var k :| 0 <= k < i + 1 && segments[..i + 1][k].Covers(t);
      if k < i { assert segments[..i][k].Covers(t); }
    }
  }

  /** Some gap lies within the overflow radius of the token. */
  ghost predicate NearToken(plan: BlendPlan, t: int, radius: nat) {
    exists u :: IsGap(plan, u) && t - u <= radius && u - t <= radius
  }

  /** On a span that has not been pruned yet, the Sparse-Q window is measured in token positions. */
  lemma DenseWindow(config: Config, layer: nat, plan: BlendPlan, gapMask: seq<bool>, rows: seq<nat>, score: Scoring,
                    kept: seq<nat>, t: nat)
    requires config.Valid() && config.strategy == SparseQ
    requires 0 <= plan.apcPrefixTokens <= plan.allocationEnd == |gapMask|
    requires forall u :: 0 <= u < |gapMask| ==> (gapMask[u] <==> IsGap(plan, u))
    requires rows == Range(plan.apcPrefixTokens, plan.allocationEnd)
    requires KeptBy(config, layer, gapMask, rows, score, kept)
    requires plan.apcPrefixTokens <= t < plan.allocationEnd && NearToken(plan, t, config.Radius())
    ensures t in kept
  {
    hide IsTopK, SelectedCount;
    var gap := ActiveGap(gapMask, rows);
    var selected :| Selects(ScoresOf(score, layer, rows), gap, Base(config, gap), config.RatioOf(layer), selected)
      && kept == Pick(rows, selected);
    var u :| IsGap(plan, u) && t - u <= config.Radius() && u - t <= config.Radius();
    var x, y := t - plan.apcPrefixTokens, u - plan.apcPrefixTokens;
    assert rows[x] == t && rows[y] == u && gap[y];
    assert NearGap(gap, x, config.Radius()) && true in gap;
    assert Base(config, gap)[x];
    var k :| 0 <= k < |selected| && selected[k] == x;
    assert kept[k] == t;
  }

  /** What a run leaves in the layers' spans. */
  ghost predicate Refreshed(plan: BlendPlan, caches: seq<seq<Cell>>) {
    && (forall l, t :: 0 <= l < |caches| && 0 <= t < |caches[l]| ==>
         caches[l][t] == Fresh(l, t, t) || caches[l][t] == Loaded(l, t))
    && (forall l, t :: 0 <= l < |caches| && 0 <= t < |caches[l]| && t < plan.apcPrefixTokens ==>
         caches[l][t] == Loaded(l, t))
    && (forall l, t :: 0 <= l < |caches| && 0 <= t < |caches[l]| && IsGap(plan, t) ==> caches[l][t] == Fresh(l, t, t))
  }

  /** A token that is reused in one layer is reused in every later one. */
  ghost predicate ReuseIsMonotone(caches: seq<seq<Cell>>) {
    forall l, m, t :: 0 <= l < m < |caches| && 0 <= t < |caches[l]| && t < |caches[m]| && caches[m][t].Fresh? ==>
      caches[l][t].Fresh?
  }

  /** One layer after the loading: the written tokens are fresh, the others as loaded. */
  ghost predicate LayerIs(span: seq<Cell>, l: nat, written: seq<nat>) {
    forall t :: 0 <= t < |span| ==> span[t] == if t in written then Fresh(l, t, t) else Loaded(l, t)
  }

  ghost predicate LoadedSpan(span: seq<Cell>, l: nat) {
    forall t :: 0 <= t < |span| ==> span[t] == Loaded(l, t)
  }

  /** Which tokens each layer so far has written, and which are still active. */
  ghost predicate Shrinking(written: seq<seq<nat>>, rows: seq<nat>) {
    && (forall l, m, t :: 0 <= l < m < |written| && t in written[m] ==> t in written[l])
    && (forall l, t :: 0 <= l < |written| && t in rows ==> t in written[l])
  }

  ghost predicate OwnArrays(caches: seq<array<Cell>>) {
    forall l, m :: 0 <= l < m < |caches| ==> caches[l] != caches[m]
  }

  ghost function Contents(caches: seq<array<Cell>>): (r: seq<seq<Cell>>)
    reads set l | 0 <= l < |caches| :: caches[l]
    ensures |r| == |caches| && forall l :: 0 <= l < |r| ==> r[l] == caches[l][..]
  {
    seq(|caches|, l requires 0 <= l < |caches| reads set k | 0 <= k < |caches| :: caches[k] => caches[l][..])
  }

  /** What holds of the written and active tokens between two layers. */
  ghost predicate History(config: Config, plan: BlendPlan, rows: seq<nat>, written: seq<seq<nat>>) {
    && Shrinking(written, rows)
    && InSuffix(plan, rows) && (forall m :: 0 <= m < |written| ==> InSuffix(plan, written[m]))
    && HoldsGaps(plan, rows) && (forall m :: 0 <= m < |written| ==> HoldsGaps(plan, written[m]))
    && (config.strategy == SparseQ ==>
          WindowActive(config, plan, rows) && forall m :: 0 <= m < |written| ==> WindowActive(config, plan, written[m]))
    && (forall m :: 0 <= m < |written| && Unchecked(config, m) ==> WholeSuffix(plan, written[m]))
  }

  /** No check layer up to this layer. */
  ghost predicate Unchecked(config: Config, l: nat) {
    forall c :: c in config.checkLayers ==> l < c
  }

  ghost predicate WholeSuffix(plan: BlendPlan, tokens: seq<nat>) {
    forall t: nat :: plan.apcPrefixTokens <= t < plan.allocationEnd ==> t in tokens
  }

  ghost predicate InSuffix(plan: BlendPlan, tokens: seq<nat>) {
    forall t :: t in tokens ==> plan.apcPrefixTokens <= t < plan.allocationEnd
  }

  ghost predicate HoldsGaps(plan: BlendPlan, tokens: seq<nat>) {
    forall t: nat :: IsGap(plan, t) ==> t in tokens
  }

  /** The state describes this plan, and is unpruned up to the first check layer. */
  ghost predicate StateOf(config: Config, plan: BlendPlan, l: nat, state: BlendExecutionState, rows: seq<nat>)
    reads state
  {
    && state.computeStart == plan.apcPrefixTokens && |state.gapMask| == plan.allocationEnd
    && (forall t :: 0 <= t < |state.gapMask| ==> (state.gapMask[t] <==> IsGap(plan, t)))
    && state.Valid(rows) && rows != []
    && ((forall c :: c in config.checkLayers ==> l <= c) ==> Dense(plan, state, rows))
  }

  /** Nothing has been pruned. */
  ghost predicate Dense(plan: BlendPlan, state: BlendExecutionState, rows: seq<nat>)
    reads state
  {
    0 <= plan.apcPrefixTokens <= plan.allocationEnd && state.importantIndices == None
      && rows == Range(plan.apcPrefixTokens, plan.allocationEnd)
  }

  /** Every token near a gap is in the list. */
  ghost predicate WindowActive(config: Config, plan: BlendPlan, tokens: seq<nat>) {
    forall t: nat ::
      && plan.apcPrefixTokens <= t < plan.allocationEnd
      && NearToken(plan, t, config.overflowBlocks * config.blockSize) ==>
      t in tokens
  }

  method Begin(config: Config, plan: BlendPlan) returns (state: BlendExecutionState, rows: seq<nat>)
    requires AllValid(plan.segments) && plan.WellFormed() && plan.apcPrefixTokens < plan.allocationEnd
    ensures fresh(state) && StateOf(config, plan, 0, state, rows) && History(config, plan, rows, [])
  {
    rows := Range(plan.apcPrefixTokens, plan.allocationEnd);
    var mask := GapMask(plan);
    state := new BlendExecutionState(plan.apcPrefixTokens, rows, mask);
    forall t: nat | plan.apcPrefixTokens <= t < plan.allocationEnd ensures t in rows {
      assert rows[t - plan.apcPrefixTokens] == t;
    }
  }

  /** The Sparse-Q check layer keeps the whole window; other layers keep everything. */
  lemma WindowKept(config: Config, plan: BlendPlan, l: nat, gapMask: seq<bool>, rows: seq<nat>, score: Scoring,
                   kept: seq<nat>)
    requires config.Valid() && config.strategy == SparseQ
    requires 0 <= plan.apcPrefixTokens <= plan.allocationEnd == |gapMask|
    requires forall u :: 0 <= u < |gapMask| ==> (gapMask[u] <==> IsGap(plan, u))
    requires rows == Range(plan.apcPrefixTokens, plan.allocationEnd) && KeptBy(config, l, gapMask, rows, score, kept)
    ensures WindowActive(config, plan, kept)
  {
    forall t: nat | plan.apcPrefixTokens <= t < plan.allocationEnd && NearToken(plan, t, config.Radius())
      ensures t in kept {
      DenseWindow(config, l, plan, gapMask, rows, score, kept, t);
    }
  }

  lemma HistoryStep(config: Config, plan: BlendPlan, rows: seq<nat>, written: seq<seq<nat>>, kept: seq<nat>,
                    wrote: seq<nat>)
    requires History(config, plan, rows, written) && (forall t :: t in kept ==> t in rows)
    requires wrote == rows || wrote == kept
    requires HoldsGaps(plan, kept) && (config.strategy == SparseQ ==> WindowActive(config, plan, kept))
    requires Unchecked(config, |written|) ==> WholeSuffix(plan, wrote)
    ensures History(config, plan, kept, written + [wrote])
  {
    hide HoldsGaps, WindowActive, WholeSuffix, Unchecked;
    var w := written + [wrote];
    forall l, m, t | 0 <= l < m < |w| && t in w[m] ensures t in w[l] {
      if m == |written| { assert t in rows; }
    }
  }

  /** The gap mask and the active list agree with the plan, so the kept rows hold every gap. */
  lemma GapsKept(config: Config, plan: BlendPlan, l: nat, state: BlendExecutionState, rows: seq<nat>)
    requires state.Valid(rows) && |state.gapMask| == plan.allocationEnd
    requires forall t :: 0 <= t < |state.gapMask| ==> (state.gapMask[t] <==> IsGap(plan, t))
    ensures HoldsGaps(plan, rows)
  {
    forall t: nat | IsGap(plan, t) ensures t in rows {
      var x :| 0 <= x < |state.positions| && state.positions[x] == t;
      assert rows[x] == t;
    }
  }

  /** Across one layer the written tokens take their fresh keys and values and the others keep theirs. */
  ghost predicate Rewritten<T>(before: seq<T>, after: seq<T>, l: nat, written: seq<nat>, renew: Refresh<T>) {
    |after| == |before| && forall t :: 0 <= t < |after| ==>
      after[t] == if t in written then renew(l, t, t) else before[t]
  }

  /** One turn of the fold keeps the picture. */
  method Advance<T>(config: Config, plan: BlendPlan, l: nat, state: BlendExecutionState, rows: seq<nat>,
                    oldKv: array<T>, renew: Refresh<T>, deviation: Scoring, sparse: Scoring,
                    ghost written: seq<seq<nat>>)
    returns (kept: seq<nat>, ghost wrote: seq<nat>)
    requires config.Valid() && StateOf(config, plan, l, state, rows) && History(config, plan, rows, written)
    requires l == |written|
    requires oldKv.Length == plan.allocationEnd
    modifies state, oldKv
    ensures StateOf(config, plan, l + 1, state, kept) && History(config, plan, kept, written + [wrote])
    ensures Rewritten(old(oldKv[..]), oldKv[..], l, wrote, renew)
  {
    hide History, KeptBy, HoldsGaps, WindowActive, IsGap, Range, WholeSuffix;
    SuffixRange(plan);
    kept := ComputeLayer(config, l, state, rows, oldKv, renew, deviation, sparse);
    wrote := if config.strategy == SparseQ then rows else kept;
    GapsKept(config, plan, l, state, kept);
    WindowSurvives(config, plan, l, state.gapMask, rows, written, sparse, kept);
    HistoryStep(config, plan, rows, written, kept, wrote);
  }

  lemma SuffixRange(plan: BlendPlan)
    ensures 0 <= plan.apcPrefixTokens <= plan.allocationEnd ==>
        WholeSuffix(plan, Range(plan.apcPrefixTokens, plan.allocationEnd))
  {
    if 0 <= plan.apcPrefixTokens <= plan.allocationEnd {
      var rows := Range(plan.apcPrefixTokens, plan.allocationEnd);
      forall t: nat | plan.apcPrefixTokens <= t < plan.allocationEnd ensures t in rows {
        assert rows[t - plan.apcPrefixTokens] == t;
      }
    }
  }

  lemma WindowSurvives(config: Config, plan: BlendPlan, l: nat, gapMask: seq<bool>, rows: seq<nat>,
                       written: seq<seq<nat>>, sparse: Scoring, kept: seq<nat>)
    requires config.Valid() && |gapMask| == plan.allocationEnd && History(config, plan, rows, written)
    requires forall u :: 0 <= u < |gapMask| ==> (gapMask[u] <==> IsGap(plan, u))
    requires forall x :: 0 <= x < |rows| ==> rows[x] < |gapMask|
    requires (forall c :: c in config.checkLayers ==> l <= c) ==>
               0 <= plan.apcPrefixTokens <= plan.allocationEnd
                 && rows == Range(plan.apcPrefixTokens, plan.allocationEnd)
    requires l !in config.checkLayers ==> kept == rows
    requires l in config.checkLayers && config.strategy == SparseQ ==> KeptBy(config, l, gapMask, rows, sparse, kept)
    ensures config.strategy == SparseQ ==> WindowActive(config, plan, kept)
  {
    hide KeptBy, WindowActive, IsGap, Range;
    if config.strategy == SparseQ && l in config.checkLayers {
      assert config.checkLayers == [l];
      WindowKept(config, plan, l, gapMask, rows, sparse, kept);
    }
  }

  /** Before the first check layer the whole suffix is fresh. */
  ghost predicate FreshUntilChecked(config: Config, plan: BlendPlan, caches: seq<seq<Cell>>) {
    forall l, t :: 0 <= l < |caches| && 0 <= t < |caches[l]| && plan.apcPrefixTokens <= t && Unchecked(config, l) ==>
      caches[l][t] == Fresh(l, t, t)
  }

  /** Everything within the overflow radius of a gap is fresh in every layer. */
  ghost predicate FreshWindow(config: Config, plan: BlendPlan, caches: seq<seq<Cell>>) {
    forall l, t ::
      && 0 <= l < |caches| && 0 <= t < |caches[l]| && plan.apcPrefixTokens <= t
      && NearToken(plan, t, config.overflowBlocks * config.blockSize) ==>
      caches[l][t] == Fresh(l, t, t)
  }

  ghost predicate Shaped(plan: BlendPlan, caches: seq<seq<Cell>>, written: seq<seq<nat>>) {
    |written| == |caches| && forall l :: 0 <= l < |caches| ==>
      |caches[l]| == plan.allocationEnd && LayerIs(caches[l], l, written[l])
  }

  lemma RefreshedByHistory(config: Config, plan: BlendPlan, rows: seq<nat>, written: seq<seq<nat>>,
                           caches: seq<seq<Cell>>)
    requires History(config, plan, rows, written) && Shaped(plan, caches, written)
    ensures Refreshed(plan, caches) && ReuseIsMonotone(caches)
  {
    hide WindowActive, WholeSuffix, Unchecked, IsGap;
    forall l, t | 0 <= l < |caches| && 0 <= t < |caches[l]|
      ensures caches[l][t] == Fresh(l, t, t) || caches[l][t] == Loaded(l, t)
      ensures t < plan.apcPrefixTokens ==> caches[l][t] == Loaded(l, t)
      ensures IsGap(plan, t) ==> caches[l][t] == Fresh(l, t, t)
    {
      assert LayerIs(caches[l], l, written[l]) && InSuffix(plan, written[l]) && HoldsGaps(plan, written[l]);
    }
    forall l, m, t | 0 <= l < m < |caches| && 0 <= t < |caches[l]| && t < |caches[m]| && caches[m][t].Fresh?
      ensures caches[l][t].Fresh? {
      assert LayerIs(caches[l], l, written[l]) && LayerIs(caches[m], m, written[m]);
      assert t in written[m];
    }
  }

  lemma FreshByHistory(config: Config, plan: BlendPlan, rows: seq<nat>, written: seq<seq<nat>>, caches: seq<seq<Cell>>)
    requires History(config, plan, rows, written) && Shaped(plan, caches, written)
    ensures FreshUntilChecked(config, plan, caches)
    ensures config.strategy == SparseQ ==> FreshWindow(config, plan, caches)
  {
    hide NearToken, Unchecked, IsGap;
    forall l, t | 0 <= l < |caches| && 0 <= t < |caches[l]| && plan.apcPrefixTokens <= t
      ensures Unchecked(config, l) ==> caches[l][t] == Fresh(l, t, t)
      ensures config.strategy == SparseQ && NearToken(plan, t, config.Radius()) ==> caches[l][t] == Fresh(l, t, t)
    {
      assert LayerIs(caches[l], l, written[l]);
      if Unchecked(config, l) { assert WholeSuffix(plan, written[l]); }
      if config.strategy == SparseQ { assert WindowActive(config, plan, written[l]); }
    }
  }

  /** Over the whole run, for every scoring and every choice of check layers: each gap is written afresh in every
      layer from its own row at its own position, the prefix is never written, nothing is reused and later refreshed,
      before the first check layer everything is fresh, and under Sparse-Q so is all within the overflow radius of a
      gap. */
  method Run(config: Config, plan: BlendPlan, caches: seq<array<Cell>>, deviation: Scoring, sparse: Scoring)
    requires config.Valid() && AllValid(plan.segments) && plan.WellFormed() && OwnArrays(caches)
    requires forall l :: 0 <= l < |caches| ==> caches[l].Length == plan.allocationEnd && LoadedSpan(caches[l][..], l)
    modifies set l | 0 <= l < |caches| :: caches[l]
    ensures Refreshed(plan, Contents(caches)) && ReuseIsMonotone(Contents(caches))
    ensures FreshUntilChecked(config, plan, Contents(caches))
    ensures config.strategy == SparseQ ==> FreshWindow(config, plan, Contents(caches))
  {
    hide History, StateOf, LayerIs, LoadedSpan, Refreshed, ReuseIsMonotone, FreshUntilChecked, FreshWindow;
    if plan.allocationEnd <= plan.apcPrefixTokens {
      NothingToRefresh(config, plan, Contents(caches));
      return;
    }
    var state, rows := Begin(config, plan);
    var renew: Refresh<Cell> := (l: nat, row: nat, position: nat) => Fresh(l, row, position);
    ghost var written: seq<seq<nat>> := [];
    for l := 0 to |caches|
      invariant |written| == l && fresh(state)
      invariant StateOf(config, plan, l, state, rows) && History(config, plan, rows, written)
      invariant forall m :: 0 <= m < l ==> LayerIs(caches[m][..], m, written[m])
      invariant forall m :: l <= m < |caches| ==> LoadedSpan(caches[m][..], m)
    {
      ghost var loaded := caches[l][..];
      var kept, wrote := Advance(config, plan, l, state, rows, caches[l], renew, deviation, sparse, written);
      RewrittenLoaded(loaded, caches[l][..], l, wrote, renew);
      rows := kept;
      written := written + [wrote];
    }
    RefreshedByHistory(config, plan, rows, written, Contents(caches));
    FreshByHistory(config, plan, rows, written, Contents(caches));
  }

  lemma RewrittenLoaded(before: seq<Cell>, after: seq<Cell>, l: nat, written: seq<nat>, renew: Refresh<Cell>)
    requires LoadedSpan(before, l) && Rewritten(before, after, l, written, renew)
    requires forall t: nat :: renew(l, t, t) == Fresh(l, t, t)
    ensures LayerIs(after, l, written)
  {
  }

  /** With an empty suffix the loaded spans already are what a run promises. */
  lemma NothingToRefresh(config: Config, plan: BlendPlan, caches: seq<seq<Cell>>)
    requires plan.allocationEnd <= plan.apcPrefixTokens
    requires forall l :: 0 <= l < |caches| ==> |caches[l]| == plan.allocationEnd && LoadedSpan(caches[l], l)
    ensures Refreshed(plan, caches) && ReuseIsMonotone(caches) && FreshUntilChecked(config, plan, caches)
    ensures FreshWindow(config, plan, caches)
  {
    forall l, t | 0 <= l < |caches| && 0 <= t < |caches[l]| ensures caches[l][t] == Loaded(l, t) {
      assert LoadedSpan(caches[l], l);
    }
  }
}
