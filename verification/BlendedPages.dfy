/** The layer fold on the loader's own buffers: what the pages hold once every layer has been computed on the active
    tokens of its staging buffer and written back. */
module BlendedPages {
  import opened Types
  import opened Paging
  import opened Loader
  import opened LayerLoader
  import BlendRun

  type Refresh<!E> = BlendRun.Refresh<KV<E>>

  /** The tokens a layer has written; the layers still to come have written none. */
  function WrittenAt(written: seq<seq<nat>>, l: nat): seq<nat> {
    if l < |written| then written[l] else []
  }

  /** A span whose written tokens have taken the key and value computed from their own rows. */
  ghost function Mix<E>(span: seq<KV<E>>, l: nat, tokens: seq<nat>, renew: Refresh<E>): (r: seq<KV<E>>)
    ensures |r| == |span| && forall t: nat :: t < |r| ==> r[t] == if t in tokens then renew(l, t, t) else span[t]
  {
    seq(|span|, t requires 0 <= t < |span| => if t in tokens then renew(l, t, t) else span[t])
  }

  ghost function Mixes<E>(spans: seq<seq<KV<E>>>, written: seq<seq<nat>>, renew: Refresh<E>): (r: seq<seq<KV<E>>>)
    ensures |r| == |spans| && forall l: nat :: l < |r| ==> r[l] == Mix(spans[l], l, WrittenAt(written, l), renew)
  {
    seq(|spans|, l requires 0 <= l < |spans| => Mix(spans[l], l, WrittenAt(written, l), renew))
  }

  /** The suffix tokens a layer may not reuse: gaps, before the first check layer every token, and under Sparse-Q every
      token within the overflow radius of a gap. */
  ghost predicate MustRenew(config: BlendRun.Config, plan: BlendPlan, l: nat, t: nat) {
    && plan.apcPrefixTokens <= t < plan.allocationEnd
    && (|| BlendRun.IsGap(plan, t)
        || BlendRun.Unchecked(config, l)
        || (&& config.strategy == BlendRun.SparseQ
            && BlendRun.NearToken(plan, t, config.overflowBlocks * config.blockSize)))
  }

  /** One layer's pages after the run: each suffix slot holds what the layer computed from its token's own row at its
      own position, or else the token planned for it, and every other slot holds what it held before. */
  ghost predicate PageIs<E>(config: BlendRun.Config, setup: Setup<E>, l: nat, before: imap<nat, KV<E>>,
                            span: seq<KV<E>>, written: seq<nat>, renew: Refresh<E>, after: imap<nat, KV<E>>)
    requires |span| == |setup.slots| && 0 <= setup.plan.apcPrefixTokens <= |setup.slots| && Mapped(before, setup.slots)
  {
    && after.Keys == before.Keys
    && (forall t: nat :: t < |span| && setup.plan.apcPrefixTokens <= t ==>
          after[setup.slots[t]] == if t in written then renew(l, t, t) else span[t])
    && (forall t: nat :: MustRenew(config, setup.plan, l, t) ==> t in written)
    && (forall slot :: slot in before && slot !in setup.slots[setup.plan.apcPrefixTokens..] ==>
         after[slot] == before[slot])
  }

  /** The state of the fold is none of the loader's arrays. */
  lemma StateIsApart<E(0, !new)>(loader: PagedBlendLoader<E>, state: BlendRun.BlendExecutionState, l: nat)
    requires loader.Valid() && l < |loader.setup.kvCaches|
    ensures state !in loader.setup.World() && state !in loader.setup.WorldBefore(l)
    ensures state !in loader.setup.WorldFrom(l)
    ensures state !in loader.setup.kvCaches[l].Footprint() && state !in loader.Own()
  {
  }

  /** Computing on the active tokens turns the taken span into its mix. */
  method ComputeInPlace<E>(config: BlendRun.Config, plan: BlendPlan, l: nat, state: BlendRun.BlendExecutionState,
                           rows: seq<nat>, oldKv: array<KV<E>>, renew: Refresh<E>, deviation: BlendRun.Scoring,
                           sparse: BlendRun.Scoring, ghost span: seq<KV<E>>, ghost written: seq<seq<nat>>)
    returns (kept: seq<nat>, ghost wrote: seq<nat>)
    requires config.Valid() && l == |written| && oldKv[..] == span && |span| == plan.allocationEnd
    requires BlendRun.StateOf(config, plan, l, state, rows) && BlendRun.History(config, plan, rows, written)
    modifies state, oldKv
    ensures BlendRun.StateOf(config, plan, l + 1, state, kept)
    ensures BlendRun.History(config, plan, kept, written + [wrote])
    ensures oldKv[..] == Mix(span, l, wrote, renew)
  {
    hide BlendRun.StateOf, BlendRun.History, config.Valid;
    kept, wrote := BlendRun.Advance(config, plan, l, state, rows, oldKv, renew, deviation, sparse, written);
  }

  /** One turn of the loop: take the waiting buffer, prefetch the next layer, compute on the active tokens, write
      back. */
  method BlendLayer<E(0, !new)>(loader: PagedBlendLoader<E>, config: BlendRun.Config, l: nat,
                                state: BlendRun.BlendExecutionState, rows: seq<nat>, renew: Refresh<E>,
                                deviation: BlendRun.Scoring, sparse: BlendRun.Scoring, ghost span: seq<KV<E>>,
                                ghost written: seq<seq<nat>>)
    returns (kept: seq<nat>, ghost wrote: seq<nat>)
    requires loader.Valid() && l < |loader.setup.kvCaches| && loader.Waiting(l, span) && config.Valid()
    requires l == |written|
    requires BlendRun.StateOf(config, loader.setup.plan, l, state, rows)
    requires BlendRun.History(config, loader.setup.plan, rows, written)
    modifies loader, loader.Own(), loader.setup.kvCaches[l].Footprint(), state
    ensures loader.Valid() && fresh(loader.Own() - old(loader.Own()))
    ensures BlendRun.StateOf(config, loader.setup.plan, l + 1, state, kept)
    ensures BlendRun.History(config, loader.setup.plan, kept, written + [wrote])
    ensures |span| == |loader.setup.slots|
    ensures Committed(old(loader.setup.LayerImage(l)), loader.setup.LayerImage(l), loader.setup.slots,
                      loader.setup.plan.apcPrefixTokens, Mix(span, l, wrote, renew))
    ensures if l + 1 < |loader.setup.kvCaches| then loader.Waiting(l + 1, old(loader.setup.Span(l + 1)))
            else loader.buffers == map[]
  {
    hide loader.setup.Ok, StaysPut, loader.setup.Span, loader.setup.LayerImage, Committed, loader.setup.Private,
      BlendRun.StateOf, BlendRun.History, config.Valid, loader.setup.World, loader.setup.WorldBefore,
      loader.setup.WorldFrom, Mix, loader.Valid;
    loader.SetupIsOk();
    ghost var image := loader.setup.LayerImage(l);
    loader.LoaderIsNoPage(l);
    loader.OwnIsPrivate(l);
    loader.SpanLength(l, span);
    StateIsApart(loader, state, l);
    var oldKv := loader.Take(l, span);
    loader.OwnIsPrivate(l);
    assert loader.setup.LayerImage(l) == image;
    loader.NeighboursApart(l);
    kept, wrote := ComputeInPlace(config, loader.setup.plan, l, state, rows, oldKv, renew, deviation, sparse, span,
                                  written);
    assert loader.setup.LayerImage(l) == image;
    loader.Commit(l, oldKv);
  }

  /** Layers already mixed are not touched by what later layers write. */
  lemma MixesExtend<E>(spans: seq<seq<KV<E>>>, written: seq<seq<nat>>, wrote: seq<nat>, renew: Refresh<E>)
    requires |written| < |spans|
    ensures forall m: nat :: m < |written| ==>
        Mixes(spans, written + [wrote], renew)[m] == Mixes(spans, written, renew)[m]
    ensures Mixes(spans, written + [wrote], renew)[|written|] == Mix(spans[|written|], |written|, wrote, renew)
  {
  }

  lemma DoneAgrees<E>(setup: Setup<E>, l: nat, images: seq<imap<nat, KV<E>>>, blended: seq<seq<KV<E>>>,
                      other: seq<seq<KV<E>>>)
    requires setup.Ok() && l <= |setup.kvCaches| == |images| == |blended| == |other| && setup.Done(l, images, blended)
    requires forall m: nat :: m < l ==> other[m] == blended[m]
    ensures setup.Done(l, images, other)
  {
    hide setup.Ok;
  }

  /** One turn of the loop keeps the picture. */
  method Advance<E(0, !new)>(loader: PagedBlendLoader<E>, config: BlendRun.Config, l: nat,
                             state: BlendRun.BlendExecutionState, rows: seq<nat>, renew: Refresh<E>,
                             deviation: BlendRun.Scoring, sparse: BlendRun.Scoring, ghost spans: seq<seq<KV<E>>>,
                             ghost images: seq<imap<nat, KV<E>>>, ghost written: seq<seq<nat>>)
    returns (kept: seq<nat>, ghost wrote: seq<nat>)
    requires loader.Valid() && config.Valid() && l == |written| < |loader.setup.kvCaches| == |spans| == |images|
    requires loader.Between(l, spans, images, Mixes(spans, written, renew))
    requires BlendRun.StateOf(config, loader.setup.plan, l, state, rows)
    requires BlendRun.History(config, loader.setup.plan, rows, written)
    modifies loader, loader.Own(), loader.setup.kvCaches[l].Footprint(), state
    ensures loader.Valid() && fresh(loader.Own() - old(loader.Own()))
    ensures BlendRun.StateOf(config, loader.setup.plan, l + 1, state, kept)
    ensures BlendRun.History(config, loader.setup.plan, kept, written + [wrote])
    ensures loader.Between(l + 1, spans, images, Mixes(spans, written + [wrote], renew))
  {
    hide loader.setup.Ok, StaysPut, loader.setup.Span, loader.setup.LayerImage, Committed, loader.setup.Private,
      loader.setup.Rest, loader.setup.Done, loader.setup.World, loader.Valid, loader.Waiting, BlendRun.StateOf,
      BlendRun.History, config.Valid, Mixes;
    loader.SetupIsOk();
    loader.setup.RestSplits(l, spans, images);
    loader.WritesStayInLayer(l);
    StateIsApart(loader, state, l);
    kept, wrote := BlendLayer(loader, config, l, state, rows, renew, deviation, sparse, spans[l], written);
    MixesExtend(spans, written, wrote, renew);
    DoneAgrees(loader.setup, l, images, Mixes(spans, written, renew), Mixes(spans, written + [wrote], renew));
    loader.setup.DoneExtends(l, images, Mixes(spans, written + [wrote], renew));
  }

  /** Written-back mixes are the pages that a run promises. */
  lemma MixedPages<E(0, !new)>(config: BlendRun.Config, setup: Setup<E>, spans: seq<seq<KV<E>>>,
                               images: seq<imap<nat, KV<E>>>, rows: seq<nat>, written: seq<seq<nat>>, renew: Refresh<E>,
                               l: nat)
    requires setup.Ok() && l < |setup.kvCaches| == |images| == |spans| == |written| && |spans[l]| == |setup.slots|
    requires setup.Done(|setup.kvCaches|, images, Mixes(spans, written, renew))
    requires BlendRun.History(config, setup.plan, rows, written)
    ensures Mapped(images[l], setup.slots) && 0 <= setup.plan.apcPrefixTokens <= |setup.slots|
    ensures PageIs(config, setup, l, images[l], spans[l], written[l], renew, setup.LayerImage(l))
  {
    var blended := Mixes(spans, written, renew);
    assert setup.CommittedLayer(l, images, blended[l]);
  }

  lemma HistoryShrinks(config: BlendRun.Config, plan: BlendPlan, rows: seq<nat>, written: seq<seq<nat>>)
    requires BlendRun.History(config, plan, rows, written)
    ensures BlendRun.Shrinking(written, rows)
  {
  }

  /** The initial state of the fold, and the prefetch before the loop. */
  method Start<E(0, !new)>(loader: PagedBlendLoader<E>, config: BlendRun.Config, ghost renew: Refresh<E>)
    returns (state: BlendRun.BlendExecutionState, rows: seq<nat>)
    requires loader.Valid() && loader.buffers == map[]
    requires loader.setup.plan.apcPrefixTokens < loader.setup.plan.allocationEnd
    modifies loader, loader.Own()
    ensures loader.Valid() && fresh(loader.Own() - old(loader.Own())) && fresh(state)
    ensures BlendRun.StateOf(config, loader.setup.plan, 0, state, rows)
    ensures BlendRun.History(config, loader.setup.plan, rows, [])
    ensures var spans, images := old(loader.setup.Spans()), old(loader.setup.Images());
            loader.Between(0, spans, images, Mixes(spans, [], renew))
  {
    hide loader.setup.Ok, StaysPut, loader.setup.Span, loader.setup.LayerImage, Committed, loader.setup.Private,
      loader.setup.Rest, loader.setup.Done, loader.setup.World, loader.Valid, loader.Own, BlendRun.StateOf,
      BlendRun.History;
    loader.SetupIsOk();
    ghost var spans, images := loader.setup.Spans(), loader.setup.Images();
    loader.PrefetchFirst();
    loader.WorldIsAllocated();
    state, rows := BlendRun.Begin(config, loader.setup.plan);
    loader.setup.NothingDone(spans, images, Mixes(spans, [], renew));
  }

  /** All layers in turn, from the prefetched first one. */
  method RunLayers<E(0, !new)>(loader: PagedBlendLoader<E>, config: BlendRun.Config,
                               start: BlendRun.BlendExecutionState, first: seq<nat>, renew: Refresh<E>,
                               deviation: BlendRun.Scoring, sparse: BlendRun.Scoring, ghost spans: seq<seq<KV<E>>>,
                               ghost images: seq<imap<nat, KV<E>>>)
    returns (rows: seq<nat>, ghost written: seq<seq<nat>>)
    requires loader.Valid() && config.Valid() && |loader.setup.kvCaches| == |spans| == |images|
    requires loader.Between(0, spans, images, Mixes(spans, [], renew))
    requires BlendRun.StateOf(config, loader.setup.plan, 0, start, first)
    requires BlendRun.History(config, loader.setup.plan, first, [])
    modifies loader, loader.Own(), loader.setup.Pages(), start
    ensures loader.Valid() && |written| == |loader.setup.kvCaches|
    ensures BlendRun.History(config, loader.setup.plan, rows, written)
    ensures loader.setup.Done(|loader.setup.kvCaches|, images, Mixes(spans, written, renew))
  {
    hide loader.setup.Ok, StaysPut, loader.setup.Span, loader.setup.LayerImage, Committed, loader.setup.Private,
      loader.setup.Rest, loader.setup.Done, loader.setup.WorldBefore, loader.setup.WorldFrom, loader.setup.World,
      loader.Valid, loader.Waiting, BlendRun.StateOf, BlendRun.History, config.Valid, Mixes;
    loader.SetupIsOk();
    rows, written := first, [];
    for l := 0 to |loader.setup.kvCaches|
      invariant loader.Valid() && fresh(loader.Own() - old(loader.Own())) && |written| == l
      invariant BlendRun.StateOf(config, loader.setup.plan, l, start, rows)
      invariant BlendRun.History(config, loader.setup.plan, rows, written)
      invariant loader.Between(l, spans, images, Mixes(spans, written, renew))
    {
      ghost var wrote;
      rows, wrote := Advance(loader, config, l, start, rows, renew, deviation, sparse, spans, images, written);
      written := written + [wrote];
    }
  }

  /** The whole run on the pages. In every layer the suffix slot of each gap, and of every other token that has to be
      renewed, holds what that layer computed from the token's own row at its own position; any other suffix slot holds
      that or the planned token; all other slots hold what they held. A token reused in one layer is reused in all
      later ones. */
  method Run<E(0, !new)>(loader: PagedBlendLoader<E>, config: BlendRun.Config, renew: Refresh<E>,
                         deviation: BlendRun.Scoring, sparse: BlendRun.Scoring)
    returns (rows: seq<nat>, ghost written: seq<seq<nat>>)
    requires loader.Valid() && loader.buffers == map[] && config.Valid()
    modifies loader, loader.Own(), loader.setup.Pages()
    ensures loader.Valid()
    ensures loader.setup.plan.apcPrefixTokens >= loader.setup.plan.allocationEnd ==>
        loader.setup.Images() == old(loader.setup.Images())
    ensures loader.setup.plan.apcPrefixTokens < loader.setup.plan.allocationEnd ==>
              && |written| == |loader.setup.kvCaches| && BlendRun.Shrinking(written, rows)
              && forall l: nat :: l < |written| ==>
                   PageIs(config, loader.setup, l, old(loader.setup.LayerImage(l)), old(loader.setup.Span(l)),
                          written[l], renew,
                          loader.setup.LayerImage(l))
  {
    hide loader.setup.Ok, StaysPut, loader.setup.Span, loader.setup.LayerImage, Committed, loader.setup.Private,
      loader.setup.Rest, loader.setup.Done, loader.setup.WorldBefore, loader.setup.WorldFrom, loader.setup.World,
      loader.Valid, loader.Waiting, BlendRun.StateOf, BlendRun.History, config.Valid, Mixes, PageIs;
    rows, written := [], [];
    loader.SetupIsOk();
    if loader.setup.plan.allocationEnd <= loader.setup.plan.apcPrefixTokens {
      return;
    }
    ghost var spans, images := loader.setup.Spans(), loader.setup.Images();
    var state, first := Start(loader, config, renew);
    rows, written := RunLayers(loader, config, state, first, renew, deviation, sparse, spans, images);
    HistoryShrinks(config, loader.setup.plan, rows, written);
    forall l: nat | l < |written| {
      MixedPages(config, loader.setup, spans, images, rows, written, renew, l);
    }
  }
}
