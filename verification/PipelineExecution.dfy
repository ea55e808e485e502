/** What the queued work computes: under every legal timing of the two streams, and in every order of effects that
    the timing allows, the pages end up as a plain layer-by-layer computation leaves them. */
module PipelineExecution {
  import opened Pipeline
  import opened PipelineTiming

  // ---------------------------------------------------------------- effects

  /** Everything the two streams share: pages and sampled prefixes by layer, the two staging buffers, and the hidden
      state that the layers hand on. */
  datatype Memory<P, S, V, H> = Memory(pages: seq<P>, samples: seq<S>, buffers: seq<V>, hidden: H)

  /** What the commands compute, whatever it is. */
  datatype Work<!P, !S, !V, !H> = Work(
    gather: (nat, P) -> S, fill: (nat, S) -> V, compute: (nat, H, V) -> (H, V), scatter: (nat, P, V) -> P)

  function Effect<P, S, V, H>(work: Work<P, S, V, H>, c: Command, m: Memory<P, S, V, H>): Memory<P, S, V, H> {
    match c
    case Gather(l) =>
      if l < |m.pages| && l < |m.samples| then m.(samples := m.samples[l := work.gather(l, m.pages[l])]) else m
    case Fill(l, b) =>
      if l < |m.samples| && b < |m.buffers| then m.(buffers := m.buffers[b := work.fill(l, m.samples[l])]) else m
    case Compute(l, b) =>
      if b < |m.buffers| then
        var r := work.compute(l, m.hidden, m.buffers[b]);
        m.(hidden := r.0, buffers := m.buffers[b := r.1])
      else m
    case Scatter(l, b) =>
      if l < |m.pages| && b < |m.buffers| then m.(pages := m.pages[l := work.scatter(l, m.pages[l], m.buffers[b])])
        else m
    case _ => m
  }

  datatype Resource = Pages(layer: nat) | Sample(layer: nat) | Buffer(index: nat) | PackedHits | HiddenState

  function Uses(c: Command): set<Resource> {
    match c
    case Gather(l) => {Pages(l), Sample(l)}
    case Fill(l, b) => {Sample(l), Buffer(b), PackedHits}
    case Compute(l, b) => {Buffer(b), HiddenState}
    case Scatter(l, b) => {Pages(l), Buffer(b)}
    case _ => {}
  }

  predicate Conflict(c: Command, d: Command) {
    Uses(c) * Uses(d) != {}
  }

  /** Commands that share nothing can trade places. */
  lemma Commute<P, S, V, H>(work: Work<P, S, V, H>, c: Command, d: Command, m: Memory<P, S, V, H>)
    requires !Conflict(c, d)
    ensures Effect(work, c, Effect(work, d, m)) == Effect(work, d, Effect(work, c, m))
  {
    if SameThing(c, d) { SharingConflicts(c, d); }
  }

  predicate SameThing(c: Command, d: Command) {
    || ((c.Gather? || c.Scatter?) && (d.Gather? || d.Scatter?) && c.layer == d.layer)
    || ((c.Gather? || c.Fill?) && (d.Gather? || d.Fill?) && c.layer == d.layer)
    || (c.UsesBuffer() && d.UsesBuffer() && c.buffer == d.buffer)
    || (c.Compute? && d.Compute?)
  }

  lemma SharingConflicts(c: Command, d: Command)
    requires SameThing(c, d)
    ensures Conflict(c, d)
  {
    if c.UsesBuffer() && d.UsesBuffer() && c.buffer == d.buffer {
      assert Buffer(c.buffer) in Uses(c) * Uses(d);
    } else if c.Compute? && d.Compute? {
      assert HiddenState in Uses(c) * Uses(d);
    } else if (c.Gather? || c.Scatter?) && (d.Gather? || d.Scatter?) && c.layer == d.layer {
      assert Pages(c.layer) in Uses(c) * Uses(d);
    } else {
      assert Sample(c.layer) in Uses(c) * Uses(d);
    }
  }

  // ---------------------------------------------------------------- orders of effects

  function QueueOrder(n: nat): (order: seq<nat>)
    ensures |order| == n && forall i :: 0 <= i < n ==> order[i] == i
  {
    seq(n, i requires 0 <= i < n => i)
  }

  ghost predicate Ordering(order: seq<nat>, n: nat) {
    multiset(order) == multiset(QueueOrder(n))
  }

  ghost predicate InLog(order: seq<nat>, n: nat) {
    forall x :: 0 <= x < |order| ==> order[x] < n
  }

  lemma OrderingBounds(order: seq<nat>, n: nat)
    requires Ordering(order, n)
    ensures InLog(order, n) && |order| == n
    ensures forall i: nat :: i < n ==> i in order
  {
    forall x | 0 <= x < |order| ensures order[x] < n {
      assert order[x] in multiset(order);
    }
    assert |multiset(order)| == |multiset(QueueOrder(n))|;
    forall i: nat | i < n ensures i in order {
      assert QueueOrder(n)[i] == i;
      assert i in multiset(QueueOrder(n));
    }
  }

  /** The effects of the queued commands, one after the other in the given order. */
  function Execute<P, S, V, H>(work: Work<P, S, V, H>, log: seq<Queued>, order: seq<nat>, m: Memory<P, S, V, H>)
    : Memory<P, S, V, H>
    requires InLog(order, |log|)
    decreases |order|
  {
    if order == [] then m
    else
      var n := |order| - 1;
      Effect(work, log[order[n]].command, Execute(work, log, order[..n], m))
  }

  /** A command that conflicts with nothing after it can be put last. */
  lemma {:induction false} PutLast<P, S, V, H>(work: Work<P, S, V, H>, log: seq<Queued>, front: seq<nat>, i: nat,
                                               rest: seq<nat>, m: Memory<P, S, V, H>)
    requires i < |log| && InLog(front + rest, |log|) && InLog(rest, |log|) && InLog(front + [i] + rest, |log|)
    requires forall x :: 0 <= x < |rest| ==> !Conflict(log[i].command, log[rest[x]].command)
    ensures Execute(work, log, front + [i] + rest, m)
        == Effect(work, log[i].command, Execute(work, log, front + rest, m))
    decreases |rest|
  {
    hide Effect, Conflict;
    if rest == [] {
      assert front + [i] + rest == front + [i] && front + rest == front;
      assert (front + [i])[..|front|] == front;
    } else {
      var n := |rest| - 1;
      var shorter, last := rest[..n], rest[n];
      assert rest == shorter + [last];
      ShorterInLog(front, i, rest, |log|);
      PutLast(work, log, front, i, shorter, m);
      var whole := front + [i] + rest;
      assert whole[..|whole| - 1] == front + [i] + shorter && whole[|whole| - 1] == last;
      var without := front + rest;
      assert without[..|without| - 1] == front + shorter && without[|without| - 1] == last;
      Commute(work, log[i].command, log[last].command, Execute(work, log, front + shorter, m));
    }
  }

  lemma ShorterInLog(front: seq<nat>, i: nat, rest: seq<nat>, n: nat)
    requires rest != [] && InLog(front + rest, n) && InLog(rest, n) && InLog(front + [i] + rest, n)
    ensures var shorter := rest[..|rest| - 1];
            InLog(front + shorter, n) && InLog(shorter, n) && InLog(front + [i] + shorter, n)
  {
    var shorter := rest[..|rest| - 1];
    assert front + shorter == (front + rest)[..|front + shorter|];
    assert front + [i] + shorter == (front + [i] + rest)[..|front + [i] + shorter|];
  }

  /** Commands run out of queue order share nothing. */
  ghost predicate InversionsAreFree(log: seq<Queued>, order: seq<nat>)
    requires InLog(order, |log|)
  {
    forall x, y :: 0 <= x < y < |order| && order[y] < order[x] ==>
      !Conflict(log[order[x]].command, log[order[y]].command)
  }

  lemma QueueStep<P, S, V, H>(work: Work<P, S, V, H>, log: seq<Queued>, n: nat, m: Memory<P, S, V, H>)
    requires 0 < n <= |log|
    ensures InLog(QueueOrder(n), |log|) && InLog(QueueOrder(n - 1), |log|)
    ensures Execute(work, log, QueueOrder(n), m)
        == Effect(work, log[n - 1].command, Execute(work, log, QueueOrder(n - 1), m))
  {
    hide Effect;
    assert QueueOrder(n)[..n - 1] == QueueOrder(n - 1);
  }

  /** Then the order makes no difference. */
  lemma {:induction false} OrderDoesNotMatter<P, S, V, H>(work: Work<P, S, V, H>, log: seq<Queued>, order: seq<nat>,
                                                          n: nat, m: Memory<P, S, V, H>)
    requires n <= |log| && Ordering(order, n) && InLog(order, |log|) && InversionsAreFree(log, order)
    ensures InLog(QueueOrder(n), |log|)
    ensures Execute(work, log, order, m) == Execute(work, log, QueueOrder(n), m)
    decreases n
  {
    hide Effect, Conflict, Ordering, Execute, InversionsAreFree;
    OrderingBounds(order, n);
    if n == 0 {
      assert order == [] == QueueOrder(0);
    } else {
      QueueStep(work, log, n, m);
      assert n - 1 in order;
      var q: nat :| q < |order| && order[q] == n - 1;
      var front, rest := order[..q], order[q + 1..];
      assert order == front + [n - 1] + rest;
      RemainderIsOrdering(order, n, q);
      OrderingBounds(front + rest, n - 1);
      RestIsFree(log, order, n, q);
      RemainderIsFree(log, order, n, q);
      PutLast(work, log, front, n - 1, rest, m);
      OrderDoesNotMatter(work, log, front + rest, n - 1, m);
    }
  }

  /** Whatever runs after the last queued command shares nothing with it. */
  lemma RestIsFree(log: seq<Queued>, order: seq<nat>, n: nat, q: nat)
    requires InLog(order, |log|) && InLog(order, n) && InversionsAreFree(log, order) && 0 < n <= |log| && q < |order|
    requires order[q] == n - 1
    requires InLog(order[..q] + order[q + 1..], n - 1)
    ensures var rest := order[q + 1..];
            InLog(rest, |log|) && forall x :: 0 <= x < |rest| ==> !Conflict(log[n - 1].command, log[rest[x]].command)
  {
    hide Conflict;
    var rest := order[q + 1..];
    forall x | 0 <= x < |rest| ensures rest[x] < |log| && !Conflict(log[n - 1].command, log[rest[x]].command) {
      assert rest[x] == order[q + 1 + x] == (order[..q] + rest)[q + x];
      assert order[q + 1 + x] < order[q];
    }
  }

  lemma CancelMultiset(a: multiset<nat>, b: multiset<nat>, c: multiset<nat>)
    requires a + c == b + c
    ensures a == b
  {
    assert a == (a + c) - c && b == (b + c) - c;
  }

  lemma RemainderIsOrdering(order: seq<nat>, n: nat, q: nat)
    requires n > 0 && Ordering(order, n) && q < |order| && order[q] == n - 1
    ensures Ordering(order[..q] + order[q + 1..], n - 1)
  {
    var rest: seq<nat> := order[..q] + order[q + 1..];
    var last: seq<nat> := [n - 1];
    assert order == order[..q] + [n - 1] + order[q + 1..];
    assert multiset(order) == multiset(rest) + multiset(last);
    assert QueueOrder(n) == QueueOrder(n - 1) + last;
    assert multiset(QueueOrder(n)) == multiset(QueueOrder(n - 1)) + multiset(last);
    CancelMultiset(multiset(rest), multiset(QueueOrder(n - 1)), multiset(last));
  }

  lemma RemainderIsFree(log: seq<Queued>, order: seq<nat>, n: nat, q: nat)
    requires InLog(order, |log|) && InversionsAreFree(log, order) && q < |order| && 0 < n <= |log|
    requires InLog(order[..q] + order[q + 1..], n - 1)
    ensures InLog(order[..q] + order[q + 1..], |log|)
    ensures InversionsAreFree(log, order[..q] + order[q + 1..])
  {
    hide Conflict;
    var r := order[..q] + order[q + 1..];
    forall x, y | 0 <= x < y < |r| && r[y] < r[x] ensures !Conflict(log[r[x]].command, log[r[y]].command) {
      var x', y' := if x < q then x else x + 1, if y < q then y else y + 1;
      assert r[x] == order[x'] && r[y] == order[y'];
    }
  }

  // ---------------------------------------------------------------- conflicts of the layer loop

  /** Loading work is on the load side, computing and writing back on the compute stream. */
  predicate OnItsStream(q: Queued, streamed: bool) {
    && (q.command.Gather? || q.command.Fill? ==> q.stream == LoadSide(streamed))
    && (q.command.Compute? || q.command.Scatter? ==> q.stream == ComputeStream)
  }

  lemma LoadStreams(l: nat, streamed: bool, x: nat)
    requires x < |LoadCommands(l, streamed)|
    ensures OnItsStream(LoadCommands(l, streamed)[x], streamed)
    ensures LoadCommands(l, streamed)[x].command.Gather? ==> x == 0 && LoadCommands(l, streamed)[x].command.layer == l
  {
  }

  lemma TurnStreams(l: nat, n: nat, streamed: bool, x: nat)
    requires x < |Turn(l, n, streamed)|
    ensures OnItsStream(Turn(l, n, streamed)[x], streamed)
    ensures Turn(l, n, streamed)[x].command.Gather? ==>
        l + 1 < n && x == Flag(streamed) && Turn(l, n, streamed)[x].command.layer == l + 1
  {
    hide LoadCommands;
    var c := if l + 1 < n then LoadCommands(l + 1, streamed) else [];
    if Flag(streamed) <= x < Flag(streamed) + |c| {
      assert Turn(l, n, streamed)[x] == c[x - Flag(streamed)];
      LoadStreams(l + 1, streamed, x - Flag(streamed));
    }
  }

  lemma {:induction false} IssuedStreams(k: nat, n: nat, streamed: bool, i: nat)
    requires k <= n && i < |Issued(k, n, streamed)|
    ensures var q := Issued(k, n, streamed)[i];
            OnItsStream(q, streamed) && (q.command.Gather? ==>
              q.command.layer < n && i == LoadBase(q.command.layer, n, streamed))
  {
    hide Turn, LoadCommands, OnItsStream;
    if k == 0 {
      LoadStreams(0, streamed, i);
    } else {
      var before := |Issued(k - 1, n, streamed)|;
      if i < before {
        IssuedStreams(k - 1, n, streamed, i);
      } else {
        TurnStreams(k - 1, n, streamed, i - before);
      }
    }
  }

  /** The queue holds a layer's commands before those of any later layer of the same parity. */
  lemma LayersInQueueOrder(i: nat, l: nat, j: nat, m: nat, n: nat, streamed: bool)
    requires l < n && m < n && BelongsTo(i, l, n, streamed) && BelongsTo(j, m, n, streamed) && m + 2 <= l
    ensures j < i
  {
    hide Issued, LoadCommands;
    ComputeIsAt(m, n, streamed);
    FillIsAt(m, n, streamed);
    IssuedIsPrefix(m, m + 1, n, streamed);
    IssuedIsPrefix(m + 1, l - 1, n, streamed);
    FillIsAt(l, n, streamed);
    ComputeIsAt(l, n, streamed);
  }

  /** Uses of one buffer happen in queue order. */
  lemma BufferUsesInOrder(n: nat, streamed: bool, t: Timing, i: nat, j: nat)
    requires Legal(Issued(n, n, streamed), t) && i < j < |Issued(n, n, streamed)|
    requires Issued(n, n, streamed)[i].command.UsesBuffer() && Issued(n, n, streamed)[j].command.UsesBuffer()
    requires Issued(n, n, streamed)[i].command.buffer == Issued(n, n, streamed)[j].command.buffer
    ensures t.finish(i) <= t.start(j)
  {
    hide Issued, Legal, FillAt, ComputeAt, ScatterAt, BelongsTo;
    var l := UsesAreLayers(n, n, streamed, i);
    var m := UsesAreLayers(n, n, streamed, j);
    UsesWithinLife(i, l, n, streamed, t);
    UsesWithinLife(j, m, n, streamed, t);
    if l == m {
      SameLayerInOrder(i, j, l, n, streamed, t);
    } else if m < l {
      LayersInQueueOrder(i, l, j, m, n, streamed);
    } else {
      ReloadsWait(l, m, n, streamed, t);
    }
  }

  lemma SameLayerInOrder(i: nat, j: nat, l: nat, n: nat, streamed: bool, t: Timing)
    requires l < n && Legal(Issued(n, n, streamed), t) && i < j && BelongsTo(i, l, n, streamed)
    requires BelongsTo(j, l, n, streamed)
    ensures t.finish(i) <= t.start(j)
  {
    hide Issued, Legal, FillAt, ComputeAt;
    FillIsAt(l, n, streamed);
    ComputeIsAt(l, n, streamed);
    LoadBeforeCompute(l, n, streamed, t);
    ComputeBeforeScatter(l, n, streamed, t);
    Lasts(Issued(n, n, streamed), t, ComputeAt(l, n, streamed));
  }

  /** A layer's prefix is sampled before the layer is written back. */
  lemma GatherBeforeScatter(n: nat, streamed: bool, t: Timing, l: nat)
    requires l < n && Legal(Issued(n, n, streamed), t)
    ensures LoadBase(l, n, streamed) < ScatterAt(l, n, streamed)
    ensures t.finish(LoadBase(l, n, streamed)) <= t.start(ScatterAt(l, n, streamed))
  {
    hide Issued, Legal, ComputeAt;
    FillIsAt(l, n, streamed);
    ComputeIsAt(l, n, streamed);
    LoadAt(l, n, streamed);
    GatherIsFirst(l, streamed);
    var log, g, f := Issued(n, n, streamed), LoadBase(l, n, streamed), FillAt(l, n, streamed);
    InOrder(log, t, g, f);
    Lasts(log, t, f);
    LoadBeforeCompute(l, n, streamed, t);
    Lasts(log, t, ComputeAt(l, n, streamed));
    ComputeBeforeScatter(l, n, streamed, t);
  }

  lemma GatherIsFirst(l: nat, streamed: bool)
    ensures |LoadCommands(l, streamed)| > 0 && LoadCommands(l, streamed)[0] == Queued(LoadSide(streamed), Gather(l))
  {
  }

  /** Under every legal timing, commands that share anything run one after the other, in queue order. */
  lemma ConflictsInOrder(n: nat, streamed: bool, t: Timing, i: nat, j: nat)
    requires Legal(Issued(n, n, streamed), t) && i < j < |Issued(n, n, streamed)|
    requires Conflict(Issued(n, n, streamed)[i].command, Issued(n, n, streamed)[j].command)
    ensures t.finish(i) <= t.start(j)
  {
    hide Issued, Legal, FillAt, ComputeAt, ScatterAt, BelongsTo, LoadBase;
    var log := Issued(n, n, streamed);
    var c, d := log[i].command, log[j].command;
    IssuedStreams(n, n, streamed, i);
    IssuedStreams(n, n, streamed, j);
    if log[i].stream == log[j].stream {
      InOrder(log, t, i, j);
    } else if c.UsesBuffer() && d.UsesBuffer() && c.buffer == d.buffer {
      BufferUsesInOrder(n, streamed, t, i, j);
    } else {
      AcrossStreams(c, d);
      var l := c.layer;
      GatherBeforeScatter(n, streamed, t, l);
      var m := UsesAreLayers(n, n, streamed, if c.Gather? then j else i);
      ScatterOf(if c.Gather? then j else i, m, n, streamed);
    }
  }

  /** Apart from the buffers, the two sides share a layer's pages alone. */
  lemma AcrossStreams(c: Command, d: Command)
    requires Conflict(c, d) && !(c.UsesBuffer() && d.UsesBuffer() && c.buffer == d.buffer)
    requires ((c.Gather? || c.Fill?) && !d.Gather? && !d.Fill?) || ((d.Gather? || d.Fill?) && !c.Gather? && !c.Fill?)
        || c.Record? || c.Wait? || d.Record? || d.Wait?
    ensures (c.Gather? && d.Scatter?) || (c.Scatter? && d.Gather?)
    ensures c.layer == d.layer
  {
    var r :| r in Uses(c) * Uses(d);
  }

  lemma ScatterOf(i: nat, m: nat, n: nat, streamed: bool)
    requires m < n && BelongsTo(i, m, n, streamed) && i < |Issued(n, n, streamed)|
    requires Issued(n, n, streamed)[i].command.Scatter?
    ensures i == ScatterAt(m, n, streamed) && Issued(n, n, streamed)[i].command.layer == m
  {
    hide Issued, FillAt, ComputeAt;
    FillIsAt(m, n, streamed);
    ComputeIsAt(m, n, streamed);
  }

  /** The order of effects puts a command that finished before another started, and was queued before it, first. */
  ghost predicate RespectsTiming(order: seq<nat>, t: Timing) {
    forall x, y :: 0 <= x < y < |order| && order[y] < order[x] ==> t.start(order[x]) < t.finish(order[y])
  }

  /** Under every legal timing, every order of effects that respects it computes what the queue order computes. */
  lemma AnyTimingComputesTheSame<P, S, V, H>(work: Work<P, S, V, H>, n: nat, streamed: bool, t: Timing, order: seq<nat>,
                                             m: Memory<P, S, V, H>)
    requires Legal(Issued(n, n, streamed), t) && Ordering(order, |Issued(n, n, streamed)|) && RespectsTiming(order, t)
    ensures InLog(order, |Issued(n, n, streamed)|)
    ensures Execute(work, Issued(n, n, streamed), order, m)
            == Execute(work, Issued(n, n, streamed), QueueOrder(|Issued(n, n, streamed)|), m)
  {
    hide Issued, Legal, Ordering, Execute, Conflict;
    var log := Issued(n, n, streamed);
    OrderingBounds(order, |log|);
    forall x, y | 0 <= x < y < |order| && order[y] < order[x]
      ensures !Conflict(log[order[x]].command, log[order[y]].command) {
      if Conflict(log[order[x]].command, log[order[y]].command) {
        ConflictIsMutual(log[order[x]].command, log[order[y]].command);
        ConflictsInOrder(n, streamed, t, order[y], order[x]);
      }
    }
    OrderDoesNotMatter(work, log, order, |log|, m);
  }

  lemma ConflictIsMutual(c: Command, d: Command)
    requires Conflict(c, d)
    ensures Conflict(d, c)
  {
    assert Uses(c) * Uses(d) == Uses(d) * Uses(c);
  }

  // ---------------------------------------------------------------- the plain computation

  /** A layer's span, assembled from its own pages. */
  function Span<P, S, V, H>(work: Work<P, S, V, H>, pages: seq<P>, l: nat): V
    requires l < |pages|
  {
    work.fill(l, work.gather(l, pages[l]))
  }

  function HiddenBefore<P, S, V, H>(work: Work<P, S, V, H>, pages: seq<P>, h0: H, l: nat): H
    requires l <= |pages|
  {
    if l == 0 then h0 else work.compute(l - 1, HiddenBefore(work, pages, h0, l - 1), Span(work, pages, l - 1)).0
  }

  /** The pages of one layer after assembling, computing and writing back that layer alone, in its turn. */
  function PlainPages<P, S, V, H>(work: Work<P, S, V, H>, pages: seq<P>, h0: H, l: nat): P
    requires l < |pages|
  {
    work.scatter(l, pages[l], work.compute(l, HiddenBefore(work, pages, h0, l), Span(work, pages, l)).1)
  }

  /** Commands one after the other. */
  function Do<P, S, V, H>(work: Work<P, S, V, H>, commands: seq<Queued>, m: Memory<P, S, V, H>): Memory<P, S, V, H> {
    if commands == [] then m
    else Effect(work, commands[|commands| - 1].command, Do(work, commands[..|commands| - 1], m))
  }

  lemma {:induction false} DoInTwo<P, S, V, H>(work: Work<P, S, V, H>, a: seq<Queued>, b: seq<Queued>,
                                               m: Memory<P, S, V, H>)
    ensures Do(work, a + b, m) == Do(work, b, Do(work, a, m))
  {
    hide Effect;
    if b == [] {
      assert a + b == a;
    } else {
      var n := |b| - 1;
      DoInTwo(work, a, b[..n], m);
      assert (a + b)[..|a + b| - 1] == a + b[..n];
    }
  }

  lemma {:induction false} QueueOrderIsDo<P, S, V, H>(work: Work<P, S, V, H>, log: seq<Queued>, n: nat,
                                                      m: Memory<P, S, V, H>)
    requires n <= |log|
    ensures InLog(QueueOrder(n), |log|) && Execute(work, log, QueueOrder(n), m) == Do(work, log[..n], m)
  {
    hide Effect;
    if n > 0 {
      QueueOrderIsDo(work, log, n - 1, m);
      assert log[..n][..n - 1] == log[..n - 1];
      QueueStep(work, log, n, m);
    }
  }

  lemma DoOne<P, S, V, H>(work: Work<P, S, V, H>, q: Queued, m: Memory<P, S, V, H>)
    ensures Do(work, [q], m) == Effect(work, q.command, m)
  {
    hide Effect;
    assert [q][..0] == [];
    assert Do(work, [], m) == m;
  }

  /** Events change nothing. */
  lemma DoEvent<P, S, V, H>(work: Work<P, S, V, H>, on: bool, q: Queued, m: Memory<P, S, V, H>)
    requires q.command.Wait? || q.command.Record?
    ensures Do(work, if on then [q] else [], m) == m
  {
    DoOne(work, q, m);
  }

  lemma LoadDoes<P, S, V, H>(work: Work<P, S, V, H>, l: nat, streamed: bool, m: Memory<P, S, V, H>)
    requires l < |m.pages| == |m.samples| && |m.buffers| == 2
    ensures Do(work, LoadCommands(l, streamed), m)
            == m.(samples := m.samples[l := work.gather(l, m.pages[l])],
                  buffers := m.buffers[l % 2 := work.fill(l, work.gather(l, m.pages[l]))])
  {
    hide Do, Effect;
    var g, f := Queued(LoadSide(streamed), Gather(l)), Queued(LoadSide(streamed), Fill(l, l % 2));
    var reuse := streamed && l >= 2;
    var w := Queued(LoadStream, Wait(Scattered(if reuse then l - 2 else 0)));
    var r := Queued(LoadStream, Record(Loaded(l)));
    var a := [g] + (if reuse then [w] else []);
    assert LoadCommands(l, streamed) == a + [f] + if streamed then [r] else [];
    DoInTwo(work, a + [f], if streamed then [r] else [], m);
    DoEvent(work, streamed, r, Do(work, a + [f], m));
    DoInTwo(work, a, [f], m);
    DoOne(work, f, Do(work, a, m));
    DoInTwo(work, [g], if reuse then [w] else [], m);
    DoOne(work, g, m);
    DoEvent(work, reuse, w, Do(work, [g], m));
    FillAfterGather(work, l, m);
  }

  lemma FillAfterGather<P, S, V, H>(work: Work<P, S, V, H>, l: nat, m: Memory<P, S, V, H>)
    requires l < |m.pages| == |m.samples| && |m.buffers| == 2
    ensures Effect(work, Fill(l, l % 2), Effect(work, Gather(l), m))
            == m.(samples := m.samples[l := work.gather(l, m.pages[l])],
                  buffers := m.buffers[l % 2 := work.fill(l, work.gather(l, m.pages[l]))])
  {
  }

  /** Before turn l: the first l layers are as the plain computation leaves them, the others untouched, and layer l's
      span is in its buffer. */
  ghost predicate UpTo<P, S, V, H>(work: Work<P, S, V, H>, m0: Memory<P, S, V, H>, l: nat, m: Memory<P, S, V, H>) {
    && |m.pages| == |m.samples| == |m0.pages| && |m.buffers| == 2 && l <= |m0.pages|
    && m.hidden == HiddenBefore(work, m0.pages, m0.hidden, l)
    && (forall k :: 0 <= k < l ==> m.pages[k] == PlainPages(work, m0.pages, m0.hidden, k))
    && (forall k :: l <= k < |m0.pages| ==> m.pages[k] == m0.pages[k])
    && (l < |m0.pages| ==> m.buffers[l % 2] == Span(work, m0.pages, l))
  }

  /** The middle of a turn: the next span may be in the other buffer. */
  lemma ComputeAndScatter<P, S, V, H>(work: Work<P, S, V, H>, m0: Memory<P, S, V, H>, l: nat, m: Memory<P, S, V, H>)
    requires l < |m0.pages| && UpTo(work, m0, l, m)
    requires l + 1 < |m0.pages| ==> m.buffers[(l + 1) % 2] == Span(work, m0.pages, l + 1)
    ensures UpTo(work, m0, l + 1, Effect(work, Scatter(l, l % 2), Effect(work, Compute(l, l % 2), m)))
  {
    hide Span;
    assert (l + 1) % 2 != l % 2;
  }

  lemma TurnDoes<P, S, V, H>(work: Work<P, S, V, H>, m0: Memory<P, S, V, H>, l: nat, streamed: bool,
                             m: Memory<P, S, V, H>)
    requires l < |m0.pages| && UpTo(work, m0, l, m)
    ensures UpTo(work, m0, l + 1, Do(work, Turn(l, |m0.pages|, streamed), m))
  {
    hide Do, Effect, HiddenBefore, PlainPages, LoadCommands, UpTo;
    var n := |m0.pages|;
    var w, r := Queued(ComputeStream, Wait(Loaded(l))), Queued(ComputeStream, Record(Scattered(l)));
    var c, s := Queued(ComputeStream, Compute(l, l % 2)), Queued(ComputeStream, Scatter(l, l % 2));
    var a := if streamed then [w] else [];
    var load := if l + 1 < n then LoadCommands(l + 1, streamed) else [];
    var z := if streamed then [r] else [];
    assert Turn(l, n, streamed) == a + load + [c] + [s] + z;
    DoInTwo(work, a + load + [c] + [s], z, m);
    DoEvent(work, streamed, r, Do(work, a + load + [c] + [s], m));
    DoInTwo(work, a + load + [c], [s], m);
    DoInTwo(work, a + load, [c], m);
    DoInTwo(work, a, load, m);
    DoEvent(work, streamed, w, m);
    NextLoad(work, m0, l, streamed, m);
    var loaded := Do(work, load, m);
    DoOne(work, c, loaded);
    DoOne(work, s, Effect(work, c.command, loaded));
    ComputeAndScatter(work, m0, l, loaded);
  }

  lemma NextLoad<P, S, V, H>(work: Work<P, S, V, H>, m0: Memory<P, S, V, H>, l: nat, streamed: bool,
                             m: Memory<P, S, V, H>)
    requires l < |m0.pages| && UpTo(work, m0, l, m)
    ensures var loaded := Do(work, if l + 1 < |m0.pages| then LoadCommands(l + 1, streamed) else [], m);
            UpTo(work, m0, l, loaded) && (l + 1 < |m0.pages| ==>
              loaded.buffers[(l + 1) % 2] == Span(work, m0.pages, l + 1))
  {
    hide HiddenBefore, PlainPages, LoadCommands, Effect;
    if l + 1 < |m0.pages| {
      LoadDoes(work, l + 1, streamed, m);
      assert (l + 1) % 2 != l % 2;
    }
  }

  lemma {:induction false} IssuedDoes<P, S, V, H>(work: Work<P, S, V, H>, m0: Memory<P, S, V, H>, l: nat,
                                                  streamed: bool)
    requires |m0.samples| == |m0.pages| && |m0.buffers| == 2 && l <= |m0.pages|
    ensures UpTo(work, m0, l, Do(work, Issued(l, |m0.pages|, streamed), m0))
  {
    hide Do, Effect, Turn, LoadCommands;
    var n := |m0.pages|;
    if l == 0 {
      if n > 0 {
        LoadDoes(work, 0, streamed, m0);
      } else {
        NoCommands(work, m0);
      }
    } else {
      IssuedDoes(work, m0, l - 1, streamed);
      DoInTwo(work, Issued(l - 1, n, streamed), Turn(l - 1, n, streamed), m0);
      TurnDoes(work, m0, l - 1, streamed, Do(work, Issued(l - 1, n, streamed), m0));
    }
  }

  lemma NoCommands<P, S, V, H>(work: Work<P, S, V, H>, m: Memory<P, S, V, H>)
    ensures Do(work, [], m) == m
  {
  }

  /** For any number of layers, any work, any legal timing of the two streams and any order of effects it allows:
      every layer's pages, and the hidden state, are those of assembling, computing and writing back the layers one
      after the other. */
  lemma AnyTimingComputesPlainly<P, S, V, H>(work: Work<P, S, V, H>, streamed: bool, t: Timing, order: seq<nat>,
                                             m: Memory<P, S, V, H>)
    requires |m.samples| == |m.pages| && |m.buffers| == 2
    requires var log := Issued(|m.pages|, |m.pages|, streamed);
             Legal(log, t) && Ordering(order, |log|) && RespectsTiming(order, t)
    ensures InLog(order, |Issued(|m.pages|, |m.pages|, streamed)|)
    ensures var after := Execute(work, Issued(|m.pages|, |m.pages|, streamed), order, m);
            && |after.pages| == |m.pages| && after.hidden == HiddenBefore(work, m.pages, m.hidden, |m.pages|)
            && forall l :: 0 <= l < |m.pages| ==> after.pages[l] == PlainPages(work, m.pages, m.hidden, l)
  {
    hide Issued, Legal, Ordering, Execute, Do, RespectsTiming, HiddenBefore, PlainPages;
    var n := |m.pages|;
    var log := Issued(n, n, streamed);
    AnyTimingComputesTheSame(work, n, streamed, t, order, m);
    QueueOrderIsDo(work, log, |log|, m);
    assert log[..|log|] == log;
    IssuedDoes(work, m, n, streamed);
  }
}
