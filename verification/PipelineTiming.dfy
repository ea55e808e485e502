/** Timing of the queued work: for every number of layers and every legal timing of the two streams, a staging
    buffer is used by one layer at a time. */
module PipelineTiming {
  import opened Pipeline

  // ---------------------------------------------------------------- legal timings

  /** When the command queued at each position starts and finishes. */
  datatype Timing = Timing(start: nat -> int, finish: nat -> int)

  /** Each stream runs its commands one after the other in queue order, and a wait finishes no earlier than the
      record of its event that was queued before it. Nothing else is promised about the two streams. */
  ghost predicate Legal(log: seq<Queued>, t: Timing) {
    && (forall i: nat :: i < |log| ==> t.start(i) <= t.finish(i))
    && (forall i: nat, j: nat :: i < j < |log| && log[i].stream == log[j].stream ==> t.finish(i) <= t.start(j))
    && (forall r: nat, w: nat ::
          r < w < |log| && log[r].command.Record? && log[w].command == Wait(log[r].command.event) ==>
          t.finish(r) <= t.finish(w))
  }

  /** Running the commands one by one in queue order is a legal timing of any queue. */
  lemma QueueOrderIsLegal(log: seq<Queued>)
    ensures Legal(log, Timing((i: nat) => 2 * i, (i: nat) => 2 * i + 1))
  {
  }

  /** Work before a record on one stream is over when work after the matching wait begins on another. */
  lemma EventOrders(log: seq<Queued>, t: Timing, i: nat, r: nat, w: nat, j: nat)
    requires Legal(log, t) && i < r < w < j < |log|
    requires log[i].stream == log[r].stream && log[w].stream == log[j].stream
    requires log[r].command.Record? && log[w].command == Wait(log[r].command.event)
    ensures t.finish(i) <= t.start(j)
  {
    assert t.finish(i) <= t.start(r) <= t.finish(r) <= t.finish(w) <= t.start(j);
  }

  // ---------------------------------------------------------------- where the commands are

  lemma {:induction false} IssuedIsPrefix(k: nat, m: nat, n: nat, streamed: bool)
    requires k <= m
    ensures Issued(k, n, streamed) <= Issued(m, n, streamed)
    decreases m - k
  {
    hide Turn, LoadCommands;
    if k < m {
      IssuedIsPrefix(k, m - 1, n, streamed);
      assert Issued(m, n, streamed) == Issued(m - 1, n, streamed) + Turn(m - 1, n, streamed);
    }
  }

  /** A stretch of commands sits in the queue at a position. */
  ghost predicate SitsAt(log: seq<Queued>, base: nat, c: seq<Queued>) {
    base + |c| <= |log| && forall y :: base <= y < base + |c| ==> log[y] == c[y - base]
  }

  /** Turn l sits right after what was queued before it. */
  lemma TurnAt(l: nat, n: nat, streamed: bool)
    requires l < n
    ensures var log, base := Issued(n, n, streamed), |Issued(l, n, streamed)|;
            base + |Turn(l, n, streamed)| == |Issued(l + 1, n, streamed)| <= |log|
              && SitsAt(log, base, Turn(l, n, streamed))
  {
    hide Turn, LoadCommands;
    IssuedIsPrefix(l + 1, n, n, streamed);
    assert Issued(l + 1, n, streamed) == Issued(l, n, streamed) + Turn(l, n, streamed);
  }

  function Flag(b: bool): nat { if b then 1 else 0 }

  /** Where the load of layer l begins. */
  function LoadBase(l: nat, n: nat, streamed: bool): nat {
    if l == 0 then 0 else |Issued(l - 1, n, streamed)| + Flag(streamed)
  }

  function FillAt(l: nat, n: nat, streamed: bool): nat {
    LoadBase(l, n, streamed) + 1 + Flag(streamed && l >= 2)
  }

  function ComputeAt(l: nat, n: nat, streamed: bool): nat {
    |Issued(l, n, streamed)| + Flag(streamed) + if l + 1 < n then |LoadCommands(l + 1, streamed)| else 0
  }

  function ScatterAt(l: nat, n: nat, streamed: bool): nat {
    ComputeAt(l, n, streamed) + 1
  }

  lemma LoadAt(l: nat, n: nat, streamed: bool)
    requires l < n
    ensures var log, base, c := Issued(n, n, streamed), LoadBase(l, n, streamed), LoadCommands(l, streamed);
            base + |c| <= |Issued(l, n, streamed)| <= |log| && SitsAt(log, base, c)
  {
    hide Issued, LoadCommands, SitsAt, LoadBase;
    if l == 0 {
      FirstLoadAt(l, n, streamed);
    } else {
      LaterLoadAt(l, n, streamed);
    }
  }

  lemma FirstLoadAt(l: nat, n: nat, streamed: bool)
    requires l == 0 < n
    ensures var log, c := Issued(n, n, streamed), LoadCommands(l, streamed);
            LoadBase(l, n, streamed) == 0 && |c| == |Issued(l, n, streamed)| <= |log|
              && SitsAt(log, LoadBase(l, n, streamed), c)
  {
    hide LoadCommands, Turn;
    IssuedIsPrefix(l, n, n, streamed);
    assert Issued(l, n, streamed) == LoadCommands(l, streamed);
  }

  lemma LaterLoadAt(l: nat, n: nat, streamed: bool)
    requires 0 < l < n
    ensures var log, base, c := Issued(n, n, streamed), LoadBase(l, n, streamed), LoadCommands(l, streamed);
            base + |c| <= |Issued(l, n, streamed)| <= |log| && SitsAt(log, base, c)
  {
    hide LoadCommands, Turn, Issued;
    TurnAt(l - 1, n, streamed);
    TurnLoads(l - 1, n, streamed);
    SitsInside(Issued(n, n, streamed), |Issued(l - 1, n, streamed)|, Turn(l - 1, n, streamed), Flag(streamed),
               LoadCommands(l, streamed));
  }

  lemma TurnLoads(l: nat, n: nat, streamed: bool)
    requires l + 1 < n
    ensures SitsAt(Turn(l, n, streamed), Flag(streamed), LoadCommands(l + 1, streamed))
  {
    hide LoadCommands;
  }

  lemma SitsInside(log: seq<Queued>, base: nat, outer: seq<Queued>, from: nat, inner: seq<Queued>)
    requires SitsAt(log, base, outer) && SitsAt(outer, from, inner)
    ensures SitsAt(log, base + from, inner)
  {
    forall y | base + from <= y < base + from + |inner| ensures log[y] == inner[y - base - from] {
      assert outer[y - base] == inner[y - base - from];
    }
  }

  /** The load of layer l: its reuse wait, its fill and its record. */
  lemma FillIsAt(l: nat, n: nat, streamed: bool)
    requires l < n
    ensures var log, f := Issued(n, n, streamed), FillAt(l, n, streamed);
            && f < |Issued(l, n, streamed)| <= |log| && log[f] == Queued(LoadSide(streamed), Fill(l, l % 2))
            && (streamed ==> f + 1 < |Issued(l, n, streamed)| && log[f + 1] == Queued(LoadStream, Record(Loaded(l))))
            && (streamed && l >= 2 ==>
                  f - 1 == |Issued(l - 1, n, streamed)| + 2 && log[f - 1] == Queued(LoadStream, Wait(Scattered(l - 2))))
  {
    hide Issued, Turn;
    LoadAt(l, n, streamed);
    IssuedIsPrefix(l, n, n, streamed);
    var log, base := Issued(n, n, streamed), LoadBase(l, n, streamed);
    var c := LoadCommands(l, streamed);
  }

  /** Turn l: its wait for the load, its compute, its scatter and its record. */
  lemma ComputeIsAt(l: nat, n: nat, streamed: bool)
    requires l < n
    ensures var log, c, base := Issued(n, n, streamed), ComputeAt(l, n, streamed), |Issued(l, n, streamed)|;
            && base <= c && c + 1 < |Issued(l + 1, n, streamed)| <= |log|
            && log[c] == Queued(ComputeStream, Compute(l, l % 2))
            && log[c + 1] == Queued(ComputeStream, Scatter(l, l % 2))
            && (streamed ==> base < c && log[base] == Queued(ComputeStream, Wait(Loaded(l))))
            && (streamed ==>
                  c + 2 < |Issued(l + 1, n, streamed)| && log[c + 2] == Queued(ComputeStream, Record(Scattered(l))))
  {
    hide Issued, LoadCommands;
    TurnAt(l, n, streamed);
    var log, base := Issued(n, n, streamed), |Issued(l, n, streamed)|;
    var turn := Turn(l, n, streamed);
  }

  // ---------------------------------------------------------------- every wait has its record

  /** Every wait of the queue is for an event that was recorded earlier in it. */
  ghost predicate WaitsRecorded(log: seq<Queued>) {
    forall w: nat :: w < |log| && log[w].command.Wait? ==> RecordedBefore(log, w)
  }

  ghost predicate RecordedBefore(log: seq<Queued>, w: nat)
    requires w < |log| && log[w].command.Wait?
  {
    exists r: nat :: r < w && log[r].command == Record(log[w].command.event)
  }

  /** The only waits are the one for a load before its compute and the one for a write-back before its buffer's
      reuse. */
  lemma {:induction false} WaitsAreLayers(k: nat, n: nat, streamed: bool, w: nat)
    requires k <= n && w < |Issued(k, n, streamed)| && Issued(k, n, streamed)[w].command.Wait?
    ensures var c := Issued(k, n, streamed)[w].command;
            streamed && if c.event.Loaded? then c.event.layer < n && w == |Issued(c.event.layer, n, streamed)|
                        else c.event.layer + 2 < n && w == FillAt(c.event.layer + 2, n, streamed) - 1
  {
    hide Turn, LoadCommands;
    if k == 0 {
      FirstWait(n, streamed, w);
    } else {
      var before := |Issued(k - 1, n, streamed)|;
      if w < before {
        WaitsAreLayers(k - 1, n, streamed, w);
      } else {
        TurnWait(k - 1, n, streamed, w - before);
      }
    }
  }

  lemma FirstWait(n: nat, streamed: bool, w: nat)
    requires w < |Issued(0, n, streamed)|
    ensures !Issued(0, n, streamed)[w].command.Wait?
  {
  }

  lemma LoadWait(l: nat, streamed: bool, x: nat)
    requires x < |LoadCommands(l, streamed)| && LoadCommands(l, streamed)[x].command.Wait?
    ensures streamed && l >= 2 && x == 1 && LoadCommands(l, streamed)[x].command == Wait(Scattered(l - 2))
  {
  }

  lemma TurnWait(l: nat, n: nat, streamed: bool, x: nat)
    requires x < |Turn(l, n, streamed)| && Turn(l, n, streamed)[x].command.Wait?
    ensures var c := Turn(l, n, streamed)[x].command;
            streamed && ((x == 0 && c == Wait(Loaded(l)))
              || (x == 2 && l >= 1 && l + 1 < n && c == Wait(Scattered(l - 1))))
  {
    hide LoadCommands;
    var c := if l + 1 < n then LoadCommands(l + 1, streamed) else [];
    if Flag(streamed) <= x < Flag(streamed) + |c| {
      assert Turn(l, n, streamed)[x] == c[x - Flag(streamed)];
      LoadWait(l + 1, streamed, x - Flag(streamed));
    }
  }

  /** Whatever the number of layers, no wait of the loop is for an event that is never recorded or recorded only
      later. */
  lemma EveryWaitIsRecorded(n: nat, streamed: bool)
    ensures WaitsRecorded(Issued(n, n, streamed))
  {
    hide Issued, FillAt, ComputeAt;
    var log := Issued(n, n, streamed);
    forall w: nat | w < |log| && log[w].command.Wait? ensures RecordedBefore(log, w) {
      WaitsAreLayers(n, n, streamed, w);
      var e := log[w].command.event;
      if e.Loaded? {
        FillIsAt(e.layer, n, streamed);
        assert log[FillAt(e.layer, n, streamed) + 1].command == Record(e);
      } else {
        ComputeIsAt(e.layer, n, streamed);
        ReloadIsLater(e.layer, n, streamed);
        FillIsAt(e.layer + 2, n, streamed);
        assert log[ComputeAt(e.layer, n, streamed) + 2].command == Record(e);
      }
    }
  }

  // ---------------------------------------------------------------- the orders that make reuse safe

  /** Layer l is computed after it has been loaded. */
  lemma LoadBeforeCompute(l: nat, n: nat, streamed: bool, t: Timing)
    requires l < n && Legal(Issued(n, n, streamed), t)
    ensures t.finish(FillAt(l, n, streamed)) <= t.start(ComputeAt(l, n, streamed))
  {
    hide Issued, Legal, FillAt, ComputeAt;
    FillIsAt(l, n, streamed);
    ComputeIsAt(l, n, streamed);
    var log, f, c := Issued(n, n, streamed), FillAt(l, n, streamed), ComputeAt(l, n, streamed);
    if streamed {
      EventOrders(log, t, f, f + 1, |Issued(l, n, streamed)|, c);
    } else {
      InOrder(log, t, f, c);
    }
  }

  lemma InOrder(log: seq<Queued>, t: Timing, i: nat, j: nat)
    requires Legal(log, t) && i < j < |log| && log[i].stream == log[j].stream
    ensures t.finish(i) <= t.start(j)
  {
  }

  lemma Lasts(log: seq<Queued>, t: Timing, i: nat)
    requires Legal(log, t) && i < |log|
    ensures t.start(i) <= t.finish(i)
  {
  }

  lemma ComputeBeforeScatter(l: nat, n: nat, streamed: bool, t: Timing)
    requires l < n && Legal(Issued(n, n, streamed), t)
    ensures t.finish(ComputeAt(l, n, streamed)) <= t.start(ScatterAt(l, n, streamed))
  {
    hide Issued, Legal, ComputeAt;
    ComputeIsAt(l, n, streamed);
    InOrder(Issued(n, n, streamed), t, ComputeAt(l, n, streamed), ScatterAt(l, n, streamed));
  }

  /** Layer l + 2 is loaded after layer l has been written back. */
  lemma ScatterBeforeReload(l: nat, n: nat, streamed: bool, t: Timing)
    requires l + 2 < n && Legal(Issued(n, n, streamed), t)
    ensures t.finish(ScatterAt(l, n, streamed)) <= t.start(FillAt(l + 2, n, streamed))
  {
    hide Issued, Legal, FillAt, ComputeAt;
    ComputeIsAt(l, n, streamed);
    FillIsAt(l + 2, n, streamed);
    ReloadIsLater(l, n, streamed);
    var log, s, f := Issued(n, n, streamed), ScatterAt(l, n, streamed), FillAt(l + 2, n, streamed);
    if streamed {
      EventOrders(log, t, s, s + 1, f - 1, f);
    } else {
      InOrder(log, t, s, f);
    }
  }

  lemma ReloadIsLater(l: nat, n: nat, streamed: bool)
    ensures |Issued(l + 1, n, streamed)| <= FillAt(l + 2, n, streamed)
  {
  }

  /** Write-backs happen in layer order. */
  lemma {:induction false} ScattersInOrder(l: nat, m: nat, n: nat, streamed: bool, t: Timing)
    requires l < m < n && Legal(Issued(n, n, streamed), t)
    ensures t.finish(ScatterAt(l, n, streamed)) <= t.start(ScatterAt(m, n, streamed))
  {
    hide Issued, Legal, ComputeAt;
    ComputeIsAt(l, n, streamed);
    ComputeIsAt(m, n, streamed);
    IssuedIsPrefix(l + 1, m, n, streamed);
    InOrder(Issued(n, n, streamed), t, ScatterAt(l, n, streamed), ScatterAt(m, n, streamed));
  }

  /** Any later layer, other than the next one, is loaded after layer l has been written back; the next layer has
      the other buffer. */
  lemma ReloadsWait(l: nat, m: nat, n: nat, streamed: bool, t: Timing)
    requires l + 2 <= m < n && Legal(Issued(n, n, streamed), t)
    ensures t.finish(ScatterAt(l, n, streamed)) <= t.start(FillAt(m, n, streamed))
  {
    hide Issued, Legal, FillAt, ScatterAt;
    ScatterBeforeReload(m - 2, n, streamed, t);
    if l < m - 2 {
      ScattersInOrder(l, m - 2, n, streamed, t);
      ScatterLasts(m - 2, n, streamed, t);
    }
  }

  lemma ScatterLasts(l: nat, n: nat, streamed: bool, t: Timing)
    requires l < n && Legal(Issued(n, n, streamed), t)
    ensures t.start(ScatterAt(l, n, streamed)) <= t.finish(ScatterAt(l, n, streamed))
  {
    hide Issued, Legal, ComputeAt;
    ComputeIsAt(l, n, streamed);
    Lasts(Issued(n, n, streamed), t, ScatterAt(l, n, streamed));
  }

  // ---------------------------------------------------------------- exclusive use of a buffer

  /** Layer l's time in its buffer: from the start of its load to the end of its write-back. */
  ghost predicate Live(l: nat, n: nat, streamed: bool, t: Timing, time: int) {
    t.start(FillAt(l, n, streamed)) <= time < t.finish(ScatterAt(l, n, streamed))
  }

  /** At any moment at most two layers are in flight, neighbours, in different buffers. */
  lemma AtMostTwoLive(l: nat, m: nat, n: nat, streamed: bool, t: Timing, time: int)
    requires l < m < n && Legal(Issued(n, n, streamed), t)
    requires Live(l, n, streamed, t, time) && Live(m, n, streamed, t, time)
    ensures m == l + 1 && l % 2 != m % 2
  {
    hide Issued, Legal, FillAt, ScatterAt;
    if m >= l + 2 {
      ReloadsWait(l, m, n, streamed, t);
    }
  }

  /** Every command that touches a buffer is the fill, the compute or the scatter of a layer of that parity. */
  ghost predicate BelongsTo(i: nat, l: nat, n: nat, streamed: bool) {
    i == FillAt(l, n, streamed) || i == ComputeAt(l, n, streamed) || i == ScatterAt(l, n, streamed)
  }

  lemma LoadUse(l: nat, streamed: bool, x: nat)
    requires x < |LoadCommands(l, streamed)| && LoadCommands(l, streamed)[x].command.UsesBuffer()
    ensures x == 1 + Flag(streamed && l >= 2)
  {
  }

  lemma TurnUse(l: nat, n: nat, streamed: bool, x: nat)
    requires x < |Turn(l, n, streamed)| && Turn(l, n, streamed)[x].command.UsesBuffer()
    ensures var c := Flag(streamed) + if l + 1 < n then |LoadCommands(l + 1, streamed)| else 0;
            x == c || x == c + 1 || (l + 1 < n && x == Flag(streamed) + 1 + Flag(streamed && l + 1 >= 2))
  {
    hide LoadCommands;
    var c := if l + 1 < n then LoadCommands(l + 1, streamed) else [];
    if Flag(streamed) <= x < Flag(streamed) + |c| {
      assert Turn(l, n, streamed)[x] == c[x - Flag(streamed)];
      LoadUse(l + 1, streamed, x - Flag(streamed));
    }
  }

  lemma {:induction false} UsesAreLayers(k: nat, n: nat, streamed: bool, i: nat) returns (l: nat)
    requires k <= n && i < |Issued(k, n, streamed)| && Issued(k, n, streamed)[i].command.UsesBuffer()
    ensures l < n && BelongsTo(i, l, n, streamed)
  {
    hide Turn, LoadCommands;
    if k == 0 {
      l := 0;
      LoadUse(0, streamed, i);
    } else {
      var before := |Issued(k - 1, n, streamed)|;
      if i < before {
        l := UsesAreLayers(k - 1, n, streamed, i);
      } else {
        TurnUse(k - 1, n, streamed, i - before);
        l := if k < n && i == FillAt(k, n, streamed) then k else k - 1;
      }
    }
  }

  /** A layer's commands on its buffer run within its time there. */
  lemma UsesWithinLife(i: nat, l: nat, n: nat, streamed: bool, t: Timing)
    requires l < n && Legal(Issued(n, n, streamed), t) && BelongsTo(i, l, n, streamed)
    ensures t.start(FillAt(l, n, streamed)) <= t.start(i) <= t.finish(i) <= t.finish(ScatterAt(l, n, streamed))
    ensures i < |Issued(n, n, streamed)| && Issued(n, n, streamed)[i].command.UsesBuffer()
    ensures Issued(n, n, streamed)[i].command.layer == l && Issued(n, n, streamed)[i].command.buffer == l % 2
  {
    hide Issued, Legal, FillAt, ComputeAt;
    FillIsAt(l, n, streamed);
    ComputeIsAt(l, n, streamed);
    LoadBeforeCompute(l, n, streamed, t);
    ComputeBeforeScatter(l, n, streamed, t);
    var log := Issued(n, n, streamed);
    Lasts(log, t, FillAt(l, n, streamed));
    Lasts(log, t, ComputeAt(l, n, streamed));
    Lasts(log, t, ScatterAt(l, n, streamed));
  }

  /** From the start of layer l's load to the end of its write-back, no command of another layer runs on its buffer. */
  lemma BufferIsExclusive(l: nat, n: nat, streamed: bool, t: Timing, i: nat)
    requires l < n && Legal(Issued(n, n, streamed), t)
    requires i < |Issued(n, n, streamed)| && Issued(n, n, streamed)[i].command.UsesBuffer()
    requires Issued(n, n, streamed)[i].command.buffer == l % 2 && Issued(n, n, streamed)[i].command.layer != l
    ensures t.finish(i) <= t.start(FillAt(l, n, streamed)) || t.finish(ScatterAt(l, n, streamed)) <= t.start(i)
  {
    hide Issued, Legal, FillAt, ComputeAt, ScatterAt;
    var m := UsesAreLayers(n, n, streamed, i);
    UsesWithinLife(i, m, n, streamed, t);
    if m < l {
      assert m + 2 <= l;
      ReloadsWait(m, l, n, streamed, t);
    } else {
      assert l + 2 <= m;
      ReloadsWait(l, m, n, streamed, t);
    }
  }
}
