/** The loader's two streams and its events: what the layer loop queues, and why the queued work never meets in
    a staging buffer however the two streams are timed. */
module Pipeline {

  datatype Stream = LoadStream | ComputeStream

  /** Every event object is recorded once; it is named by what it marks. */
  datatype Event = Loaded(layer: nat) | Scattered(layer: nat)

  datatype Command =
    | Gather(layer: nat)
    | Fill(layer: nat, buffer: nat)
    | Compute(layer: nat, buffer: nat)
    | Scatter(layer: nat, buffer: nat)
    | Record(event: Event)
    | Wait(event: Event)
  {
    predicate UsesBuffer() { Fill? || Compute? || Scatter? }
  }

  datatype Queued = Queued(stream: Stream, command: Command)

  // ---------------------------------------------------------------- what the loop queues

  function LoadSide(streamed: bool): Stream {
    if streamed then LoadStream else ComputeStream
  }

  /** Loading a layer; from layer 2 on the buffer is used again, after the write-back two layers earlier. */
  function LoadCommands(layer: nat, streamed: bool): seq<Queued> {
    [Queued(LoadSide(streamed), Gather(layer))]
    + (if streamed && layer >= 2 then [Queued(LoadStream, Wait(Scattered(layer - 2)))] else [])
    + [Queued(LoadSide(streamed), Fill(layer, layer % 2))]
    + (if streamed then [Queued(LoadStream, Record(Loaded(layer)))] else [])
  }

  /** One turn of the loop: take layer l, load layer l + 1, compute and write back layer l. */
  function Turn(l: nat, n: nat, streamed: bool): seq<Queued> {
    (if streamed then [Queued(ComputeStream, Wait(Loaded(l)))] else [])
    + (if l + 1 < n then LoadCommands(l + 1, streamed) else [])
    + [Queued(ComputeStream, Compute(l, l % 2)), Queued(ComputeStream, Scatter(l, l % 2))]
    + (if streamed then [Queued(ComputeStream, Record(Scattered(l)))] else [])
  }

  /** Everything queued before turn l. */
  function Issued(l: nat, n: nat, streamed: bool): seq<Queued> {
    if l == 0 then (if n > 0 then LoadCommands(0, streamed) else [])
    else Issued(l - 1, n, streamed) + Turn(l - 1, n, streamed)
  }

  /** The loader seen from its streams: its dictionaries and the queued work. `log` is the order in which the host
      queues it. */
  class StreamedLoader {
    const layers: nat
    const streamed: bool
    var buffers: map<nat, nat>
    var events: map<nat, Event>
    var reuseEvents: map<nat, Event>
    var log: seq<Queued>

    constructor (layers: nat, streamed: bool)
      ensures this.layers == layers && this.streamed == streamed
      ensures buffers == map[] && events == map[] && reuseEvents == map[] && log == []
    {
      this.layers, this.streamed := layers, streamed;
      buffers, events, reuseEvents, log := map[], map[], map[], [];
    }

    method Enqueue(stream: Stream, command: Command)
      modifies this`log
      ensures log == old(log) + [Queued(stream, command)]
    {
      log := log + [Queued(stream, command)];
    }

    method Prefetch(layer: nat)
      modifies this
      ensures layer in old(buffers) || layer >= layers ==>
                buffers == old(buffers) && events == old(events) && reuseEvents == old(reuseEvents) && log == old(log)
      ensures layer !in old(buffers) && layer < layers ==>
                && buffers == old(buffers)[layer := layer % 2]
                && events == (if streamed then old(events)[layer := Loaded(layer)] else old(events))
                && reuseEvents == old(reuseEvents) - {layer % 2}
                && log == old(log) + [Queued(LoadSide(streamed), Gather(layer))]
                          + (if streamed && layer % 2 in old(reuseEvents)
                            then [Queued(LoadStream, Wait(old(reuseEvents)[layer % 2]))] else [])
                          + [Queued(LoadSide(streamed), Fill(layer, layer % 2))]
                          + (if streamed then [Queued(LoadStream, Record(Loaded(layer)))] else [])
    {
      if layer in buffers || layer >= layers {
        return;
      }
      Enqueue(LoadSide(streamed), Gather(layer));
      var bufferIndex := layer % 2;
      if bufferIndex in reuseEvents {
        var reuseEvent := reuseEvents[bufferIndex];
        reuseEvents := reuseEvents - {bufferIndex};
        if streamed {
          Enqueue(LoadStream, Wait(reuseEvent));
        }
      }
      Enqueue(LoadSide(streamed), Fill(layer, bufferIndex));
      buffers := buffers[layer := bufferIndex];
      if streamed {
        Enqueue(LoadStream, Record(Loaded(layer)));
        events := events[layer := Loaded(layer)];
      }
    }

    method Get(layer: nat) returns (buffer: nat)
      requires layer in buffers
      modifies this
      ensures buffer == old(buffers)[layer] && buffers == old(buffers) - {layer} && events == old(events) - {layer}
      ensures reuseEvents == old(reuseEvents)
      ensures log == old(log) + if layer in old(events) then [Queued(ComputeStream, Wait(old(events)[layer]))] else []
    {
      if layer in events {
        Enqueue(ComputeStream, Wait(events[layer]));
        events := events - {layer};
      }
      buffer := buffers[layer];
      buffers := buffers - {layer};
    }

    method Commit(layer: nat, contiguous: nat)
      modifies this
      ensures buffers == old(buffers) && events == old(events)
      ensures reuseEvents == if streamed then old(reuseEvents)[layer % 2 := Scattered(layer)] else old(reuseEvents)
      ensures log == old(log) + [Queued(ComputeStream, Scatter(layer, contiguous))]
                     + if streamed then [Queued(ComputeStream, Record(Scattered(layer)))] else []
    {
      Enqueue(ComputeStream, Scatter(layer, contiguous));
      if streamed {
        Enqueue(ComputeStream, Record(Scattered(layer)));
        reuseEvents := reuseEvents[layer % 2 := Scattered(layer)];
      }
    }

    /** Before turn l: its buffer and event are waiting, and the one write-back not yet waited for is layer l - 1. */
    ghost predicate Before(l: nat)
      reads this
    {
      && buffers == (if l < layers then map[l := l % 2] else map[])
      && events == (if streamed && l < layers then map[l := Loaded(l)] else map[])
      && (l < layers ==> reuseEvents == if streamed && l > 0 then map[(l - 1) % 2 := Scattered(l - 1)] else map[])
    }

    /** The first half of a turn: take layer l, queue the load of layer l + 1. */
    method TakeAndPrefetch(l: nat) returns (oldKv: nat)
      requires Before(l) && l < layers
      modifies this
      ensures oldKv == l % 2
      ensures buffers == if l + 1 < layers then map[l + 1 := (l + 1) % 2] else map[]
      ensures events == if streamed && l + 1 < layers then map[l + 1 := Loaded(l + 1)] else map[]
      ensures l + 1 < layers ==> reuseEvents == map[]
      ensures log == old(log) + (if streamed then [Queued(ComputeStream, Wait(Loaded(l)))] else [])
                     + (if l + 1 < layers then LoadCommands(l + 1, streamed) else [])
    {
      oldKv := Get(l);
      assert buffers == map[] && events == map[];
      if l + 1 < layers {
        assert l > 0 ==> (l - 1) % 2 == (l + 1) % 2;
        ghost var taken := log;
        Prefetch(l + 1);
        assert log == taken + LoadCommands(l + 1, streamed);
        assert reuseEvents == map[];
      }
    }

    /** One turn: take, prefetch, compute, write back. */
    method RunLayer(l: nat)
      requires Before(l) && l < layers
      modifies this
      ensures Before(l + 1) && log == old(log) + Turn(l, layers, streamed)
    {
      hide LoadCommands;
      var oldKv := TakeAndPrefetch(l);
      ghost var taken := log;
      Enqueue(ComputeStream, Compute(l, oldKv));
      Commit(l, oldKv);
      assert log == taken + [Queued(ComputeStream, Compute(l, l % 2)), Queued(ComputeStream, Scatter(l, l % 2))]
                          + (if streamed then [Queued(ComputeStream, Record(Scattered(l)))] else []);
      assert log == old(log) + Turn(l, layers, streamed);
    }

    /** The layer loop. Turn l always takes the buffer of its own parity, and at most layers l and l + 1 are held. */
    method Run()
      requires buffers == map[] && events == map[] && reuseEvents == map[] && log == []
      modifies this
      ensures log == Issued(layers, layers, streamed)
      ensures buffers == map[] && events == map[]
    {
      hide Turn;
      Prefetch(0);
      for l := 0 to layers
        invariant log == Issued(l, layers, streamed) && Before(l)
      {
        RunLayer(l);
      }
    }
  }
}
