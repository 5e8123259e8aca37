/**
 A directed channel from one named process to another: an unbounded FIFO
 buffer of items. Items are strings; the marker is the string "MARKER"
 (see Simulation.IsMarker).
 */
module Channels {

  class Channel {
    // Endpoint names, fixed at construction.
    const src: string
    const dst: string
    // Items enqueued and not yet drained, oldest first.
    var buffer: seq<string>

    /** The source names its constructor `init` rather than `__init__`; it is
        modelled here as the constructor it was evidently meant to be. */
    constructor Init(src: string, dst: string)
      ensures this.src == src && this.dst == dst
      ensures buffer == []
    {
      this.src := src;
      this.dst := dst;
      buffer := [];
    }

    /** Enqueue at the tail; no capacity bound, no failure. */
    method Send(msg: string)
      modifies this`buffer
      ensures buffer == old(buffer) + [msg]
    {
      buffer := buffer + [msg];
    }

    /** Return everything enqueued, oldest first, and leave the buffer empty. */
    method ReceiveAll() returns (msgs: seq<string>)
      modifies this`buffer
      ensures msgs == old(buffer)
      ensures buffer == []
    {
      msgs := buffer;
      buffer := [];
    }
  }

  /** FIFO preservation and the re-delivery guard: whatever sequence of items
      is sent on a fresh channel comes back from one drain in the order sent,
      and a second drain with no send in between yields nothing. */
  method SendAllThenDrainTwice(items: seq<string>) returns (first: seq<string>, second: seq<string>)
    ensures first == items
    ensures second == []
  {
    var ch := new Channel.Init("src", "dst");
    var i := 0;
    while i < |items|
      invariant 0 <= i <= |items|
      invariant ch.buffer == items[..i]
    {
      ch.Send(items[i]);
      i := i + 1;
    }
    assert items[..|items|] == items;
    first := ch.ReceiveAll();
    second := ch.ReceiveAll();
  }
}
