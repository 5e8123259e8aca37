/**
 The delivery step of the simulation driver and its fixed three-process ring.
 */
module Simulation {
  import opened Channels
  import opened Processes

  const Marker: string := "MARKER"

  /** Markers are recognised by string equality, as in the source: an
      application message whose text is "MARKER" is delivered as a marker.
      Items are therefore kept as plain strings rather than a datatype that
      would tell the two apart. */
  predicate IsMarker(item: string)
  {
    item == Marker
  }

  /** The process call that delivering `item` from `src` makes. */
  function AsCall(src: string, item: string): Call
  {
    if IsMarker(item) then ReceiveMarkerCall(src) else ReceiveMessageCall(src, item)
  }

  /** The calls that delivering `items` from `src`, in order, makes. */
  function Delivered(src: string, items: seq<string>): seq<Call>
  {
    seq(|items|, i requires 0 <= i < |items| => AsCall(src, items[i]))
  }

  lemma DeliveredNext(src: string, items: seq<string>, i: nat)
    requires i < |items|
    ensures Delivered(src, items[..i + 1]) == Delivered(src, items[..i]) + [AsCall(src, items[i])]
  {
  }

  lemma DeliveredSplit(src: string, items: seq<string>, i: nat)
    requires i <= |items|
    ensures Delivered(src, items) == Delivered(src, items[..i]) + Delivered(src, items[i..])
  {
  }

  /** One iteration of the delivery loop: drain `chan` and hand each item,
      oldest first, to `dst` as coming from `src`. A KeyError raised by
      `receive_message` ends the delivery; the items not yet handed over
      are lost with the drained batch. */
  method Deliver(src: string, dst: Process, chan: Channel) returns (raised: Option<string>)
    modifies chan`buffer
    modifies dst`recording, dst`localState, dst`channelStates, dst`receivedMarkerFrom
    ensures chan.buffer == []
    ensures Run(old(dst.State()), Delivered(src, old(chan.buffer))) == Outcome(dst.State(), raised)
  {
    ghost var s0 := dst.State();
    var msgs := chan.ReceiveAll();
    raised := None;
    var i := 0;
    while i < |msgs| && raised == None
      invariant 0 <= i <= |msgs|
      invariant chan.buffer == []
      invariant Run(s0, Delivered(src, msgs[..i])) == Outcome(dst.State(), raised)
    {
      var m := msgs[i];
      ghost var before := dst.State();
      if m == Marker {
        var captured := dst.ReceiveMarker(src);
      } else {
        var keyError := dst.ReceiveMessage(src, m);
        if keyError {
          raised := Some(src);
        }
      }
      DeliveredNext(src, msgs, i);
      RunAppend(s0, Delivered(src, msgs[..i]), [AsCall(src, m)]);
      RunOne(before, AsCall(src, m));
      i := i + 1;
    }
    DeliveredSplit(src, msgs, i);
    RunAppend(s0, Delivered(src, msgs[..i]), Delivered(src, msgs[i..]));
  }

  /** A process with one attached sender takes its first marker, from that
      sender or any other: it captures its local state and the one log is
      empty. */
  lemma FirstMarkerAtFreshProcess(name: string, other: string, sender: string)
    ensures OnMarker(Attach(Initial(name), other), sender).0
         == ProcState(name, Some(LocalStateOf(name)), true, {other}, map[other := []], {})
  {
    var s := Attach(Initial(name), other);
    assert OnMarker(s, sender).0.channelStates == map[other := []];
  }

  /** Delivering an application message and then a marker from the only
      attached sender to a fresh process: the message arrives before
      recording starts and is dropped, the marker captures the local state and
      the sender's log stays empty. */
  lemma MessageBeforeFirstMarkerIsDropped(name: string, src: string, msg: string)
    requires !IsMarker(msg)
    ensures Run(Attach(Initial(name), src), Delivered(src, [msg, Marker]))
         == Outcome(ProcState(name, Some(LocalStateOf(name)), true, {src}, map[src := []], {}), None)
  {
    var s := Attach(Initial(name), src);
    var calls := Delivered(src, [msg, Marker]);
    assert calls == [ReceiveMessageCall(src, msg), ReceiveMarkerCall(src)];
    assert Apply(s, calls[0]) == Ok(s);
    var t := OnMarker(s, src).0;
    FirstMarkerAtFreshProcess(name, src, src);
    assert Run(s, calls) == Run(s, calls[1..]);
    assert Run(s, calls[1..]) == Run(t, []);
  }

  /** A marker reaching a process that is already recording closes its
      sender's channel and changes nothing else. */
  lemma MarkerWhileRecordingClosesChannel(s: ProcState, src: string)
    requires s.recording
    ensures Run(s, Delivered(src, [Marker]))
         == Outcome(s.(receivedMarkerFrom := s.receivedMarkerFrom + {src}), None)
  {
    var calls := Delivered(src, [Marker]);
    assert calls == [ReceiveMarkerCall(src)];
    assert Run(s, calls) == Run(OnMarker(s, src).0, []);
  }

  /** Each process holds the channel from its ring predecessor. */
  ghost predicate RingWired(p1: Process, p2: Process, p3: Process, c12: Channel, c23: Channel, c31: Channel)
    reads p1`incomingChannels, p2`incomingChannels, p3`incomingChannels
  {
    && p2.incomingChannels == map["P1" := c12]
    && p3.incomingChannels == map["P2" := c23]
    && p1.incomingChannels == map["P3" := c31]
  }

  /** The wiring of the ring scenario: processes P1, P2, P3 and channels
      C12, C23, C31, each channel attached to its destination under its
      source's name, so that the ring is P1 -> P2 -> P3 -> P1. */
  method BuildRing() returns (p1: Process, p2: Process, p3: Process, c12: Channel, c23: Channel, c31: Channel)
    ensures fresh(p1) && fresh(p2) && fresh(p3) && fresh(c12) && fresh(c23) && fresh(c31)
    ensures p1 != p2 && p2 != p3 && p3 != p1
    ensures c12 != c23 && c23 != c31 && c31 != c12
    ensures p1.State() == Attach(Initial("P1"), "P3")
    ensures p2.State() == Attach(Initial("P2"), "P1")
    ensures p3.State() == Attach(Initial("P3"), "P2")
    ensures c12.buffer == [] && c23.buffer == [] && c31.buffer == []
    ensures p2.incomingChannels == map["P1" := c12]
    ensures p3.incomingChannels == map["P2" := c23]
    ensures p1.incomingChannels == map["P3" := c31]
    ensures c12.src == "P1" && c12.dst == "P2" && c23.src == "P2" && c23.dst == "P3" && c31.src == "P3" && c31.dst == "P1"
  {
    p1 := new Process.Init("P1");
    p2 := new Process.Init("P2");
    p3 := new Process.Init("P3");

    c12 := new Channel.Init("P1", "P2");
    c23 := new Channel.Init("P2", "P3");
    c31 := new Channel.Init("P3", "P1");

    p2.AttachIncoming("P1", c12);
    assert p2.incomingChannels == map["P1" := c12];
    p3.AttachIncoming("P2", c23);
    assert p3.incomingChannels == map["P2" := c23];
    p1.AttachIncoming("P3", c31);
  }

  /** The first part of the ring scenario up to the delivery: "M1" and "M2"
      are sent on C12 and C23, then P1 starts the snapshot by taking a marker
      from itself and sends a marker on every channel. Only P1 is recording,
      and the messages sit in front of the markers. */
  method StartRingSnapshot() returns (p1: Process, p2: Process, p3: Process, c12: Channel, c23: Channel, c31: Channel)
    ensures fresh(p1) && fresh(p2) && fresh(p3) && fresh(c12) && fresh(c23) && fresh(c31)
    ensures p1 != p2 && p2 != p3 && p3 != p1
    ensures c12 != c23 && c23 != c31 && c31 != c12
    ensures p1.State() == ProcState("P1", Some(LocalStateOf("P1")), true, {"P3"}, map["P3" := []], {})
    ensures p2.State() == Attach(Initial("P2"), "P1")
    ensures p3.State() == Attach(Initial("P3"), "P2")
    ensures c12.buffer == ["M1", Marker] && c23.buffer == ["M2", Marker] && c31.buffer == [Marker]
    ensures p2.incomingChannels == map["P1" := c12]
    ensures p3.incomingChannels == map["P2" := c23]
    ensures p1.incomingChannels == map["P3" := c31]
    ensures c12.src == "P1" && c12.dst == "P2" && c23.src == "P2" && c23.dst == "P3" && c31.src == "P3" && c31.dst == "P1"
  {
    p1, p2, p3, c12, c23, c31 := BuildRing();

    c12.Send("M1");
    c23.Send("M2");

    FirstMarkerAtFreshProcess("P1", "P3", "P1");
    var started := p1.ReceiveMarker("P1");

    c12.Send(Marker);
    assert c12.buffer == ["M1", Marker];
    c23.Send(Marker);
    assert c23.buffer == ["M2", Marker];
    c31.Send(Marker);
  }

  /** The ring scenario run to the end: after the channels are drained in
      the order C12, C23, C31 every process has captured its local state and
      every recorded channel is empty. "M1" and "M2" reach P2 and P3 before
      their first marker and are dropped; P3's marker only closes P1's
      channel from P3. The loop invariants give each process's state before
      and after its channel is delivered. */
  method RunSimulation() returns (p1: Process, p2: Process, p3: Process)
    ensures p1.recording && p1.localState == Some(LocalStateOf("P1"))
    ensures p1.channelStates == map["P3" := []] && p1.receivedMarkerFrom == {"P3"}
    ensures p2.recording && p2.localState == Some(LocalStateOf("P2"))
    ensures p2.channelStates == map["P1" := []] && p2.receivedMarkerFrom == {}
    ensures p3.recording && p3.localState == Some(LocalStateOf("P3"))
    ensures p3.channelStates == map["P2" := []] && p3.receivedMarkerFrom == {}
    // The ring is intact and every channel has been drained.
    ensures p1.incomingChannels.Keys == {"P3"} && p2.incomingChannels.Keys == {"P1"} && p3.incomingChannels.Keys == {"P2"}
    ensures var c := p2.incomingChannels["P1"]; c.src == "P1" && c.dst == "P2" && c.buffer == []
    ensures var c := p3.incomingChannels["P2"]; c.src == "P2" && c.dst == "P3" && c.buffer == []
    ensures var c := p1.incomingChannels["P3"]; c.src == "P3" && c.dst == "P1" && c.buffer == []
  {
    var c12, c23, c31;
    p1, p2, p3, c12, c23, c31 := StartRingSnapshot();
    ghost var pre1, pre2, pre3 := p1.State(), p2.State(), p3.State();
    ghost var post1 := pre1.(receivedMarkerFrom := pre1.receivedMarkerFrom + {"P3"});
    ghost var post2 := ProcState("P2", Some(LocalStateOf("P2")), true, {"P1"}, map["P1" := []], {});
    ghost var post3 := ProcState("P3", Some(LocalStateOf("P3")), true, {"P2"}, map["P2" := []], {});

    // Deliver all messages, one channel at a time.
    var routes := [("P1", p2, c12), ("P2", p3, c23), ("P3", p1, c31)];
    for i := 0 to |routes|
      invariant p2.State() == if i > 0 then post2 else pre2
      invariant p3.State() == if i > 1 then post3 else pre3
      invariant p1.State() == if i > 2 then post1 else pre1
      invariant c12.buffer == if i > 0 then [] else ["M1", Marker]
      invariant c23.buffer == if i > 1 then [] else ["M2", Marker]
      invariant c31.buffer == if i > 2 then [] else [Marker]
      invariant RingWired(p1, p2, p3, c12, c23, c31)
    {
      var (src, dst, chan) := routes[i];
      if i == 0 {
        assert dst == p2 && chan == c12;
        MessageBeforeFirstMarkerIsDropped("P2", "P1", "M1");
      } else if i == 1 {
        assert dst == p3 && chan == c23;
        MessageBeforeFirstMarkerIsDropped("P3", "P2", "M2");
      } else {
        assert dst == p1 && chan == c31;
        MarkerWhileRecordingClosesChannel(pre1, "P3");
      }
      var raised := Deliver(src, dst, chan);
      // No delivery of the scenario raises KeyError.
      assert raised == None;
    }
  }
}
