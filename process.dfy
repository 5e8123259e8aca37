/**
 The per-process side of the Chandy-Lamport snapshot: the marker-receipt
 state machine and the recording of in-flight messages per incoming channel.

 The class `Process` holds the fields the source updates in place. Its
 methods `AttachIncoming`, `ReceiveMarker` and `ReceiveMessage` are proved
 equal to the functions `Attach`, `OnMarker` and `OnMessage` on the value
 `ProcState`, and the properties of the protocol are
 lemmas about those functions and about `Run`, which applies a sequence of
 `receive_marker`/`receive_message` calls.
 */
module Processes {
  import opened Channels

  datatype Option<T> = None | Some(value: T)

  /** `Ok` or the key whose lookup raised Python's KeyError. */
  datatype Result<T> = Ok(value: T) | KeyError(key: string)

  /** What `record_local_state` stores: a text naming the process. */
  function LocalStateOf(name: string): string
  {
    "Local State of " + name
  }

  /** The observable state of a process. `incoming` is the key set of
      `incoming_channels`; the channel objects themselves play no part in the
      state machine. `localState` is `None` for Python's `None`. */
  datatype ProcState = ProcState(
    name: string,
    localState: Option<string>,
    recording: bool,
    incoming: set<string>,
    channelStates: map<string, seq<string>>,
    receivedMarkerFrom: set<string>)

  /** The states a process reaches from its constructor through
      `attach_incoming`, `receive_marker` and `receive_message`: one log per
      attached sender; before the first marker there is no local state, no
      closed channel and every log is empty; afterwards the local state is
      the captured one. */
  predicate Consistent(s: ProcState)
  {
    && s.incoming == s.channelStates.Keys
    && (s.recording ==> s.localState == Some(LocalStateOf(s.name)))
    && (!s.recording ==>
          && s.localState == None
          && s.receivedMarkerFrom == {}
          && forall p :: p in s.channelStates ==> s.channelStates[p] == [])
  }

  /** State right after the constructor. */
  function Initial(name: string): (s: ProcState)
    ensures Consistent(s)
    ensures s.name == name && s.localState == None && !s.recording
    ensures s.incoming == {} && s.channelStates == map[] && s.receivedMarkerFrom == {}
  {
    ProcState(name, None, false, {}, map[], {})
  }

  /** `attach_incoming(other, ...)`: register the sender and give it a fresh
      empty log, leaving every other entry as it was. */
  function Attach(s: ProcState, other: string): (r: ProcState)
    ensures r.incoming == s.incoming + {other}
    ensures other in r.channelStates && r.channelStates[other] == []
    ensures r.channelStates.Keys == s.channelStates.Keys + {other}
    ensures forall p :: p in s.channelStates && p != other ==> r.channelStates[p] == s.channelStates[p]
    ensures r.(incoming := s.incoming, channelStates := s.channelStates) == s
    ensures Consistent(s) ==> Consistent(r)
  {
    s.(incoming := s.incoming + {other}, channelStates := s.channelStates[other := []])
  }

  /** `logs` with every sender in `ks` given a fresh empty log. */
  function ResetLogs(logs: map<string, seq<string>>, ks: set<string>): (r: map<string, seq<string>>)
    ensures r.Keys == logs.Keys + ks
    ensures forall p :: p in ks ==> r[p] == []
    ensures forall p :: p in logs && p !in ks ==> r[p] == logs[p]
  {
    map p | p in logs.Keys + ks :: if p in ks then [] else logs[p]
  }

  lemma ResetNothing(logs: map<string, seq<string>>)
    ensures ResetLogs(logs, {}) == logs
  {
  }

  lemma ResetOneMore(logs: map<string, seq<string>>, ks: set<string>, p: string)
    ensures ResetLogs(logs, ks + {p}) == ResetLogs(logs, ks)[p := []]
  {
  }

  /** `receive_marker(sender)`: the new state and the returned flag. */
  function OnMarker(s: ProcState, sender: string): (r: (ProcState, bool))
    // True exactly when this call starts the recording.
    ensures r.1 <==> !s.recording
    ensures r.0.recording
    ensures r.0.name == s.name && r.0.incoming == s.incoming
    // First marker: capture the local state and open every other attached
    // channel with an empty log; the sender's own log and the closed set stay.
    ensures !s.recording ==>
              && r.0.localState == Some(LocalStateOf(s.name))
              && r.0.receivedMarkerFrom == s.receivedMarkerFrom
              && r.0.channelStates.Keys == s.channelStates.Keys + (s.incoming - {sender})
              && (forall p :: p in s.incoming && p != sender ==> r.0.channelStates[p] == [])
              && (forall p :: p in s.channelStates && (p == sender || p !in s.incoming) ==>
                    r.0.channelStates[p] == s.channelStates[p])
    // Later marker: only close the sender's channel.
    ensures s.recording ==>
              && r.0.localState == s.localState
              && r.0.channelStates == s.channelStates
              && r.0.receivedMarkerFrom == s.receivedMarkerFrom + {sender}
    ensures Consistent(s) ==> Consistent(r.0)
  {
    if !s.recording then
      (s.(recording := true,
          localState := Some(LocalStateOf(s.name)),
          channelStates := ResetLogs(s.channelStates, s.incoming - {sender})),
       true)
    else
      (s.(receivedMarkerFrom := s.receivedMarkerFrom + {sender}), false)
  }

  /** Whether `receive_message` appends for this sender: recording, and the
      sender's channel not yet closed by its marker. */
  predicate Logging(s: ProcState, sender: string)
  {
    s.recording && sender !in s.receivedMarkerFrom
  }

  /** `receive_message(sender, msg)`. */
  function OnMessage(s: ProcState, sender: string, msg: string): (r: Result<ProcState>)
    // The append looks the sender up; a sender without a log raises.
    ensures r.KeyError? <==> Logging(s, sender) && sender !in s.channelStates
    ensures r.KeyError? ==> r.key == sender
    ensures Logging(s, sender) && sender in s.channelStates ==>
              && r.Ok?
              && r.value.channelStates == s.channelStates[sender := s.channelStates[sender] + [msg]]
              && r.value.(channelStates := s.channelStates) == s
    ensures !Logging(s, sender) ==> r == Ok(s)
    ensures r.Ok? && Consistent(s) ==> Consistent(r.value)
  {
    if Logging(s, sender) then
      if sender in s.channelStates then
        Ok(s.(channelStates := s.channelStates[sender := s.channelStates[sender] + [msg]]))
      else
        KeyError(sender)
    else
      Ok(s)
  }

  /** A call of one of the two delivery entry points of a process. */
  datatype Call = ReceiveMarkerCall(sender: string) | ReceiveMessageCall(sender: string, msg: string)

  function Apply(s: ProcState, c: Call): Result<ProcState>
  {
    match c
    case ReceiveMarkerCall(sender) => Ok(OnMarker(s, sender).0)
    case ReceiveMessageCall(sender, msg) => OnMessage(s, sender, msg)
  }

  /** The state reached by a sequence of calls and the sender whose KeyError
      stopped it, if any. The mutations made before the exception persist. */
  datatype Outcome = Outcome(state: ProcState, raised: Option<string>)

  function Run(s: ProcState, calls: seq<Call>): Outcome
    decreases |calls|
  {
    if calls == [] then Outcome(s, None)
    else
      match Apply(s, calls[0])
      case KeyError(k) => Outcome(s, Some(k))
      case Ok(t) => Run(t, calls[1..])
  }

  /** How many calls of the sequence returned `True`, i.e. captured the local
      state. */
  function Captures(s: ProcState, calls: seq<Call>): nat
    decreases |calls|
  {
    if calls == [] then 0
    else
      match Apply(s, calls[0])
      case KeyError(_) => 0
      case Ok(t) =>
        (if calls[0].ReceiveMarkerCall? && OnMarker(s, calls[0].sender).1 then 1 else 0)
        + Captures(t, calls[1..])
  }

  lemma RunOne(s: ProcState, c: Call)
    ensures Run(s, [c]) == if Apply(s, c).Ok? then Outcome(Apply(s, c).value, None)
                           else Outcome(s, Some(Apply(s, c).key))
  {
  }

  /** Running two sequences one after the other is running their
      concatenation; nothing runs after a KeyError. */
  lemma {:induction false} RunAppend(s: ProcState, a: seq<Call>, b: seq<Call>)
    ensures Run(s, a + b) ==
              if Run(s, a).raised.Some? then Run(s, a) else Run(Run(s, a).state, b)
    decreases |a|
  {
    if a == [] {
      assert a + b == b;
    } else {
      assert (a + b)[0] == a[0];
      assert (a + b)[1..] == a[1..] + b;
      match Apply(s, a[0])
      case KeyError(_) =>
      case Ok(t) => RunAppend(t, a[1..], b);
    }
  }

  /** Every reachable state stays reachable under any sequence of calls. */
  lemma {:induction false} RunPreservesConsistency(s: ProcState, calls: seq<Call>)
    requires Consistent(s)
    ensures Consistent(Run(s, calls).state)
    decreases |calls|
  {
    if calls != [] {
      match Apply(s, calls[0])
      case KeyError(_) =>
      case Ok(t) => RunPreservesConsistency(t, calls[1..]);
    }
  }

  /** Monotonicity of the state machine under marker and message calls: the
      name and the attached senders stay, the set of logged senders stays,
      `recording` never returns to false and the closed set only grows. */
  lemma {:induction false} RunIsMonotone(s: ProcState, calls: seq<Call>)
    requires Consistent(s)
    ensures var t := Run(s, calls).state;
              && t.name == s.name
              && t.incoming == s.incoming
              && t.channelStates.Keys == s.channelStates.Keys
              && (s.recording ==> t.recording)
              && s.receivedMarkerFrom <= t.receivedMarkerFrom
    decreases |calls|
  {
    if calls != [] {
      match Apply(s, calls[0])
      case KeyError(_) =>
      case Ok(t) => RunIsMonotone(t, calls[1..]);
    }
  }

  /** Once a sender's marker has been received, its log never changes. */
  lemma {:induction false} ClosedLogStaysFrozen(s: ProcState, calls: seq<Call>, p: string)
    requires Consistent(s)
    requires p in s.receivedMarkerFrom && p in s.channelStates
    ensures p in Run(s, calls).state.channelStates
    ensures Run(s, calls).state.channelStates[p] == s.channelStates[p]
    decreases |calls|
  {
    if calls != [] {
      match Apply(s, calls[0])
      case KeyError(_) =>
      case Ok(t) => ClosedLogStaysFrozen(t, calls[1..], p);
    }
  }

  /** The messages from `p` among `calls` up to, not including, the next
      marker from `p`: what a channel that is being recorded should log. */
  function Window(p: string, calls: seq<Call>): seq<string>
    decreases |calls|
  {
    if calls == [] then []
    else if calls[0] == ReceiveMarkerCall(p) then []
    else if calls[0].ReceiveMessageCall? && calls[0].sender == p then [calls[0].msg] + Window(p, calls[1..])
    else Window(p, calls[1..])
  }

  /** A channel being recorded logs exactly the messages it delivers until
      its sender's marker closes it, and nothing after: recording started
      on it and it was not yet closed, so after any run without a KeyError
      its log is the old log followed by the window of the run. */
  lemma {:induction false} LogIsWindow(s: ProcState, calls: seq<Call>, p: string)
    requires Consistent(s) && s.recording
    requires p in s.channelStates && p !in s.receivedMarkerFrom
    requires Run(s, calls).raised == None
    ensures p in Run(s, calls).state.channelStates
    ensures Run(s, calls).state.channelStates[p] == s.channelStates[p] + Window(p, calls)
    decreases |calls|
  {
    if calls == [] {
    } else {
      var t := Apply(s, calls[0]).value;
      assert Run(s, calls) == Run(t, calls[1..]);
      if calls[0] == ReceiveMarkerCall(p) {
        ClosedLogStaysFrozen(t, calls[1..], p);
      } else {
        LogIsWindow(t, calls[1..], p);
        if calls[0].ReceiveMessageCall? && calls[0].sender == p {
          assert t.channelStates[p] == s.channelStates[p] + [calls[0].msg];
        }
      }
    }
  }

  /** The local state is captured at most once, only by a call that finds
      `recording` false, and is never written otherwise. */
  lemma {:induction false} LocalStateCapturedAtMostOnce(s: ProcState, calls: seq<Call>)
    ensures Captures(s, calls) <= if s.recording then 0 else 1
    ensures Run(s, calls).state.localState ==
              if Captures(s, calls) == 1 then Some(LocalStateOf(s.name)) else s.localState
    decreases |calls|
  {
    if calls != [] {
      match Apply(s, calls[0])
      case KeyError(_) =>
      case Ok(t) => LocalStateCapturedAtMostOnce(t, calls[1..]);
    }
  }

  /** As written, the first marker does not close the channel it arrived on:
      a later message from that sender is logged, where the textbook
      algorithm records that channel as empty. */
  lemma FirstMarkerLeavesSenderChannelOpen(s: ProcState, sender: string, msg: string)
    requires Consistent(s) && !s.recording && sender in s.incoming
    ensures var t := Run(s, [ReceiveMarkerCall(sender), ReceiveMessageCall(sender, msg)]).state;
              sender in t.channelStates && t.channelStates[sender] == [msg]
  {
    var calls := [ReceiveMarkerCall(sender), ReceiveMessageCall(sender, msg)];
    var t := OnMarker(s, sender).0;
    assert Run(s, calls) == Run(t, calls[1..]);
    var u := OnMessage(t, sender, msg).value;
    assert Run(t, calls[1..]) == Run(u, []);
  }

  class Process {
    const name: string
    var localState: Option<string>
    var recording: bool
    // Sender name to the channel that delivers from it.
    var incomingChannels: map<string, Channel>
    // Sender name to the messages recorded as in flight on its channel.
    var channelStates: map<string, seq<string>>
    // Senders whose marker closed their channel after recording started.
    var receivedMarkerFrom: set<string>

    function State(): ProcState
      reads this
    {
      ProcState(name, localState, recording, incomingChannels.Keys, channelStates, receivedMarkerFrom)
    }

    /** The source names its constructor `init` rather than `__init__`; it is
        modelled here as the constructor it was evidently meant to be. */
    constructor Init(name: string)
      ensures State() == Initial(name)
      ensures incomingChannels == map[]
    {
      this.name := name;
      localState := None;
      recording := false;
      incomingChannels := map[];
      channelStates := map[];
      receivedMarkerFrom := {};
    }

    method AttachIncoming(other: string, channel: Channel)
      modifies this`incomingChannels, this`channelStates
      ensures incomingChannels == old(incomingChannels)[other := channel]
      ensures State() == Attach(old(State()), other)
    {
      incomingChannels := incomingChannels[other := channel];
      channelStates := channelStates[other := []];
    }

    method RecordLocalState()
      modifies this`localState
      ensures localState == Some(LocalStateOf(name))
    {
      localState := Some(LocalStateOf(name));
    }

    method ReceiveMarker(sender: string) returns (captured: bool)
      modifies this`recording, this`localState, this`channelStates, this`receivedMarkerFrom
      ensures (State(), captured) == OnMarker(old(State()), sender)
    {
      if !recording {
        recording := true;
        RecordLocalState();
        // Start recording on every other incoming channel.
        var pending := incomingChannels.Keys;
        ghost var done: set<string> := {};
        ResetNothing(channelStates);
        while pending != {}
          invariant pending + done == incomingChannels.Keys && pending !! done
          invariant recording && localState == Some(LocalStateOf(name))
          invariant receivedMarkerFrom == old(receivedMarkerFrom)
          invariant channelStates == ResetLogs(old(channelStates), done - {sender})
          decreases pending
        {
          var p :| p in pending;
          if p != sender {
            ResetOneMore(old(channelStates), done - {sender}, p);
            assert (done + {p}) - {sender} == (done - {sender}) + {p};
            channelStates := channelStates[p := []];
          } else {
            assert (done + {p}) - {sender} == done - {sender};
          }
          pending := pending - {p};
          done := done + {p};
        }
        captured := true;
      } else {
        receivedMarkerFrom := receivedMarkerFrom + {sender};
        captured := false;
      }
    }

    /** `raised` stands for the KeyError the append raises for a sender
        without a log; the state is then unchanged. */
    method ReceiveMessage(sender: string, msg: string) returns (raised: bool)
      modifies this`channelStates
      ensures OnMessage(old(State()), sender, msg) == if raised then KeyError(sender) else Ok(State())
      ensures raised ==> channelStates == old(channelStates)
    {
      raised := false;
      if recording && sender !in receivedMarkerFrom {
        if sender in channelStates {
          channelStates := channelStates[sender := channelStates[sender] + [msg]];
        } else {
          raised := true;
        }
      }
    }
  }
}
