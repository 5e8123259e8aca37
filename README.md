# Chandy–Lamport snapshot simulation, modelled in Dafny

This project models the sequential Chandy–Lamport snapshot simulation of
`Project.py`:

- a **channel** is an unbounded FIFO buffer from one named process to another
  (`channel.dfy`, module `Channels`);
- a **process** runs the marker-receipt state machine: the first marker makes
  it capture its local state and start a fresh, empty log for every other
  attached sender; each later marker closes its sender's channel; an
  application message is appended to its sender's log while the process is
  recording and that channel is still open (`process.dfy`, module
  `Processes`);
- the **driver** drains one channel at a time and hands each item to the
  destination process, as a marker when the item is the string `"MARKER"` and
  as a message otherwise, and runs the fixed ring P1 → P2 → P3 → P1
  (`simulation.dfy`, module `Simulation`).

`Channel` and `Process` are classes whose methods update their fields in
place, as the source does. The methods `AttachIncoming`, `ReceiveMarker` and
`ReceiveMessage` of `Process` are proved equal to the functions `Attach`,
`OnMarker` and `OnMessage` on the value `ProcState`, and the
protocol's properties are lemmas about those functions and about `Run`, which
applies any sequence of `receive_marker` / `receive_message` calls. `Run`
stops at the first `KeyError` and keeps the state reached before it, since
the mutations made before a Python exception persist.

Behaviour kept as the code has it, where the textbook Chandy–Lamport
algorithm differs:

- The first marker does not add its sender to `received_marker_from`
  (Project.py:35-44), so the channel it came on stays open and later messages
  on it are logged. The textbook algorithm records that channel as empty; the
  model follows the code (`FirstMarkerLeavesSenderChannelOpen`).
- Markers are recognised by string equality (Project.py:91): an application
  message whose text is `"MARKER"` is delivered as a marker. Items therefore
  stay strings rather than a datatype that would tell the two apart.
- A log being recorded holds exactly the messages delivered on its channel
  from the start of recording until that channel's marker
  (`LogIsWindow`); this part of the textbook algorithm the code does keep.
- `receive_message` appends with `channel_states[sender].append(...)`
  (Project.py:51). For a sender that was never attached this raises
  `KeyError`, and the model returns that error instead of requiring it away.
- In the ring scenario `"M1"` and `"M2"` reach P2 and P3 before their first
  marker and are dropped, so every recorded channel ends up empty.

## Model

| member | source | states |
|---|---|---|
| `Channels.Channel.Init` | Project.py:4-7 | endpoints as given, empty buffer |
| `Channels.Channel.Send` | Project.py:9-10 | the new buffer is the old one with `msg` appended; endpoints are constants |
| `Channels.Channel.ReceiveAll` | Project.py:12-15 | returns exactly the previous buffer, in insertion order, and leaves the buffer empty |
| `Channels.SendAllThenDrainTwice` | Project.py:9-15 | FIFO: any sequence of sends comes back from one drain in the order sent, and a second drain with no send between returns `[]` |
| `Processes.Initial` | Project.py:19-25 | the freshly constructed state carries the given name and is consistent: no local state, not recording, nothing attached, no logs, nothing closed |
| `Processes.Process.Init` | Project.py:19-25 | the constructed object's state is `Initial(name)` and it has no incoming channels |
| `Processes.Attach` | Project.py:27-29 | the sender becomes attached with an empty log, every other log and every other field is unchanged, consistency is preserved |
| `Processes.Process.AttachIncoming` | Project.py:27-29 | `incoming_channels[other] = channel`, and the state is `Attach` of the old state |
| `Processes.Process.RecordLocalState` | Project.py:31-32 | the local state becomes `"Local State of " + name` and nothing else changes |
| `Processes.OnMarker` | Project.py:34-47 | returns true exactly when not yet recording; afterwards always recording; first marker: local state captured, every attached sender other than `sender` gets an empty log, the sender's log and `received_marker_from` are untouched; later marker: only `sender` is added to `received_marker_from`; consistency is preserved |
| `Processes.Process.ReceiveMarker` | Project.py:34-47 | new state and returned flag are those of `OnMarker`, including the reset loop over the incoming channels |
| `Processes.OnMessage` | Project.py:49-51 | appends `msg` to the sender's log exactly when recording and the sender is not closed; otherwise nothing changes; `KeyError` exactly when it would append to a sender without a log |
| `Processes.Process.ReceiveMessage` | Project.py:49-51 | new state is that of `OnMessage`; on `KeyError` the state is unchanged |
| `Processes.RunAppend` | Project.py:89-94 | delivering two batches one after the other equals delivering their concatenation, and nothing is delivered after a `KeyError` |
| `Processes.RunPreservesConsistency` | Project.py:34-51 | every sequence of marker and message calls keeps a consistent state consistent |
| `Processes.RunIsMonotone` | Project.py:34-51 | under marker and message calls the name, the attached senders and the key set of `channel_states` stay, `recording` never returns to false and `received_marker_from` only grows |
| `Processes.ClosedLogStaysFrozen` | Project.py:41-51 | once a sender is in `received_marker_from`, its log never changes again |
| `Processes.LogIsWindow` | Project.py:34-51 | for a channel being recorded and not yet closed, after any run without `KeyError` its log is the old log followed by exactly the messages from that sender up to that sender's next marker (`Window`), in delivery order |
| `Processes.LocalStateCapturedAtMostOnce` | Project.py:31-47 | at most one call captures the local state, none when already recording, and the local state is written only by that call |
| `Processes.FirstMarkerLeavesSenderChannelOpen` | Project.py:35-51 | a message following the first marker on the same channel is logged for that sender |
| `Simulation.Deliver` | Project.py:89-94 | drains the channel and leaves the destination in the state `Run` reaches over the drained items in order, each `"MARKER"` as a marker call and every other item as a message call, stopping at a `KeyError` |
| `Simulation.FirstMarkerAtFreshProcess` | Project.py:34-44 | a process with one attached sender, on its first marker from any sender, holds its captured local state and one empty log |
| `Simulation.MessageBeforeFirstMarkerIsDropped` | Project.py:49-51 | a message delivered before the first marker is not recorded, and the following marker leaves that sender's log empty |
| `Simulation.MarkerWhileRecordingClosesChannel` | Project.py:45-47 | a marker delivered to a recording process only closes its sender's channel |
| `Simulation.BuildRing` | Project.py:56-68 | three distinct processes and channels with endpoints P1→P2, P2→P3, P3→P1; each process holds exactly the channel from its predecessor under the predecessor's name, with one empty log |
| `Simulation.StartRingSnapshot` | Project.py:56-81 | after the ring is built, the initial messages, P1's self-marker and the three markers: only P1 records, with an empty log for P3, each channel holds its message (if any) followed by the marker, and the wiring is that of `BuildRing` |
| `Simulation.RunSimulation` | Project.py:54-96 | after the delivery loop over the routes C12, C23, C31 every channel is drained and still wired as in the ring, and P1, P2 and P3 have each captured their local state and hold `{"P3": []}`, `{"P1": []}` and `{"P2": []}`; only P1 has a closed channel, from P3 |

## Left out

- The `print` calls (Project.py:38, Project.py:75, Project.py:102-105) and the module-level call of `run_simulation` (Project.py:100): console output with no effect on the state.
- Concurrency, locking and asynchronous delivery: the code is sequential and delivers one channel at a time.
- Completion detection, epochs, error types beyond `KeyError` and duplicate-marker checks: the code has none.
- `Channels.Channel.Init` and `Processes.Process.Init`: the source spells its constructors `init`, not `__init__` (Project.py:4, Project.py:19), so as written `Process("P1")` (Project.py:56) raises `TypeError` and `run_simulation` never reaches the delivery loop. The model gives both classes the constructors they were evidently meant to be, and `BuildRing`, `StartRingSnapshot` and `RunSimulation` describe that intended program, not the exception.
- `Processes.Process.RecordLocalState`: a public method like its source; called on its own before any marker it leaves a state outside `Consistent`, which is only claimed for states reached through `attach_incoming`, `receive_marker` and `receive_message`.
- `Simulation.RunSimulation`: the construction of the ring (Project.py:56-68) and the sending before delivery (Project.py:70-81) are split out into `BuildRing` and `StartRingSnapshot`; the delivery loop (Project.py:84-94) stays in `RunSimulation`. That no delivery of the scenario raises `KeyError` is checked inside its body, not part of its postcondition: in the source a `KeyError` would leave `run_simulation` as an exception rather than as a returned value, and the body asserts that `Deliver` returns `raised == None` on each of the three routes.
- `Processes.ProcState` keeps the key set of `incoming_channels`, not the channel objects; `Process.AttachIncoming` states the full map separately.
- Channel items are strings only; the source's buffers could hold any Python value, but the code sends only strings.
