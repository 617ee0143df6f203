# Verified model of the teddycloud Spotify radio shim

The shim records the audio of a Soloist (Spotify Connect) process through a PulseAudio
null sink, serves it over HTTP to Teddycloud, and turns the events of a Toniebox into
Soloist commands. This project models its concurrent core in Dafny and proves what that
core promises, over all interleavings, inputs and environment choices.

## Modules

| part | modules |
|---|---|
| audio path: recorder pump, bounded queue, buffered writer, `/stream` handlers that replace one another | `Bytes`, `Batching`, `Recording`, `AudioPath`, `AudioGuarantees`, `StreamServer` |
| event path: mock box, hub, frames, envelope, line reader, dispatch | `Json`, `Grammar`, `Envelope`, `Unwrapping`, `EventStream`, `Frames`, `Standard`, `Listener`, `Hub`, `Gestures`, `Ordering` |
| Soloist process and connection: pairing, supervision, command connector | `Logs`, `Protocol`, `Supervision`, `Handover` |
| reconnection: recorder loop with its watchdogs, PulseAudio supervisor | `CaptureLog`, `Reconnect`, `PulseLog`, `Pulse` |
| arithmetic: int64 backoff, telemetry rates | `Backoff`, `Telemetry`, `Epochs` |

Three techniques carry the proofs.

* **Step relations with refining code.** `AudioPath` is a state machine whose labels are the
  atomic actions of every goroutine. `Recording.PulseRecorder` and `StreamServer.Server` are
  the code itself; each method is proved to extend a behaviour of the machine, with arbitrary
  other goroutines running in between. What is proved of all behaviours holds of the code.
* **Logs judged by rules.** For the process, recorder and daemon lifecycles, every observable
  effect is an entry of a log. `Protocol`, `CaptureLog` and `PulseLog` say which entry may
  come next; the code (`Supervision`, `Handover`, `Reconnect`, `Pulse`) is proved to emit only
  what is allowed, whatever the environment chooses; and the rules are proved to mean what
  they should, as statements about whole logs that do not mention the rules' bookkeeping.
* **Independent references.** The event path has a printer, a reader, the grammar of JSON texts
  (RFC 8259, sections 2 to 7) as trees that remember their spelling, and the interpretation of
  the WHATWG HTML Standard, section 9.2.6, and the results connect them in both directions.

Methods that loop forever in the source are watched for an arbitrary number of rounds given
as a parameter; their contracts hold for every number, so they say something about every
finite prefix of a run. Each says how its watch ended, and what that means in the state and
the log: the loop was left for one of the source's reasons, it is blocked in a step that
outlasts the watch, or as many rounds were made as it was watched for.

## Where the code and its documentation differ

The model follows the code. Each of these differences is a lemma with its exact condition.

* `NextBackoff` is documented never to return less than `current`. It does so exactly when
  `current <= max` (`Backoff.NextBackoffBounds`).
* Telemetry is meant never to over-count. It does exactly when a sample falls between
  `rec.Start` and `slot.set` and the recorder has already counted by then
  (`Telemetry.DeltasAgainstTruth`, `Telemetry.HeadStartIsOverCounted`).
* `Stop` is documented as safe before `Start`. The pump is then out of its reach: the channel
  the pump polls is closed exactly when the first call was a Start and a Stop has followed
  (`Recording.StopEndsThePump`, `Recording.PulseRecorder.ToldExactly`). From then on, as after
  a cancellation, the pump finishes at most the read under way (`Recording.StopIsPrompt`); a
  read error is the only other way it ends (`Recording.EndsForAReason`).
* An exit that was seen is meant to lead to a restart or to expiry. It is left unhandled
  exactly when the process exited with code 0 before its port was found, and then only
  cancellation ends the call (`Supervision.RunOnce`, with `Supervision.SwallowedExit` for the
  discovery). Both sides are read off the log: an exit of the process was seen and did not
  end the call, if and only if an exit with code 0 was seen and no port was.
* The mock prints values without escaping them, so the listener recovers a value exactly when
  it has no quote, backslash or control character (`Envelope.UnwrapExactly`).
* The reader keeps to the standard on a block exactly when it has a name and one data line
  without outer blanks, or neither name nor data. With several data lines it leaves out the
  line feeds between them, with none it dispatches an empty event, and without a name it
  dispatches nothing (`Standard.BlockAgreement`). On what the mock prints the two agree exactly
  when there is no carriage return (`Standard.ReaderMeetsStandard`).

## Model

| member | source | states |
|---|---|---|
| `Recording.BytesPreserved` | internal/audio/recorder.go:169-186 | Every action of pump or consumer keeps: bytes read are the chunks cut plus the accumulator, and between iterations the accumulator is shorter than a chunk |
| `Recording.QueuePreserved` | internal/audio/recorder.go:135-141 | Every action keeps the queue within capacity, in cutting order, holding exactly the chunks whose fate is still open, each a whole block of the source |
| `Recording.RecorderSafety` | internal/audio/recorder.go:153-196 | Both hold in every state of every behaviour, and size and capacity never change |
| `Recording.DroppedExactlyWhenFull` | internal/audio/recorder.go:178-183 | In every behaviour a chunk is dropped if and only if the channel was full at the moment it was cut |
| `Recording.NeverFullNeverDropped` | internal/audio/recorder.go:178-183 | While the channel is never found full nothing is dropped: every chunk cut is queued, was discarded by a flush, or was received |
| `Recording.StopEndsThePump` | internal/audio/recorder.go:77-104 | Over any sequence of Start and Stop calls, there is a pump whose stop channel is closed if and only if the first call was Start and a Stop followed |
| `Recording.StopIsPrompt` | internal/audio/recorder.go:160-195 | From the moment that channel is closed or the context cancelled, whatever pump, consumers and callers do, at most the read under way is finished, no other is made, and after a bounded number of its own actions the pump has ended |
| `Recording.EndsForAReason` | internal/audio/recorder.go:160-195 | And conversely: a pump has ended only if its channel was closed, its context cancelled, or a read failed |
| `Recording.FailedReadIsLast` | internal/audio/recorder.go:188-194 | After a read that failed no other is made, and the pump is gone once what it has read is cut |
| `Recording.PulseRecorder.ToldExactly` | internal/audio/recorder.go:161-167 | In the code, at the top of its loop the pump may go on to read if and only if it is neither cancelled nor stopped, that is, the first call was Start and a Stop followed; and it may end there if and only if it is one of them |
| `Recording.PulseRecorder.constructor` | internal/audio/recorder.go:50-64 | A fresh recorder has the configured sizes, or the defaults when they are not positive, and an empty history |
| `Recording.PulseRecorder.Chunks` | internal/audio/recorder.go:68-73 | One and the same channel is returned on every call, also before Start |
| `Recording.PulseRecorder.Start` | internal/audio/recorder.go:77-87 | Only the first call spawns a pump; later ones change nothing but the record of calls |
| `Recording.PulseRecorder.Stop` | internal/audio/recorder.go:91-104 | The stop channel is closed once, however often and whenever Stop is called, and the pump is told exactly by the call that closes its channel |
| `Recording.PulseRecorder.Flush` | internal/audio/recorder.go:127-142 | Afterwards the channel is empty, and each discarded chunk was one step of the machine, oldest first, for this handler |
| `Recording.PulseRecorder.Offer` | internal/audio/recorder.go:174-186 | Cutting goes on until less than a chunk is left, with consumers running in between; every chunk is one Cut step of the machine, so that it is queued exactly when there is room (`Recording.DroppedExactlyWhenFull`) |
| `Recording.PulseRecorder.Pump` | internal/audio/recorder.go:153-196 | With consumers, callers of Stop and cancellation running at any point, the loop only makes steps of the machine, so that it polls before every read; every round reads until the pump ends, which it does on a stop, a cancellation or a read error and for no other reason; a stop or cancellation before it lets it make no read |
| `Batching.BufferedWriter.constructor` | internal/server/stream.go:111 | A new writer has nothing buffered over the response's present body |
| `Batching.BufferedWriter.Write` | internal/server/stream.go:122 | Over an array buffer and a response that may refuse any byte: accepted bytes are kept in order and reported, a failed writer stays as it is, and it fails if and only if a write of this call was refused in part; without that the state is that of filling and passing on whole buffers; and every write the response has recorded meanwhile is at least a buffer long |
| `Batching.BufferedWriter.Flush` | internal/server/stream.go:115 | Nothing accepted is lost or duplicated; all that is buffered goes to the response in one write; it fails if and only if the response refuses part of that write, and otherwise nothing stays buffered |
| `StreamServer.Server.Register` | internal/server/stream.go:47-54 | Taking the slot is one step: the old owner is cancelled and nobody else, and the id is new |
| `StreamServer.Server.Cleanup` | internal/server/stream.go:56-62 | Leaving is one step: the slot is emptied only by the handler whose id is current |
| `StreamServer.Server.FlushPreFill` | internal/server/stream.go:94-98 | The handler becomes ready only at a moment when it found the queue empty, others running meanwhile |
| `StreamServer.Server.StreamChunks` | internal/server/stream.go:110-126 | With others running before every round, each round receives and writes a chunk, unless the select blocks on an empty queue or the handler is cancelled and makes its final flush; the array-backed writer always shows the handler's output in the machine |
| `StreamServer.Server.WriteOne` | internal/server/stream.go:117-123 | Exactly one chunk is received, written, and counted with the number of bytes accepted |
| `StreamServer.Server.Respond` | internal/server/stream.go:78-88 | The first write is the header; the response body grows by what that write took, all of it unless the write failed, and then exactly by the payload the machine accounts to this handler |
| `StreamServer.Server.HandleStream` | internal/server/stream.go:17-89 | A refused request changes nothing; any other makes only steps of the machine. It is left only when its slot is cleaned up, and its response then holds what was taken of the header followed by recorded bytes (`StreamServer.FromRecorder`); otherwise it is blocked on an empty queue, uncancelled, or has flushed or received as many chunks as it was watched for |
| `StreamServer.FromRecorder` | internal/server/stream.go:107-126 | End to end: behind the header, byte i of the response body is a byte the recorder read, from a block past the handler's edge, at an offset congruent to i modulo 4 when chunks are whole frames; if the response's own record shows no payload write refused in part, the received blocks are all there; and all payload writes but the last have at least 131072 bytes |
| `AudioPath.SlotPreserved` | internal/server/stream.go:47-62 | Every action of every goroutine keeps the slot invariant: unique ids, an owner that is the newest, everybody older cancelled |
| `AudioPath.LinksPreserved` | internal/server/stream.go:112-123 | Every action keeps each handler's chunks and its recorder's records of them in agreement |
| `AudioPath.PayloadsPreserved` | internal/server/stream.go:110-126 | Every action keeps each output a prefix of, and without failure equal to, the chunks handed over |
| `AudioPath.CountersPreserved` | internal/server/stream.go:82-84 | Every action keeps both counters equal to the sums over all handlers |
| `AudioPath.SystemSafety` | internal/server/stream.go:17-126 | All of these in every state of every interleaving of pumps, flushes and any number of handlers |
| `AudioGuarantees.HotSwap` | internal/server/stream.go:37-62 | At most one registered handler is uncancelled, it is the newest and owns the slot; every older one is cancelled or gone; the slot is empty exactly when the newest has left |
| `AudioGuarantees.IdsIncrease` | internal/server/stream.go:47-53 | A handler that registers gets an id above all earlier ones, and the slot |
| `AudioGuarantees.CancelledBy` | internal/server/stream.go:37-62 | A handler's context is cancelled exactly by its client, by the handler that takes the slot from it, or by its own cleanup |
| `AudioGuarantees.EndsOnlyCancelled` | internal/server/stream.go:112-116 | In every interleaving a stream makes its final flush only after its context was cancelled |
| `AudioGuarantees.ByteLedger` | internal/audio/recorder.go:169-186 | bytes read = size * (sent + dropped) + accumulator, in every reachable state; the queue never exceeds its capacity; dropped counts the chunks dropped |
| `AudioGuarantees.ChunkLedger` | internal/audio/recorder.go:135-186 | Every chunk ever cut is in exactly one place: queued, dropped, flushed, or with exactly one handler |
| `AudioGuarantees.DroppedOnlyWhenFull` | internal/audio/recorder.go:178-183 | In every interleaving of the whole system, with any number of recorders and handlers, a chunk is dropped if and only if its recorder's channel was full when it was cut |
| `AudioGuarantees.LiveEdge` | internal/server/stream.go:64-88 | Whatever a handler ever takes was cut after the moment its own flush found the queue empty |
| `AudioGuarantees.StereoAlignment` | internal/server/stream.go:110-126 | Byte i of a response's payload comes from the recorder's input, from a whole block at a strictly increasing position past the handler's edge, at an offset congruent to i modulo 4 |
| `AudioGuarantees.ResponsePayload` | internal/server/stream.go:107-126 | The response is fed the received chunks in order without gap or repetition; all writes to the response but the final flush have at least 131072 bytes; never more than that stays unwritten; a finished, unfailed response has everything |
| `AudioGuarantees.CountersExact` | internal/server/stream.go:80-84 | delivered is 44 bytes for each handler past its header plus all accepted payload bytes; active is the number of handlers in their streaming phase |
| `EventStream.ReadLoop` | internal/sselistener/listener.go:173-220 | The loop dispatches exactly the events of the text received, or a prefix when interrupted; it ends for a long line exactly when there is one |
| `EventStream.TakeLine` | internal/sselistener/listener.go:203-218 | One line does what the line function says to name, data and dispatched events |
| `EventStream.EventsOfJoined` | internal/sselistener/listener.go:177-219 | Reading whole lines in two portions is reading them in one, events, state and limit included |
| `EventStream.Resynchronised` | internal/sselistener/listener.go:205-210 | After any text that ends with a blank line the reader is in its initial state: events(p + r) = events(p) + events(r) |
| `EventStream.LineLimit` | internal/sselistener/listener.go:173-178 | A line of 65536 bytes or more ends the reading right there, whatever follows; any shorter line is read |
| `EventStream.NoiseIsSkipped` | internal/sselistener/listener.go:215-218 | A comment, id, retry or malformed line put anywhere between lines changes no event |
| `Envelope.UnwrapPlain` | internal/sselistener/listener.go:285-305 | A plain value printed in the mock's envelope is unwrapped to itself (any other spelling: `Unwrapping.UnwrapsObjects`) |
| `Envelope.UnwrapExactly` | cmd/mock-teddycloud/main.go:70-72 | For a plain name, the value comes back if and only if it is plain |
| `Envelope.CutShort` | internal/sselistener/listener.go:298-302 | A literal printed without escaping is never read past its closing quote, and gives back its text only if that is plain |
| `Grammar.ValueRead` | internal/sselistener/listener.go:291-303 | Every JSON value, in any spelling with any blanks, nested no deeper than allowed, is read to its end |
| `Grammar.ValueParsed` | internal/sselistener/listener.go:291-303 | And whatever is read was printed from such a value: the reader accepts exactly the grammar of RFC 8259 |
| `Grammar.ObjectRead` | internal/sselistener/listener.go:294-299 | An object in any spelling is read with its members in order, keys decoded and values as spelled |
| `Grammar.ObjectParsed` | internal/sselistener/listener.go:294-299 | And an object that is read was printed from a tree with these members |
| `Grammar.StringRead` | internal/sselistener/listener.go:301-303 | A string spelled with any mixture of plain characters, short escapes, codes and surrogate pairs is read to its text, a lone surrogate as U+FFFD |
| `Grammar.StringParsed` | internal/sselistener/listener.go:301-303 | And every string that is read was spelled so |
| `Unwrapping.UnwrapsObjects` | internal/sselistener/listener.go:285-305 | An object nested at most 10000 deep, in any spelling and between any spaces, unwraps to its last member named data in any case: a string to its text, null to nothing, anything else to its spelling; to nothing without such a member |
| `Unwrapping.OthersPass` | internal/sselistener/listener.go:285-297 | Any text that is no such object unwraps to itself, trimmed |
| `Unwrapping.TrimExact` | internal/sselistener/listener.go:286 | Trimming removes exactly the spaces at both ends |
| `Unwrapping.EscapedComesBack` | internal/sselistener/listener.go:285-305 | In a compact envelope with its strings escaped as RFC 8259 has it, every name and value come back, control characters and quotes included |
| `Unwrapping.WrapIsObject` | cmd/mock-teddycloud/main.go:70-72 | With plain name and value the mock prints an object whose members are the type and the data |
| `Unwrapping.ValueDecides` | internal/sselistener/listener.go:229-265 | Whatever the spelling of its data, an event's name and value alone decide its command |
| `Unwrapping.AnySpellingObeyed` | internal/sselistener/listener.go:173-265 | And so on the wire: a frame with any spelling of a value has exactly the command of that value, whatever follows |
| `Frames.FrameRead` | cmd/mock-teddycloud/main.go:70-72 | A frame at the head of any stream is one event, and leaves no trace in the reader |
| `Frames.RoundTrip` | cmd/mock-teddycloud/main.go:70-72 | Any list of printable events, printed and read, comes back in order with nothing lost, whatever follows |
| `Frames.ValuesComeBack` | internal/sselistener/listener.go:285-305 | And each value comes back out of its envelope if and only if it is plain |
| `Frames.CutFrameYieldsNothing` | internal/sselistener/listener.go:193-199 | A frame cut off at any place before its end yields no event |
| `Standard.ReaderMeetsStandard` | internal/sselistener/listener.go:171-220 | On any list of events the mock prints, the reader and the HTML Standard find the same events if and only if there is no carriage return, and then they agree on what follows exactly when they agree on that alone |
| `Standard.BlockAgreement` | internal/sselistener/listener.go:203-218 | On a block of any number of data lines, with or without a name, the reader and the standard agree if and only if there is a name and exactly one data line without outer blanks, or neither name nor data |
| `Listener.CommandsResynchronised` | internal/sselistener/listener.go:229-265 | After a blank line the commands are those of the rest alone |
| `Listener.Run` | internal/sselistener/listener.go:109-133 | Over any sequence of connections the commands are the concatenation of those of each, and the k-th wait is the k-th backoff delay |
| `Listener.SubscribeOnce` | internal/sselistener/listener.go:137-169 | A refused attempt yields nothing; any other the events of its text, all of them if it was read to the end |
| `Listener.DispatchEach` | internal/sselistener/listener.go:229-280 | Each event leads to its command in order |
| `Hub.OfferOk` | cmd/mock-teddycloud/main.go:58-67 | An event offered to a client keeps its ledger: in order, and complete exactly while nothing was dropped |
| `Hub.FanOut` | cmd/mock-teddycloud/main.go:46-106 | In every interleaving of actions, subscriptions and receives, each client's received and buffered events are a subsequence of those broadcast while it was subscribed, and all of them if and only if no broadcast found 16 events in its channel |
| `Hub.NothingMissed` | cmd/mock-teddycloud/main.go:58-67 | A client that was subscribed with fewer than 16 unreceived events at every broadcast has got, or still has buffered, everything |
| `Hub.Broadcaster.Send` | cmd/mock-teddycloud/main.go:58-67 | One broadcast is one step: every subscribed channel gets the event unless it is full, in whatever order the map is walked |
| `Hub.Broadcaster.Fire` | cmd/mock-teddycloud/main.go:75-106 | An action broadcasts all its events one after the other, other actions and clients running in between |
| `Hub.Broadcaster.Add` | cmd/mock-teddycloud/main.go:46-50 | Exactly this channel is added, as one step |
| `Hub.Broadcaster.Remove` | cmd/mock-teddycloud/main.go:52-56 | Exactly this channel is removed, as one step |
| `Gestures.FaithfulStream` | internal/sselistener/listener.go:173-265 | Printed and read back, faithful events have exactly their commands, whatever follows them |
| `Gestures.ActionOutcome` | cmd/mock-teddycloud/main.go:75-106 | The events of an action amount to its command: play, pause, skip forward or back, and nothing for ears and unknown actions |
| `Gestures.TagArrives` | cmd/mock-teddycloud/main.go:79-84 | The first event of placing a figurine is the tag's, and its id comes out of the envelope if and only if it is plain |
| `Gestures.GesturesBecomeCommands` | internal/sselistener/listener.go:229-265 | For any list of actions, any tag id that fits a line, and keep-alives printed anywhere between events, the listener sends exactly the meant commands |
| `Gestures.CutConnection` | internal/sselistener/listener.go:193-199 | A connection broken inside a frame gives the frames before it full effect and the broken one none |
| `Gestures.BoxToCommands` | cmd/mock-teddycloud/main.go:75-168 | Through the lossy hub, in every interleaving of any number of actions and clients, the broadcasts amount to at most the commands the actions mean, and to all of them when the actions are through; what a client has printed so far leads to some of those commands in the order of the broadcasts, and to all of them if every broadcast found it subscribed with room in its channel and all is printed |
| `Ordering.TrueInterleaving` | cmd/mock-teddycloud/main.go:58-106 | The broadcasts are an interleaving of the actions' own events: of each action exactly those it has fired, in its order |
| `Ordering.OrderKept` | cmd/mock-teddycloud/main.go:75-106 | If one action is through before another begins, all its events come before all of the other's, and its command before the other's, whatever other actions overlap with either |
| `Ordering.SeparateActions` | cmd/mock-teddycloud/main.go:75-168 | When actions never overlap, the broadcasts are their events one after the other; a client's commands are a subsequence of the meant ones in the order of the actions, and exactly those if it missed nothing |
| `Backoff.Wrap64IsCongruent` | internal/soloist/pair.go:138 | The doubled register is the one int64 congruent to the true value |
| `Backoff.OverflowIsCaught` | internal/soloist/pair.go:139-141 | Doubling overflows exactly when the result is not positive, so the test misses no overflow and reports no false one |
| `Backoff.NextBackoffBounds` | internal/audio/pulse.go:501-514 | Never above max; not below current exactly when current <= max |
| `Backoff.DelayClosedForm` | internal/soloist/pair.go:131-144 | k doublings from 0 < initial <= max give min(initial * 2^k, max) |
| `Backoff.DelayMonotone` | internal/audio/pulse.go:503-514 | Delays never shrink and never exceed the cap |
| `Protocol.SingleInstance` | internal/soloist/supervisor.go:106-116 | Whenever a process is started, every earlier one has been killed or seen to exit since its start |
| `Protocol.NothingLeftAtReturn` | internal/soloist/supervisor.go:106-209 | No call of Pair or runOnce returns while a process is neither killed nor seen to exit |
| `Protocol.ConnectionsEnd` | internal/soloist/supervisor.go:168-199 | Before the next dial and before every return, every connection has been closed and every attachment detached |
| `Protocol.CommandsLand` | internal/soloist/connector.go:29-38 | A concurrent command is written to the connection attached at that moment, succeeds only while that is open, and is refused only when none is attached |
| `Protocol.ActivateFirst` | internal/soloist/supervisor.go:172-190 | On each connection activate is sent at most once, set_volume only after it succeeded, and health is reported only while a connection is open on which it succeeded |
| `Protocol.NoneClosedUnused` | internal/soloist/supervisor.go:163-199 | No connection is closed unused: activate was sent on it, and where that succeeded, health was reported and the volume sent if there is one |
| `Protocol.ExpiryIsTerminal` | internal/soloist/supervisor.go:212-232 | After exit code 10 no process, dial, wait or healthy report follows; the expired report and the deletion happen only then and at most once; no call returns before the deletion |
| `Protocol.WaitBeforeRetry` | internal/soloist/pair.go:151-171 | Between a failed attempt and the next process, and between a failed dial and the next, there is a wait |
| `Protocol.PairingOutcome` | internal/soloist/pair.go:74-126 | In the log, a pairing attempt is repeated if and only if its process could not be started or exited with a code other than 0 and 10; after a session found stored or an exit with code 0 it is not |
| `Protocol.RunOutcome` | internal/soloist/supervisor.go:106-232 | A run of Soloist is repeated if and only if its process could not be started, published no port in time, or exited with a code other than 0 and 10, or with 0 after its port was found |
| `Protocol.PairingEndsOnce` | internal/soloist/pair.go:151-171 | After the first attempt that is not repeated no other is made, no session looked for, and no pairing wait follows |
| `Protocol.WaitsFollowReturns` | internal/soloist/supervisor.go:89-100 | A wait for another attempt, or another run, comes right after a return of that kind which asked for it |
| `Protocol.WaitsDouble` | internal/soloist/supervisor.go:89-100 | The k-th restart wait, the k-th pairing wait and the wait after j dial failures since the last success have their closed forms, the last min(2^j s, 15 s) |
| `Supervision.SwallowedExit` | internal/soloist/supervisor.go:236-271 | The port discovery reports success without an address exactly when the process exits with code 0 before anything else is decisive; every other exit is reported (what the call then does is `Supervision.RunOnce`) |
| `Supervision.WaitWSAddr` | internal/soloist/supervisor.go:236-271 | The polling loop decides what the first decisive poll says, goes on until there is one, logs what every poll saw, and consumes the exit exactly when it saw one |
| `Supervision.CommandConnector.Attach` | internal/soloist/connector.go:17-21 | The connection becomes the one commands go to |
| `Supervision.CommandConnector.Detach` | internal/soloist/connector.go:23-27 | Commands go nowhere |
| `Supervision.World.SendCommand` | internal/soloist/connector.go:29-38 | A sender's command is refused without a connection, and else written to the attached one |
| `Supervision.World.Write` | internal/soloist/supervisor.go:307-313 | One message through the connector if there is one, else straight to the connection; it may fail, and is then still the one sent |
| `Supervision.World.WriteSetVolume` | internal/soloist/supervisor.go:315-334 | The volume is sent exactly when it is positive |
| `Supervision.HandleExit` | internal/soloist/supervisor.go:212-232 | Code 10 gives the expired reason, no restart, and the deletion when a binary manager is set; every other code a restart and nothing else |
| `Supervision.Session` | internal/soloist/supervisor.go:168-199 | One connection from dial to close: activate first, health reported and volume sent exactly when it succeeded, nothing attached or open at the end |
| `Supervision.RunOnce` | internal/soloist/supervisor.go:106-209 | On every path nothing of Soloist is left, the discovery and the seen exit code decide the result, and the binary is deleted exactly on expiry. A seen exit is left unhandled if and only if, in the log, the process exited with code 0 and its port was never found, and then only cancellation ends the call; every poll the discovery decided by is in the log; a call still under way has left a trace of every round |
| `Handover.Pair` | internal/soloist/pair.go:57-128 | On every path no process is left. In the log the attempt is to be repeated if and only if its process could not be started or exited with a code other than 0 and 10, and it counts as done if and only if the session was found stored or the process exited with 0; the binary is deleted exactly on expiry; an attempt still under way has left a trace of every round |
| `Handover.Drive` | internal/soloist/pair.go:151-171 | Attempts are repeated after the due waits until one is decisive or the context is cancelled; it is left with success if and only if, in the log, an attempt has succeeded; otherwise the newest attempt is still under way, or as many retries were waited for as were watched |
| `Handover.Run` | internal/soloist/supervisor.go:74-102 | It is left only by cancellation or expiry, and then expiry is reported if and only if exit code 10 was seen, and the binary deleted exactly then; otherwise a run of Soloist is still under way, or as many restarts were waited for as were watched |
| `Handover.PairThenSupervisor` | cmd/shim/main.go:227-247 | From start-up: supervision begins if and only if, in the log, an attempt has succeeded, right after that attempt's return, and its first entry follows unless the context is cancelled; it all ends only by cancellation or expiry, and then expiry is reported if and only if exit code 10 was seen |
| `Handover.OverIsAccounted` | internal/soloist/supervisor.go:84-91 | In the log of a run that is over, an exit with code 10, its report, and the deletion go together |
| `CaptureLog.OneAtATime` | cmd/shim/main.go:286-358 | Whenever a stream is opened, every earlier one has been released, every earlier pump has ended, and every earlier recorder was told to stop |
| `CaptureLog.PumpHasItsStream` | cmd/shim/main.go:291-300 | A pump starts once, on its own open stream, while no other pump is alive |
| `CaptureLog.ClosedOnce` | internal/audio/monitor.go:78-90 | No stop channel and no stream is ever closed twice, or before it exists |
| `CaptureLog.SlotIsNewest` | cmd/shim/main.go:50-69 | The slot holds nothing or the newest started recorder |
| `CaptureLog.NothingLeft` | cmd/shim/main.go:334-354 | At every open, every wait and the return the slot is empty and all streams are released; every pump has ended, or at the return been told to |
| `CaptureLog.WaitsDouble` | cmd/shim/main.go:349-357 | Attempt k is made after exactly k waits, the k-th of min(2 s * 2^k, 30 s) |
| `Reconnect.World.Stop` | internal/audio/recorder.go:91-104 | Called by the loop and by watchdogs of any age, it closes the channel at most once |
| `Reconnect.World.Close` | internal/audio/monitor.go:80-90 | Likewise for the stream |
| `Reconnect.World.Watch` | cmd/shim/main.go:313-332 | A watchdog's step follows its select: on a tick it stops the recorder and the stream exactly when the daemon is not ready, and it ends only for cancellation or the end of its attempt; it touches no other attempt, and leaves no trace if its attempt is long over |
| `Reconnect.World.StartRecorder` | cmd/shim/main.go:298-314 | The new recorder is started, then published in the slot, then watched; its pump may have ended by then, and nothing but the pump touches the attempt before the watchdog does |
| `Reconnect.World.TakeDown` | cmd/shim/main.go:335-347 | Whatever the watchdog does meanwhile, the stream is released, the recorder told to stop and the slot empty |
| `Reconnect.World.Run` | cmd/shim/main.go:274-359 | With pumps and watchdogs running at any point, the loop only makes allowed entries. It is left only when cancelled; otherwise a published recorder's pump is alive and nobody has cancelled, or every round of the polling or opening it is in has left its entry, or as many reconnections were waited for as were watched |
| `Epochs.LoopIsPipeline` | cmd/shim/main.go:178-199 | Every run of the recorder loop with its counting pumps is an evolution of the pipeline that the telemetry results are about |
| `PulseLog.DeadBeforeRestart` | internal/audio/pulse.go:190-207 | Every bring-up but the first comes after the daemon was seen dead since the one before |
| `PulseLog.ReadyIsEarned` | internal/audio/pulse.go:213-245 | Ready is set only if in this bring-up the launcher was spawned, the socket appeared, the sink was listed and made the default |
| `PulseLog.UselessIsAskedToExit` | internal/audio/pulse.go:233-243 | A daemon whose sink is not listed or cannot be made the default is asked to exit, once, before readiness is next set, and no other daemon is |
| `PulseLog.FiveTries` | internal/audio/pulse.go:274-291 | The sink is given up exactly at the fifth miss, and no further try is made |
| `PulseLog.ReadyAsReported` | internal/audio/pulse.go:179-201 | At every probe, wait and return, ready holds if and only if the last health report was the healthy one; while waiting to restart it does not |
| `PulseLog.WaitsDouble` | internal/audio/pulse.go:198-207 | Each restart follows exactly one wait more, in closed form |
| `Pulse.PulseAudio.WaitForSocket` | internal/audio/pulse.go:249-271 | A launcher that exits with 0 does not end the wait; any other exit or the timeout fails it; until then every round is in the log |
| `Pulse.PulseAudio.WaitSinkReady` | internal/audio/pulse.go:274-291 | At most five tries, success on the first that lists the sink |
| `Pulse.PulseAudio.StartDaemon` | internal/audio/pulse.go:213-245 | Success exactly when all stages were passed |
| `Pulse.PulseAudio.WaitDaemonDown` | internal/audio/pulse.go:330-348 | It ends by a dead probe or by cancellation |
| `Pulse.PulseAudio.Run` | internal/audio/pulse.go:169-209 | The loop only makes allowed entries. It is left only when cancelled; otherwise the newest bring-up or its daemon is still being watched, every round in the log, or as many restarts were waited for as were watched |
| `Telemetry.Sampler.Sample` | internal/telemetry/telemetry.go:50-77 | Every call moves the baseline; without one, or with a chunk counter that went backwards, all rates are zero; otherwise they measure the time since, chunks, drops and delivered KiB per second, the drop ratio and the open streams |
| `Telemetry.RatesMeanDeltas` | internal/telemetry/telemetry.go:56-73 | A rate times its interval is the counter's delta; the drop ratio is within 0 and 1, and 1 exactly when everything produced was dropped |
| `Telemetry.RatesMeasure` | internal/telemetry/telemetry.go:56-73 | Over ns nanoseconds a rate times ns is 10^9 times the counter's delta, delivered bytes modulo 2^64; the ratio times the production is the drops; an interval that is not positive counts as a second |
| `Telemetry.DropRatio` | internal/telemetry/telemetry.go:69-73 | Between 0 and 1, 0 exactly without drops, 1 exactly without deliveries |
| `Telemetry.Growth` | cmd/shim/main.go:178-199 | The production of an interval is at least what the newest recorder counted beyond what it had counted before, and exactly that when no recorder was started in it |
| `Telemetry.DeltasAgainstTruth` | cmd/shim/main.go:188-196 | Deltas equal the true production inside one epoch, and exceed it exactly by a head start counted before the recorder was published |
| `Telemetry.SampleReports` | internal/telemetry/telemetry.go:62-73 | The chunk and drop deltas of two pipeline readings are what the rates of Sample amount to over the interval |
| `Telemetry.ReportsNeverExceedProduction` | internal/telemetry/telemetry.go:50-77 | Over any number of samples and reconnects the chunks and the drops reported are at most those produced plus the head starts |
| `Telemetry.ReportsTelescope` | internal/telemetry/telemetry.go:56-76 | While the slot keeps one recorder, the reported chunks and drops add up to exactly the production between the first sample and the last |
| `Telemetry.HeadStartIsOverCounted` | cmd/shim/main.go:299-300 | The head start is real: an interval that produced nothing reports a chunk |

## Left out

- Transport and subprocesses: HTTP, WebSocket, the PulseAudio client library, process spawning, the file system, downloads and logging are choices of the environment.
- `config.Load`, `/healthz`, the fields of the WAV header (44 bytes of any content), the static tone source with its per-request close, and the session check: one-branch code that would only add easy members. The accepted Spotify URI is a yes or no.
- The values of the ear and content events, which are data without a command; the model carries them as printed.
- Real time: timers are choices. Nothing is claimed about the listener's idle timeout, whose case of the select is not reached while a scan blocks.
- The order of play commands of replaced handlers, which are sent outside the slot's lock.
- Progress: pumps, handlers and loops are not claimed to end unless a contract says so. In particular a stream does not end when its recorder dies, and a cancelled handler may still take a chunk; the model allows both.
- `PulseAudio.Stop` and `waitDaemonGone`: a concurrent Stop may be followed by Run setting ready again, so the agreement of ready and health is stated without it. The parsing of pactl's listing is a yes or no.
- StreamServer.Server.HandleStream: the 64-bit wrap-around of streamID and of the counters is not modelled; they are unbounded.
- Recording.PulseRecorder.Flush: the recorder's mutex is not modelled; chunks the pump adds during the drain are the system's interleaved Pump steps in `StreamServer.Server.FlushPreFill`.
- Reconnect.World.Run: recorders and streams are their control flags here; what a pump does with bytes is in `Recording`.
- StreamServer.Server.Respond: when the header's write fails the source still counts all 44 bytes, which the model follows.
- EventStream.ReadLoop: text is a sequence of Unicode scalar values, that is, valid UTF-8 (line lengths are counted in bytes); the scanner's read errors are ends of input, and the goroutine that may go on reading after a cancelled consume is not followed.
- Json.Value: of encoding/json the grammar, the nesting limit, string decoding and field matching in ASCII case are modelled; the two non-ASCII letters that Unicode folding maps to ASCII do not occur in the field's name.
- Standard.BlockAgreement: lines over the reader's limit, and names with outer blanks, are not compared.
- Standard.ReaderMeetsStandard: byte order marks, reconnection times and last event ids of the standard are left out, since they dispatch nothing here.
- Supervision.RunOnce: commands of concurrent senders are abstract messages; the content of activate and set_volume is not modelled.
- Telemetry.Sampler.Sample: rates are real numbers, so rounding is not modelled.
