# Verification of opencom's concurrent core

opencom is a peer-to-peer voice-call daemon written in Go. This project models the parts
of it whose correctness depends on interleavings, on modular arithmetic or on encodings,
and proves what they promise.

Two forms are used side by side.

* **Classes** (`Session`, `Manager`, `Engine`, `JitterBuffer`, `Pipeline`, `Client`, `Store`
  and others) follow the Go code statement by statement: fields that are updated in place,
  loops, error returns. Their methods are proved against specification functions.
* **State machines** split the same code at every lock region and every channel operation
  and let an arbitrary scheduler interleave the steps. The theorems about runs are proved
  here. Lemmas tie the two together: a thread that runs through the machine's steps
  undisturbed does what the method's contract says (`EngineSpec.SoloPlace`, `SoloHandle`,
  `SoloServe`, `SoloAccept`, `SoloHangup`, `AudioManagers.SoloLoop`, `Fanout.SoloForward`,
  `AttachPipes.SoloPipe`, `Handshakes.SoloHandshake`, `DropOldest.SoloDelivery`,
  `Pipelines.RxIsIterate`). The machines
  are connected in turn: what the protocol's runs commit is what the session machine
  broadcasts, the manager fans out, and clients and audio sessions act upon (`CallEvents`).

## Components

* **Call control plane** (`CallState`, `Channels`, `Session`, `CallManager`, `EngineSpec`,
  `Engine`, `CallProtocol`, `CallInvariant`, `CallWeights`, `CallSteps`, `CallTheorems`,
  `CallGuards`):
  INVITE, ACCEPT and HANGUP between two daemons over a pair of FIFO streams. `Place`,
  `handleStream`, `runScanner` and any number of calls of `Accept` and `Hangup` at each end
  are threads with a position; the invariant of `CallInvariant` is proved for every step.
* **Events of a session** (`SessionEvents`, `Fanout`, `Attach`, `AttachPipe`,
  `AudioManager`, `CallEvents`): state changes are committed under a lock and broadcast after it, so
  broadcasts overtake each other; what survives that, through the manager's fan-out, an
  attached client's stream and the audio sessions.
* **Jitter buffer and playback** (`JitterSpec`, `JitterBuffer`, `JitterRefinement`,
  `JitterRuns`, `PipelineSpec`, `Pipeline`, `DropOldest`, `Media`): RTP sequence numbers
  modulo 65536 (section 5.1 of RFC 3550), eviction, pre-roll, counters, framing, queues.
* **Invites** (`InviteStore`, `Friends`, `Redemption`, `RedemptionTheorems`, `Handshake`,
  `InviteManager`, `InviteCode`, `InviteUrl`, `Encodings`, `Bases`): single use under
  concurrent redemption, the code alphabet and the signed URL (base64url is section 5 of
  RFC 4648, without padding).
* **IPC client** (`IpcRouting`, `IpcClient`, `IpcCalls`): events that overtake the
  subscription they belong to, and answers that race with callers giving up.

Assumptions, as the daemon's design has them: call IDs, subscription IDs and invite codes
are fresh; both peers run this code; a stream only breaks by being closed or reset; times
are one clock's.

## Where code and documentation differ

The model follows the code.

* `JitterBuffer.Push` is documented to report when the buffer is full
  (`internal/audio/jitter.go:51-89`). It returns false exactly for late frames, and true
  also when the frame just pushed is the one that is evicted. `JitterRefinement.PushLosesIff`
  says that this is so exactly for a frame that is not late, finds the buffer full, and lies
  nearer to the head than every stored frame; `JitterRuns.PushCanLose` is a run that gets there.
* With a maximum of 0 the eviction loop counts a drop that removed nothing
  (`JitterRefinement.EdgeTrim`); `JitterRefinement.PushRefines` says exactly when, and
  `JitterRuns.WrapRefinementIff` that such runs exist exactly for that maximum.
* `Accept` is not guarded by the session's state before it writes. Called on a session that
  is registered but does not ring yet, it leaves the caller connected and the callee ringing
  (`CallGuards.EarlyAccept`). `CallGuards.AgreementIff` says exactly from which states Accept
  may be called for both ends to agree: all but Idle.
* `pipeStateChanges` calls the attached stream deduplicated. Only a leading repeat is
  recognised; `Attach.RepeatIff` says when a state is sent twice, `RepeatHappens` shows it,
  and `RepeatPossibleIff` says at which snapshots it can still happen.
* `audio.Manager.Stop` is documented to close all sessions. It closes those in its map; a
  session that is being opened at that moment is never closed (`AudioManagers.StopCanLeak`).
  Stop is sure to close everything exactly if `Start` had returned when it was called
  (`AudioManagers.StopClosesIff`).
* `urlCanonicalBytes` is documented as length-prefixed. The fields are only separated by
  line breaks. `InviteUrls.SignedIsInjective` says for which payloads that is enough;
  `SignedNeedsOneLine` and `SignedNeedsPlainAddresses` give, for each of its hypotheses,
  payloads that meet all others and share their signed bytes.
* `Parse` ignores case, aliases and dashes, but a code typed so that it starts with `OPEN-`
  loses those characters to the prefix (`InviteCodes.Presentation`). `InviteCodes.MisreadIff`
  says which codes can be typed so: those that start with `0PEN`, with an O and a dash.
* `friends.Store.Rename` is documented to report a missing friend if the old name is absent
  (`internal/friends/store.go:142-144`). A taken new name is reported first, also when both
  hold (`Friends.TakenBeforeMissing`) and when the two names are the same.

What the documentation leaves open, settled here:

* `deliverRecv` prefers fresh frames to stale ones and calls its last push best effort
  (`internal/audio/transport.go:424-433`). The newest frame gets in in every run exactly when
  one pump runs; the stream and the datagram pump can run at the same time
  (`DropOldest.NewestKeptIff`).
* A media stream cut after a complete header reads as a clean end (`Media.StreamRoundTrip`,
  `Media.CutAfterHeader`).
* A target above the maximum never plays anything (`PipelineSpec.StreamIsHeardIff`).
* A negative maximum makes the eviction loop of `Push` endless, and nothing else does
  (`JitterSpec.CapLoopEndsIff`).

## Model

| member | source | states |
|---|---|---|
| `CallTheorems.TwoPartyAgreement` | internal/call/streams.go:126-430 | In every reachable state in which no thread can move: if anyone wrote a HANGUP, every existing end is Ended, unbound and unregistered; otherwise both are live, and in the same state exactly if some Accept met the session after it began to ring, or none was made. |
| `CallGuards.AgreementIff` | internal/call/streams.go:269-283 | For every set of states: if Accept is only called on sessions that are in one of them when the call is made, both ends agree in every reachable state at rest, exactly if Idle is not among them. |
| `CallGuards.GuardedAgreement` | internal/call/streams.go:126-430 | The positive half, run by run: with no Accept called on an idle session every state in which no thread can move has both ends live in one state, or every existing end gone after a HANGUP. |
| `CallGuards.EarlyAccept` | internal/call/streams.go:269-283 | A concrete run in which Accept is only called on a session that does not ring yet: it comes to rest with the caller Connected and the callee Ringing. |
| `CallTheorems.ConsentHolds` | internal/call/streams.go:269-283 | In every run the callee is Connecting or Connected only if a local Accept met it ringing; the caller only after it read an ACCEPT the callee wrote; the caller never writes ACCEPT. |
| `CallTheorems.ConsentStep` | internal/call/streams.go:269-283 | The only step that takes the callee into Connecting is that of a local Accept, and it starts from Ringing. |
| `CallTheorems.HangupPropagation` | internal/call/streams.go:287-295 | An end that did not hang up itself and is Ended recorded the reason of the other end's first HANGUP, and at rest it has ended. |
| `CallTheorems.HangupDrains` | internal/call/streams.go:361-420 | From any reachable state with a HANGUP written, any continuation that comes to rest has both ends ended and gone; reasons once recorded stay. |
| `CallTheorems.ComesToRest` | internal/call/streams.go:361-395 | From every reachable state, without new calls of Accept and Hangup, no run of both ends' threads is longer than the state's weight, and some run comes to rest. |
| `CallTheorems.RunsAreBounded` | internal/call/streams.go:361-395 | The bound, from any state that satisfies the invariant: each step uses up weight, counting a message on its way as four. |
| `CallTheorems.Drain` | internal/call/streams.go:361-395 | A run to rest, from any state that satisfies the invariant. |
| `CallTheorems.RunsOnward` | internal/call/session.go:140-188 | Over any run phases only rise, an ended session keeps its reason, and a written HANGUP stays. |
| `CallTheorems.QuiescentIff` | internal/call/streams.go:126-430 | A state is at rest exactly when no step other than a new call of Accept or Hangup is enabled. |
| `CallSteps.Reachable` | internal/call/streams.go:126-430 | Every state reachable by any interleaving satisfies the invariant of `CallInvariant` at both ends. |
| `CallSteps.StepKeeps` | internal/call/streams.go:126-430 | Every single step of either end keeps the invariant. |
| `CallSteps.SideKeeps` | internal/call/streams.go:126-430 | A step of one end keeps the invariant of both, never lowers a phase or changes a recorded reason, and uses up weight. |
| `CallInvariant.PeerWrites` | internal/call/streams.go:422-430 | What one end knows about the other survives the other's writing one more message. |
| `EngineSpec.ServeReads` | internal/call/streams.go:361-395 | The scanner takes lines up to the first HANGUP or DECLINE of its own call, and that line gives the reason; if there is none, it takes all lines and the stream's end gives it. |
| `EngineSpec.ServeAnswers` | internal/call/streams.go:376-379 | A ringing session is Connected when the scanner stops exactly if an ACCEPT of this call came first; idle, connected and ended sessions are left alone. |
| `EngineSpec.ServeEndsAt` | internal/call/streams.go:361-395 | The first HANGUP or DECLINE that carries this call's ID ends the reading, whatever lines of other calls come before it, and gives the reason: its own, or "declined: " and its own. |
| `EngineSpec.ServeRunsOut` | internal/call/streams.go:361-395 | If no line ends this call, all lines are taken and the end of the stream gives the reason; lines alone never end a session. |
| `EngineSpec.SoloServe` | internal/call/streams.go:361-395 | The protocol's steps of the scanner, undisturbed, end in what `Serve` says, unbound, closed and unregistered. |
| `EngineSpec.SoloHangup` | internal/call/streams.go:287-295 | The protocol's steps of Hangup, undisturbed, give `HangupView` and write a HANGUP exactly if the stream takes it. |
| `EngineSpec.SoloAccept` | internal/call/streams.go:269-283 | The protocol's steps of Accept, undisturbed, give `AcceptView` and write an ACCEPT exactly if the stream takes it. |
| `EngineSpec.SoloPlace` | internal/call/streams.go:148-172 | The protocol's steps of Place, undisturbed, leave an open ringing session and a written INVITE; if the write fails, the session is ended with its reason, unbound and unregistered, and nothing is written. |
| `EngineSpec.SoloHandle` | internal/call/streams.go:299-347 | The protocol's steps of handleStream, undisturbed, on a stream the peer has closed: an INVITE is served to what `Serve` gives, then unbound, closed and unregistered; any other or no first line resets the stream. |
| `Engines.Engine.Place` | internal/call/streams.go:148-172 | A written INVITE leaves a fresh, bound, registered session in Ringing; a failed write leaves nothing bound or registered and the stream closed. |
| `Engines.Engine.Accept` | internal/call/streams.go:269-283 | Outbound sessions are refused before anything is written; otherwise state, output and result are as `AcceptView` and `Sends` say. |
| `Engines.Engine.Hangup` | internal/call/streams.go:287-295 | The session ends with the reason unless it had ended, the stream is unbound and closed, the session unregistered, and the HANGUP written if the stream takes it; other calls are untouched. |
| `Engines.Engine.HandleStream` | internal/call/streams.go:299-347 | A stream is served exactly if its first line is an INVITE with a call ID that names no caller or the peer it comes from, and then to its end; any other stream is reset and nothing else changes. |
| `Engines.Call` | internal/call/streams.go:148-347 | Two daemons end to end: what Place writes is served at the other end, as the same call from the caller, exactly if it was written and the ID is not empty; a HANGUP behind it gives its reason, a plain end "remote disconnected". |
| `Engines.Engine.ServeCall` | internal/call/streams.go:332-347 | The inbound session is bound, registered and announced, rings, is served, and is gone at the end with the reason `Serve` gives. |
| `Engines.Engine.ReadLines` | internal/call/streams.go:366-390 | The loop leaves the session in the state, and the stream at the position, that `Serve` gives. |
| `Engines.Engine.RunScanner` | internal/call/streams.go:361-395 | The whole scanner: state and reason as `Serve` gives, then unbound, closed and unregistered; other calls are untouched. With no line that ends the call the reason is "remote disconnected", or "stream error: " and the error if there is one. |
| `Engines.Engine.ReadLoop` | internal/call/streams.go:351-359 | A call that was unbound meanwhile is left alone; otherwise as RunScanner. |
| `Engines.Engine.Bind` | internal/call/streams.go:398-403 | Stream and encoder are filed together under the call's ID. |
| `Engines.Engine.UnbindAndClose` | internal/call/streams.go:411-420 | The call loses stream and encoder, and its stream is closed; unknown IDs change nothing. |
| `Engines.Engine.Write` | internal/call/streams.go:422-430 | A message is appended to the call's stream exactly if it has one that is open and takes it. |
| `Sessions.Session.Transition` | internal/call/session.go:162-188 | Succeeds exactly for the next state and not out of Ended; every subscriber with room hears of a step taken, and of nothing else: the session's ID, the state entered, its direction and remote, and no reason. |
| `Sessions.Session.End` | internal/call/session.go:140-160 | Ends the session once; the first reason stays and is announced once, with the session's ID, direction and remote. |
| `Sessions.Session.Broadcast` | internal/call/session.go:212-222 | Every subscriber gets the event unless its buffer is full. |
| `Sessions.Session.Subscribe` | internal/call/session.go:191-199 | A fresh ID and an empty open channel, beside all others. |
| `Sessions.Session.Unsubscribe` | internal/call/session.go:203-210 | Exactly the named subscription goes, its channel closed and still holding what it held. |
| `SessionEvents.BoundedEvents` | internal/call/session.go:140-222 | In every interleaving a session broadcasts at most four events, all different, no subscriber's 16 slots overflow, and each open subscriber has the broadcasts since it subscribed. |
| `SessionEvents.Monotone` | internal/call/session.go:162-188 | The state never goes back and broadcasts are never withdrawn. |
| `CallEvents.RunsAreSessions` | internal/call/session.go:140-188 | Every run of the two-party protocol is, at either end, a legal run of the session machine, which ends in the same state. |
| `CallEvents.HubTracks` | internal/call/manager.go:35-66 | A call manager whose registration and changes of a call are those of a protocol run has the call in the run's state, and its forwarder has subscribed before every broadcast. |
| `CallEvents.ClientsHearTheEnd` | internal/ipc/methods/calls.go:330-369 | End to end: when the threads of both ends rest and everything is broadcast and delivered, the last line sent to a client at either end that stayed connected is "ended" exactly if someone wrote a HANGUP. |
| `CallEvents.SomeoneWatches` | internal/ipc/methods/calls.go:330-369 | Every run of the protocol can be watched so, at either end: there is a client of that run to whom everything is delivered. |
| `CallEvents.EndedMeansHangup` | internal/ipc/methods/calls.go:330-369 | At no time is a client at either end sent "ended" before someone wrote a HANGUP. |
| `CallEvents.AudioFallsSilent` | internal/audio/manager.go:57-94 | End to end: at rest with every event processed, the audio loop of an end has or opens a session for the call only if the call is Connected there and nobody wrote a HANGUP. |
| `CallManagers.Manager.Register` | internal/call/manager.go:35-66 | Registers a session once, starts one forwarder on a fresh subscription, and announces inbound sessions if there is room. |
| `CallManagers.Manager.Remove` | internal/call/manager.go:89-93 | Exactly the named session leaves the registry. |
| `CallManagers.Manager.SubscribeStateChanges` | internal/call/manager.go:105-111 | A fresh empty channel is listed last. |
| `CallManagers.Manager.UnsubscribeStateChanges` | internal/call/manager.go:115-125 | A listed channel is taken out where it stands and closed; an unknown one is left alone. |
| `CallManagers.Manager.Fanout` | internal/call/manager.go:129-139 | Every listed channel gets the event unless it is full; none is closed. |
| `Channels.Chan.TrySend` | internal/call/session.go:212-222 | The non-blocking send that broadcasts and fan-outs are made of: queued last if there is room, and nothing changes if there is none. |
| `CallManagers.Forwarder.Step` | internal/call/manager.go:48-57 | One turn of the forwarder: one event read and fanned out, which carries the ID under which the session is registered, and the subscription given up exactly after "ended". |
| `Fanout.NothingAfterEnded` | internal/call/manager.go:48-57 | For any number of calls and subscribers and any interleaving: no subscriber is sent an event of a call twice or after its "ended", and no step sends on or closes a closed channel. |
| `Fanout.EndedIsForwardedIff` | internal/call/manager.go:48-57 | Once the end is broadcast and the forwarder is quiet, "ended" was fanned out exactly if the forwarder had subscribed before that broadcast. |
| `Fanout.EndIsTold` | internal/call/manager.go:105-139 | A subscriber that has not left, has room at every fan-out, and heard that a call connected, hears that it ended once that end is fanned out. |
| `Fanout.SoloForward` | internal/call/manager.go:48-57 | The machine's steps of a forwarder, undisturbed, do one turn of it: one event to every listed channel, and the subscription given up exactly after "ended". |
| `Attach.AttachStream` | internal/ipc/methods/calls.go:330-369 | From any point of a session's life: "ended" goes out at most once and last, everything read is on the wire, and a client that stays connected has it as the last line once the end is broadcast and delivered. |
| `Attach.RepeatIff` | internal/ipc/methods/calls.go:319-328 | A state is sent twice exactly if the snapshot's own change is read as a later than first event. |
| `Attach.RepeatPossibleIff` | internal/ipc/methods/calls.go:319-369 | At the moment of the snapshot: some continuation sends a state twice exactly if the snapshot shows a live state past Idle whose change is queued but not first, or is not broadcast yet while another event is queued, pending or still to come before it. |
| `Attach.RepeatHappens` | internal/ipc/methods/calls.go:330-369 | A concrete run that sends Connecting, Ringing, Connecting. |
| `AttachPipes.Pipe.constructor` | internal/ipc/methods/calls.go:330-344 | Subscribes, reports the state as it is, and keeps the subscription exactly if the session has not ended. |
| `AttachPipes.Pipe.Forward` | internal/ipc/methods/calls.go:345-368 | Takes events up to "ended", reports all but a leading repeat of the snapshot, and leaves exactly when the session ended or the client is gone. |
| `AttachPipes.Pipe.Handle` | internal/ipc/methods/calls.go:353-366 | One event is reported unless it is the first and repeats the snapshot. |
| `AttachPipes.SoloPipe` | internal/ipc/methods/calls.go:345-368 | The machine's deliveries, while the session rests, take and report what `Forward` takes and reports, and leave exactly after "ended". |
| `AudioManagers.ClosedAtMostOnce` | internal/audio/manager.go:57-171 | In every interleaving of the loop with any number of Stops no audio session is closed twice. |
| `AudioManagers.ChainLifecycle` | internal/audio/manager.go:57-94 | From the session state machines through the fan-out: calls with an audio session are among those whose processed events contain "connected" and no "ended". |
| `AudioManagers.StopClosesIff` | internal/audio/manager.go:82-94 | From every reachable state: Stop is sure to leave every audio session closed when all threads are done, exactly if the loop of Start has returned when Stop is called. |
| `AudioManagers.StopCanLeak` | internal/audio/manager.go:117-159 | A concrete run in which Stop overtakes the opening of a session, which then stays open for good. |
| `AudioManagers.KeysMean` | internal/audio/manager.go:57-80 | For any events in any order: a call has an audio session exactly if one was opened for it, now or before, and no "ended" came since. |
| `AudioManagers.SoloLoop` | internal/audio/manager.go:57-80 | The machine's steps of the loop, undisturbed, consume any events and leave exactly the calls of `KeysAfter`. |
| `AudioManagers.Manager.StartSession` | internal/audio/manager.go:117-159 | A call gets one audio session, if it had none and opening works; the others are kept. |
| `AudioManagers.Manager.StopSession` | internal/audio/manager.go:161-171 | The call's session leaves the map and is closed; the others are kept. |
| `AudioManagers.Manager.Stop` | internal/audio/manager.go:83-94 | Every session in the map is closed and the map emptied. |
| `AudioManagers.Manager.Run` | internal/audio/manager.go:57-80 | The loop over events leaves exactly the calls of `KeysAfter`, which `KeysMean` describes; of the sessions there were, those of ended calls are closed and the others kept. |
| `JitterBuffers.JitterBuffer.Push` | internal/audio/jitter.go:53-89 | Buffer, counters and result as `JitterSpec.Push`: late frames refused, others stored under their sequence number, the oldest evicted beyond the maximum. |
| `JitterBuffers.JitterBuffer.Pop` | internal/audio/jitter.go:91-113 | Buffer, counters and frame as `JitterSpec.Pop`: nothing before the pre-roll, then the frame at the head or a gap. |
| `JitterBuffers.JitterBuffer.FindOldest` | internal/audio/jitter.go:71-79 | The scan finds the stored frame nearest to the head, in whatever order the map is visited. |
| `JitterBuffers.JitterBuffer.EnforceCap` | internal/audio/jitter.go:70-86 | The eviction loop terminates with what `Trim` gives. |
| `JitterSpec.EvictProgress` | internal/audio/jitter.go:70-86 | Every eviction makes progress, and one with two or more frames stored finds a victim. |
| `JitterSpec.EvictMiss` | internal/audio/jitter.go:71-80 | The scan misses only a lone frame at distance 0x7fff. |
| `JitterSpec.CapLoopEndsIff` | internal/audio/jitter.go:70-86 | The eviction loop ends after some number of turns exactly if the maximum is not negative. |
| `JitterSpec.OldestUnique` | internal/audio/jitter.go:71-79 | The victim is determined by the frames, not by the order of the scan. |
| `JitterRefinement.PushRefines` | internal/audio/jitter.go:53-89 | Within half the sequence space of the head, a push is decided and booked as in a buffer keyed by unbounded integers, exactly unless the buffer is empty, may hold nothing and the frame lies at distance 0x7fff. |
| `JitterRefinement.PopRefines` | internal/audio/jitter.go:91-113 | A pop returns the same frame and leaves corresponding buffers. |
| `JitterRefinement.PushLosesIff` | internal/audio/jitter.go:51-89 | A push returns false exactly for a late frame; it returns true with the pushed frame gone exactly if it is not late, was not stored, fills the buffer beyond its maximum, and is nearer to the head than every stored frame. |
| `JitterRuns.PushCanLose` | internal/audio/jitter.go:51-89 | A run from an empty buffer whose last push returns true and whose frame is not stored. |
| `JitterRefinement.EdgeTrim` | internal/audio/jitter.go:70-86 | In that case the single drop is counted twice. |
| `JitterRuns.WrapRefinement` | internal/audio/jitter.go:47-113 | Over every run in the window, with a maximum of at least one, the uint16 buffer and the unbounded one give the same results step for step, through any number of wraps. |
| `JitterRuns.WrapRefinementIff` | internal/audio/jitter.go:70-86 | The two buffers correspond after every run in the window from empty, exactly if the maximum is at least one. |
| `JitterRuns.EdgeRun` | internal/audio/jitter.go:70-86 | With a maximum of 0, the run of two pushes, 0 and then 0x8000, from an empty buffer leaves them apart. |
| `JitterRuns.EveryRunLifts` | internal/audio/jitter.go:47-113 | Every run, whatever its sequence numbers, is such a run of the unbounded buffer. |
| `JitterRuns.JitterAccounting` | internal/audio/jitter.go:26-113 | For any calls with any sequence numbers: at most the maximum is stored; pushed = popped + late + full + replaced + stored; the head is the first number plus popped plus gaps plus head evictions modulo 65536; delivered indices increase and each payload is the last accepted at its index. |
| `PipelineSpec.OccupancyLaw` | internal/audio/pipeline.go:139-151 | From the priming iteration on, the fill level is the pre-roll less one, plus gaps, less full drops, late drops and duplicates since. |
| `PipelineSpec.LosslessDelivery` | internal/audio/pipeline.go:139-151 | An unbroken stream is played completely, in order, exactly pre-roll less one packets late, and nothing is dropped. |
| `PipelineSpec.NeverPlays` | internal/audio/jitter.go:91-99 | With a target above the maximum no sequence of calls ever plays a frame. |
| `PipelineSpec.StreamIsHeardIff` | internal/audio/pipeline.go:139-151 | An unbroken stream as long as the pre-roll is heard at all exactly if the pre-roll exceeds neither the maximum nor 32768, half the sequence space. |
| `PipelineSpec.HalfSpace` | internal/audio/jitter.go:53-89 | No buffer ever holds more than half the sequence space. |
| `Pipelines.Pipeline.RecvOne` | internal/audio/pipeline.go:139-175 | One datagram: one push, one pop, one decode; a decoded frame is queued and the last four stay, anything else leaves the queue and counts as dropped. |
| `Pipelines.Pipeline.RecvLoop` | internal/audio/pipeline.go:139-175 | Over all datagrams: the decoder is fed what the jitter buffer plays, and the queue ends with the last four of what was queued and what was decoded since. |
| `Pipelines.Pipeline.OnPull` | internal/audio/pipeline.go:177-186 | The oldest queued frame, or silence, and nothing else changes. |
| `Pipelines.RxIsIterate` | internal/audio/pipeline.go:139-175 | What the loop feeds to the decoder is what the jitter buffer plays, datagrams that are no packets left out, and the queue is `PlayQueue` of that. |
| `Pipelines.NewestFour` | internal/audio/pipeline.go:155-165 | The playback queue holds the last four of what it held and of all frames decoded since, in order. |
| `DropOldest.AlwaysOrderly` | internal/audio/pipeline.go:160-186 | With a concurrent consumer a drop-oldest queue stays bounded and the consumer sees an in-order subsequence. |
| `DropOldest.RecvOrderly` | internal/audio/transport.go:427-442 | The same for deliverRecv with any number of producers, step by step; a lone producer never loses the newest frame. |
| `DropOldest.SoloDelivery` | internal/audio/transport.go:424-442 | The three steps of one delivery, undisturbed, queue the frame last and drop the oldest of a full queue. |
| `DropOldest.NewestKeptIff` | internal/audio/transport.go:427-442 | The newest frame always gets in exactly when there is at most one producer. |
| `Media.FrameRoundTrip` | internal/audio/transport.go:578-609 | A frame of at most 1500 bytes is read back, and the rest of the stream is left. |
| `Media.FrameInverse` | internal/audio/transport.go:592-609 | A frame that is read stands on the stream as it would have been written. |
| `Media.FrameErrors` | internal/audio/transport.go:592-609 | When reading ends, is cut short, or meets a length above 1500, by the number of bytes and the two length bytes, the most significant first. |
| `Media.StreamRoundTrip` | internal/audio/transport.go:576-609 | A reader sees exactly the frames fs and then a clean end if and only if the stream is the encoding of fs, possibly followed by the header of a frame that never came. |
| `Media.CutAfterHeader` | internal/audio/transport.go:592-609 | The header of a five-byte frame, and nothing after it, reads as no frames and a clean end. |
| `Media.WriteFramedMedia` | internal/audio/transport.go:578-590 | Two length bytes, the most significant first, and the frame; a frame of more than 1500 bytes writes nothing. |
| `Media.ReadFramedMedia` | internal/audio/transport.go:592-609 | Result and remaining stream as `ReadFrame`. |
| `Media.Transport.DeliverRecv` | internal/audio/transport.go:427-442 | The frame is queued last, and of all that was queued the last sixteen stay. |
| `Media.Transport.RecvPumpStream` | internal/audio/transport.go:411-420 | The frames of the stream up to the first error are delivered in order; the last sixteen stay. |
| `Media.NewestSixteen` | internal/audio/transport.go:411-442 | Delivering any frames to a queue leaves the last sixteen of both, in order. |
| `InviteStores.Store.MarkConsumed` | internal/invite/store.go:87-100 | Takes an invite exactly if it is known, unused and not expired; afterwards it cannot be taken at any time. |
| `InviteStores.Store.UnmarkConsumed` | internal/invite/store.go:106-118 | Frees the invite if it was taken, and changes nothing otherwise. |
| `InviteStores.Store.Remove` | internal/invite/store.go:122-133 | Exactly the named invite goes, and the result tells whether there was one. |
| `InviteStores.MarkUnmark` | internal/invite/store.go:87-118 | Unmarking restores the store as it was before the mark. |
| `RedemptionTheorems.SingleUse` | internal/invite/manager.go:400-499 | For any number of concurrent handshakes, invites created and revoked, and friends changed by others: a code adds at most one friend and is announced at most once, and only what was added is announced. |
| `RedemptionTheorems.RecordedBothWays` | internal/invite/manager.go:360-380 | A redeemer records the inviter only after the inviter recorded the redeemer for the same code, taken before it expired. |
| `RedemptionTheorems.RollbackRestores` | internal/invite/manager.go:468-474 | A rollback puts back the entry its own handler had found, if it was not revoked, and touches no other. |
| `RedemptionTheorems.MarkRemembers` | internal/invite/manager.go:454-461 | The mark is taken exactly on a redeemable entry, and that entry is what a rollback restores. |
| `RedemptionTheorems.CommitsAreFriends` | internal/invite/manager.go:463-474 | The friend is added in the step that commits, by the handler that holds the mark, and only if neither name nor peer was known. |
| `Redemption.StepKeeps` | internal/invite/manager.go:400-499 | Every step of any handler, redeemer or user keeps the invariant. |
| `Handshakes.SoloHandshake` | internal/invite/manager.go:400-499 | The steps of one handler, undisturbed, end in what `Handshake` says. |
| `Handshakes.HandshakeMeans` | internal/invite/manager.go:400-499 | Both stores change or neither does; then by a mark on a redeemable entry and by the redeemer, known by neither name nor peer ID before; exactly an accept is announced, and only after both changed. |
| `Handshakes.AcceptIff` | internal/invite/manager.go:400-499 | The reply is an accept exactly if the hello is a redeem with a key that is the peer's own, the code is known, unused and not expired at the look and at the mark, name and peer ID are new, and our own key can be encoded. |
| `Handshakes.RefusalReasons` | internal/invite/manager.go:400-499 | Otherwise the first check that fails gives the reason, in the order of the source. |
| `RedemptionTheorems.CommitsAreVouched` | internal/invite/manager.go:411-452 | In every run, whoever is added or accepted sent a redeem with a key that decodes to its own peer ID, and the code that was used. |
| `InviteManagers.Manager.HandleStream` | internal/invite/manager.go:400-499 | Stores and reply are as `Handshake` says, and the reply is an accept exactly under the conditions of `Handshakes.AcceptIff`; subscribers of the code hear of it exactly on an accept. |
| `InviteManagers.Manager.Settle` | internal/invite/manager.go:454-499 | The part from the mark on: mark, add, roll back or announce. |
| `InviteManagers.Manager.FinishHandshake` | internal/invite/manager.go:360-380 | The inviter becomes a friend exactly if it accepted and neither its name nor its peer ID is taken. |
| `InviteManagers.Redeem` | internal/invite/manager.go:327-381 | Both ends together: the redeemer has a new friend only if the inviter has; if the store is unchanged nobody has; if it changed the code cannot be used again. |
| `InviteManagers.Manager.Create` | internal/invite/manager.go:173-180 | The invite is redeemable now and no longer than the maximum of 30 minutes. |
| `InviteManagers.Manager.Revoke` | internal/invite/manager.go:319-321 | The invite goes, and the result tells whether there was one. |
| `InviteManagers.Manager.FanoutRedemption` | internal/invite/manager.go:545-555 | Every subscriber of the code gets the event unless its buffer is full. |
| `InviteManagers.Manager.SubscribeRedemption` | internal/invite/manager.go:505-511 | A fresh channel is added for this code only. |
| `InviteManagers.Manager.UnsubscribeRedemption` | internal/invite/manager.go:515-525 | The channel leaves this code's list where it stands; other lists are kept. |
| `Friends.Store.Add` | internal/friends/store.go:79-92 | Adds the friend exactly if neither name nor peer ID is taken; the error is decided by the first conflicting entry; uniqueness is kept. |
| `Friends.Store.Remove` | internal/friends/store.go:130-140 | The first friend of that name goes; with unique names none is left. |
| `Friends.Store.Rename` | internal/friends/store.go:145-162 | A taken name is reported first, then a missing friend; otherwise one name changes and uniqueness is kept. |
| `Friends.TakenBeforeMissing` | internal/friends/store.go:142-162 | With one friend, who has the new name, the taken name is reported whatever the old name is. |
| `Friends.Store.GetByPeerID` | internal/friends/store.go:117-126 | Finds a friend with that peer ID exactly if there is one. |
| `Friends.AddThenRemove` | internal/friends/store.go:79-140 | Adding a friend of a new name and removing that name restores the list. |
| `Friends.RenameBack` | internal/friends/store.go:145-162 | Renaming there and back restores the list; it works exactly if the first name exists and the second does not. |
| `InviteCodes.CodeBijection` | internal/invite/code.go:27-42 | Five bytes and canonical codes correspond one to one. |
| `InviteCodes.CodeBits` | internal/invite/code.go:27-42 | Character i of the code stands for the i-th five of the forty bits, the most significant first, in Crockford's order. |
| `InviteCodes.Generate` | internal/invite/code.go:27-42 | The shifting and masking loop computes that correspondence. |
| `InviteCodes.Parse` | internal/invite/code.go:52-77 | The loop gives `Judged` of the folded text, which for ASCII input is `Read` of the input, with the error of the first character that does not fit. |
| `InviteCodes.ParseIff` | internal/invite/code.go:52-77 | ASCII text is read as c exactly if c is canonical and the text, trimmed, upper-cased and without the prefix, presents c: its characters with aliases, and dashes anywhere. |
| `InviteCodes.Presentation` | internal/invite/code.go:52-77 | Case, aliases, dashes and surrounding spaces do not matter, exactly unless what is typed starts like the prefix; then the length is wrong. |
| `InviteCodes.MisreadIff` | internal/invite/code.go:52-77 | A canonical code has a typing that presents it and is refused for its length exactly if it starts with 0PEN; every other typing of it is read as the code. |
| `InviteCodes.PrefixedPresentation` | internal/invite/code.go:52-77 | Behind the prefix, in any case, they never matter. |
| `InviteCodes.PrettyRoundTrip` | internal/invite/code.go:80-85 | A canonical code is read back from itself and from its pretty form. |
| `InviteCodes.PrettyShape` | internal/invite/code.go:80-85 | The pretty form is OPEN-, four characters, a dash, four characters. |
| `InviteCodes.ParseIsStable` | internal/invite/code.go:52-85 | Whatever the input, in any script, a code that is returned is canonical and is read back from itself and its pretty form. |
| `InviteUrls.UrlRoundTripIff` | internal/invite/url.go:52-116 | A payload is parsed back from its URL exactly if the peer ID is not empty, the code canonical, and the addresses free of line breaks with a non-empty join. |
| `InviteUrls.ParseURL` | internal/invite/url.go:75-116 | The checks, in order, give `Parsed`; a payload that is returned has a peer ID, a canonical code and addresses without line breaks. |
| `InviteUrls.UrlChecks` | internal/invite/url.go:75-87 | The prefix in any case, then the question mark, then the query decide the first three errors; a query is refused exactly for a semicolon or a broken escape. |
| `InviteUrls.FieldChecks` | internal/invite/url.go:88-116 | Peer ID, addresses, code and expiry are checked in that order; each error comes exactly when its field is the first that is wrong. |
| `InviteUrls.FieldsAreTaken` | internal/invite/url.go:88-116 | Every field returned is the value of the first field of its name, and the expiry is 0 if there is none. |
| `InviteUrls.OldUrlIsRead` | internal/invite/url.go:68-74 | A URL of an older version, without key, expiry and signature, is read with an empty key, expiry 0 and an empty signature, whatever the case of its prefix. |
| `InviteUrls.SignedShape` | internal/invite/url.go:169-195 | What is signed is one line for the version and one for each of peer ID, key, addresses, name, code and expiry, in that order. |
| `InviteUrls.SignedIsInjective` | internal/invite/url.go:173-199 | Payloads whose peer ID, key, code and addresses have no line breaks, and whose addresses are not empty, have equal signed bytes only if they agree in everything but the signature, whatever the display names. |
| `InviteUrls.SignedNeedsOneLine` | internal/invite/url.go:169-199 | A line break in the peer ID alone, in the key alone, or in the code alone: each lets payloads that differ there, and meet every other condition, share their signed bytes. |
| `InviteUrls.SignedNeedsPlainAddresses` | internal/invite/url.go:169-199 | So does a line break in one address alone, and so do no addresses against one empty address. |
| `InviteUrls.AddressesRoundTrip` | internal/invite/url.go:197-210 | A non-empty join of addresses is decoded to the same list exactly if no address has a line break. |
| `Encodings.Base64RoundTrip` | internal/invite/url.go:197-210 | Base64url without padding is decoded to what was encoded. |
| `Encodings.GroupOfFour` | internal/invite/url.go:197-199 | Three bytes become four letters of six bits each, the first bits first; `UrlSafeTable` gives the letters. |
| `Encodings.DecodesIff` | internal/invite/url.go:201-205 | Text is decoded exactly if it holds letters of the alphabet and line breaks only, and the letters leave no lone one. |
| `Encodings.QueryRoundTrip` | internal/invite/url.go:52-66 | A query string is parsed to the fields it was made from, whatever bytes they hold. |
| `Encodings.QueryIsReadIff` | internal/invite/url.go:84-87 | A query is read exactly if it has no semicolon and every percent sign is followed by two hexadecimal digits. |
| `Encodings.IntRoundTrip` | internal/invite/url.go:108-113 | Every 64-bit expiry is read back. |
| `Encodings.IntIsReadIff` | internal/invite/url.go:108-113 | A text is read as x exactly if it is x in decimal, with any zeros in front, behind its sign. |
| `IpcRouting.RaceIsInvisible` | internal/ipc/client.go:138-157 | For every order of arrivals, registration, reads, closes and the end of the connection, a subscriber sees what one 16-slot drop-newest queue that existed from the start would hand out. |
| `IpcRouting.FirstAreKept` | internal/ipc/client.go:138-157 | While nothing is read, exactly the first sixteen events of a subscription wait, in order, whether its channel exists yet or not, and the rest is dropped. |
| `IpcRouting.TakenInIsKeptIff` | internal/ipc/client.go:138-173 | However a run goes on, what was read and waits only grows at its end, so no event taken in is lost or overtaken, exactly unless the connection ends before anyone subscribed. |
| `IpcRouting.DrainKeepsAll` | internal/ipc/client.go:223-240 | Moving what was put aside into the new channel drops nothing. |
| `IpcClients.Client.Route` | internal/ipc/client.go:127-159 | An event goes last into its channel, or is put aside last, unless sixteen wait there; then it is dropped and nothing changes. |
| `IpcClients.Client.Register` | internal/ipc/client.go:223-240 | A new channel takes over all that was put aside; after the end of the connection there is none. |
| `IpcClients.Client.Fill` | internal/ipc/client.go:231-238 | The drop branch is unreachable: every buffered event is sent. |
| `IpcClients.Client.CloseSub` | internal/ipc/client.go:194-207 | The channel is closed once, stays readable, and is no longer routed to. |
| `IpcClients.Client.Begin` | internal/ipc/client.go:263-272 | A call gets a fresh ID and an empty channel, or an error after the end of the connection. |
| `IpcClients.Client.Respond` | internal/ipc/client.go:111-126 | The answer goes to the call with its ID, whose channel is open and empty; unknown IDs are dropped. |
| `IpcClients.Client.TearDown` | internal/ipc/client.go:161-173 | All waiting callers and subscribers find their channels closed, subscribers with what they had. |
| `IpcClients.Client.ReadLoop` | internal/ipc/client.go:104-174 | Over all lines of a connection: each waiting call gets the first answer with its ID or a closed channel, and subscriptions are routed as `Routed` says. |
| `IpcCalls.CallsAreTold` | internal/ipc/client.go:104-127 | With answers sent after the lock is released, and callers giving up at any point: a send never blocks or meets a closed channel, no call gets two answers or an answer and a close, and at the end every caller that did not give up got one of them. |

## Left out

- libp2p, QUIC, the DHT, mDNS, relays and the dial retry of `Place`: network behaviour; a stream is two FIFO channels with close.
- `Engine.Stop` and duplicate call IDs: outside the assumptions above.
- Signatures, key derivation and record encryption: only the bytes that are signed are modelled; `VerifyURL` and `internal/invite/record.go` are not part of this model.
- Opus, sound devices, echo cancellation and levels: decoding is an arbitrary function of the frames fed so far.
- Disk persistence and JSON: stores are in memory and messages are values; a friend that was appended but could not be saved is not covered.
- Real time: expiry uses a clock value per step; read deadlines, timeouts and context cancellation inside libraries are left out.
- Counter widths: the jitter buffer's uint64 counters do not wrap in the model.
- The per-step forms of recvLoop and onPull running against each other are covered for their queue only (`DropOldest.AlwaysOrderly`).
- Text beyond ASCII in `ParseURL`'s scheme check; in `InviteCodes.Parse` upper-casing and trimming of such text is an arbitrary function.
- The user interface, notifications, configuration and command line: plumbing.
- Engines.Engine.Place: the two branches taken when another thread hangs up inside Place or handleStream are positions of `CallProtocol`, not of the methods, which run alone.
- Engines.Engine.ServeCall: the branch where ToRinging fails, because another thread hung up, is a position of `CallProtocol` only, as in Place.
- Engines.Engine.RunScanner: says nothing of the events subscribers get on the way; `Sessions.Session.Transition` and `Sessions.Session.End` do, and `CallEvents` for runs of the protocol.
- RedemptionTheorems.SingleUse: Create never hands out a code that is in circulation; the store would overwrite its entry.
- IpcRouting.RaceIsInvisible: the server never hands out a subscription ID again.
- CallEvents.AudioFallsSilent: the loop's 32-slot channel does not overflow; a dropped "ended" would leave its session open.
