# Verified model of the screen-casting core

This project models, in Dafny, the four hand-written cores of a Chromecast desktop sender and proves what
they are meant to guarantee.

1. **The fMP4 segment pipeline** (`Segments`, `SegmentTheorems`, `Backpressure`, `Bridge`, `BridgeInvariant`,
   `BridgeTheorems`, `BridgeBoxes`, `BridgeLedger`, `BridgeThreads`). An encoder writes an ISO-BMFF byte stream
   (section 4.2 of ISO/IEC 14496-12); a segmenter cuts it at box boundaries, a reader thread pushes the segments into a bounded
   queue that protects the init segment, a forwarder thread moves them to a bounded channel, and a controller
   restarts the encoder. The segmenter and the queue are classes proved equal to pure functions; the threads
   are an interleaved step system, every queue or channel operation being one step.
2. **The Cast connection** (`Connection`, `SessionTrace`, `SessionIds`, `SessionAnswers`, `ConnectionLog`,
   `ConnectionInvariant`, `ConnectionAnswers`, `ConnectionTimers`, `ConnectionTheorems`, `ConnectionLoop`,
   `RequestIds`, `Retry`). One loop reacts to commands, inbound frames, heartbeat, watchdog, reconnect timer and
   shutdown. `Connection` gives one step function per branch, with the
   outcome of every connect, write and thread start as an input; `ConnectionLoop` holds the classes that update
   their fields in place and are proved to do exactly those steps. Two histories are kept: per session, the
   messages handed to the transport; per run, the events sent to the backend, with their times.
3. **The Cast wire codec** (`Proto`, `ProtoTheorems`, `Framing`, `Wire`): LEB128 varints, the CastMessage
   protobuf, length framing and the incremental frame accumulator.
4. **The mDNS engine** (`DnsNames`, `DnsTheorems`, `DnsRecords`, `DeviceTable`): the compressed-name decoder
   (section 4.1.4 of RFC 1035), the record decoder, and the device table with expiry and pushed snapshots.

`Bytes` holds what the others share.

## Where the code and its own claims part

The model follows the code. These claims, of the code, its specification or the standard it follows, fail for
some inputs; each has a lemma that says exactly when.

- After an encoder restart "the new init segment must be the only init the consumer sees"
  (`src/screen/bridge/controller.rs:131-132`). An old init that already left the queue survives its clearing,
  in the forwarder's hands or in the channel: `StaleInitExactly` gives the exact condition,
  `StaleInitHappens` and `StaleInitInChannel` a run for each.
- Segments do not depend on how the stream is chunked exactly as long as the stream without its last byte
  parses as boxes: `ChunkIndependenceExactly`; `ChunkingMatters` has nine bytes that show it.
- Segments add up to the input exactly if the stream parses as boxes and has no `moof`, or no boxes between an
  `mdat` and the next `moof` and no tail: `BytesKeptExactly`; `BoxBetweenIsLost` has a stream that loses a box.
- The backoff's first delay is not capped: `CapKeptExactly`, `CapExceeded`.
- A length prefix over the limit discards the complete frames pushed together with it:
  `CuttingMattersExactly`; `FrameLossHappens` has nine bytes that lose a frame.
- A media message can be addressed to `transport-0`, but only for a receiver whose transport ID is `0`:
  `FallbackExactly`. The fallback for a missing transport ID is never used: `LiveSessionIsLegal`.
- Section 4.1.4 of RFC 1035 speaks of pointers to a prior occurrence of a name; the decoder also follows
  forward pointers: `DecodesPriorExactly` says when a decoded name has the stricter meaning,
  `ForwardPointerDecodes` has five bytes that do not.
- "Every box reaching the wire is complete" (`specs/05-screen-capture.md:136`) holds on every run exactly for
  the reads that `WholeBoxesExactly` describes; `PartialBoxHappens` has one byte that breaks it.
- A record's data may be decoded past its own end: `OverrunExactly` says when, `OverrunHappens` has three bytes.

## Model

| member | source | states |
|---|---|---|
| `Segments.Mp4Segmenter.constructor` | src/screen/segments.rs:104-113 | a new segmenter is empty and parses boxes |
| `Segments.Mp4Segmenter.Feed` | src/screen/segments.rs:117-199 | state and segments are those of `FeedChunk`, the function the theorems below are about |
| `Segments.Mp4Segmenter.ScanFront` | src/screen/segments.rs:126-160 | the front of the buffer is partial, malformed or a whole box, 64-bit sizes and the 64 MiB limit included |
| `Segments.Mp4Segmenter.TakeBox` | src/screen/segments.rs:161-196 | a box ends the init, opens, extends or closes a fragment exactly as `AbsorbBox` |
| `Segments.Mp4Segmenter.EnterPassthroughMode` | src/screen/segments.rs:230-244 | an unsent init is emitted, all other buffered bytes are dropped, the mode is permanent |
| `Segments.Mp4Segmenter.Finish` | src/screen/segments.rs:203-226 | without any `moof` everything buffered is one init; otherwise the tail is dropped |
| `SegmentTheorems.ScanGrows` | src/screen/segments.rs:126-160 | more input never changes a verdict on the front of the buffer |
| `SegmentTheorems.ScanMeans` | src/screen/segments.rs:126-160 | the verdict follows from the size that the header declares in 4 or in 8 bytes: malformed below the header's length or above the limit, whole if all of it is there |
| `SegmentTheorems.HeaderOrShort` | src/screen/segments.rs:126-160 | and it is open exactly until the whole header is there |
| `SegmentTheorems.DrainAppend` | src/screen/segments.rs:117-199 | draining a longer buffer is draining the shorter one and then feeding the rest |
| `SegmentTheorems.FeedAllIsOneFeed` | src/screen/segments.rs:117-199 | any sequence of feeds equals one feed of the concatenation, up to chunks passed on after a switch |
| `SegmentTheorems.ChunkIndependence` | src/screen/segments.rs:117-245 | two chunkings of one stream end in the same state, with the same segments, or the same up to and including the switch |
| `SegmentTheorems.ChunkIndependenceExactly` | src/screen/segments.rs:117-245 | all chunkings agree if and only if the stream without its last byte parses as boxes |
| `SegmentTheorems.ChunkingMatters` | src/screen/segments.rs:117-245 | nine zero bytes give no segment at once, and one if the ninth is fed on its own |
| `SegmentTheorems.EarlySwitchShows` | src/screen/segments.rs:230-244 | if a proper prefix switches, two chunkings give different segments |
| `SegmentTheorems.ParseConserves` | src/screen/segments.rs:126-163 | parsing loses no byte, yields whole boxes only and stops only where none starts |
| `SegmentTheorems.ReparseBoxes` | src/screen/segments.rs:126-163 | concatenated whole boxes parse back to those boxes |
| `SegmentTheorems.SegmenterIsBatch` | src/screen/segments.rs:117-226 | feed and finish equal "parse all boxes, then group", for every chunking; a malformed stream, and only that, gives the boxes before the malformed one, grouped, and then the later chunks as they are |
| `SegmentTheorems.FoldHead` | src/screen/segments.rs:165-196 | box-by-box assembly from a fresh state yields the init and the fragments of `Group` |
| `SegmentTheorems.FragmentsKeepBytes` | src/screen/segments.rs:165-196 | fragments keep all bytes exactly if they tile the boxes, and lose some otherwise |
| `SegmentTheorems.MalformedLosesBytes` | src/screen/segments.rs:230-244 | a stream that switches loses at least the eight bytes of the malformed header, however it is chunked |
| `SegmentTheorems.BytesKeptExactly` | src/screen/segments.rs:165-245 | for every chunking the segments concatenate to the input if and only if it parses as boxes and has no `moof`, or nothing between fragments and no tail; otherwise they are shorter |
| `SegmentTheorems.BoxBetweenIsLost` | src/screen/segments.rs:189-195 | a `free` box between two fragments is in no segment |
| `Backpressure.BoundedDropOldest.constructor` | src/util/backpressure.rs:38-46 | an empty queue of positive capacity |
| `Backpressure.BoundedDropOldest.Push` | src/util/backpressure.rs:49-57 | the new item is last, the oldest goes if full |
| `Backpressure.BoundedDropOldest.PushOrReject` | src/util/backpressure.rs:65-78 | the oldest evictable item makes room, or the item is handed back |
| `Backpressure.BoundedDropOldest.Clear` | src/util/backpressure.rs:81-83 | nothing is left |
| `Backpressure.BoundedDropOldest.TryPop` | src/util/backpressure.rs:86-88 | the oldest item, if any, is taken |
| `Backpressure.PushOrProtects` | src/util/backpressure.rs:65-78 | no push loses or reorders a protected item or exceeds the capacity; rejection exactly if full of protected items |
| `Backpressure.PushOrExactly` | src/util/backpressure.rs:65-78 | with room the item is appended and nothing is lost; a full queue loses exactly its oldest evictable item, or hands the new one back if it has none |
| `BridgeThreads.ReadEncoded` | src/screen/bridge/stdout_reader.rs:33-55 | reading to the end pushes the segments of the whole stream in order; interruptions do not matter, a failure ends it without the tail |
| `BridgeThreads.PushSegments` | src/screen/bridge/stdout_reader.rs:96-104 | segments are pushed one by one, evicting fragments only |
| `BridgeThreads.PushesKeepInits` | src/screen/bridge/stdout_reader.rs:90-104 | however much is pushed, no init is lost or overtaken while inits alone do not fill the queue |
| `BridgeThreads.PushesKeepNewest` | src/screen/bridge/stdout_reader.rs:90-104 | a queue led by at most one init keeps it, and of the fragments exactly the newest that fit; pushes that fit lose nothing |
| `BridgeThreads.HeardExactly` | src/screen/bridge/stdout_reader.rs:37-50 | exactly the bytes read before the first empty or failed read are fed |
| `BridgeThreads.ForwardSegment` | src/screen/bridge/forwarder.rs:30-70 | a fragment is decided by one attempt, an init retried until taken, closed or stopped and never dropped; the counter counts drops only, and a closed consumer sets the stop flag |
| `BridgeInvariant.DrainEmitsInOrder` | src/screen/segments.rs:117-199 | a segmenter emits at most one init, and only before any fragment |
| `BridgeInvariant.NeverRejected` | src/screen/bridge/stdout_reader.rs:90-104 | in every reachable state a push finds room or a fragment to evict: no segment is handed back |
| `BridgeInvariant.StepKeepsInv` | src/screen/bridge/controller.rs:110-157 | every step of every thread keeps the pipeline invariant |
| `BridgeInvariant.InvOnEveryRun` | src/screen/bridge/controller.rs:184-330 | the invariant holds after every interleaving |
| `BridgeLedger.EverySegmentAccounted` | src/screen/bridge/forwarder.rs:30-90 | on every run each pushed segment is delivered, held, queued, dropped for want of room, evicted from a full queue or cleared by a restart; the counter counts the drops and nothing else |
| `BridgeLedger.StepLedger` | src/screen/bridge/stdout_reader.rs:96-104 | what each step gains and loses |
| `BridgeLedger.ForwarderExactly` | src/screen/bridge/forwarder.rs:36-69 | with a segment in hand: sent if there is room, a fragment dropped if there is none, the end if the consumer is gone, an init given up only on a stop |
| `BridgeLedger.StopExactly` | src/screen/bridge/forwarder.rs:60-64 | a stop comes from outside, from a gone consumer or from a failed controller, and from nothing else |
| `BridgeLedger.ChannelIsQueue` | src/screen/bridge/forwarder.rs:36-42 | the channel is taken from at its front, by the consumer only |
| `BridgeLedger.SpawnRegisters` | src/screen/bridge/stdout_reader.rs:85-89 | registering a reader adds it and forgets exactly those that are done |
| `BridgeTheorems.ConsumerView` | src/screen/bridge/forwarder.rs:30-90 | what the consumer got is ordered by generation, a subsequence of what each reader produced, at most one init among it, and that first |
| `BridgeTheorems.ConsumerGetsWholeBoxes` | src/screen/bridge/stdout_reader.rs:33-104 | the bytes received of a generation that parsed to its first `moof` are whole boxes: the init boxes, then fragments led by `moof` |
| `BridgeBoxes.CutClean` | src/screen/segments.rs:117-245 | every segment of a stream is whole boxes if and only if each read after the stream stopped parsing is, and a stream that parses has a `moof` or ends at a box boundary |
| `BridgeBoxes.FirstsReceived` | src/screen/bridge/stdout_reader.rs:33-104 | for any reads there is a run in which the consumer has received exactly the first n segments |
| `BridgeBoxes.WholeBoxesExactly` | specs/05-screen-capture.md:136 | the consumer gets whole boxes on every run if and only if that holds of the reads |
| `BridgeBoxes.PartialBoxHappens` | specs/05-screen-capture.md:136 | one byte and the end of the stream reach the consumer as an incomplete box |
| `BridgeTheorems.OnlyStaleIsHeld` | src/screen/bridge/controller.rs:133-157 | after a restart the channel accepts at most one old segment, the one in the forwarder's hands |
| `BridgeTheorems.OldOnesWereUnderway` | src/screen/bridge/controller.rs:133-157 | the old segments the consumer receives after a restart are those in the channel, then the one in the forwarder's hands, each at its place, and no others |
| `BridgeTheorems.ReceiveUnderway` | src/screen/bridge/controller.rs:133-157 | and with a consumer all of them can be received |
| `BridgeTheorems.StaleInitExactly` | src/screen/bridge/controller.rs:127-157 | the consumer can receive an old init after a restart if and only if it is open and one is in the channel or in the forwarder's hands |
| `BridgeTheorems.StaleInitHappens` | src/screen/bridge/controller.rs:127-157 | a reachable state with an old init in the forwarder's hands, from which it does |
| `BridgeTheorems.StaleInitInChannel` | src/screen/bridge/controller.rs:127-157 | a reachable state with an old init in the channel, from which it does |
| `RequestIds.RequestId.constructor` | src/cast/request_id.rs:26-28 | IDs start at 1 |
| `RequestIds.RequestId.Allocate` | src/cast/request_id.rs:38-56 | the first ID in cyclic order that is not pending, skipping 0; none exactly if all are pending, and the search ends |
| `RequestIds.PendingMap.constructor` | src/cast/request_id.rs:75-80 | nothing is pending |
| `RequestIds.PendingMap.Insert` | src/cast/request_id.rs:92-100 | a new ID is added, a pending one refused |
| `RequestIds.PendingMap.Resolve` | src/cast/request_id.rs:104-106 | exactly that ID is removed, and whether it was pending is told |
| `RequestIds.PendingMap.Expire` | src/cast/request_id.rs:117-129 | exactly the overdue IDs are removed and returned |
| `RequestIds.TakeOk` | src/cast/connection/state_machine.rs:211-215 | allocate and insert never collide, keep pending equal to the outstanding IDs, and fail only with no free ID |
| `RequestIds.FirstIdIsOne` | src/cast/request_id.rs:26-28 | the first request of a session has number 1 |
| `RequestIds.UsesAreSeparated` | src/cast/request_id.rs:38-129 | between two uses of one ID lies its resolve or expiry, across any number of wrap-arounds |
| `Retry.Backoff.constructor` | src/util/retry.rs:32-38 | the policy as given |
| `Retry.Backoff.Next` | src/util/retry.rs:50-58 | one step of the policy, saturating and capped |
| `Retry.DelayExactly` | src/util/retry.rs:50-58 | delay k is min(initial * 2^k, cap) for k >= 1 and the initial one for k = 0, and there are exactly as many as configured |
| `Retry.CapKeptExactly` | src/util/retry.rs:50-58 | no delay exceeds the cap if and only if the initial one does not, or there is none |
| `Retry.CapExceeded` | src/util/retry.rs:50-58 | an initial delay above the cap is waited in full |
| `ConnectionLoop.ActiveSession.constructor` | src/cast/connection/state_machine.rs:195-206 | a session starts Connected, with CONNECT to `receiver-0` sent |
| `ConnectionLoop.ActiveSession.Request` | src/cast/connection/state_machine.rs:211-215 | allocates and registers as `NextRequest` |
| `ConnectionLoop.ActiveSession.Handle` | src/cast/connection/state_machine.rs:351-465 | every command has the effect of `HandleCommand`, phase by phase |
| `ConnectionLoop.ActiveSession.HandleTransport` | src/cast/connection/state_machine.rs:420-447 | PLAY, PAUSE and STOP only in Ready or Streaming; STOP returns to Ready |
| `ConnectionLoop.ActiveSession.LoadMedia` | src/cast/connection/state_machine.rs:363-399 | CONNECT to the media channel, then LOAD; nothing more if the CONNECT fails |
| `ConnectionLoop.ActiveSession.Destination` | src/cast/connection/state_machine.rs:475-480 | the media destination of the session |
| `ConnectionLoop.ActiveSession.Resolve` | src/cast/connection/state_machine.rs:285-297 | the low 32 bits of the response's number are resolved |
| `ConnectionLoop.ActiveSession.ApplyStatus` | src/cast/connection/state_machine.rs:299-329 | IDs are remembered; Launching becomes Ready once both are known; events in order |
| `ConnectionLoop.ActiveSession.Route` | src/cast/connection/state_machine.rs:240-282 | frames are classified and routed as `RouteInbound` |
| `ConnectionLoop.ActiveSession.DispatchWaiting` | src/cast/connection/state_machine.rs:484-515 | the queued LOAD leaves the queue and is sent when Ready |
| `ConnectionLoop.ActiveSession.Goodbye` | src/cast/connection/teardown.rs:24-47 | the messages of a teardown are those of `SayGoodbye` |
| `ConnectionLoop.ActiveSession.Expire` | src/cast/connection/state_machine.rs:865-870 | overdue requests are dropped |
| `ConnectionLoop.RunLoop.constructor` | src/cast/connection/state_machine.rs:535-544 | the loop starts with nothing |
| `ConnectionLoop.RunLoop.Teardown` | src/cast/connection/teardown.rs:16-62 | session, channel and timers go together, then Disconnected is told |
| `ConnectionLoop.RunLoop.Lost` | src/cast/connection/state_machine.rs:560-592 | teardown, then the first reconnect is scheduled, or exhaustion reported |
| `ConnectionLoop.RunLoop.Connect` | src/cast/connection/state_machine.rs:601-656 | connect, CONNECT, reader, timers, Connected; each failure leaves no session |
| `ConnectionLoop.RunLoop.SelectReceiver` | src/cast/connection/state_machine.rs:711-729 | a selection replaces session and reconnect; a failed first attempt is final |
| `ConnectionLoop.RunLoop.Retry` | src/cast/connection/state_machine.rs:816-857 | a failed attempt is counted and the next scheduled, until the policy runs out |
| `ConnectionLoop.RunLoop.HandleFrame` | src/cast/connection/state_machine.rs:745-777 | route, restart the watchdog on PONG, pass events on, dispatch the queued LOAD, lose the connection on a failed write |
| `ConnectionLoop.RunLoop.Execute` | src/cast/connection/state_machine.rs:703-742 | every command, with or without a session |
| `ConnectionLoop.RunLoop.Heartbeat` | src/cast/connection/state_machine.rs:789-805 | PING and a new timer, or a lost connection |
| `ConnectionLoop.RunLoop.React` | src/cast/connection/state_machine.rs:701-863 | each branch of the select is the step function's |
| `ConnectionLoop.RunLoop.Step` | src/cast/connection/state_machine.rs:700-871 | an iteration, with the expiry of requests, keeps the invariant |
| `ConnectionLoop.RunLoop.Drive` | src/cast/connection/state_machine.rs:692-872 | the loop, offered any inputs, ends where the step functions lead |
| `ConnectionLoop.PlaysIsARun` | src/cast/connection/state_machine.rs:692-872 | so everything proved of every run holds of the loop |
| `SessionIds.CommandOk` | src/cast/connection/state_machine.rs:351-465 | every command keeps the session's history and request IDs in order, or fit for teardown after a failed write |
| `SessionIds.FrameOk` | src/cast/connection/state_machine.rs:240-329 | so does every frame together with the LOAD it releases |
| `SessionTrace.GoodbyeExactly` | src/cast/connection/teardown.rs:24-47 | to any in-order history teardown adds nothing without a session ID, otherwise a media STOP to its channel if and only if a LOAD has no STOP after it, then STOP_APP |
| `SessionTrace.GoodbyeFinishes` | src/cast/connection/teardown.rs:16-62 | a torn-down session's history is a finished one |
| `SessionTrace.PhaseTells` | src/cast/connection/state_machine.rs:299-447 | the phase records whether LAUNCH was sent and Ready announced |
| `SessionTrace.StreamingTells` | src/cast/connection/state_machine.rs:363-447 | Streaming means exactly that some LOAD has no STOP after it |
| `SessionTrace.StepwiseIsLegal` | src/cast/connection/state_machine.rs:351-515 | in-order histories are legal on the wire |
| `SessionTrace.FinishedIsLegal` | src/cast/connection/teardown.rs:16-62 | so are finished ones, and they are closed by STOP_APP exactly if a session was named |
| `SessionTrace.FallbackExactly` | src/cast/namespaces.rs:46-76 | a media destination is `transport-0` if and only if the transport ID is `0` |
| `SessionTrace.ChannelsDiffer` | src/cast/namespaces.rs:46-52 | an ID is its own media channel exactly if it is a UUID, and different IDs have different channels |
| `SessionTrace.UuidForm` | src/cast/namespaces.rs:58-76 | a UUID is five dashed groups of 8, 4, 4, 4 and 12 hexadecimal digits |
| `SessionTrace.LastReported` | src/cast/connection/state_machine.rs:299-308 | transport and session IDs are the last ones the receiver reported |
| `SessionAnswers.CommandAnswered` | src/cast/connection/state_machine.rs:351-465 | a command is answered by its own message, with its own content, to the right place, or ignored in exactly the right phases; the connection is kept exactly if all writes succeed; a LOAD is accepted unless the app is being launched |
| `SessionAnswers.FrameAnswered` | src/cast/connection/state_machine.rs:240-329 | a frame is told with its own IDs, volume and playback state, recorded as it came, and releases the LOAD that waits for it exactly if it completes a launch |
| `SessionAnswers.FramePending` | src/cast/connection/state_machine.rs:285-297 | a frame settles the request whose ID is the low 32 bits of its number, and no other |
| `SessionIds.GoodbyeOk` | src/cast/connection/teardown.rs:16-62 | a torn-down session is kept with its ending, its accepted LOADs and sound request IDs |
| `SessionIds.WireUsesAreSeparated` | src/cast/request_id.rs:38-129 | if two messages carry one request ID, it was resolved or expired between the taking of the first and of the second |
| `ConnectionLog.Alternates` | src/cast/connection/state_machine.rs:565-656 | Connected and Disconnected alternate, with matching devices |
| `ConnectionLog.SurplusIsOpen` | src/cast/connection/state_machine.rs:565-656 | one more Connected than Disconnected exactly while connected |
| `ConnectionLog.ConnectedOnlyIfSelected` | src/cast/connection/state_machine.rs:711-727 | every Connected answers the latest Select, and none follows an Error without a new Select |
| `ConnectionLog.ExhaustedExactly` | src/cast/connection/state_machine.rs:816-857 | exhaustion follows a loss by exactly the configured number of failed attempts, with nothing else between |
| `ConnectionLog.OneReadyPerSession` | src/cast/connection/state_machine.rs:311-321 | between two Ready events lies a Connected |
| `ConnectionInvariant.IterateOk` | src/cast/connection/state_machine.rs:700-871 | every iteration keeps the whole invariant, for every input and every I/O outcome |
| `ConnectionTheorems.EveryRunOk` | src/cast/connection/state_machine.rs:692-872 | it holds after every run |
| `ConnectionTheorems.NeverStuck` | src/cast/connection/state_machine.rs:386-393 | the unwrapping of the session ID cannot fail on any run |
| `ConnectionTheorems.StateFitsTogether` | src/cast/connection/state_machine.rs:519-656 | session, inbound, heartbeat and watchdog together or none; never with a reconnect; desired is their device; attempts + 1 + remaining is the configured maximum and the wait is the policy's |
| `ConnectionTheorems.LiveSessionIsLegal` | src/cast/connection/state_machine.rs:351-515 | a live session's messages are legal, both IDs known once Ready, a LOAD queued only while Launching, accepted LOADs sent once and in order, request IDs sound and those on the wire exactly those taken |
| `ConnectionTheorems.PastSessionIsLegal` | src/cast/connection/teardown.rs:16-62 | the same for every session that is over; its teardown sent a media STOP if and only if a LOAD was still running, directly before STOP_APP, and nothing after; no LOAD that was not accepted |
| `ConnectionTheorems.NoFallback` | src/cast/connection/state_machine.rs:467-480 | a media message goes to `transport-0` if and only if the receiver's transport ID is `0` |
| `ConnectionTheorems.EventsAreOrdered` | src/cast/connection/state_machine.rs:565-857 | the five event laws above, for every run |
| `ConnectionAnswers.TurnSays` | src/cast/connection/state_machine.rs:700-871 | what each turn says to the backend, for every input and I/O outcome, from what was said before alone |
| `ConnectionAnswers.TurnActs` | src/cast/connection/state_machine.rs:700-871 | what each turn adds to the session's messages, from its history alone |
| `ConnectionAnswers.TurnPending` | src/cast/connection/state_machine.rs:865-870 | a request stays pending exactly until it is answered or has waited its time |
| `ConnectionTimers.TurnTimed` | src/cast/connection/state_machine.rs:560-871 | every turn keeps the timers due so long after the entries they are counted from |
| `ConnectionTheorems.EveryTurnAnswers` | src/cast/connection/state_machine.rs:692-872 | all turns of all runs say and send what their input calls for, and end the loop exactly if told to |
| `ConnectionTheorems.CommandsAreAnswered` | src/cast/connection/state_machine.rs:730-742 | on every run a command of a live session is answered by the message it names, and the connection kept exactly if it was written |
| `ConnectionTheorems.RequestsEndExactly` | src/cast/connection/state_machine.rs:865-870 | on every run a pending request ends exactly by its answer or by the timeout |
| `ConnectionTheorems.TimersExactly` | src/cast/connection/state_machine.rs:560-871 | on every run a PING is due exactly its interval after the connection or the last PING, the watchdog exactly its time after the connection or the last PONG, and attempt k + 1 exactly delay k of the policy after the loss or the failed attempt before it |
| `Proto.VarintEncode` | src/cast/proto.rs:54-64 | the loop computes the base-128 digits with continuation bits |
| `Proto.VarintDecode` | src/cast/proto.rs:68-86 | the loop computes value and length, or the same error |
| `Proto.VarintRoundTrip` | src/cast/proto.rs:54-86 | every 64-bit value is read back, whatever follows |
| `Proto.VarintFits` | src/cast/proto.rs:68-86 | no decoded value exceeds 64 bits |
| `Proto.VarintVerdict` | src/cast/proto.rs:68-86 | a varint is read exactly if it ends within ten bytes and 64 bits, is cut off exactly if it still could, and overflows otherwise |
| `Proto.WriteLengthDelimited` | src/cast/proto.rs:132-136 | key, length and data are appended |
| `Proto.EncodeCastMessage` | src/cast/proto.rs:142-155 | the six fields in order |
| `Proto.ReadFieldAt` | src/cast/proto.rs:162-219 | one field, by wire type, with every error case |
| `Proto.DecodeCastMessage` | src/cast/proto.rs:159-222 | the loop is the field-by-field fold |
| `ProtoTheorems.DecodeConcat` | src/cast/proto.rs:159-229 | decoding a concatenation continues from the first part's message |
| `ProtoTheorems.DecodeIsLastWins` | src/cast/proto.rs:159-222 | decoding succeeds exactly if the fields parse, and the last occurrence of each assigned field wins |
| `ProtoTheorems.InsertUnassigned` | src/cast/proto.rs:159-229 | fields the decoder does not assign change nothing at any boundary |
| `ProtoTheorems.MessageRoundTrip` | src/cast/proto.rs:142-222 | a message decodes to itself if no text exceeds the field limit, and is refused otherwise |
| `ProtoTheorems.MessageLayout` | src/cast/proto.rs:142-155 | the bytes of a message of short texts |
| `ProtoTheorems.VarintLayout` | src/cast/proto.rs:54-64 | a length of 174 is two bytes, low group first |
| `ProtoTheorems.NumberReads` | src/cast/proto.rs:162-219 | a number is read back under any field number |
| `ProtoTheorems.FixedReads` | src/cast/proto.rs:216-229 | wire type 1 is skipped with eight bytes, wire type 5 with four, if they are there |
| `ProtoTheorems.TextFieldReads` | src/cast/proto.rs:191-215 | a text is read back under any field number, or refused if above the limit |
| `ProtoTheorems.TextFieldCutOff` | src/cast/proto.rs:191-215 | a text cut off is reported with its declared and its present length |
| `ProtoTheorems.BadKeyFails` | src/cast/proto.rs:22-30 | wire types 3, 4, 6 and 7 and field number 0 are refused |
| `Framing.ReadExactOrEof` | src/cast/framing.rs:73-90 | short reads and interruptions do not matter; the end is told exactly if bytes are missing |
| `Framing.ReadFrame` | src/cast/framing.rs:43-70 | the frame depends on the bytes alone; header, limit and truncation as in `FrameOf` |
| `Framing.FrameAccumulator.constructor` | src/cast/connection/reader.rs:30-32 | an empty buffer |
| `Framing.FrameAccumulator.PushBytes` | src/cast/connection/reader.rs:37-54 | all complete frames and the rest, or, over the limit, the error with the buffer kept and no frames |
| `Wire.ReaderLoop` | src/cast/connection/reader.rs:76-130 | the frames of the counted bytes are passed on in order, all of them or as many as the receiver takes, and the end is told exactly if it took all |
| `Wire.PassOn` | src/cast/connection/reader.rs:97-103 | frames are sent in order until the receiver is gone |
| `Wire.PiecesExactly` | src/cast/connection/reader.rs:84-127 | the bytes that count are exactly those read before the first shutdown, failed or empty read; nothing from there on matters |
| `Wire.IdleIsHarmless` | src/cast/connection/reader.rs:118-120 | a read that timed out has no effect anywhere |
| `Wire.DeframeConserves` | src/cast/connection/reader.rs:37-54 | frames re-encoded and the rest are exactly the bytes |
| `Wire.DeframeAppend` | src/cast/connection/reader.rs:37-54 | deframing in two steps is deframing at once |
| `Wire.PushAllIsBatch` | src/cast/connection/reader.rs:37-54 | any number of pushes equals deframing the whole stream |
| `Wire.AccumulatorConserves` | src/cast/connection/reader.rs:37-54 | within the limit no byte is lost and the cutting does not matter |
| `Wire.CuttingMattersExactly` | src/cast/connection/reader.rs:37-54 | the cutting matters if and only if a length over the limit follows a complete frame |
| `Wire.FrameLossHappens` | src/cast/connection/reader.rs:45-51 | one frame and an over-limit length: lost if pushed together, kept if not |
| `Wire.FrameRoundTrip` | src/cast/framing.rs:24-70 | a payload is read back if and only if it is within the limit |
| `Wire.FrameMeans` | src/cast/framing.rs:43-70 | every outcome of reading a frame, with the lengths it reports and the bytes it takes |
| `Wire.MessagesSurviveTheWire` | src/cast/connection/reader.rs:21-54 | messages encoded, framed, cut anywhere, accumulated and decoded come back in order, with an empty buffer |
| `DnsNames.EncodeName` | src/cast/mdns.rs:364-374 | labels after their lengths, then a zero octet |
| `DnsNames.Parser.constructor` | src/cast/mdns.rs:465-467 | a cursor on a packet |
| `DnsNames.Parser.ReadU8` | src/cast/mdns.rs:469-476 | the next octet, or Truncated |
| `DnsNames.Parser.Take` | src/cast/mdns.rs:492-500 | the next octets, or Truncated with the cursor unmoved |
| `DnsNames.Parser.ReadName` | src/cast/mdns.rs:503-507 | the decoded name, with the cursor just past its first pointer or zero octet |
| `DnsNames.Parser.ReadNameInto` | src/cast/mdns.rs:509-544 | labels are appended, hops and visited offsets respected, the cursor restored after a pointer |
| `DnsTheorems.NameDecoderExact` | src/cast/mdns.rs:503-544 | on every packet and offset the decoder yields a name if and only if following pointers, at most four, gives it that meaning |
| `DnsTheorems.ErrorsExactly` | src/cast/mdns.rs:509-544 | the decoder reports an error if and only if the name breaks off for that reason, where following its pointers leads |
| `DnsTheorems.EndExactly` | src/cast/mdns.rs:509-544 | the cursor ends just past the zero octet or the first pointer behind the labels that stand in place |
| `DnsTheorems.DenotesOnce` | src/cast/mdns.rs:509-544 | that meaning and its number of pointers are unique |
| `DnsTheorems.NotVisited` | src/cast/mdns.rs:520-536 | the cycle check never refuses a meaningful name |
| `DnsTheorems.OctetsBounded` | src/cast/mdns.rs:509-544 | a decoded name has at most five times as many octets as the packet |
| `DnsTheorems.PlainNameDecodes` | src/cast/mdns.rs:364-374 | an encoded name decodes to its labels at any offset |
| `DnsTheorems.CompressedNameDecodes` | src/cast/mdns.rs:503-544 | replacing a suffix by a pointer to it changes nothing, if and only if the hop limit allows it |
| `DnsTheorems.DecodesPriorExactly` | src/cast/mdns.rs:503-544 | a name has a meaning by prior occurrences alone if and only if it decodes to it and no pointer on the way points forward |
| `DnsTheorems.ForwardPointerDecodes` | src/cast/mdns.rs:520-536 | five bytes whose pointer points forward and is followed |
| `DnsRecords.ReadU16` | src/cast/mdns.rs:478-482 | two octets, big-endian, or Truncated |
| `DnsRecords.ReadU32` | src/cast/mdns.rs:484-490 | four octets, big-endian, or Truncated |
| `DnsRecords.ReadText` | src/cast/mdns.rs:573-582 | strings until one ends at or after the end of the data |
| `DnsRecords.ReadService` | src/cast/mdns.rs:563-572 | priority, weight, port and target, or the first error |
| `DnsRecords.ReadData` | src/cast/mdns.rs:557-590 | data by record type, decoded with a cursor of its own against the whole packet |
| `DnsRecords.ReadRecord` | src/cast/mdns.rs:548-600 | the record, every error case included; on success the cursor is at data start plus length, whatever the data decoded to |
| `DnsRecords.CursorIgnoresData` | src/cast/mdns.rs:548-555 | changing a record's data, or anything behind it, does not move the record after it |
| `DnsRecords.OverrunExactly` | src/cast/mdns.rs:557-590 | decoding ends behind the data if and only if the data is not complete by itself: a name cut off, a string too long, an address too short |
| `DnsRecords.OwnOctetsDecide` | src/cast/mdns.rs:573-588 | complete text and addresses are what their own octets say |
| `DnsRecords.ServiceDecides` | src/cast/mdns.rs:563-572 | a service's priority, weight and port are its first six octets in order, its target the name behind them |
| `DnsRecords.HeaderDecides` | src/cast/mdns.rs:548-556 | owner, type, time to live and length are what the header's octets say, and a pointer record's data the name that stands there |
| `DnsRecords.OverrunHappens` | src/cast/mdns.rs:573-582 | a text record of one octet that takes two of the next |
| `DeviceTable.Discovery.constructor` | src/cast/mdns.rs:156-175 | an empty table, nothing pushed |
| `DeviceTable.Discovery.HandlePacket` | src/cast/mdns.rs:176-216 | all devices are recorded, and a snapshot pushed exactly if one was new or changed |
| `DeviceTable.Discovery.UpsertDevice` | src/cast/mdns.rs:386-414 | the entry is current and its count zero; the change is told exactly |
| `DeviceTable.Discovery.ExpireCycle` | src/cast/mdns.rs:418-438 | counts go up, the third miss removes, and a snapshot is pushed exactly if something left |
| `DeviceTable.Discovery.PushSnapshot` | src/cast/mdns.rs:441-456 | the visible content is pushed |
| `DeviceTable.SnapshotAgrees` | src/cast/mdns.rs:176-216 | after every history the last snapshot is what the table shows |
| `DeviceTable.SnapshotIsHistory` | src/cast/mdns.rs:441-456 | the user is shown exactly the devices announced fewer than three ticks ago, under the last announced name, with the identifier as pin key if there is a non-empty one and name and address otherwise |
| `DeviceTable.SnapshotsExactly` | src/cast/mdns.rs:196-216 | a packet pushes a snapshot exactly if it brings news, a tick exactly if it is some device's third |
| `DeviceTable.TableIsHistory` | src/cast/mdns.rs:386-438 | a device is in the table exactly while fewer than three ticks passed since its last announcement, under that announcement |
| `DeviceTable.LeavesOnThirdTick` | src/cast/mdns.rs:418-438 | a silent device leaves exactly on the third tick |

## Left out

- Bridge threads: the interleaving of reader, forwarder, consumer and controller is modelled on values, as
  steps; `BridgeThreads` has the reader's and forwarder's own loops, each without interference. The
  controller's polling order, the frame queue to the encoder and `wait_graceful` are not modelled: any of
  its branches may be taken at any time, and an init may be given up whenever a stop is set, which allows more
  runs than the program has.
- Connection steps: an iteration has two times, one for its branch and one for the expiry of requests after it,
  so the two requests of one teardown share a time stamp; times need not advance, which allows more runs than the
  program has; teardown's close of the socket is not a step of its own.
- ConnectionLoop.ActiveSession.Request: with all 2^32 - 1 IDs pending the program panics; the model then
  uses the number 0 and goes on.
- Commanded(None): when all command senders are gone the loop ends without a teardown, as in the code, so the
  last Connected may stay without a Disconnected.
- Liveness: nothing is claimed about anything eventually happening, in particular on the shutdown token, whose
  guard reads its current value, nor about mutex fairness.
- JSON: messages are a datatype with their request and session IDs; inbound frames arrive classified.
- Text: lossy UTF-8 decoding and string formatting; DNS names are label lists, not dotted strings.
- mDNS packets: the header and section loops of `parse_packet`, and `correlate`; the table receives the devices
  of a packet.
- DeviceTable.Discovery.PushSnapshot: pushed snapshots are maps; the sorting by the text of the address, and that
  text, are not modelled.
- Sockets, TLS and the pin store, process spawning, PipeWire, the portal, screen grabbing: inputs, with success,
  failure or bytes.
- HTTP media server, GUI, SMB, URL proxy, volume throttle, flush tracker: not modelled; they would add easy
  members only.
