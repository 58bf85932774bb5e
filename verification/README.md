# A verified model of the headphone protocol stack and its daemon

The repository talks to Sony headphones over a byte-stuffed Bluetooth protocol and puts a daemon with a
socket protocol in front of it. This project models the layers where its guarantees are hard to see by
reading one function, and proves them for every input, every interleaving and every run.

| layer | modules | main results |
|---|---|---|
| wire | `FrameCodec`, `StreamReassembler`, `LegacyWrapper` | canonical decoding, exact size rule, the in-place buffer refines a byte-at-a-time automaton, chunk independence with its exact condition, end-to-end delivery through failed writes, agreement of the two reassemblers on corrupt and clean frames |
| session | `Session`, `SessionRuns`, `SessionStarts`, `SessionHistory` | response linearity, the exact condition for responses of an earlier session, one destination per frame, acknowledgement accounting, one-bit sequence numbers, over every interleaving of a sender, the reader, `start` and `disconnect` |
| daemon | `IpcServer`, `IpcServerRuns`, `IpcClient`, `IpcProtocol`, `Text` | poll pairing, request conservation, no stranded client, framing limits that agree, exact text round trips |
| link | `DeviceService` | backoff schedule, no attempt before its time or after a release, over every timed run |
| commands | `SonyDevice`, `CommandSafety` | power-off safety and exact factory-reset safety over every run of the daemon |

`Base` and `Text` hold shared types. Loops and objects of the program are methods and classes, each proved
equal to a function; the theorems are about those functions. State machines (`SessionRuns`
with `SessionStarts` and `SessionHistory`, `IpcServerRuns`, `DeviceService`, `CommandSafety`) take one critical section, one atomic access, one pass
over a connection or one request as a step and build on the same functions the methods are proved against.

## Assumptions

- `size_t` has 64 bits, so the declared length of a frame never wraps.
- A transport's `send` takes between one byte and all of them, returns 0 at EOF, or throws; `receive`
  returns 1 to 1024 bytes. The legacy connector's `recv` returns 1 to 2048 bytes and its `send` takes
  everything. Sockets take and deliver any nonempty part, would block, or fail.
- Condition variables are nondeterministic: a wait may end by its condition or by its deadline at any time.
- Callers of the session are serialised by its send mutex; the connectivity test in front of that mutex may
  be stale by the time it is taken, so any call may begin in any state.
- Calls of `start` may overlap, and a disconnect may be slow to clear; but no two threads join the same reader
  at once, and callbacks do not call `start`. A frame belongs to the reader thread that decoded it.
- `setSequenceNumber` is not called, and `SONY_ENABLE_RAW` is off.
- Names are looked up in an arbitrary table from names to profiles, so the results on commands hold for
  the table as shipped and for every other one. Number parsing and preset names are arbitrary functions too.

## Model

| member | source | states |
|---|---|---|
| FrameCodec.EscapeBytes | libs/sony-protocol/src/FrameCodec.cpp:6-31 | the escaping loop computes the stuffed form `Escape` |
| FrameCodec.UnescapeBytes | libs/sony-protocol/src/FrameCodec.cpp:33-64 | the unescaping loop computes `Unescape`; a dangling or unknown escape pair is InvalidFrame |
| FrameCodec.CalculateChecksum | libs/sony-protocol/src/FrameCodec.cpp:66-72 | the wrapping 8-bit accumulator is the sum of the bytes modulo 256 |
| FrameCodec.EncodeFrame | libs/sony-protocol/src/FrameCodec.cpp:74-106 | the encoder computes `Encode`, including its size error |
| FrameCodec.DecodeBodyBytes | libs/sony-protocol/src/FrameCodec.cpp:121-152 | the body decoder computes `DecodeBody`, including the order of its errors |
| FrameCodec.DecodeFrame | libs/sony-protocol/src/FrameCodec.cpp:108-119 | the frame decoder computes `Decode`: delimiters first, then the body |
| FrameCodec.EscapeAfterUnescape | libs/sony-protocol/src/FrameCodec.cpp:6-64 | on delimiter-free strings that unescape at all, escaping gives the string back: the stuffed form is canonical |
| FrameCodec.RoundTrip | libs/sony-protocol/src/FrameCodec.cpp:6-64 | unescaping undoes escaping for every byte string |
| FrameCodec.CanonicalDecoding | libs/sony-protocol/src/FrameCodec.cpp:121-152 | a delimiter-free body decodes to a frame if and only if it starts with the one stuffed form of that frame and goes on with a well-formed tail, which is ignored |
| FrameCodec.DecodeEncode | libs/sony-protocol/src/FrameCodec.cpp:74-119 | decoding gives back every frame that encodes |
| FrameCodec.EncodeSizeRule | libs/sony-protocol/src/FrameCodec.cpp:92-97 | encoding succeeds if and only if payload length + 9 + reserved bytes is at most 2048, hence always up to 1016 payload bytes |
| FrameCodec.SingleByteCorruption | libs/sony-protocol/src/FrameCodec.cpp:129-144 | changing one byte outside the length field is InvalidChecksum up to the checksum byte and has no effect in the ignored tail |
| FrameCodec.TruncationIsRejected | libs/sony-protocol/src/FrameCodec.cpp:121-136 | every proper prefix of a stuffed body is InvalidFrame, never a shorter frame |
| StreamReassembler.StreamBuffer.ParseStream | libs/sony-protocol/src/SonyProtocolSession.cpp:138-189 | the in-place parse loop emits what the byte-at-a-time automaton emits on the buffer and leaves its state behind; it terminates with the buffer length as measure |
| StreamReassembler.StreamBuffer.HandleIncomingBytes | libs/sony-protocol/src/SonyProtocolSession.cpp:124-136 | one receive is one step of the receiver; the buffer keeps one of three shapes, at most 5119 bytes between calls and 6143 at its peak |
| StreamReassembler.StreamBuffer.ReadAll | libs/sony-protocol/src/SonyProtocolSession.cpp:91-116 | the reader loop over any receives emits what `Receive` says |
| StreamReassembler.BufferBoundIsTight | libs/sony-protocol/src/SonyProtocolSession.cpp:163-170 | both bounds are reached from the empty buffer: five full receives leave 5119 bytes, a sixth meets them at 6143 |
| StreamReassembler.RunConcat | libs/sony-protocol/src/SonyProtocolSession.cpp:138-189 | the automaton on a concatenation is the automaton on the parts in turn |
| StreamReassembler.ChunkIndependence | libs/sony-protocol/src/SonyProtocolSession.cpp:124-189 | every chunking of a stream yields the automaton's frames if and only if the stream completes no decodable candidate of more than 4096 bytes |
| StreamReassembler.OverlongStreamsExist | libs/sony-protocol/src/SonyProtocolSession.cpp:163-170 | such streams exist: a short frame followed by a long ignored tail |
| StreamReassembler.EndToEnd | libs/sony-protocol/src/SonyProtocolSession.cpp:91-189 | whole frames with any gaps in which no END follows a START, in any chunking, are received exactly, once each and in order |
| StreamReassembler.FrameWriter.WriteFrame | libs/sony-protocol/src/SonyProtocolSession.cpp:287-316 | under any partial sends the wire grows by a prefix of the encoding, the whole of it exactly on normal return; sending goes on as long as it makes progress, and every error is what the last send came to, so a transport that neither throws nor reports EOF always gets the whole frame; which failures stop the session |
| StreamReassembler.WritesArrive | libs/sony-protocol/src/SonyProtocolSession.cpp:287-316 | after any sequence of writes, some cut short, and in any chunking, the peer receives exactly the frames written in full |
| LegacyWrapper.ScanChunk | libs/sony-transport/legacy/BluetoothWrapper.cpp:108-130 | one pass over a received chunk: where the message bytes are and what ended the pass |
| LegacyWrapper.BluetoothWrapper.NextChunk | libs/sony-transport/legacy/BluetoothWrapper.cpp:90-103 | left-over bytes are replayed before the connector is asked again; nothing is lost |
| LegacyWrapper.BluetoothWrapper.ReadBody | libs/sony-transport/legacy/BluetoothWrapper.cpp:84-128 | on any stream holding a START and a delimiter after it: END gives all receives before the one with START, then the bytes between the delimiters, and leaves exactly the bytes after END; a second START is refused and the rest of that receive is lost |
| LegacyWrapper.NoiseIsKept | libs/sony-transport/legacy/BluetoothWrapper.cpp:108-128 | the clean body comes back if and only if every byte before START arrived in the same receive as START |
| LegacyWrapper.NoiseSpoils | libs/sony-transport/legacy/BluetoothWrapper.cpp:108-128 | an input that fails: one byte of noise in a receive of its own makes the next frame unreadable |
| LegacyWrapper.BluetoothWrapper.ReadMessage | libs/sony-transport/legacy/BluetoothWrapper.cpp:84-142 | one call in any chunking, noise or not: what the body decodes to, the bytes left for the next call, and the toggled acknowledgement of a data frame |
| LegacyWrapper.BluetoothWrapper.ReadMessages | libs/sony-transport/legacy/BluetoothWrapper.cpp:84-142 | over any framed bodies, corrupt ones included, in any chunking: the k-th call returns what the k-th body decodes to, and left-over plus unreceived bytes are the framing of the others |
| LegacyWrapper.ReassemblersAgree | libs/sony-transport/legacy/BluetoothWrapper.cpp:84-142 | over the same framed bodies the session's receiver emits, in every chunking, exactly the frames among the results of `ReadMessages`, if and only if no decodable body is overlong |
| LegacyWrapper.EncodedFramesAgree | libs/sony-transport/legacy/BluetoothWrapper.cpp:84-142 | encoded frames are such bodies: the k-th call returns the k-th frame, and so does the session's receiver in any chunking |
| LegacyWrapper.AckToggles | libs/sony-transport/legacy/BluetoothWrapper.cpp:133-139 | the acknowledgement decodes to the other sequence bit, and only data frames get one |
| Session.SonyProtocolSession.HandleAck | libs/sony-protocol/src/SonyProtocolSession.cpp:191-205 | any acknowledgement counts; its number is only stored if it is 0 or 1 |
| Session.SonyProtocolSession.CheckDuplicate | libs/sony-protocol/src/SonyProtocolSession.cpp:220-233 | a frame is a duplicate exactly if it repeats the last sequence number |
| Session.SonyProtocolSession.DeliverData | libs/sony-protocol/src/SonyProtocolSession.cpp:235-258 | a frame fills the pending slot or joins the queue, which drops its oldest entry beyond 32 |
| Session.SonyProtocolSession.ArmRequest | libs/sony-protocol/src/SonyProtocolSession.cpp:368-391 | arming takes the first buffered match out of the queue, if there is one |
| Session.AnswersOne | libs/sony-protocol/src/SonyProtocolSession.cpp:240-243 | no payload answers two requests with different opcodes or subtypes |
| Session.AnswersOwn | libs/sony-protocol/src/SonyProtocolSession.cpp:240-243 | every payload answers the request for its own opcode and second byte, and the one for its opcode alone |
| Session.QueueKeepsNewest | libs/sony-protocol/src/SonyProtocolSession.cpp:254-258 | with no request waiting the queue holds the newest 32 of whatever came, in order |
| Session.SonyProtocolSession.FinishRequest | libs/sony-protocol/src/SonyProtocolSession.cpp:395-415 | the buffered response is returned exactly if the link is up and one is there; the slot is cleared on every path |
| SessionRuns.ResponseLinearity | libs/sony-protocol/src/SonyProtocolSession.cpp:353-416 | in every interleaving each returned frame starts with the awaited opcode, followed by the awaited subtype if there is one, and no frame is returned twice |
| SessionStarts.StartIsSafe | libs/sony-protocol/src/SonyProtocolSession.cpp:29-83 | for every reachable state in which a start clears: a continuation in which neither a start nor a disconnect clears can return a frame of an earlier reader if and only if, at the clear, the old reader could still decode, held a frame that will pass the duplicate check and can answer a request, or another start was between clear and launch; a start that has joined the reader and is alone is safe |
| SessionStarts.ResponsesAreCurrent | libs/sony-protocol/src/SonyProtocolSession.cpp:29-83 | in every run whose starts all meet that condition, and in which no delayed disconnect clears between a start's clear and its launch while the old reader has a frame to hand out, each response was decoded by the reader that is running when it is returned |
| SessionStarts.StaleResponse | libs/sony-protocol/src/SonyProtocolSession.cpp:29-136 | a run in which it fails: bytes the old reader had received are decoded after the clear and returned in the next session |
| SessionHistory.ResponseOrigin | libs/sony-protocol/src/SonyProtocolSession.cpp:235-278 | every response was accepted from the link; it has been or is being given to the callbacks if and only if its request took it out of the queue, and otherwise went straight to its request |
| SessionHistory.NotifiedResponse | libs/sony-protocol/src/SonyProtocolSession.cpp:254-278 | a run in which a response was given to the callbacks before it was returned |
| SessionHistory.IdleSlot | libs/sony-protocol/src/SonyProtocolSession.cpp:368-415 | while no call is in progress, the pending slot is occupied if and only if the last request's write failed and nothing was cleared since it was armed |
| SessionHistory.LostForGood | libs/sony-protocol/src/SonyProtocolSession.cpp:235-262 | a frame that has left such a slot without being returned is never returned and never dispatched, in any continuation |
| SessionHistory.LostExactly | libs/sony-protocol/src/SonyProtocolSession.cpp:368-415 | an answer delivered to the slot is lost at a step if and only if the step arms the next request, gives up on the waiting one, or clears the session |
| SessionHistory.LostResponse | libs/sony-protocol/src/SonyProtocolSession.cpp:368-393 | a run in which that happens: a write times out, the answer fills the slot, the next request takes the slot over |
| SessionRuns.FrameRouting | libs/sony-protocol/src/SonyProtocolSession.cpp:207-278 | every accepted frame goes to the pending slot or the callbacks, never both; the queue is an ordered part of what was dispatched, of at most 32 entries; no accepted frame repeats its predecessor's number |
| SessionRuns.AckAccounting | libs/sony-protocol/src/SonyProtocolSession.cpp:318-351 | every successful send has an acknowledgement of its own, handled after the call cleared the flag; successes never exceed acknowledgements |
| SessionHistory.AckNumbers | libs/sony-protocol/src/SonyProtocolSession.cpp:191-205 | when a send returns, the last acknowledgement handled before it carries the number that was sent if and only if it carries 0 or 1 and the counter now holds that number |
| SessionHistory.AnyNumberServes | libs/sony-protocol/src/SonyProtocolSession.cpp:318-351 | numbers are not compared: for every byte there is a run in which a send of number 0 returns on an acknowledgement of that number |
| SessionRuns.OneBitSequence | libs/sony-protocol/src/SonyProtocolSession.cpp:423-430 | under every interleaving of load, store and increment with the reader and disconnect, frames carry 0 or 1, alternating unless an acknowledgement or reset intervened, and the counter stays at most 2 |
| IpcServer.ReadFrom | libs/sony-core/src/IpcServer.cpp:206-239 | the read branch: one request per connection, the size limit, and no bytes after the newline |
| IpcServer.SendTo | libs/sony-core/src/IpcServer.cpp:240-247 | the write branch: partial output, and closing once everything is out |
| IpcServer.ServerLoop.ServeOne | libs/sony-core/src/IpcServer.cpp:197-253 | the body of the pass for one connection; no other connection changes |
| IpcServer.AnswerStep | libs/sony-core/src/IpcServer.cpp:200-247 | one pass over a connection whose answer is ready: the socket gets exactly as many further bytes of it as it takes, and the connection closes exactly with the last one |
| IpcServer.AnswerDelivered | libs/sony-core/src/IpcServer.cpp:200-247 | the same over any passes, from the request on: the socket has exactly as much of the answer as it was willing to take, and the connection closes if and only if that is all of it |
| IpcServer.UnfinishedCloses | libs/sony-core/src/IpcServer.cpp:200-252 | what else closes it: exactly the deadline, a broken socket, bytes or an end of stream from the client, or a failing write |
| IpcServer.ServerLoop.Pass | libs/sony-core/src/IpcServer.cpp:189-253 | in the backward scan with erasure every client is served once with its own events, survivors keep their order, and exactly the closed ones are gone |
| IpcServer.RequestAssembled | libs/sony-core/src/IpcServer.cpp:206-239 | a line with its newline, in any chunks, becomes exactly one job with that line if it is within 16 KiB, and otherwise closes the connection without a job |
| IpcServerRuns.RequestConservation | libs/sony-core/src/IpcServer.cpp:126-270 | in every reachable state a live client's job is uncancelled and in exactly one place; queue and table hold at most 16; bytes sent are a prefix of the client's own response |
| IpcServerRuns.AnswersAreFinal | libs/sony-core/src/IpcServer.cpp:140-155 | no promise is set twice and no request line changes |
| IpcServerRuns.RequestPosted | libs/sony-core/src/IpcServer.cpp:224-234 | a request is queued behind the others exactly while fewer than 16 wait, and otherwise answered as busy |
| IpcServerRuns.AnswerKept | libs/sony-core/src/IpcServer.cpp:140-155 | the executor's answer is kept as it is up to 256 KiB and replaced beyond |
| IpcServerRuns.CancelledExactly | libs/sony-core/src/IpcServer.cpp:248-252 | in every reachable state a job is cancelled if and only if its connection is gone |
| IpcServerRuns.CancelledIsSkipped | libs/sony-core/src/IpcServer.cpp:140-141 | a job cancelled before the executor began with it is never carried out, in any continuation |
| IpcServerRuns.NoClientStranded | libs/sony-core/src/IpcServer.cpp:126-175 | an unanswered request of a live client can always be advanced and is answered within 50 executor events, whatever the poll loop does |
| IpcServerRuns.AnsweredInTime | libs/sony-core/src/IpcServer.cpp:126-175 | the measure behind it: a job is answered within its own distance in executor events |
| IpcClient.Client.SendLine | libs/sony-core/src/IpcClient.cpp:68-78 | under any partial sends the line and its newline go out whole, or a prefix; it gives up only when the deadline is reached or a send fails |
| IpcClient.Client.ReadLine | libs/sony-core/src/IpcClient.cpp:79-93 | under any fragmentation the result is the stream's first line; every failure has its cause (deadline, failing read, end of a stream without a newline, more than 256 KiB), so a single line within the cap is never refused |
| IpcClient.Client.Request | libs/sony-core/src/IpcClient.cpp:60-99 | an unacceptable line touches nothing; an acceptable one is sent whole and answered by the first line, unless the socket fails |
| IpcClient.ResponseDelivered | libs/sony-core/src/IpcClient.cpp:100-106 | a serialised response within the server's cap with a one-line message is such a single line, and parses back exactly if it is portable |
| IpcClient.Exchange | libs/sony-core/src/IpcClient.cpp:60-106 | a whole exchange over passes of the poll loop: a line in any chunks is posted as sent if and only if the client would send it; its answer in any pieces has arrived exactly when the daemon closes, as the single line `ReadLine` returns, and parses to the response if and only if that is portable |
| IpcProtocol.SplitTokens | libs/sony-core/src/IpcProtocol.cpp:14-31 | the splitting loop yields the maximal whitespace-free pieces, in order |
| IpcProtocol.JoinSplit | main.cpp:260-266 | joining arguments with spaces and splitting gives them back if and only if all are nonempty and free of whitespace |
| IpcProtocol.ConfirmationAppended | main.cpp:284-294 | appending the confirmation keeps the command, adds one argument and clears the need for confirmation |
| IpcProtocol.Serialize | libs/sony-core/src/IpcProtocol.cpp:109-118 | the serialiser computes `SerializeResponse` |
| IpcProtocol.Parse | libs/sony-core/src/IpcProtocol.cpp:120-147 | the parser, with its stripping loop, computes `ParseResponse` |
| IpcProtocol.ResponseRoundTrip | libs/sony-core/src/IpcProtocol.cpp:109-147 | a response survives serialisation if and only if its message has no bar and its data has no record separator and does not end in a carriage return |
| IpcProtocol.ResponseThroughSocket | libs/sony-core/src/IpcClient.cpp:89-106 | through the socket, if and only if in addition the message is one line |
| DeviceService.LinkService.Connect | libs/sony-core/src/DeviceService.cpp:38-54 | an explicit connect resets the delay; if it fails the next attempt is one second away |
| DeviceService.LinkService.ConnectDevice | libs/sony-core/src/DeviceService.cpp:56-76 | one attempt: the linked service, or an exception with the selected address recorded |
| DeviceService.LinkService.TryCandidates | libs/sony-core/src/DeviceService.cpp:160-178 | candidates are tried in order until one connects; otherwise the round fails and backs off |
| DeviceService.LinkService.Tick | libs/sony-core/src/DeviceService.cpp:125-178 | a tick does maintenance, notices a loss, waits, or makes one round |
| DeviceService.Lifecycle | libs/sony-core/src/DeviceService.cpp:38-178 | in every run the delay is one of 1, 2, 4, 8, 16, 30 seconds, determined by the failed rounds since the last reset; failed rounds are spaced by it; no round is made after a release |
| DeviceService.ReleaseIsFinal | libs/sony-core/src/DeviceService.cpp:78-86 | after a release, any ticks and link losses leave the service exactly as it was until the next request to connect |
| DeviceService.AutoConnectIsPrompt | libs/sony-core/src/DeviceService.cpp:105-112 | after a request for automatic connection the next tick without a link makes a round, on that address or on all discovered ones in order, connects to the first that succeeds, and the delay starts over at one second |
| DeviceService.FailedConnectRetries | libs/sony-core/src/DeviceService.cpp:38-54 | after a failed connect, from any reachable state, the next tick makes a round on that address if and only if one second has passed, and a failing round is followed by the next one second later |
| DeviceService.MaintenanceDue | libs/sony-core/src/DeviceService.cpp:125-136 | after a successful connect a tick asks for settings from five seconds on and every half second, for the battery from thirty seconds on, and never touches the link |
| DeviceService.StateShown | libs/sony-core/src/DeviceService.cpp:113-116 | in every run connected is only shown with a live link, a live link is shown as connected or searching, and idle or released exactly when no connection is wanted |
| DeviceService.FailureSchedules | libs/sony-core/src/DeviceService.cpp:172-178 | the k-th consecutive failed round schedules the next exactly min(30, 2^(k-1)) seconds later |
| DeviceService.RoundCondition | libs/sony-core/src/DeviceService.cpp:137-148 | a tick makes a round if and only if the link is down, connecting is wanted and not released, and its time has come or a loss is news |
| SonyDevice.DangerousPayloads | libs/sony-protocol/src/ProtocolV2.cpp:35-320 | over all payloads of both generations, 0x22 starts only the V2 battery request and the wiping bytes are only the V2 factory reset |
| SonyDevice.QueriesAwaitTheirReply | libs/sony-protocol/src/ProtocolV2.cpp:35-294 | every query of either generation waits for the reply with the next opcode and its own second byte |
| SonyDevice.RepliesDoNotCross | libs/sony-protocol/src/ProtocolV1.cpp:37-248 | such a reply satisfies no query of the generation that sends a different payload |
| SonyDevice.SettersGated | libs/sony-core/src/SonyDevice.cpp:237-369 | a setter reaches the wire exactly if there is a protocol object and the profile allows it |
| SonyDevice.RefreshesGated | libs/sony-core/src/SonyDevice.cpp:164-235 | a refresh or maintenance step asks exactly for features the profile has |
| SonyDevice.NineSteps | libs/sony-core/src/SonyDevice.cpp:390-447 | over any nine consecutive maintenance steps on a live link every advertised feature is asked for exactly once, and nothing else, unless the 32-bit step counter overflows |
| SonyDevice.BuildCustomPayload | libs/sony-protocol/src/ProtocolV1.cpp:203-210 | the equalizer loop builds the clamped custom payload |
| SonyDevice.DeviceObject.Connect | libs/sony-core/src/SonyDevice.cpp:20-82 | every connect resolves the generation anew and drops the old protocol object before the transport is opened; what it writes, when it throws, and that a link lost during the requests leaves it unconnected without an exception |
| SonyDevice.ConnectScript | libs/sony-core/src/SonyDevice.cpp:64-162 | what goes over the wire when a session comes up: the handshake, then battery, noise control, equalizer and DSEE as far as the profile has them |
| SonyDevice.DeviceObject.RefreshAll | libs/sony-core/src/SonyDevice.cpp:157-162 | the four refreshes in order |
| CommandSafety.ExecuteCustom | libs/sony-core/src/IpcProtocol.cpp:333-352 | the argument loop reads clear bass and five bands, clamped, 0 where missing or not a number |
| CommandSafety.ConnectOnDemand | libs/sony-core/src/IpcServer.cpp:117-125 | the daemon takes the link exactly if it has none, the line needs one and a device was found; a failing connect is swallowed, a failing search is not |
| CommandSafety.LinkOnDemand | libs/sony-core/src/IpcServer.cpp:117-125 | a text line changes whom the daemon is connected to exactly if there is no link, the line needs one and a device was found; a throwing search changes nothing |
| CommandSafety.LinkTakenExactly | libs/sony-core/src/IpcServer.cpp:99-116 | of the text lines with a verb exactly devices, status, raw and an unconfirmed factory reset do not take the link |
| CommandSafety.JsonLines | libs/sony-core/src/IpcProtocol.cpp:47-52 | exactly the lines that open with a brace or bracket, beyond blanks, tabs and carriage returns, are JSON |
| CommandSafety.JsonLinks | libs/sony-core/src/JsonProtocol.cpp:115-131 | a JSON connect resolves the name anew, a JSON disconnect releases the link |
| CommandSafety.JsonInert | libs/sony-core/src/JsonProtocol.cpp:80-189 | a JSON request that is malformed, or neither about the link nor passed on to the device, changes and writes nothing |
| CommandSafety.AncLine | libs/sony-core/src/IpcProtocol.cpp:268-277 | anc switches noise cancelling on unless its argument is off |
| CommandSafety.AmbientLine | libs/sony-core/src/IpcProtocol.cpp:279-298 | ambient sets the level its argument stands for, forced into 1 to 20, 10 without a number, and switches off with off |
| CommandSafety.EqCustomLine | libs/sony-core/src/IpcProtocol.cpp:333-352 | eq custom sets clear bass and the five bands from its arguments, forced into range, 0 where there is no number |
| CommandSafety.EqPresetLine | libs/sony-core/src/IpcProtocol.cpp:316-331 | any other eq line sets the preset its argument names, or none if the name is unknown |
| CommandSafety.DseeLine | libs/sony-core/src/IpcProtocol.cpp:354-364 | dsee switches on unless its argument is off |
| CommandSafety.AutoPowerOffLine | libs/sony-core/src/IpcProtocol.cpp:366-377 | autopoweroff and apo set the index their argument stands for, forced into 0 to 5 |
| CommandSafety.SpeakToChatLine | libs/sony-core/src/IpcProtocol.cpp:379-386 | speaktochat switches on unless its argument is off |
| CommandSafety.AdaptiveVolumeLine | libs/sony-core/src/IpcProtocol.cpp:388-395 | adaptivevolume switches on unless its argument is off |
| CommandSafety.ResetLine | libs/sony-core/src/IpcProtocol.cpp:404-409 | reset is the reset, whatever follows |
| CommandSafety.ReadingLines | libs/sony-core/src/IpcProtocol.cpp:156-260 | the remaining verbs report, are refused or are unknown, and none of them touches the device |
| CommandSafety.JsonPassesExactly | libs/sony-core/src/JsonProtocol.cpp:104-189 | the JSON front end passes on exactly the operations asked for with parameters in range, on a connected device with the feature |
| CommandSafety.FrontEndsAgree | libs/sony-core/src/JsonProtocol.cpp:138-189 | a text line and a JSON request with the same values give the same operation whenever the JSON gates let it through |
| CommandSafety.OutcomeWipes | libs/sony-core/src/IpcProtocol.cpp:156-212 | either front end attempts a factory reset if and only if the request is confirmed and the link is up (and, over JSON, the feature is there) |
| CommandSafety.JsonWipes | libs/sony-core/src/JsonProtocol.cpp:104-189 | the JSON gates let a factory reset through exactly for a well-formed, confirmed request on a connected device with the feature |
| CommandSafety.NoLinkNoAction | libs/sony-core/src/IpcServer.cpp:99-116 | a text line the daemon does not take the link for changes and writes nothing; an unconfirmed factory reset is such a line |
| CommandSafety.ConfirmedByClient | main.cpp:284-294 | the token the client appends after its user agreed is the confirmation the daemon asks for |
| CommandSafety.ValuesSurvive | libs/sony-core/src/IpcProtocol.cpp:268-409 | whatever operation either front end passes on, reading its payload as a headphone of either generation does gives exactly that operation: modes, levels, presets, bands, switches (two of them inverted) and power-off codes |
| CommandSafety.PayloadUnderstood | libs/sony-protocol/src/ProtocolV2.cpp:35-320 | the round trip behind it, byte by byte for every payload of either generation: a strict reading of what a setter or query sends gives that setter or query back |
| CommandSafety.AmbientAsTyped | libs/sony-core/src/IpcProtocol.cpp:279-298 | the text front end clamps on its own: the level typed is the level passed on if and only if it is 1 to 20 |
| CommandSafety.PowerOffSafety | libs/sony-core/src/SonyDevice.cpp:27-45 | in every run, 0x22 is written only by a protocol object built for V2, while the name last connected to is a V2 model with a battery reading |
| CommandSafety.FactoryResetSafety | libs/sony-core/src/SonyDevice.cpp:361-369 | in every run, the events that write the wiping bytes are exactly the confirmed requests that find a live link to a V2 model with the feature and whose write goes through; each writes them once, and nothing else does |

## Where the code does less than it might

- `start` clears the session's state before it joins the previous reader thread
  (libs/sony-protocol/src/SonyProtocolSession.cpp:35-44). `SessionStarts.StartIsSafe` says exactly when a
  frame of the previous session can then be returned in the next, and `SessionStarts.StaleResponse` gives a
  run.
- A response may have been a notification before: requests also take frames out of the queue of unmatched
  ones. `SessionHistory.ResponseOrigin` says exactly which, `SessionHistory.NotifiedResponse` gives a run.
- A failed write leaves its request armed (libs/sony-protocol/src/SonyProtocolSession.cpp:393).
  `SessionHistory.IdleSlot` says exactly when the slot is occupied between calls,
  `SessionHistory.LostExactly` which steps lose an answer in it, and `SessionHistory.LostResponse` gives a run.
- Acknowledgement numbers are never compared with the number that was sent: `SessionHistory.AnyNumberServes`,
  and `SessionHistory.AckNumbers` for when they agree.
- Chunk independence fails exactly for streams with a decodable candidate of more than 4096 bytes, where
  what is emitted depends on where a receive ends (`StreamReassembler.ChunkIndependence`).
- The legacy reader takes noise that arrives in a receive of its own for a part of the message
  (`LegacyWrapper.NoiseIsKept`, `LegacyWrapper.NoiseSpoils`).

## Left out

- Platform connectors, sockets, discovery, the transport adapters and `UnixSocket.h`: foreign calls and
  I/O, replaced by nondeterministic pipes.
- Thread creation, real clocks and fairness: steps interleave freely and clock readings are inputs.
- Stopping the daemon, its lock file and socket file; the idle release appears only as a release event.
- The outcome of `sameUser` and of `accept`: a connection that is not accepted never enters the table.
- JSON parsing and printing, response identifiers and the snapshot document: a JSON request is the record
  of its typed fields.
- Response texts of the commands, the last-error strings, logging, event dispatch and notification parsing.
- `_markSuccess`, `_markError` and the feature map of `SonyDevice`, and the decoding of battery, noise
  control, equalizer, firmware and codec replies: fixed byte layouts that would only add easy members.
- `setVpt` and `setSoundPosition` of the first generation: no front end reaches them.
- The tables of profiles and equalizer presets, which are inputs; `CapabilityCache` and
  `CapabilityDiscovery`.
- LegacyWrapper.BluetoothWrapper.ReadMessage: requires a START and a delimiter after it to be on their way,
  because the call otherwise waits for ever.
- The legacy wrapper's commands.
- The Debug-only raw command.
- `Headphones` and `ByteMagic`: thin wrappers over the same codec.
- Failures of `std::stoi` beyond `int` are the parser's None; allocation failure is not modelled.
