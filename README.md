# Spinel protocol engine (WpanApi) in Dafny

This project models the protocol engine of a host-side driver for an
OpenThread network co-processor (NCP) that speaks the Spinel protocol over a
serial link. The engine is the class `WpanApi`. It composes outbound packets
(a header/TID byte, the packed command id, then the payload). It screens
received frames and queues them in `waitingQueue`. It correlates queued
frames with the one outstanding synchronous property get or set: the
matching frame becomes the response and every other frame goes to the
`FrameDataReceived` subscriber, in arrival order. The property setters count
a set as successful only when the NCP echoes the requested value.

Layout:

- `spinel.dfy` (module `Spinel`): bytes, decoded response values,
  `FrameData`, the error kinds, and the collaborators whose code is not part
  of this model. The value encoder, the frame decoder, `Utilities.GetUID`,
  `FrameData.UID` and the numeric command and property constants are fields
  of the `Codec` and `Constants` records. Every proof holds for every choice
  of them.
- `packet.dfy` (module `SpinelPacket`): packet and property-payload composition.
- `receive.dfy` (module `SpinelReceive`): screening done by `ParseRX`, and
  what one receive pass queues.
- `correlation.dfy` (module `Correlation`): the drain pass of a synchronous
  exchange, meaning the response it keeps and the frames it forwards.
- `echo.dfy` (module `Echo`): the setters' echo comparison, including the
  casts that can fail.
- `wpan_api.dfy` (module `NCP`): the class `WpanApi`. Its state is the queue,
  the `isSyncFrameExpecting` flag (`syncExpecting`), and ghost logs of the
  packets sent (`sent`) and of the frames delivered to the subscriber
  (`forwarded`).
- `scenarios.dfy` (module `Scenarios`): client runs that use only the
  engine's contracts.

Concurrency is sequenced. The engine has a transmit lock, a receive lock,
an `AutoResetEvent` and a 155-second `WaitOne`. In the model, a synchronous
exchange takes `rx`, the frames the transport delivers while the caller
waits, and `signalled`, the outcome of `WaitOne`. While the caller waits the
exchange owns the queue, so the receive path run on `rx` only enqueues.

Behaviour of the code that the model keeps:

- After a timeout, after a wait that ends on an empty queue, and after a
  drain in which no frame matched, `PropertyChangeValue` leaves
  `isSyncFrameExpecting` set. While it is set, `StreamDataReceived` stops
  forwarding unsolicited frames. `Scenarios.UnsolicitedAfterTimeout` shows
  this.
- A drained queue with no matching frame returns null rather than raising a
  missing-response error. Only an empty queue raises "No response packet".
- When several queued frames match, each one overwrites the last. The
  response is the last match, and earlier matches are neither returned nor
  forwarded.
- `ParseRX`'s decoder switch has no case for the key sequence counter, the
  partition id, the PSKc or the counters-reset property, so frames about
  them are queued with a null `Response`. `SetNetKeySequenceCounter` and
  `SetNetPartitionId` therefore end in a null-reference error once their
  answer arrives, and `SetNetNetworkPSKC` returns false: none of the three
  can report success. `Echo.UndecodedEchoNeverConfirms` and
  `Scenarios.KeySequenceCounterNeverConfirmed` show this.

## Model

| member | source | states |
|---|---|---|
| SpinelPacket.EncodePacket | dotNETCore.OpenThread/OpenThreadDotNet/OpenThreadDotNet/NCP/WpanApi.cs:945-961 | The packet is exactly the TID byte, then the encoded command id, then the payload (nothing for a null payload), and its length is the sum of the three. |
| SpinelPacket.SplitEncodePacket | dotNETCore.OpenThread/OpenThreadDotNet/OpenThreadDotNet/NCP/WpanApi.cs:945-961 | Reading a packet back for its command recovers the TID and the payload it was built from. |
| SpinelPacket.EncodePacketInjective | dotNETCore.OpenThread/OpenThreadDotNet/OpenThreadDotNet/NCP/WpanApi.cs:949-958 | Two packets for one command are equal iff their TIDs and payload bytes are equal, so a null payload and an empty one go out identically. |
| SpinelPacket.PropertyPayload | dotNETCore.OpenThread/OpenThreadDotNet/OpenThreadDotNet/NCP/WpanApi.cs:993-998 | The property payload starts with the encoded property id. The value follows it only when a format is given. |
| SpinelPacket.GetPacketLayout | dotNETCore.OpenThread/OpenThreadDotNet/OpenThreadDotNet/NCP/WpanApi.cs:1320-1323 | A get (null format) transmits TID, get command and property id and nothing else, whatever value is passed. |
| SpinelPacket.SetPacketLayout | dotNETCore.OpenThread/OpenThreadDotNet/OpenThreadDotNet/NCP/WpanApi.cs:1353-1356 | A set transmits TID, set command, property id, then the value bytes. |
| SpinelReceive.Screen | dotNETCore.OpenThread/OpenThreadDotNet/OpenThreadDotNet/NCP/WpanApi.cs:1096-1317 | A frame fails with a header-parsing error iff its header lacks bit 0x80. It is dropped iff the header is valid and it is a child-table insert or remove notification. Otherwise it yields one FrameData with the frame's property id, header and load, and with the decoder's response, which is null for a property the switch has no case for. |
| SpinelReceive.FirstRejected | dotNETCore.OpenThread/OpenThreadDotNet/OpenThreadDotNet/NCP/WpanApi.cs:1071-1076 | A receive pass parses frames up to the first bad header, where ParseRX's exception ends it. Every earlier header is valid. |
| SpinelReceive.EnqueuedMembers | dotNETCore.OpenThread/OpenThreadDotNet/OpenThreadDotNet/NCP/WpanApi.cs:1089-1318 | A pass queues at most one entry per frame. An entry is queued iff some frame screens to exactly that entry. |
| SpinelReceive.EnqueuedInOrder | dotNETCore.OpenThread/OpenThreadDotNet/OpenThreadDotNet/NCP/WpanApi.cs:1315-1317 | When every frame is accepted, the i-th queued entry is the FrameData of the i-th frame. |
| Correlation.UnmatchedMembers | dotNETCore.OpenThread/OpenThreadDotNet/OpenThreadDotNet/NCP/WpanApi.cs:1026-1034 | A frame is forwarded iff it was queued and its UID differs from the request's. |
| Correlation.UnmatchedAppend | dotNETCore.OpenThread/OpenThreadDotNet/OpenThreadDotNet/NCP/WpanApi.cs:1022-1035 | Forwarding keeps queue order: forwarding a + b gives a's forwarded frames followed by b's. |
| Correlation.UnmatchedAllForeign | dotNETCore.OpenThread/OpenThreadDotNet/OpenThreadDotNet/NCP/WpanApi.cs:1022-1035 | When nothing matches, the whole queue is forwarded in order and the response is null. |
| Correlation.DrainPartition | dotNETCore.OpenThread/OpenThreadDotNet/OpenThreadDotNet/NCP/WpanApi.cs:1022-1035 | The forwarded frames and the matching frames together make up the queue exactly, as multisets and by count. |
| Correlation.LastMatchIsLastMatched | dotNETCore.OpenThread/OpenThreadDotNet/OpenThreadDotNet/NCP/WpanApi.cs:1026-1030 | The response is the last of the matching frames, or null when there are none. |
| Correlation.LastMatchSpec | dotNETCore.OpenThread/OpenThreadDotNet/OpenThreadDotNet/NCP/WpanApi.cs:1026-1030 | The response is null iff no queued frame has the request's UID. Otherwise it is a queued frame with that UID, and no later frame has it. |
| Correlation.OutOfOrderResponse | dotNETCore.OpenThread/OpenThreadDotNet/OpenThreadDotNet/NCP/WpanApi.cs:1020-1042 | An unrelated frame followed by the answer: the answer is returned and the unrelated frame alone is forwarded. |
| Echo.EchoUnboxed | dotNETCore.OpenThread/OpenThreadDotNet/OpenThreadDotNet/NCP/WpanApi.cs:242-254 | An unboxing setter returns true iff a response frame exists and its value is the requested one. It returns false iff there is no frame, or the value has the right type but differs. A null Response gives a null-reference error, a value of another type a cast error, and exchange errors pass through. |
| Echo.EchoText | dotNETCore.OpenThread/OpenThreadDotNet/OpenThreadDotNet/NCP/WpanApi.cs:158-170 | A text setter returns true iff a response exists and its ToString equals the name. With a non-null Response, the result is whether its ToString equals the name. No frame gives false, a null Response gives a null-reference error, and exchange errors pass through. |
| Echo.EchoData | dotNETCore.OpenThread/OpenThreadDotNet/OpenThreadDotNet/NCP/WpanApi.cs:284-296 | A byte-array setter returns true iff the response is a byte array equal to the requested bytes. No frame and a null Response both give false, a byte-array response gives whether the bytes are equal, a response of another type gives a cast error, and exchange errors pass through. |
| Echo.TextEchoExact | dotNETCore.OpenThread/OpenThreadDotNet/OpenThreadDotNet/NCP/WpanApi.cs:740-752 | With a string response, the text setter's result is exactly whether the two strings are equal. |
| Echo.UndecodedEchoNeverConfirms | dotNETCore.OpenThread/OpenThreadDotNet/OpenThreadDotNet/NCP/WpanApi.cs:1116-1317 | For a property with no decoder case, once the answer is found an unboxing setter fails with a null-reference error and a byte-array setter returns false. Neither can succeed. |
| Echo.NetworkNameEchoCaseSensitive | dotNETCore.OpenThread/OpenThreadDotNet/OpenThreadDotNet/NCP/WpanApi.cs:158-170 | Setting "OpenThread" succeeds on the echo "OpenThread" and fails on the echo "openthread". |
| NCP.WpanApi.constructor | dotNETCore.OpenThread/OpenThreadDotNet/OpenThreadDotNet/NCP/WpanApi.cs:19-43 | A new engine has an empty queue, no synchronous exchange, and nothing sent or forwarded. |
| NCP.WpanApi.Transact | dotNETCore.OpenThread/OpenThreadDotNet/OpenThreadDotNet/NCP/WpanApi.cs:934-943 | Exactly one packet, EncodePacket of the arguments, is handed to the writer, and nothing else changes. |
| NCP.WpanApi.DoReset | dotNETCore.OpenThread/OpenThreadDotNet/OpenThreadDotNet/NCP/WpanApi.cs:53-56 | Sends the default header byte and the reset command, with no payload. |
| NCP.WpanApi.ParseRX | dotNETCore.OpenThread/OpenThreadDotNet/OpenThreadDotNet/NCP/WpanApi.cs:1089-1318 | A bad header gives an error and leaves the queue unchanged. A child-table notification leaves the queue unchanged. Any other frame appends exactly the FrameData that screening yields at the tail, with earlier entries unchanged. |
| NCP.WpanApi.StreamDataReceived | dotNETCore.OpenThread/OpenThreadDotNet/OpenThreadDotNet/NCP/WpanApi.cs:964-987 | The accepted frames of the pass are queued. While a synchronous exchange is expected, or after a header error, the queue keeps them. Otherwise every queued frame is forwarded in FIFO order and the queue ends empty. |
| NCP.WpanApi.PropertyChangeValue | dotNETCore.OpenThread/OpenThreadDotNet/OpenThreadDotNet/NCP/WpanApi.cs:989-1043 | One packet is sent. Without waiting it returns null, clears the sync flag and leaves the queue alone. A failed wait is a timeout and an empty queue is "no response", both leaving the flag set. Otherwise the queue is drained, non-matching frames are forwarded in order, the last match is returned, and the flag is cleared iff a match was found. |
| NCP.WpanApi.DrainForResponse | dotNETCore.OpenThread/OpenThreadDotNet/OpenThreadDotNet/NCP/WpanApi.cs:1020-1036 | The queue ends empty. The frames whose UID differs are forwarded in dequeue order. The result is the last frame whose UID matched, or null. The sync flag ends cleared iff a match was found. |
| NCP.WpanApi.PropertyGetValue | dotNETCore.OpenThread/OpenThreadDotNet/OpenThreadDotNet/NCP/WpanApi.cs:1320-1323 | A get sends TID, get command and property id, waits, and has the exchange's outcome and effect. |
| NCP.WpanApi.PropertySetValue | dotNETCore.OpenThread/OpenThreadDotNet/OpenThreadDotNet/NCP/WpanApi.cs:1353-1356 | A byte-array set sends TID, set command, property id and value bytes, then behaves as PropertyChangeValue with the caller's waitResponse. |
| NCP.WpanApi.PropertySetTyped | dotNETCore.OpenThread/OpenThreadDotNet/OpenThreadDotNet/NCP/WpanApi.cs:1325-1351 | A typed set encodes the value with its format, then sends it with the default TID and waits. |
| NCP.WpanApi.SetUnboxed | dotNETCore.OpenThread/OpenThreadDotNet/OpenThreadDotNet/NCP/WpanApi.cs:186-198 | The result is the unboxing echo check of the exchange's outcome. The state is that of a waited-for set. |
| NCP.WpanApi.SetText | dotNETCore.OpenThread/OpenThreadDotNet/OpenThreadDotNet/NCP/WpanApi.cs:158-170 | The result is the text echo check of a "U" set of the string. |
| NCP.WpanApi.SetData | dotNETCore.OpenThread/OpenThreadDotNet/OpenThreadDotNet/NCP/WpanApi.cs:284-296 | The result is the byte-array echo check of a "D" set of the raw bytes. |
| NCP.WpanApi.SetFlag | dotNETCore.OpenThread/OpenThreadDotNet/OpenThreadDotNet/NCP/WpanApi.cs:639-660 | Sends byte 1 or 0 with format "b" and succeeds iff the boolean is echoed. |
| NCP.WpanApi.DoNetworkName | dotNETCore.OpenThread/OpenThreadDotNet/OpenThreadDotNet/NCP/WpanApi.cs:158-170 | Succeeds iff the response frame exists and its text is the requested name. |
| NCP.WpanApi.SetNetNetworkName | dotNETCore.OpenThread/OpenThreadDotNet/OpenThreadDotNet/NCP/WpanApi.cs:740-752 | Same check as DoNetworkName. |
| NCP.WpanApi.DoNetRole | dotNETCore.OpenThread/OpenThreadDotNet/OpenThreadDotNet/NCP/WpanApi.cs:186-198 | Succeeds iff the echoed byte is the requested role. |
| NCP.WpanApi.SetNetRole | dotNETCore.OpenThread/OpenThreadDotNet/OpenThreadDotNet/NCP/WpanApi.cs:712-724 | Succeeds iff the echoed role byte is the requested role. |
| NCP.WpanApi.DoPowerState | dotNETCore.OpenThread/OpenThreadDotNet/OpenThreadDotNet/NCP/WpanApi.cs:214-226 | Succeeds iff the echoed byte is the requested power state. |
| NCP.WpanApi.DoChannel | dotNETCore.OpenThread/OpenThreadDotNet/OpenThreadDotNet/NCP/WpanApi.cs:242-254 | Succeeds iff the echoed byte is the requested channel. |
| NCP.WpanApi.DoChannelsMask | dotNETCore.OpenThread/OpenThreadDotNet/OpenThreadDotNet/NCP/WpanApi.cs:284-296 | Succeeds iff the echoed byte array equals the requested mask. |
| NCP.WpanApi.DoPanId | dotNETCore.OpenThread/OpenThreadDotNet/OpenThreadDotNet/NCP/WpanApi.cs:312-324 | Succeeds iff the echoed 16-bit value is the requested PAN id. |
| NCP.WpanApi.DoXpanId | dotNETCore.OpenThread/OpenThreadDotNet/OpenThreadDotNet/NCP/WpanApi.cs:340-352 | Succeeds iff the echoed bytes equal the requested extended PAN id. |
| NCP.WpanApi.SetNetXPANId | dotNETCore.OpenThread/OpenThreadDotNet/OpenThreadDotNet/NCP/WpanApi.cs:768-780 | Same check as DoXpanId. |
| NCP.WpanApi.DoInterfaceConfig | dotNETCore.OpenThread/OpenThreadDotNet/OpenThreadDotNet/NCP/WpanApi.cs:439-460 | Sends 1 or 0 and succeeds iff the echoed boolean is the requested interface state. |
| NCP.WpanApi.SetNetIfUp | dotNETCore.OpenThread/OpenThreadDotNet/OpenThreadDotNet/NCP/WpanApi.cs:639-660 | Same check as DoInterfaceConfig. |
| NCP.WpanApi.DoThread | dotNETCore.OpenThread/OpenThreadDotNet/OpenThreadDotNet/NCP/WpanApi.cs:475-496 | Sends 1 or 0 and succeeds iff the echoed boolean is the requested stack state. |
| NCP.WpanApi.SetNetStackUp | dotNETCore.OpenThread/OpenThreadDotNet/OpenThreadDotNet/NCP/WpanApi.cs:675-696 | Same check as DoThread. |
| NCP.WpanApi.DoPropertyNetRequireJoinExisting | dotNETCore.OpenThread/OpenThreadDotNet/OpenThreadDotNet/NCP/WpanApi.cs:544-565 | Sends 1 or 0 and succeeds iff the echoed boolean is the requested state. |
| NCP.WpanApi.DoMasterkey | dotNETCore.OpenThread/OpenThreadDotNet/OpenThreadDotNet/NCP/WpanApi.cs:512-524 | Succeeds iff the echoed bytes equal the requested key. |
| NCP.WpanApi.SetNetNetworkKey | dotNETCore.OpenThread/OpenThreadDotNet/OpenThreadDotNet/NCP/WpanApi.cs:796-808 | Same check as DoMasterkey. |
| NCP.WpanApi.SetNetNetworkPSKC | dotNETCore.OpenThread/OpenThreadDotNet/OpenThreadDotNet/NCP/WpanApi.cs:904-916 | The result is the byte-array echo check of a "D" set of the PSKc. The echoed frame has a null Response, so the setter returns false or an exchange error and never succeeds. |
| NCP.WpanApi.SetNetKeySequenceCounter | dotNETCore.OpenThread/OpenThreadDotNet/OpenThreadDotNet/NCP/WpanApi.cs:824-836 | The result is the unboxing echo check of an "L" set of the counter. The echoed frame has a null Response, so a found answer gives a null-reference error and the setter never succeeds. |
| NCP.WpanApi.SetNetPartitionId | dotNETCore.OpenThread/OpenThreadDotNet/OpenThreadDotNet/NCP/WpanApi.cs:852-864 | The result is the unboxing echo check of an "L" set of the partition id. The echoed frame has a null Response, so a found answer gives a null-reference error and the setter never succeeds. |
| NCP.WpanApi.DoScan | dotNETCore.OpenThread/OpenThreadDotNet/OpenThreadDotNet/NCP/WpanApi.cs:539-542 | Sets the scan state. It fails exactly with the exchange's own error (timeout or no response), succeeds otherwise, and never inspects the response. |
| NCP.WpanApi.DoCountersReset | dotNETCore.OpenThread/OpenThreadDotNet/OpenThreadDotNet/NCP/WpanApi.cs:575-578 | Writes 1 to the counters-reset property. It fails exactly with the exchange's own error and succeeds otherwise. |
| NCP.WpanApi.DoSendData | dotNETCore.OpenThread/OpenThreadDotNet/OpenThreadDotNet/NCP/WpanApi.cs:567-572 | Sends the length-prefixed frame on the stream property with TID 129. Without waiting it is fire-and-forget and leaves the queue alone. When waiting, it fails exactly with the exchange's own error. |
| Scenarios.OutOfOrderExchange | dotNETCore.OpenThread/OpenThreadDotNet/OpenThreadDotNet/NCP/WpanApi.cs:1013-1042 | An unrelated frame and then the answer arrive during a get. The caller receives the answer, the subscriber receives exactly the unrelated frame, and the engine ends with an empty queue and no exchange outstanding. |
| Scenarios.ReceivedBoth | dotNETCore.OpenThread/OpenThreadDotNet/OpenThreadDotNet/NCP/WpanApi.cs:1315-1317 | Two accepted frames are both queued, in arrival order. |
| Scenarios.KeySequenceCounterNeverConfirmed | dotNETCore.OpenThread/OpenThreadDotNet/OpenThreadDotNet/NCP/WpanApi.cs:824-836 | Setting the key sequence counter on a fresh engine never returns true, and a found answer ends in a null-reference error. |
| Scenarios.UnsolicitedAfterTimeout | dotNETCore.OpenThread/OpenThreadDotNet/OpenThreadDotNet/NCP/WpanApi.cs:1015-1018 | After a get times out, the frames of the next receive pass stay queued and are not delivered to the subscriber. |

## Left out

- The per-property getters (`DoLastStatus`, `DoCaps`, `GetNet*`, …). Each casts `Response` and turns a cast failure into a format-violation exception. They add no protocol logic.
- The `NotImplementedException` stubs (`GetNetRequireJoinExisting` and the three beside it) and `Open`, which only opens the transport.
- `StreamRX`: its polling of `IsDataAvailable` against the wall clock is transport I/O. A receive pass is modelled as the sequence of frames the HDLC reader returns.
- HDLC framing, `SpinelEncoder`, `SpinelDecoder`, `Utilities.GetUID`, `Utilities.CombineArrays` (modelled as concatenation), `Utilities.ByteArrayCompare` on two non-null arrays (modelled as sequence equality) and `FrameData.UID`. Their code is not part of this model. They appear as the uninterpreted fields of `Codec`, and the numeric Spinel command and property ids as the fields of `Constants`.
- Exceptions that the decoder itself may throw on a short frame are not modelled. `ParseRX` fails only on the header check.
- Locks, the `AutoResetEvent` and the 155-second timeout. The wait is the boolean `signalled`, and frames that arrive during it are the parameter `rx`. Interleavings where a second caller runs inside a first caller's exchange are not modelled.
- An exception from `ParseRX` propagates out of the receive handler. The model returns it from `StreamDataReceived` and drops the rest of that pass's frames. The caller of `PropertyChangeValue` never sees it.
- `FrameDataReceived` with no subscriber attached raises a null-reference error in the source. The model assumes a subscriber and records deliveries in the ghost log `forwarded`.
- Echo.EchoData: `Utilities.ByteArrayCompare` on a null array (a property with no decoder case) is not part of this model. The model treats it as unequal, so the setter returns false.
- The cases of `ParseRX`'s decoder switch are the uninterpreted `Codec.decodeResponse`. Which properties have no case is modelled (`Spinel.NoDecoderCase`), but what each case decodes is not.
- Echo.EchoText: ToString of a non-string response is the uninterpreted `Codec.render`.
- NCP.WpanApi.DoPropertyNetRequireJoinExisting: the source's name `DoProperty_NET_REQUIRE_JOIN_EXISTING` is written in Dafny style.
- NCP.WpanApi.SetNetRole: takes the role's byte value, because the `SpinelNetRole` enum is not part of this model.
