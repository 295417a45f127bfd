# A verified model of srt-protocol

`srt-protocol` implements SRT (draft-sharabayko-srt) on top of UDT (draft-gg-udt-03) as state
machines without I/O. This project models its hardest parts in Dafny and proves what they promise.
`dafny verify dfyconfig.toml` checks all files together.

| part | files |
|---|---|
| 31-bit sequence numbers and loss lists | SeqNumber, LossCompression, Arithmetic |
| sending: splitting, buffer, NAKs, flow window, pacing | Split, Stream, Encapsulation, SendModel, SendBuffer, SendAlgorithm, Timer, Sender |
| receiving: reordering, release, too-late drop, ACKs | ReceiveModel, ReceiveBuffer, AckHistory, TimeSpan |
| both ends over a network | Delivery, SenderSteps, LossRepair |
| key wrap and stream keys | KeyWrap, SimpleCiphers, StreamKeys, ByteValues |
| key refresh, both ends | KeyRefresh, KeyExchange, RefreshSchedule |
| handshake negotiation, rendezvous, caller and listener | Hsv5, Rendezvous, CallerListener |
| wire form of data packets and strings | Packet, Codec |

The stateful objects of the source are classes whose methods keep the wire values (31-bit numbers,
bytes, maps) and a ghost unbounded position. Each method is proved against a function on unbounded
values, and the properties that span operations are proved of those functions: an invariant that
every step keeps, and theorems about every run. A run is any sequence of steps; the network is a set
of everything ever sent, any of which may arrive any number of times, in any order, or never.

Main results, by the member that states them:

- `Deliveries.MessagesArriveWholeInOrderOnce`, `Deliveries.EveryNumberIsReleasedOrGivenUpOnce`,
  `Deliveries.AcknowledgedIsReceivedOrGivenUp`, `Deliveries.AckPointNeverMovesBack`,
  `Deliveries.SenderStaysInBounds`, `Deliveries.HeldMessageIsReleased`: end-to-end integrity,
  conservation, acknowledgement safety, sender safety and progress over every run;
  `Deliveries.ReleasedOnTime`: nothing is released early; `Deliveries.MessagesGetThrough` and
  `LossRepair.MessageSurvivesLoss` show that such runs do deliver, after a loss too, and
  `SenderSteps.SenderTakesConnectionSteps` that the sender object takes only such steps.
- `RendezvousMode.PeersAgree` and `CallerListener.EndsAgree`: agreement of the two sides of a
  handshake over every run; `RendezvousMode.EveryRunCanConnect` and `CallerListener.EveryCallCanConnect`:
  whatever was lost, the two sides can still be connected.
- `KeyExchange.NewPacketsAreReadable`, `KeyExchange.SwitchOnlyWhenConfirmed`,
  `KeyExchange.RetiredKeyIsKept`, `KeyExchange.OldPacketsStayReadable`: key-refresh safety over every run;
  `RefreshSchedule.RefreshedOnSchedule`, `RefreshSchedule.UnconfirmedIsRepeated`: and its timing.
- `KeyWraps.UnwrapUndoesWrap`, `StreamKeys.UnwrapsToWrapped`, `Codec.ParseUndoesSerialize`,
  `Codec.SerializeUndoesParse`, `LossCompression.ReadBackExactly`: inverses, each an if-and-only-if
  or both ways round.
- `SendAlgorithms.OnSndEvent`, `Timers.CountsAddUp`, `Senders.Sender.Serve`,
  `Senders.EveryRunIsSafe`, `Senders.EveryRunKeepsPace`, `Senders.BusyRunKeepsUp`: the sending
  algorithm, what every run of a sender sends, and its pace from above and below.

Where the code does not meet a property everywhere, the exact condition is proved for all inputs,
with a concrete case:

- a loss list with a run across 2^31 is not read back (`LossCompression.ReadBackExactly`,
  `LossCompression.RunAtTheWrapIsNotReadBack`);
- a raw index is wrong across the wrap (`ReceiveBuffers.ClampExact`,
  `ReceiveBuffers.ClampAcrossTheWrapIsZero`), so a drop request across it selects the wrong slots or
  stops the source (`ReceiveBuffers.DropIsExact`, `ReceiveBuffers.DropIsDefined`,
  `ReceiveBuffers.DropAcrossTheWrapStops`);
- a too-late drop that reaches 2^31 leaves its slots behind (`ReceiveBuffers.DropKeepsNumbering`,
  `ReceiveBuffers.DropAtTheWrapLeavesItsPacketBehind`);
- evicting a packet that was never sent breaks the order of the send buffer (`SendModel.PushSafe`,
  `SendModel.EvictingUnsentBreaks`): nothing new goes out until a too-late drop
  (`SendModel.OvertakenSenderStalls`, `SendModel.DropReleasesStalled`), and a loss report may stop
  the source (`SendAlgorithms.StuckExample`); all else stays exact, which is what `Counted` says and
  every method of the buffer keeps, and all results above but `Deliveries.SenderStaysInBounds` hold of
  such runs too;
- a timer entry left behind by a too-late drop or an eviction (srt-protocol/src/protocol/sender/buffer.rs:69)
  blocks all later timeouts (`SendBuffers.TopDecides`, `Senders.BlockedQueueStaysBlocked`,
  `SendAlgorithms.StaleTopExample`);
- a reordered key request undoes a newer one (`KeyExchange.RequestAgrees`,
  `KeyExchange.ReorderingBreaks`);
- cookies exactly 2^31 apart give both peers one role (`RendezvousMode.RolesDiffer`,
  `RendezvousMode.CookiesHalfApart`);
- a string ending in NUL loses it unless its last word holds one byte (`Codec.TextUndoesWords`,
  `Codec.TrailingNulIsLost`).

Where the source panics, or overflows a sequence or acknowledgement number, on an input, the method
answers None, Stops, Stopped, Unimplemented, Unreadable, Overflows or another value of its own, and
its contract says for which inputs. Arithmetic on time stamps and time spans wraps at 32 bits, as in
a build without overflow checks. Two comments of the source disagree with its code, and the code is
followed: the byte count of the send buffer is not the sum of the wire sizes after a too-late drop
(srt-protocol/src/protocol/sender/buffer.rs:24), and the sequence number comparison answers Less both
ways at exactly half the number space.

## Model

| member | source | states |
|---|---|---|
| `SeqNumbers.UnwrapExact` | srt-protocol/src/packet/modular_num.rs:97-130 | a 31-bit number unwrapped next to a position gives back the unbounded number if and only if the two are within half the number space |
| `SeqNumbers.CompareIsOrder` | srt-protocol/src/packet/modular_num.rs:114-130 | modular comparison with a position is integer comparison of the unwrapped number, for every 31-bit number |
| `SeqNumbers.WindowOrder` | srt-protocol/src/packet/modular_num.rs:97-130 | inside a window of 2^30, modular order and distance are integer order and distance |
| `SeqNumbers.OrderIsAntisymmetric` | srt-protocol/src/packet/modular_num.rs:114-130 | two different numbers are ordered one way round if and only if they are not exactly 2^30 apart |
| `SeqNumbers.WireAdd` | srt-protocol/src/packet/modular_num.rs:68-93 | modular addition and subtraction commute with wrapping an unbounded number |
| `SeqNumbers.Nearest` | srt-protocol/src/packet/modular_num.rs:114-130 | the unwrapped position has the given wire number and lies within half the number space of the anchor |
| `LossCompression.DecompressUndoesCompress` | srt-protocol/src/packet/control/loss_compression.rs:17-138 | decompressing a compressed list gives the list back, for every list with no run from 2^31 - 1 to 0 |
| `LossCompression.CrossingRunIsNotReadBack` | srt-protocol/src/packet/control/loss_compression.rs:97-138 | a list of distinct numbers with such a run is never read back |
| `LossCompression.ReadBackExactly` | srt-protocol/src/packet/control/loss_compression.rs:17-138 | for distinct numbers, reading back succeeds if and only if no run crosses the end of the number space |
| `LossCompression.RunAtTheWrapIsNotReadBack` | srt-protocol/src/packet/control/loss_compression.rs:97-138 | the smallest such list, 2^31 - 1 and 0, is written and cannot be read |
| `LossCompression.HeadRunShape` | srt-protocol/src/packet/control/loss_compression.rs:97-138 | the first run is read back whole, or not at all if it wraps |
| `LossCompression.RangeIsItsEnumeration` | srt-protocol/src/packet/control/mod.rs:894-905 | a range is compressed exactly as its enumeration would be, and refused exactly when it is longer than 2^30 |
| `LossCompression.CompressLossList.constructor` | srt-protocol/src/packet/control/loss_compression.rs:80-89 | the words to come are the compression of the list |
| `LossCompression.CompressLossList.Next` | srt-protocol/src/packet/control/loss_compression.rs:17-76 | each call takes the next word off the compression of the remaining list; the ordering assertion cannot fail |
| `LossCompression.CompressLossList.Turn` | srt-protocol/src/packet/control/loss_compression.rs:29-75 | one turn of the loop either settles on the next word or extends the open run |
| `LossCompression.CompressAll` | srt-protocol/src/packet/control/mod.rs:885-892 | the collected words are the compression of any ascending list |
| `LossCompression.DecompressLossList.constructor` | srt-protocol/src/packet/control/loss_compression.rs:140-145 | the numbers to come are the decompression of the words |
| `LossCompression.DecompressLossList.Next` | srt-protocol/src/packet/control/loss_compression.rs:97-138 | for any words, each call takes the next number off their decompression; the source stops exactly where they are not well formed |
| `LossCompression.DecompressAll` | srt-protocol/src/packet/control/loss_compression.rs:97-145 | for any words the iterator yields their decompression, or stops where they are not well formed |
| `ReceiveModel.FirstGap` | srt-protocol/src/protocol/receiver/buffer.rs:514-521 | the first slot that is not held, with everything before it held |
| `ReceiveModel.BelowLrsnIsHeld` | srt-protocol/src/protocol/receiver/buffer.rs:514-521 | every unreleased number below the acknowledgement point is held |
| `ReceiveModel.LrsnMonotone` | srt-protocol/src/protocol/receiver/buffer.rs:514-521 | the acknowledgement point does not move back if no held slot is forgotten |
| `ReceiveModel.PushSafe` | srt-protocol/src/protocol/receiver/buffer.rs:252-263 | arrival keeps numbering and capacity, never moves the acknowledgement point back, forgets nothing and stores at most the packet that arrived |
| `ReceiveModel.PushExact` | srt-protocol/src/protocol/receiver/buffer.rs:366-441 | arrival of n, slot by slot: n is stored if and only if its slot is lost, or it lies past the end and within the capacity; what it skips becomes lost; every other slot stays |
| `ReceiveModel.RecoveryClosesGap` | srt-protocol/src/protocol/receiver/buffer.rs:406-425 | a lost packet that arrives again is then held and nothing else changes, and if it was the first gap the acknowledgement point moves past it |
| `ReceiveModel.ReleasedExactlyWhenDue` | srt-protocol/src/protocol/receiver/buffer.rs:265-293 | c packets are released if and only if they are a whole message in front and its time plus the latency has passed |
| `ReceiveModel.GivenUpExactlyWhenLate` | srt-protocol/src/protocol/receiver/buffer.rs:462-500 | c packets are given up if and only if that is switched on, the front is absent or due and incomplete, and c is the longest prefix that ends in a held packet and has no message start within latency and tolerance |
| `ReceiveModel.DropRangeExact` | srt-protocol/src/protocol/receiver/buffer.rs:348-356 | a drop request turns the lost slots of its range into dropped ones under their number and leaves every other slot |
| `ReceiveModel.FeedbackExact` | srt-protocol/src/protocol/receiver/buffer.rs:323-345 | a loss report backs off exactly the lost slots whose backoff has passed |
| `ReceiveModel.ReadyNumbersExact` | srt-protocol/src/protocol/receiver/buffer.rs:323-345 | a number is reported if and only if a lost slot has it whose backoff has passed |
| `ReceiveModel.ReadyNumbersCount` | srt-protocol/src/protocol/receiver/buffer.rs:323-345 | and as often as there are such slots |
| `ReceiveModel.CountIsMessage` | srt-protocol/src/protocol/receiver/buffer.rs:450-458 | the message fold answers c if and only if the first c slots are one whole message |
| `ReceiveModel.MessageExactly` | srt-protocol/src/protocol/receiver/buffer.rs:450-458 | in terms of the packets alone: held, of one message number, the first marked first and only the last marked last |
| `ReceiveModel.LostCountExact` | srt-protocol/src/protocol/receiver/buffer.rs:348-356 | a drop request counts as many as were lost |
| `ReceiveModel.LateCount` | srt-protocol/src/protocol/receiver/buffer.rs:462-500 | a too-late drop ends in a packet that is held |
| `ReceiveModel.LateCountMaximal` | srt-protocol/src/protocol/receiver/buffer.rs:462-500 | any longer prefix ending in a held packet contains the start of a message that is still on time |
| `ReceiveModel.PopIsInRange` | srt-protocol/src/protocol/receiver/buffer.rs:265-293 | a release is always a whole message, and a drop is never empty or beyond the buffer |
| `ReceiveModel.AdvanceSafe` | srt-protocol/src/protocol/receiver/buffer.rs:299-321 | releasing from the front keeps numbering and everything else held, and never moves the acknowledgement point back |
| `ReceiveModel.KeepsGaps` | srt-protocol/src/protocol/receiver/buffer.rs:323-356 | loss reports and drop requests change no held slot and not the acknowledgement point |
| `ReceiveBuffers.ClampedIndex` | srt-protocol/src/protocol/receiver/buffer.rs:248-250 | a clamped index is never past the end of the buffer |
| `ReceiveBuffers.ClampExact` | srt-protocol/src/protocol/receiver/buffer.rs:248-250 | the raw clamped index is the clamped position if and only if the buffer is empty or the number is on its side of the wrap |
| `ReceiveBuffers.ClampAcrossTheWrapIsZero` | srt-protocol/src/protocol/receiver/buffer.rs:248-250 | the concrete case: position 2^31 has index 0 in a buffer that starts one before it |
| `ReceiveBuffers.DropIsExact` | srt-protocol/src/protocol/receiver/buffer.rs:348-356 | a drop request selects exactly the slots at its positions if and only if both its ends lie on one side of the wrap, and no slot is in it beyond the buffer's side |
| `ReceiveBuffers.DropIsDefined` | srt-protocol/src/protocol/receiver/buffer.rs:348-356 | exactly when the indices of a drop request do not run backwards, on which the source stops |
| `ReceiveBuffers.DropAcrossTheWrapStops` | srt-protocol/src/protocol/receiver/buffer.rs:348-356 | the concrete case: an honest request for 2^31 - 2 to 1 has indices 3 and 0 |
| `ReceiveBuffers.DropKeepsNumbering` | srt-protocol/src/protocol/receiver/buffer.rs:500-512 | a too-late drop keeps slots and numbers together if and only if it does not reach the end of the number space; otherwise nothing leaves the buffer |
| `ReceiveBuffers.DropAtTheWrapLeavesItsPacketBehind` | srt-protocol/src/protocol/receiver/buffer.rs:500-512 | the concrete case: the slot of 2^31 - 1 stays while the first number moves to 0 |
| `ReceiveBuffers.ReceiveBuffer.constructor` | srt-protocol/src/protocol/receiver/buffer.rs:186-204 | starts empty at the initial number, which is also the acknowledgement point |
| `ReceiveBuffers.ReceiveBuffer.NextPacketDsn` | srt-protocol/src/protocol/receiver/buffer.rs:233-235 | the wire number of the next expected position |
| `ReceiveBuffers.ReceiveBuffer.PushPacket` | srt-protocol/src/protocol/receiver/buffer.rs:252-263 | for any 31-bit number the buffer becomes what arrival of the nearest position means (PushExact), and the answer says what happened; capacity and numbering are kept and no index fails |
| `ReceiveBuffers.ReceiveBuffer.AppendNext` | srt-protocol/src/protocol/receiver/buffer.rs:366-379 | the expected packet is appended if it fits |
| `ReceiveBuffers.ReceiveBuffer.AppendWithLoss` | srt-protocol/src/protocol/receiver/buffer.rs:381-404 | a later packet is appended after marking everything it skipped as lost, if it fits |
| `ReceiveBuffers.ReceiveBuffer.AppendLostPackets` | srt-protocol/src/protocol/receiver/buffer.rs:435-441 | appends exactly the skipped numbers as lost |
| `ReceiveBuffers.ReceiveBuffer.AppendData` | srt-protocol/src/protocol/receiver/buffer.rs:427-433 | appends a held slot and keeps the acknowledgement point exact |
| `ReceiveBuffers.ReceiveBuffer.RecoverData` | srt-protocol/src/protocol/receiver/buffer.rs:406-425 | an earlier packet fills its slot if that is lost and is discarded otherwise; the lookup cannot fail |
| `ReceiveBuffers.ReceiveBuffer.RecalculateLrsn` | srt-protocol/src/protocol/receiver/buffer.rs:514-521 | from any start with everything before it held, finds the first gap or the next expected number |
| `ReceiveBuffers.ReceiveBuffer.PopNextMessage` | srt-protocol/src/protocol/receiver/buffer.rs:265-293 | waits, releases exactly the payload of the whole message in front at a time that never goes back, or gives up the late prefix and reports its range and delay; the buffer stays valid if and only if that range does not reach the end of the number space |
| `TimeSpans.SpanIsDifference` | srt-protocol/src/packet/time.rs:25-31 | a span between two times is their difference cut to 32 bits of microseconds, and is the difference if and only if it fits |
| `ReceiveBuffers.ReceiveBuffer.MonotonicInstant` | srt-protocol/src/protocol/receiver/time.rs:69-78 | release times never go back |
| `ReceiveModel.ReleaseTime` | srt-protocol/src/protocol/receiver/time.rs:69-78 | no earlier than the packet's instant and than the last release, and one of the two |
| `ReceiveBuffers.ReceiveBuffer.ReleaseMessage` | srt-protocol/src/protocol/receiver/buffer.rs:299-321 | removes one whole message and returns its payload |
| `ReceiveBuffers.ReceiveBuffer.Concatenate` | srt-protocol/src/protocol/receiver/buffer.rs:306-321 | concatenates the payloads in order |
| `ReceiveBuffers.ReceiveBuffer.DropTooLatePackets` | srt-protocol/src/protocol/receiver/buffer.rs:462-512 | gives up exactly the late prefix and reports its range |
| `ReceiveBuffers.ReceiveBuffer.Discard` | srt-protocol/src/protocol/receiver/buffer.rs:500-512 | validity is kept if and only if the dropped range does not reach the end of the number space |
| `ReceiveBuffers.ReceiveBuffer.PrepareLossList` | srt-protocol/src/protocol/receiver/buffer.rs:323-345 | reports exactly the lost numbers whose backoff has passed, in ascending order and compressed, and backs each of them off |
| `ReceiveBuffers.ReceiveBuffer.CollectLosses` | srt-protocol/src/protocol/receiver/buffer.rs:323-345 | the loop that collects them |
| `ReceiveBuffers.ReceiveBuffer.DropPackets` | srt-protocol/src/protocol/receiver/buffer.rs:348-356 | for any two numbers: stops if and only if the indices run backwards, otherwise marks the lost slots between them and counts them; and if the ends lie on one side of the wrap, exactly the lost slots at the positions of the range |
| `ReceiveBuffers.ReceiveBuffer.MarkDropped` | srt-protocol/src/protocol/receiver/buffer.rs:348-356 | the loop that marks them |
| `ReceiveBuffers.ReadyAscending` | srt-protocol/src/protocol/receiver/buffer.rs:323-345 | the numbers due for a report are always in ascending modular order |
| `Splits.SplitCarries` | srt-protocol/src/protocol/sender/encapsulate.rs:52-83 | the packets of a message carry consecutive numbers, one first and one last mark, full payloads but for the last, which is empty only if the message is, and the message's destination and time, and their payloads concatenate to the message |
| `Encapsulations.Encapsulation.constructor` | srt-protocol/src/protocol/sender/encapsulate.rs:14-23 | starts the stream, empty, at the initial number |
| `Encapsulations.Encapsulation.Encapsulate` | srt-protocol/src/protocol/sender/encapsulate.rs:25-83 | the packets of a message are exactly what it adds to the stream of all submissions, and carry it whole |
| `Streams.StreamNumbered` | srt-protocol/src/protocol/sender/encapsulate.rs:25-83 | packet n of everything ever encapsulated carries the wire number of initial + n |
| `Streams.StreamGrows` | srt-protocol/src/protocol/sender/encapsulate.rs:25-83 | later submissions only extend the stream |
| `Streams.MessageInStream` | srt-protocol/src/protocol/sender/encapsulate.rs:52-83 | where in the stream a submitted message lies, and that it lies there whole |
| `Streams.FramedIsMessage` | srt-protocol/src/protocol/sender/encapsulate.rs:52-83 | a stretch of the stream from a first mark to the next last mark is exactly one submitted message, byte for byte |
| `AckHistories.LookupIsSearch` | srt-protocol/src/protocol/receiver/history.rs:52-71 | the computed index finds an entry if and only if it has the wanted number, and nothing if and only if no entry has it |
| `AckHistories.Unexpired` | srt-protocol/src/protocol/receiver/history.rs:73-119 | expiry never removes the newest entry |
| `AckHistories.UnexpiredExact` | srt-protocol/src/protocol/receiver/history.rs:100-105 | what goes is exactly the longest expired prefix that leaves the newest entry |
| `AckHistories.TooRecentExact` | srt-protocol/src/protocol/receiver/history.rs:85-98 | in positions and times within range: nothing before the newest acknowledged point is acknowledged, and the same point again only after two round trips |
| `AckHistories.AckHistoryWindow.constructor` | srt-protocol/src/protocol/receiver/history.rs:27-34 | an empty history |
| `AckHistories.AckHistoryWindow.CalculateAck2Rtt` | srt-protocol/src/protocol/receiver/history.rs:52-71 | answers if and only if the history holds that number, with the 32-bit span since its departure, and records its data number |
| `AckHistories.AckHistoryWindow.NextFullAck` | srt-protocol/src/protocol/receiver/history.rs:73-119 | numbers acknowledgements 1, 2, 3, ... without gap up to 2^32 - 1 and says when there is no next number; the unbounded positions acknowledged, over all entries, never decrease; says exactly when no acknowledgement is due |
| `AckHistories.AckHistoryWindow.Issue` | srt-protocol/src/protocol/receiver/history.rs:100-119 | drops what has expired and appends the next number, or stops at the last one |
| `AckHistories.AckHistoryWindow.DropExpired` | srt-protocol/src/protocol/receiver/history.rs:100-105 | the loop drops exactly the expired entries from the front, never the newest |
| `AckHistories.AppendInOrder` | srt-protocol/src/protocol/receiver/history.rs:83-98 | a number that does not precede the newest stands for a position not before it, so the positions stay in order |
| `AckHistories.AckHistoryWindow.NextLightAck` | srt-protocol/src/protocol/receiver/history.rs:122-129 | a light acknowledgement if and only if the number stands for a position 64 or more past the last one |
| `SendModel.PushSafe` | srt-protocol/src/protocol/sender/buffer.rs:66-89 | a push keeps the buffer invariant if and only if the packet it evicts, if any, was sent |
| `SendModel.PushTracked` | srt-protocol/src/protocol/sender/buffer.rs:66-89 | whatever it evicts, a push keeps the packets consecutively numbered and the lost numbers from the front on |
| `SendModel.EvictingUnsentBreaks` | srt-protocol/src/protocol/sender/buffer.rs:66-89 | the smallest failing push: capacity 1 and one packet that was never sent |
| `SendModel.OvertakenSenderStalls` | srt-protocol/src/protocol/sender/buffer.rs:223-246 | after that the next number is not found in the buffer and the unacknowledged distance exceeds any buffer, so no new packet is sent |
| `SendModel.DropReleasesStalled` | srt-protocol/src/protocol/sender/buffer.rs:248-286 | until a too-late drop moves the next number on to the front |
| `SendModel.OvertakenSenderAddsUnbuffered` | srt-protocol/src/protocol/sender/buffer.rs:377-390 | meanwhile a report can add a number that is not buffered |
| `SendModel.FreedPrecede` | srt-protocol/src/protocol/sender/buffer.rs:154-159 | in any numbered buffer exactly the first FreedBy packets precede the acknowledged number |
| `SendModel.AcceptedAckIsInWindow` | srt-protocol/src/protocol/sender/buffer.rs:122-131 | whatever number an acknowledgement carries, it is accepted if and only if it stands for a position between the front and the next to send |
| `SendModel.AckSafe` | srt-protocol/src/protocol/sender/buffer.rs:146-160 | in any state, freeing keeps the numbering, the lost numbers from the front on and every packet not freed |
| `SendModel.AckInOrder` | srt-protocol/src/protocol/sender/buffer.rs:146-160 | in order, it frees exactly the packets below the position and keeps order and flow bound |
| `SendModel.AddedIsBuffered` | srt-protocol/src/protocol/sender/buffer.rs:377-390 | a reported number is added if and only if it stands for a buffered packet that was sent |
| `SendModel.AddLossesExact` | srt-protocol/src/protocol/sender/buffer.rs:168-177 | whatever a report holds, it changes only the loss list, which grows by exactly the added numbers |
| `SendModel.RunIsShort` | srt-protocol/src/protocol/sender/buffer.rs:399-420 | a run with one verdict never covers the whole number space, so its range is unambiguous |
| `SendModel.RunExpands` | srt-protocol/src/protocol/sender/buffer.rs:399-420 | a run reads back from its range |
| `SendModel.StepSafe` | srt-protocol/src/protocol/sender/buffer.rs:498-563 | in any state, every turn of the sending algorithm keeps numbering and packets and transmits only buffered packets |
| `SendModel.StepInOrder` | srt-protocol/src/protocol/sender/buffer.rs:498-563 | in order, every turn keeps the order and the flow bound of window + 2, new packets go out one after the other and each once, and a lost number stays lost until it is sent again |
| `SendModel.NextInOrder` | srt-protocol/src/protocol/sender/buffer.rs:188-192 | in order, the next number stands for the next position, and the distance of the numbers is that of the positions |
| `SendModel.DropFrontTracked` | srt-protocol/src/protocol/sender/buffer.rs:248-286 | in any state, giving up the front keeps numbering and lost numbers |
| `SendModel.DropFrontSafe` | srt-protocol/src/protocol/sender/buffer.rs:248-286 | in order, it keeps the order, and the modular maximum is the maximum |
| `SendModel.DropScanWholeMessages` | srt-protocol/src/protocol/sender/buffer.rs:248-269 | a sender drop never stops inside a message and leaves an on-time packet in front |
| `SendModel.DropScanOnlyLate` | srt-protocol/src/protocol/sender/buffer.rs:248-269 | each packet it gives up is late or of the message of the one before it |
| `SendModel.GivenUpWithLate` | srt-protocol/src/protocol/sender/buffer.rs:248-269 | so each is of the message of a late packet at or in front of it |
| `SendModel.TransmissionIsCounted` | srt-protocol/src/protocol/sender/buffer.rs:223-246 | a turn counts and marks exactly the packet it transmits, and leaves every other as it is |
| `SendAlgorithms.RunCountsEach` | srt-protocol/src/protocol/sender/buffer.rs:223-246 | over any run of turns each packet that stays was transmitted as often as its count grew, and is marked if and only if it was ever transmitted |
| `SendAlgorithms.MostUrgentFirst` | srt-protocol/src/protocol/sender/buffer.rs:498-560 | what a turn does is possible, and nothing more urgent is: probe, too late, lost, timed out, new, flush, wait |
| `SendAlgorithms.NextStepExists` | srt-protocol/src/protocol/sender/buffer.rs:498-560 | in every state with an ordered queue there is a next turn, if and only if the source does not stop there |
| `SendAlgorithms.NothingIsPossible` | srt-protocol/src/protocol/sender/buffer.rs:498-560 | there is nothing to do if and only if nothing is possible but to wait |
| `SendBuffers.ClockIsTime` | srt-protocol/src/protocol/sender/buffer.rs:212-269 | within half the range of the wrapping clock, late is past timestamp plus latency, and due is past the deadline |
| `SendBuffers.TimeoutBacksOff` | srt-protocol/src/protocol/sender/buffer.rs:223-246 | the timeouts of the first, the second and every further transmission |
| `Senders.AcknowledgedExactly` | srt-protocol/src/protocol/sender/buffer.rs:116-166 | in order, exactly what lies below the acknowledged position leaves buffer, loss list and timers, and nothing does for a position not under way or an old full number |
| `Senders.StopsExactly` | srt-protocol/src/protocol/sender/buffer.rs:116-166 | in order, an acknowledgement or report stops the source if and only if its full number cannot be counted up or its words are not well formed |
| `SendModel.DropScan` | srt-protocol/src/protocol/sender/buffer.rs:248-269 | a sender drop never exceeds the buffer |
| `SendBuffers.SendBuffer.constructor` | srt-protocol/src/protocol/sender/buffer.rs:48-64 | an empty buffer at the initial number |
| `SendBuffers.SendBuffer.PushData` | srt-protocol/src/protocol/sender/buffer.rs:66-89 | in any state: appends the packet, evicting and reporting the oldest when full, sent or not, with its loss entry, and keeps numbering and byte count exact |
| `SendBuffers.SendBuffer.SendPacket` | srt-protocol/src/protocol/sender/buffer.rs:223-246 | in any state, transmits the packet if and only if it is buffered, marks it and sets its timer to the backed-off timeout |
| `SendBuffers.SendBuffer.SendNextPacket` | srt-protocol/src/protocol/sender/buffer.rs:188-192 | in any state, sends the next number if and only if it is buffered |
| `SendBuffers.SendBuffer.SendNext16nPacket` | srt-protocol/src/protocol/sender/buffer.rs:194-200 | sends it if and only if its number is also a multiple of 16 |
| `SendBuffers.SendBuffer.SendNextLostPacket` | srt-protocol/src/protocol/sender/buffer.rs:202-210 | in any state, takes the least lost number off the list and sends it, and stops if and only if it is not buffered |
| `SendBuffers.SendBuffer.SendNextRtoPacket` | srt-protocol/src/protocol/sender/buffer.rs:212-219 | resends the number on top of the queue if and only if it is due and still buffered, and sets its timer again |
| `SendBuffers.OrderedHasTop` | srt-protocol/src/protocol/sender/buffer.rs:212-219 | an ordered queue has exactly one entry on top |
| `SendBuffers.WindowIsOrdered` | srt-protocol/src/packet/time.rs:83-89 | a queue is ordered when its deadlines lie within half the clock and its numbers within half the number space |
| `SendBuffers.TopDecides` | srt-protocol/src/protocol/sender/buffer.rs:212-219 | with an entry on top, its packet is resent if and only if it is due and still buffered, and otherwise nothing is |
| `SendBuffers.EvictedIsStale` | srt-protocol/src/protocol/sender/buffer.rs:66-89 | an evicted packet leaves its timer entry without a packet |
| `SendBuffers.GivenUpIsStale` | srt-protocol/src/protocol/sender/buffer.rs:248-286 | so does a packet given up as too late |
| `SendBuffers.OutsideIsUnbuffered` | srt-protocol/src/protocol/sender/buffer.rs:223-246 | a number is buffered if and only if it is the number of a position from the front to the back |
| `SendBuffers.TopStays` | srt-protocol/src/protocol/sender/buffer.rs:241-243 | setting the timer of another packet to a later deadline leaves it on top |
| `SendBuffers.TopStaysWithout` | srt-protocol/src/protocol/sender/buffer.rs:324-328 | so does removing others |
| `SendAlgorithms.StaleTopStays` | srt-protocol/src/protocol/sender/buffer.rs:498-563 | over any SND event, an entry on top without a packet stays there and nothing is resent by its timer, while the timers set run out later |
| `SendAlgorithms.StaleTopExample` | srt-protocol/src/protocol/sender/buffer.rs:248-286 | the concrete case: packets 7 and 8 are sent, 7 is given up, and its entry stays on top of that of 8 |
| `SendBuffers.SendBuffer.DropTooLatePackets` | srt-protocol/src/protocol/sender/buffer.rs:248-286 | in any state: if and only if the front is late, gives up the scanned prefix, its losses and its range; the byte count keeps what was discarded |
| `SendBuffers.SendBuffer.ScanTooLate` | srt-protocol/src/protocol/sender/buffer.rs:256-267 | the scanning loop |
| `SendBuffers.SendBuffer.GiveUpFront` | srt-protocol/src/protocol/sender/buffer.rs:270-286 | removes the front and the losses in it, and moves the next number on to the modular maximum |
| `SendBuffers.SendBuffer.FlushOnClose` | srt-protocol/src/protocol/sender/buffer.rs:288-301 | sends and frees the last packet if and only if draining with one packet left |
| `SendBuffers.SendBuffer.UpdateLargestAckedSeqNumber` | srt-protocol/src/protocol/sender/buffer.rs:116-166 | in any state: each error if and only if its condition; otherwise frees exactly the packets that precede the acknowledged number with their timers, counts them and the losses recovered, takes the new round-trip time, and keeps the byte count exact |
| `SendBuffers.SendBuffer.ReleaseBefore` | srt-protocol/src/protocol/sender/buffer.rs:146-160 | the two freeing loops |
| `SendBuffers.SendBuffer.PopFrontBefore` | srt-protocol/src/protocol/sender/buffer.rs:154-159 | frees packet by packet up to the acknowledged position |
| `SendBuffers.SendBuffer.PopFront` | srt-protocol/src/protocol/sender/buffer.rs:324-328 | frees one packet; no subtraction underflows |
| `SendBuffers.SendBuffer.FirstLost` | srt-protocol/src/protocol/sender/buffer.rs:313-317 | in any state, the first lost number in modular order is the least position |
| `SendBuffers.SendBuffer.PopLostList` | srt-protocol/src/protocol/sender/buffer.rs:313-317 | takes exactly that number off the list |
| `SendBuffers.SendBuffer.PopLostBefore` | srt-protocol/src/protocol/sender/buffer.rs:148-151 | takes exactly the numbers below a position off the list and counts them |
| `SendBuffers.SendBuffer.NextLoss` | srt-protocol/src/protocol/sender/buffer.rs:377-390 | classifies a number against front and next and records it if added |
| `SendBuffers.SendBuffer.NextRange` | srt-protocol/src/protocol/sender/buffer.rs:399-420 | collects one maximal run of numbers with one verdict |
| `SendBuffers.SendBuffer.AddToLossList` | srt-protocol/src/protocol/sender/buffer.rs:168-177 | in any state and for any words: stops if and only if they are not well formed; otherwise the ranges flatten to the decompressed report with each number's verdict, in order, no two neighbours could be joined, and the loss list grows by exactly the added numbers |
| `SendAlgorithms.SenderAlgorithmIterator.constructor` | srt-protocol/src/protocol/sender/buffer.rs:446-460 | starts with the periods that elapsed and no probe |
| `SendAlgorithms.SenderAlgorithmIterator.Next` | srt-protocol/src/protocol/sender/buffer.rs:498-563 | in any state: takes exactly the step that has priority, reports it, and spends one from the budget for each transmission but a probe without budget; stops if and only if a lost number is next that is not buffered |
| `SendAlgorithms.NeverStuckInOrder` | srt-protocol/src/protocol/sender/buffer.rs:202-210 | which never happens in order |
| `SendAlgorithms.StuckExample` | srt-protocol/src/protocol/sender/buffer.rs:202-210 | and does in the concrete case: room for one packet, two pushed and none sent, and a report of 2^30 |
| `SendAlgorithms.SenderAlgorithmIterator.Probe` | srt-protocol/src/protocol/sender/buffer.rs:498-504 | the probe goes out if and only if the next packet exists and its number is a multiple of 16 |
| `SendAlgorithms.SenderAlgorithmIterator.Turn` | srt-protocol/src/protocol/sender/buffer.rs:513-560 | late packets first |
| `SendAlgorithms.SenderAlgorithmIterator.Resend` | srt-protocol/src/protocol/sender/buffer.rs:521-532 | then lost packets |
| `SendAlgorithms.SenderAlgorithmIterator.Expire` | srt-protocol/src/protocol/sender/buffer.rs:524-526 | then the packet whose timer ran out |
| `SendAlgorithms.SenderAlgorithmIterator.SendFresh` | srt-protocol/src/protocol/sender/buffer.rs:533-560 | then a new packet within the flow window, then the last one when draining |
| `SendAlgorithms.SenderAlgorithmIterator.NumberOfUnackedPackets` | srt-protocol/src/protocol/sender/buffer.rs:303-311 | the number of unacknowledged positions |
| `SendAlgorithms.OnSndEvent` | srt-protocol/src/protocol/sender/mod.rs:205-236 | in any state: terminates; takes in turn the steps that have priority and sends exactly what they transmit; sends less than the periods elapsed only if nothing is late, lost or due and the window is full or nothing is left to send or flush, or where the source stops; at most one packet over budget, with a number that is a multiple of 16; in order it never stops and keeps order and flow bound |
| `SendAlgorithms.Progress` | srt-protocol/src/protocol/sender/buffer.rs:498-563 | a step spends budget only on transmissions, waits only when there is nothing to do, and exceeds the budget only by a probe |
| `SendAlgorithms.RunKeeps` | srt-protocol/src/protocol/sender/buffer.rs:498-563 | in any state, any steps taken in turn keep the numbering and the packets except from the front, and everything transmitted is a packet of the buffer at the start |
| `SendAlgorithms.RunInOrder` | srt-protocol/src/protocol/sender/buffer.rs:498-563 | in order, they keep the order and the flow bound |
| `SendAlgorithms.RunCounts` | srt-protocol/src/protocol/sender/buffer.rs:498-563 | any such steps send as many packets as they spend budget, or one more whose number is a multiple of 16, or fewer and then there is nothing left to do |
| `SendAlgorithms.RunToEnd` | srt-protocol/src/protocol/sender/mod.rs:205-236 | the loop terminates and is exactly such a run |
| `Timers.Timer.constructor` | srt-protocol/src/protocol/time/timer.rs:55-60 | the period is at least the minimum |
| `Timers.Timer.Reset` | srt-protocol/src/protocol/time/timer.rs:70-72 | counts from now |
| `Timers.Timer.SetPeriod` | srt-protocol/src/protocol/time/timer.rs:74-76 | takes the period |
| `Timers.Timer.CheckExpired` | srt-protocol/src/protocol/time/timer.rs:78-90 | counts the whole periods elapsed and moves on by exactly those |
| `Timers.DueExactly` | srt-protocol/src/protocol/time/timer.rs:78-90 | a timer expires if and only if a period has passed, and the count leaves less than a period over |
| `Timers.CountsAddUp` | srt-protocol/src/protocol/time/timer.rs:78-90 | over any forward schedule of polls the counts add up to the whole periods elapsed, if and only if the last count fits 32 bits |
| `Timers.OnePollExact` | srt-protocol/src/protocol/time/timer.rs:78-90 | the same for one poll after any number of counted periods |
| `Timers.TotalIsBounded` | srt-protocol/src/protocol/time/timer.rs:78-90 | the counts of any forward schedule never exceed the whole periods elapsed |
| `Timers.OnePoll` | srt-protocol/src/protocol/time/timer.rs:78-90 | what one more poll adds to the counts |
| `Senders.StepKeepsInv` | srt-protocol/src/protocol/sender/mod.rs:94-236 | every input keeps the buffer numbered, within capacity and at the end of the stream of all submissions, and sends only packets of that stream; it keeps the order if and only if no packet is evicted that was never sent |
| `Senders.PollCounts` | srt-protocol/src/connection/mod.rs:250-262 | a poll moves the timer by the periods it counts, sends at most one packet more, and fewer only if nothing is left to send |
| `Senders.EveryRunIsSafe` | srt-protocol/src/connection/mod.rs:250-262 | over every run of messages, acknowledgements, loss reports and polls, overloaded or not, the invariant holds, every packet sent is a packet of the stream, and no more are sent than periods counted plus SND events |
| `Senders.EveryRunKeepsPace` | srt-protocol/src/connection/mod.rs:250-262 | so no more than whole periods elapsed plus SND events, if the clock does not run backwards |
| `Senders.BusyRunKeepsUp` | srt-protocol/src/connection/mod.rs:250-262 | and no fewer than periods counted, if no poll leaves it with nothing to send |
| `Senders.BlockedQueueStaysBlocked` | srt-protocol/src/protocol/sender/buffer.rs:212-219 | over every run a timer entry on top whose packet left the buffer stays on top and no packet is resent by its timer, until its number comes round or a timer is set to run out before it |
| `Senders.RunStaysInOrder` | srt-protocol/src/connection/mod.rs:250-262 | over every run in which no message overruns the buffer the sender stays in order, within window + 2, and no poll stops it |
| `Senders.EveryServedRunIsPaced` | srt-protocol/src/connection/mod.rs:250-262 | the same bounds with what was sent before the source stops |
| `Senders.PushAllKeeps` | srt-protocol/src/protocol/sender/buffer.rs:66-89 | pushing the rest of the stream keeps numbering and stream, whatever leaves |
| `Senders.PushAllInOrder` | srt-protocol/src/protocol/sender/buffer.rs:66-89 | and the order, if and only if the stream does not run ahead of the sender by more than the buffer holds |
| `Senders.PushNext` | srt-protocol/src/protocol/sender/buffer.rs:66-89 | pushing one by one leaves the last packets that fit |
| `Senders.Sender.constructor` | srt-protocol/src/protocol/sender/mod.rs:38-47 | an empty buffer at the end of an empty stream |
| `Senders.Sender.HandleData` | srt-protocol/src/protocol/sender/mod.rs:94-125 | the buffer is then exactly what pushing all packets of the message leaves |
| `Senders.Sender.PushPackets` | srt-protocol/src/protocol/sender/mod.rs:98-116 | the loop that pushes them |
| `Senders.Sender.HandleAck` | srt-protocol/src/protocol/sender/mod.rs:127-154 | stops if and only if the full number cannot be counted up; otherwise the state is exactly that after the acknowledgement |
| `Senders.Sender.HandleNak` | srt-protocol/src/protocol/sender/mod.rs:156-188 | stops if and only if the report is not well formed; otherwise adds exactly its losses and answers with their maximal ranges |
| `Senders.Sender.OnSnd` | srt-protocol/src/protocol/sender/mod.rs:205-236 | takes exactly the steps that have priority and sends what they transmit, all of it packets of the stream; at most one packet more than the periods elapsed, and fewer only if nothing is left to do; or says where the source stops |
| `Senders.Sender.CheckTimers` | srt-protocol/src/connection/mod.rs:250-262 | polls the timer, and the state and what is sent are exactly those of such a poll, or of the steps up to where the source stops |
| `Senders.Sender.Handle` | srt-protocol/src/connection/mod.rs:250-262 | goes on if and only if the source does, and then state and packets are exactly those of one step |
| `Senders.Sender.Serve` | srt-protocol/src/connection/mod.rs:250-262 | any run is the steps of its inputs one after the other, up to the end or the first input on which the source stops, and stops nowhere else; everything sent is a packet of the stream, at the pace of the timer |
| `Deliveries.StepSafe` | srt-protocol/src/protocol/receiver/buffer.rs:252-521 | every step of sender, receiver or network keeps the two-ended invariant and never moves the acknowledgement point back |
| `Deliveries.RunSafe` | srt-protocol/src/protocol/receiver/buffer.rs:252-521 | every state of every run satisfies it |
| `Deliveries.ArrivesAs` | srt-protocol/src/protocol/receiver/buffer.rs:252-263 | the receiver takes a packet of the stream for the position it was made for |
| `Deliveries.ReleaseIsMessage` | srt-protocol/src/protocol/receiver/buffer.rs:299-321 | slots released together are one submitted message |
| `Deliveries.MessagesArriveWholeInOrderOnce` | srt-protocol/src/protocol/receiver/buffer.rs:265-321 | in every run, over a network that loses, repeats and reorders, one strictly increasing numbering takes each release to the submission it is, byte for byte and packet for packet, so none is released twice even among equal messages |
| `Deliveries.EveryNumberIsReleasedOrGivenUpOnce` | srt-protocol/src/protocol/receiver/buffer.rs:462-512 | in every run exactly the numbers below the front of the receive buffer are in a released or given-up range, and the ranges follow one another in order without overlap |
| `Deliveries.HeldMessageIsReleased` | srt-protocol/src/protocol/receiver/buffer.rs:265-321 | progress: in every run, once the next message is held whole and its time has come, asking releases exactly it |
| `Deliveries.ReleasedExactlyWhenHeldAndDue` | srt-protocol/src/protocol/receiver/buffer.rs:265-321 | and only then: in every run asking releases a message if and only if it is next, held whole and due |
| `Deliveries.ReleasedOnTime` | srt-protocol/src/protocol/receiver/buffer.rs:265-293 | in every run each release was made by a step at or after the time of its message plus the latency, by the clock of that step |
| `Deliveries.MessagesGetThrough` | srt-protocol/src/protocol/receiver/buffer.rs:265-321 | and there are such runs: any list of messages is delivered, each whole and in order, if each has no more packets than the receive buffer has slots |
| `Deliveries.ReleasedFits` | srt-protocol/src/protocol/receiver/buffer.rs:265-321 | and only then: nothing longer is ever released |
| `Deliveries.PacketGetsThrough` | srt-protocol/src/protocol/sender/buffer.rs:188-192 | one packet from end to end, with its acknowledgement |
| `LossRepair.LossIsRepaired` | srt-protocol/src/protocol/sender/buffer.rs:202-210 | two packets go out and only the second arrives; the number missed is reported, the packet is sent again, and both are held and acknowledged |
| `LossRepair.MessageSurvivesLoss` | srt-protocol/src/protocol/sender/buffer.rs:168-210 | any message of two or more packets is released whole and exactly, although its first packet was lost on the way, reported and sent again |
| `LossRepair.MissesFirst` | srt-protocol/src/protocol/receiver/buffer.rs:381-404 | the packet that was skipped is a lost slot |
| `LossRepair.ResendsFirst` | srt-protocol/src/protocol/sender/buffer.rs:168-210 | the report puts it on the loss list, and the next turn sends it again |
| `LossRepair.FillsGap` | srt-protocol/src/protocol/receiver/buffer.rs:406-425 | the packet sent again takes its slot |
| `Deliveries.StepInOrder` | srt-protocol/src/protocol/sender/buffer.rs:66-89 | a step keeps the sender in order if and only if it does not evict a packet that was never sent |
| `SenderSteps.SenderTakesConnectionSteps` | srt-protocol/src/protocol/sender/mod.rs:94-236 | from any reachable state of the connection, whatever its sender is handed and does is a sequence of steps of the connection, and everything it sends is then on the network |
| `SenderSteps.EventSteps` | srt-protocol/src/protocol/sender/mod.rs:205-236 | the steps of an SND event are |
| `SenderSteps.MessageSteps` | srt-protocol/src/protocol/sender/mod.rs:94-125 | submitting and pushing a message are |
| `Deliveries.AcknowledgedIsReceivedOrGivenUp` | srt-protocol/src/protocol/sender/buffer.rs:116-166 | in every run no acknowledgement is ahead of the receiver, and every packet freed by one was received or given up as too late |
| `Deliveries.AckPointNeverMovesBack` | srt-protocol/src/protocol/receiver/buffer.rs:514-521 | the acknowledgement point only grows, however a run goes on |
| `Deliveries.SenderStaysInBounds` | srt-protocol/src/protocol/sender/buffer.rs:202-210 | in every run that evicts only sent packets, lost numbers are buffered and were sent, the next number is within the buffer, and at most window + 2 packets are unacknowledged |
| `KeyWraps.UnmixUndoesMix` | srt-protocol/src/protocol/encryption/wrap.rs:118-155 | one unwrap step undoes one wrap step for any block permutation |
| `KeyWraps.MixUndoesUnmix` | srt-protocol/src/protocol/encryption/wrap.rs:46-84 | and the other way round |
| `KeyWraps.BackwardUndoesForward` | srt-protocol/src/protocol/encryption/wrap.rs:118-155 | any number of steps is undone |
| `KeyWraps.ForwardUndoesBackward` | srt-protocol/src/protocol/encryption/wrap.rs:46-84 | and redone |
| `KeyWraps.UnwrapUndoesWrap` | srt-protocol/src/protocol/encryption/wrap.rs:46-155 | a wrapped block string unwraps to a vector and data if and only if it was wrapped from them |
| `KeyWraps.MixCounterBytes` | srt-protocol/src/protocol/encryption/wrap.rs:70-75 | the counter is exclusively or-ed, big-endian, into the last four bytes of the register, and the first four stay |
| `SimpleCiphers.WrappedUnderIdentity` | srt-protocol/src/protocol/encryption/wrap.rs:46-84 | under the identity cipher, for data of every length, wrapping leaves the data and mixes all counters into the vector, six for each block |
| `SimpleCiphers.SixteenBytesUnderIdentity` | srt-protocol/src/protocol/encryption/wrap.rs:46-84 | the concrete case: sixteen bytes under the default vector end in 0xAA |
| `SimpleCiphers.RoundUnderExchange` | srt-protocol/src/protocol/encryption/wrap.rs:63-82 | under the cipher that exchanges the halves of a block, the first round moves each block, with its counter, one further: which block each step works on, and which half is which |
| `SimpleCiphers.ForwardUnderIdentity` | srt-protocol/src/protocol/encryption/wrap.rs:63-82 | the register after any number of steps under the identity |
| `KeyWraps.AesWrap` | srt-protocol/src/protocol/encryption/wrap.rs:46-84 | the in-place loops compute the wrapping of section 2.2.1 of RFC 3394 |
| `KeyWraps.WrapRound` | srt-protocol/src/protocol/encryption/wrap.rs:63-82 | one of the six rounds |
| `KeyWraps.WrapStep` | srt-protocol/src/protocol/encryption/wrap.rs:67-79 | one step on one block |
| `KeyWraps.AesUnwrap` | srt-protocol/src/protocol/encryption/wrap.rs:118-155 | the in-place loops compute the unwrapping of section 2.2.2 of RFC 3394 |
| `KeyWraps.UnwrapRound` | srt-protocol/src/protocol/encryption/wrap.rs:134-152 | one round downwards |
| `KeyWraps.UnwrapStep` | srt-protocol/src/protocol/encryption/wrap.rs:138-151 | one step on one block |
| `StreamKeys.UnwrapsToWrapped` | srt-protocol/src/protocol/encryption/stream.rs:75-147 | material unwraps to given keys if and only if it was wrapped from them |
| `StreamKeys.UnwrappedFit` | srt-protocol/src/protocol/encryption/stream.rs:75-118 | unwrapped keys have the length the settings ask for, and there is at least one |
| `StreamKeys.WrappingInjective` | srt-protocol/src/protocol/encryption/stream.rs:120-147 | different keys wrap to different material |
| `StreamKeys.WrapWith` | srt-protocol/src/protocol/encryption/stream.rs:120-147 | computes the material from the keys |
| `StreamKeys.UnwrapFrom` | srt-protocol/src/protocol/encryption/stream.rs:75-118 | for any material: computes the keys or the error, and says where the source stops, if and only if it flags no key and has the length of none |
| `StreamKeys.CipherTwice` | srt-protocol/src/protocol/encryption/stream.rs:149-187 | who holds the same salt and key of a parity reads what was enciphered with it |
| `StreamKeys.CipherBytes` | srt-protocol/src/protocol/encryption/stream.rs:149-187 | byte by byte: the key stream of the flagged key and the packet's vector is exclusively or-ed in, and there is a result if and only if there is such a key |
| `StreamKeys.StreamIvBytes` | srt-protocol/src/protocol/encryption/key.rs:35-60 | the vector is the first fourteen bytes of the salt and two zeros, with the packet number mixed big-endian into bytes 10 to 13 |
| `StreamKeys.StreamIvInjective` | srt-protocol/src/protocol/encryption/key.rs:35-60 | under one salt two packet numbers have the same vector if and only if they are equal |
| `StreamKeys.VectorsRepeatAfterTurn` | srt-protocol/src/protocol/encryption/key.rs:35-60 | so two packets of a stream share a vector if and only if they are a whole turn of the number space apart |
| `StreamKeys.KnownStreamIv` | srt-protocol/src/protocol/encryption/key.rs:325-337 | the concrete vector that the source's own test expects |
| `StreamKeys.KekOfSaltEnd` | srt-protocol/src/protocol/encryption/key.rs:188-201 | the key-encrypting cipher is that of the last eight bytes of the salt |
| `StreamKeys.UnreadableExactly` | srt-protocol/src/protocol/encryption/stream.rs:75-118 | the source stops on material if and only if it flags no key and has the length of none |
| `KeyRefresh.TurnSafe` | srt-protocol/src/protocol/encryption/mod.rs:78-128 | each packet keeps the counters consistent, never replaces the active key, never announces and switches at once, and sends only the newest keys |
| `KeyRefresh.EncryptionState.constructor` | srt-protocol/src/protocol/encryption/mod.rs:132-145 | starts with counters from the refresh settings |
| `KeyRefresh.EncryptionState.TryEncryptPacket` | srt-protocol/src/protocol/encryption/mod.rs:79-89 | enciphers with the active key; only payload and encryption field change |
| `KeyRefresh.EncryptionState.Advance` | srt-protocol/src/protocol/encryption/mod.rs:153-161 | one turn of the refresh protocol |
| `KeyRefresh.EncryptionState.TrySchedulePreAnnouncement` | srt-protocol/src/protocol/encryption/mod.rs:91-102 | at zero, and only if nothing is unconfirmed, a new inactive key is generated and wrapped |
| `KeyRefresh.EncryptionState.TrySendKeyMaterial` | srt-protocol/src/protocol/encryption/mod.rs:104-114 | unconfirmed material is sent at zero and then every so many packets |
| `KeyRefresh.EncryptionState.TrySwitchStreamKeys` | srt-protocol/src/protocol/encryption/mod.rs:116-128 | at zero the parity flips if and only if nothing is unconfirmed |
| `KeyRefresh.EncryptionState.HandleResponse` | srt-protocol/src/protocol/encryption/mod.rs:173-181 | confirms if and only if the response echoes the newest material, and says which error it is otherwise |
| `KeyRefresh.Encryption.constructor` | srt-protocol/src/protocol/encryption/mod.rs:132-145 | encrypted or not |
| `KeyRefresh.Encryption.Encrypt` | srt-protocol/src/protocol/encryption/mod.rs:147-166 | enciphers and takes one turn of the refresh protocol, or passes the packet through on an unencrypted connection |
| `KeyRefresh.Encryption.HandleKeyRefreshResponse` | srt-protocol/src/protocol/encryption/mod.rs:168-183 | confirms the newest material, or takes anything on an unencrypted connection |
| `KeyRefresh.Decryption.constructor` | srt-protocol/src/protocol/encryption/mod.rs:26-28 | starts with the keys of the handshake, if any |
| `KeyRefresh.Decryption.Decrypt` | srt-protocol/src/protocol/encryption/mod.rs:30-51 | deciphers with the key of the packet's parity, passes through when neither side encrypts, and says which error it is otherwise |
| `KeyRefresh.Decryption.RefreshKeyMaterial` | srt-protocol/src/protocol/encryption/mod.rs:53-60 | for any material: installs and echoes what unwraps, keeps the old keys otherwise and says which error it is, or that the source stops |
| `KeyRefresh.PacketRoundTrip` | srt-protocol/src/protocol/encryption/mod.rs:30-89 | who holds the same salt and key of a parity deciphers an enciphered packet to exactly the packet it was |
| `RefreshSchedule.RunCounts` | srt-protocol/src/protocol/encryption/mod.rs:91-128 | in every run the two countdowns say how many packets were sent, modulo the refresh period |
| `RefreshSchedule.RefreshedOnSchedule` | srt-protocol/src/protocol/encryption/mod.rs:91-128 | in every run packet n switches keys if and only if n is a positive multiple of the period and nothing is unconfirmed; a new key is generated and sent out exactly one pre-announcement period ahead; and no other packet changes the keys |
| `RefreshSchedule.UnconfirmedIsRepeated` | srt-protocol/src/protocol/encryption/mod.rs:103-114 | in every run, while a new key is unconfirmed, one of any so many packets in a row carries it again |
| `KeyExchange.StepSafe` | srt-protocol/src/protocol/encryption/mod.rs:53-128 | every step of either end or of the channel keeps the two-party invariant |
| `KeyExchange.RunSafe` | srt-protocol/src/protocol/encryption/mod.rs:53-128 | every state of every run satisfies it, and every request that arrives can be read |
| `KeyExchange.NewPacketsAreReadable` | srt-protocol/src/protocol/encryption/mod.rs:30-60 | in every run with requests lost but not reordered, whatever happens to responses, a packet enciphered now is deciphered to exactly the packet it was |
| `KeyExchange.SwitchOnlyWhenConfirmed` | srt-protocol/src/protocol/encryption/mod.rs:116-128 | in every run parity flips only when nothing is unconfirmed and the receiver holds exactly the sender's keys |
| `KeyExchange.KeysStay` | srt-protocol/src/protocol/encryption/mod.rs:91-102 | no key changes before the next announcement is due |
| `KeyExchange.RetiredKeyIsKept` | srt-protocol/src/protocol/encryption/mod.rs:91-128 | after a switch the retired key stays for period - pre-announcement further packets |
| `KeyExchange.ReceiverKeepsRetiredKey` | srt-protocol/src/protocol/encryption/mod.rs:53-60 | and for as long the receiver holds exactly the same keys |
| `KeyExchange.OldPacketsStayReadable` | srt-protocol/src/protocol/encryption/mod.rs:30-60 | so a packet enciphered with the retired key that arrives within those packets is still deciphered to exactly the packet it was |
| `KeyExchange.HistoryHolds` | srt-protocol/src/protocol/encryption/mod.rs:91-102 | in every run an announcement carries the key now in a slot if and only if it is no earlier than the announcement that brought that key |
| `KeyExchange.RequestAgrees` | srt-protocol/src/protocol/encryption/mod.rs:53-60 | in every run a request that arrives out of order leaves both ends agreed if and only if it was announced no earlier than the key in use |
| `KeyExchange.ReorderingBreaks` | srt-protocol/src/protocol/encryption/mod.rs:53-128 | a run in which two requests change places ends with the receiver holding another key than the sender uses |
| `Hsv5.StartHsv5Initiation` | srt-protocol/src/protocol/pending_connection/hsv5.rs:157-202 | the request carries size, latencies, stream id and the wrapped keys |
| `Hsv5.GenHsv5Response` | srt-protocol/src/protocol/pending_connection/hsv5.rs:20-146 | for any request: accepts with the unwrapped keys, ignores what is no request, rejects with the reason for each bad case, and stops if and only if the combination of key settings is not implemented |
| `Hsv5.RequestIsAccepted` | srt-protocol/src/protocol/pending_connection/hsv5.rs:47-146 | a request made with the same key settings is always accepted, with exactly the keys its sender generated |
| `Hsv5.NegotiationMirrors` | srt-protocol/src/protocol/pending_connection/hsv5.rs:47-246 | what both sides take from a request and its response has ids and latencies crossed, and number, stream id and keys equal |
| `Hsv5.RequestIsRefused` | srt-protocol/src/protocol/pending_connection/hsv5.rs:89-93 | a request without keys to a side that wants them is refused |
| `Hsv5.NegotiatedValues` | srt-protocol/src/protocol/pending_connection/hsv5.rs:96-246 | each direction gets the larger of the latencies its two ends ask for, the packet size is the smaller and the flow window the larger of the two, and the keys are those of the side that asked |
| `Hsv5.ResponseExactly` | srt-protocol/src/protocol/pending_connection/hsv5.rs:20-146 | when exactly a request is rejected for its version, its missing keys or its secret, is ignored, or stops the source |
| `RendezvousMode.RolesDiffer` | srt-protocol/src/protocol/pending_connection/rendezvous.rs:225-230 | two peers take opposite roles if and only if their cookies are neither equal nor 2^31 apart |
| `RendezvousMode.CookiesHalfApart` | srt-protocol/src/protocol/pending_connection/rendezvous.rs:225-230 | the concrete case: with cookies 0 and 2^31 both peers respond |
| `RendezvousMode.StepSafe` | srt-protocol/src/protocol/pending_connection/rendezvous.rs:217-515 | every step of either peer or of the network keeps the two-peer invariant, and no unimplemented branch is met |
| `RendezvousMode.RunSafe` | srt-protocol/src/protocol/pending_connection/rendezvous.rs:217-515 | every state of every run satisfies it |
| `RendezvousMode.PeersAgree` | srt-protocol/src/protocol/pending_connection/rendezvous.rs:217-475 | in every run the responder is connected only if the initiator is, the initiator only if the responder has accepted, and then their settings are dual, packet and flow size included |
| `RendezvousMode.RolesHold` | srt-protocol/src/protocol/pending_connection/rendezvous.rs:217-475 | in every run neither peer enters a state of the other role |
| `RendezvousMode.PeersConnect` | srt-protocol/src/protocol/pending_connection/rendezvous.rs:217-475 | with equal key settings there is a run that connects both peers |
| `RendezvousMode.EveryRunCanConnect` | srt-protocol/src/protocol/pending_connection/rendezvous.rs:217-521 | progress: with equal key settings every run, whatever it lost so far, can be continued so that both peers are connected |
| `RendezvousMode.GreetingStartsInitiator` | srt-protocol/src/protocol/pending_connection/rendezvous.rs:217-302 | whatever a waving initiator hears first from its responder, it sends its request |
| `RendezvousMode.RequestIsAnswered` | srt-protocol/src/protocol/pending_connection/rendezvous.rs:336-369 | a waving or attending responder answers the request whenever it arrives |
| `RendezvousMode.ResponseEstablishes` | srt-protocol/src/protocol/pending_connection/rendezvous.rs:304-450 | the response establishes an initiator in any of its three waiting states |
| `RendezvousMode.ResponseIsAgreedAgain` | srt-protocol/src/protocol/pending_connection/rendezvous.rs:477-515 | a connected initiator that hears the response again repeats its agreement |
| `RendezvousMode.AgreementEstablishes` | srt-protocol/src/protocol/pending_connection/rendezvous.rs:399-475 | the agreement establishes a responder in either of its waiting states |
| `RendezvousMode.TrafficEstablishes` | srt-protocol/src/protocol/pending_connection/rendezvous.rs:399-475 | so does any data or keep-alive, and then the initiator is connected |
| `RendezvousMode.WaveStartsResponder` | srt-protocol/src/protocol/pending_connection/rendezvous.rs:217-302 | a waving responder that hears a wave takes over the initiator's number and says so |
| `RendezvousMode.AttentionRepeatsRequest` | srt-protocol/src/protocol/pending_connection/rendezvous.rs:304-334 | an attending initiator that hears its responder's attention sends its request again |
| `RendezvousMode.UnequalPeersRefuse` | srt-protocol/src/protocol/pending_connection/rendezvous.rs:217-475 | a responder that wants keys and an initiator without are never connected, in any run |
| `RendezvousMode.ResponseMirrors` | srt-protocol/src/protocol/pending_connection/rendezvous.rs:304-421 | the one request and its response lead to dual settings |
| `RendezvousMode.InitiatorReaction` | srt-protocol/src/protocol/pending_connection/rendezvous.rs:217-450 | all that an initiator can do with any packet |
| `RendezvousMode.ResponderReaction` | srt-protocol/src/protocol/pending_connection/rendezvous.rs:217-475 | all that a responder can do with any packet |
| `RendezvousMode.Rendezvous.constructor` | srt-protocol/src/protocol/pending_connection/rendezvous.rs:49-85 | waves, with its cookie and initial number |
| `RendezvousMode.Rendezvous.HandlePacket` | srt-protocol/src/protocol/pending_connection/rendezvous.rs:477-515 | agrees with the transition table for every state and packet |
| `RendezvousMode.Rendezvous.HandleWaving` | srt-protocol/src/protocol/pending_connection/rendezvous.rs:217-302 | agrees with it when waving |
| `RendezvousMode.Rendezvous.HandleAttentionInitiator` | srt-protocol/src/protocol/pending_connection/rendezvous.rs:304-334 | repeats the request or finishes |
| `RendezvousMode.Rendezvous.FinishWith` | srt-protocol/src/protocol/pending_connection/rendezvous.rs:371-397 | what the initiator states do with a response: connect and send the agreement, or nothing |
| `RendezvousMode.Rendezvous.Answer` | srt-protocol/src/protocol/pending_connection/rendezvous.rs:336-369 | answers a request, adopting the initiator's number, or rejects it |
| `RendezvousMode.Rendezvous.HandleInitiatedResponder` | srt-protocol/src/protocol/pending_connection/rendezvous.rs:452-475 | connects unless the packet still carries a request or a wave |
| `RendezvousMode.Rendezvous.SetConnected` | srt-protocol/src/protocol/pending_connection/rendezvous.rs:192-214 | connects with the agreement kept for repetition |
| `RendezvousMode.Rendezvous.SendConclusion` | srt-protocol/src/protocol/pending_connection/rendezvous.rs:142-162 | sends and remembers a conclusion |
| `RendezvousMode.Rendezvous.HandleTick` | srt-protocol/src/protocol/pending_connection/rendezvous.rs:518-521 | repeats the last packet |
| `CallerListener.StepSafe` | srt-protocol/src/protocol/pending_connection/listen.rs:102-299 | every step of caller, listener, access controller or network keeps the invariant, and no unimplemented branch is met |
| `CallerListener.RunSafe` | srt-protocol/src/protocol/pending_connection/listen.rs:102-299 | every state of every run satisfies it |
| `CallerListener.AcceptsMirrors` | srt-protocol/src/protocol/pending_connection/listen.rs:253-299 | with matching key settings, configured or granted, the listener's answer to the one request opens a mirrored connection |
| `CallerListener.EndsAgree` | srt-protocol/src/protocol/pending_connection/connect.rs:126-158 | in every run, with or without access control, the caller is connected only if the listener is, and the two connections mirror each other |
| `CallerListener.CallConnects` | srt-protocol/src/protocol/pending_connection/connect.rs:89-158 | with equal key settings there is a run that connects both ends, with and without access control |
| `CallerListener.EveryCallCanConnect` | srt-protocol/src/protocol/pending_connection/connect.rs:89-206 | progress: with matching key settings every run in which nothing was refused, whatever it lost so far, can be continued so that the caller is connected |
| `CallerListener.CookieIsChecked` | srt-protocol/src/protocol/pending_connection/listen.rs:174-226 | whatever arrives, a listener that has given a cookie moves on only for a conclusion that carries it |
| `CallerListener.ListenerRepeats` | srt-protocol/src/protocol/pending_connection/listen.rs:174-226 | a waiting listener repeats its cookie and a connected one its response |
| `CallerListener.StepCookie` | srt-protocol/src/protocol/pending_connection/listen.rs:129-226 | until something is refused there is one cookie: the listener's, in every induction response and in the request |
| `CallerListener.DenialIsHeard` | srt-protocol/src/protocol/pending_connection/listen.rs:67-96 | a denial reaches the caller with its reason and ends the call |
| `CallerListener.AcceptsRefuses` | srt-protocol/src/protocol/pending_connection/listen.rs:253-299 | a listener that wants keys refuses a caller without |
| `CallerListener.Connect.constructor` | srt-protocol/src/protocol/pending_connection/connect.rs:53-68 | configured, nothing sent |
| `CallerListener.Connect.OnStart` | srt-protocol/src/protocol/pending_connection/connect.rs:70-87 | sends the induction request |
| `CallerListener.Connect.WaitForInduction` | srt-protocol/src/protocol/pending_connection/connect.rs:89-124 | answers an induction response with the request, echoing its cookie |
| `CallerListener.Connect.WaitForConclusion` | srt-protocol/src/protocol/pending_connection/connect.rs:126-158 | connects on a response, ends on a rejection, ignores the rest |
| `CallerListener.Connect.HandlePacket` | srt-protocol/src/protocol/pending_connection/connect.rs:160-194 | agrees with the transition function in every state |
| `CallerListener.Connect.HandleTick` | srt-protocol/src/protocol/pending_connection/connect.rs:196-206 | starts or repeats |
| `CallerListener.Listen.constructor` | srt-protocol/src/protocol/pending_connection/listen.rs:43-49 | waits for an induction |
| `CallerListener.Listen.WaitForInduction` | srt-protocol/src/protocol/pending_connection/listen.rs:129-172 | answers with a cookie |
| `CallerListener.Listen.WaitForConclusion` | srt-protocol/src/protocol/pending_connection/listen.rs:174-226 | repeats the cookie, asks for access, or accepts; wrong cookies are ignored |
| `CallerListener.Listen.AcceptConnection` | srt-protocol/src/protocol/pending_connection/listen.rs:253-299 | answers with the negotiated response; granted key settings replace the listener's |
| `CallerListener.Listen.MakeRejection` | srt-protocol/src/protocol/pending_connection/listen.rs:301-324 | rejects and waits again |
| `CallerListener.Listen.HandlePacket` | srt-protocol/src/protocol/pending_connection/listen.rs:102-127 | agrees with the transition function in every listening state |
| `CallerListener.Listen.HandleAccessControlResponse` | srt-protocol/src/protocol/pending_connection/listen.rs:67-96 | accepts, rejects or drops the request that waits |
| `Codec.ParseUndoesSerialize` | srt-protocol/src/packet/data.rs:89-140 | parsing a serialized packet gives the packet back, for every packet |
| `Codec.SerializeUndoesParse` | srt-protocol/src/packet/data.rs:89-140 | a buffer is parsed if and only if it has a header, a clear control bit and not both encryption bits set, and then serializing gives the buffer back |
| `Codec.HeaderLayout` | srt-protocol/src/packet/data.rs:121-140 | which bytes hold what: number, flags and message number, timestamp, socket id, each big-endian, then the payload; and the weight of each flag |
| `Codec.Parse` | srt-protocol/src/packet/mod.rs:95-115 | for any buffer: too short, a control packet, a bad encryption field, or the header words and the rest as payload |
| `Codec.Serialize` | srt-protocol/src/packet/data.rs:121-140 | appends the four header words and the payload |
| `Codec.TextUndoesWords` | srt-protocol/src/packet/control/srt.rs:274-311 | a non-empty string is read back if and only if it does not end in NUL or its last word holds one byte |
| `Codec.TrailingNulIsLost` | srt-protocol/src/packet/control/srt.rs:274-311 | the concrete case: an A and a NUL are read back as an A |
| `Codec.WordsReverse` | srt-protocol/src/packet/control/srt.rs:296-311 | where each byte of a string goes: the bytes of its word are in reverse order, padded with zeros |
| `Codec.WordsUndoesText` | srt-protocol/src/packet/control/srt.rs:274-311 | re-encoding what was read from any non-empty whole number of words gives the same bytes |
| `Codec.StringToLeBytes` | srt-protocol/src/packet/control/srt.rs:296-311 | the loop appends the reversed and padded words |
| `Codec.LeBytesToString` | srt-protocol/src/packet/control/srt.rs:274-294 | for any buffer: stops if and only if it is empty, otherwise reads the text or says which error it is |

## Left out

- Runs of both ends assume that a packet or acknowledgement arrives within 2^30 of where its receiver stands, that no too-late drop reaches 2^31, and that the indices of a drop request do not run backwards; what happens otherwise is stated by the exact conditions above, not as a run.
- Runs of the handshakes assume equal key settings on both sides, configured or granted, or none on the side that asks; other combinations are not implemented in the source, or depend on what a wrong key unwraps to.
- Runs of the key refresh assume that key requests are not reordered and that generated keys are new.
- Senders.Sender.HandleData: does not encrypt packets before it buffers them; that step is modelled by itself.
- Senders.Sender.Serve: the SND period stays as it is; congestion control changes it in the source.
- SendBuffers.SendBuffer.SendNextRtoPacket: when deadlines or queued numbers are so far apart that their comparison is not an order, any entry may be on top of the queue.
- ReceiveBuffers.ReceiveBuffer.PopNextMessage: the clock that turns a timestamp into an instant is a parameter, and instants are whole microseconds.
- Codec.Serialize: flags are added where the source combines disjoint bits.
- Codec.LeBytesToString: UTF-8 validity is a parameter.
- Terminal operations: clearing the receive buffer and resetting the acknowledgement history, which do not keep the invariants.
- AES, PBKDF2, random keys and cookie hashing: the block cipher is any permutation with an inverse, counter mode is exclusive-or with any key stream.
- Times, addresses and destination ids of handshakes, and handshake extensions that are not negotiated.
- Round-trip, bandwidth and congestion estimates, clock drift and statistics: parameters or absent.
- Control packet formats other than extension strings, option parsing, sockets and the crates around srt-protocol.
