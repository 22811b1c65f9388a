# A model of the usb_sniffer capture pipeline

This project models the capture path of the second-generation USB sniffer, from the octets
the transport delivers to the blocks of the pcapng file, and two independent cores beside
it: the JTAG engine of the first generation and the coverage accounting of the pattern
tool. `dafny verify dfyconfig.toml` checks everything.

## The layers

**Block stream.** `UhsifBlock` and `BlockParse` say what an upstream byte stream means:
`Parse` is a four-line function of the octets alone. `StreamBuffer.Stream` is
`src/stream.c` in place (a 1 MiB array, `head`, `len`, two states, lazy compaction). Its
invariant says that, whatever octets follow, the callbacks made so far and a parse of what
is still in the buffer are a parse of everything ever fed. Out of this come chunk
independence, the bound on the rest between calls, and that the branch for oversized
blocks is dead. `BlockLaws` and `LossReports` prove what `Parse` is for: exact
resynchronisation, one report for each loss, blocks that survive the trip. `Usbcap` is
the second parser, `tools/usbcap.c`, with its own buffer discipline.

**Header checksum.** `BitWords` and `HeaderCrc` treat the CRC of `src/uhsif.h` as a linear map
over bit sequences. A corrupted header passes exactly if the flips have syndrome zero; an odd
number of flips and any two flips never have. `Checksum` says which checksum it is, as a
remainder of polynomials and by a value. `WireBursts` settles the third claim of the
header comment, bursts, for the header as it lies on the wire: it is false, and the eight
patterns that get through are named.

**Frames.** `PacketModel` holds `src/packet.c` on values, function by function;
`PacketEngine.Packet` is the object that works in place on its arrays, each method proved to
do what its namesake does. `Walker` is an independent reference that knows nothing of
folding, deferred line states, periodic updates or limits. `FoldLaws`, `FoldCount`,
`TimeLaws` and `FrameBounds` prove the global claims against it, and `PacketCalls` carries
them over whole sessions in which blocks get lost and messages are written between pieces.
`LimitLaws` and `LimitNotes` say what a record limit does, `FoldBound` when the fold limit
holds, and `FoldRunaway` is a family of captures on which it does not. `FoldExact` is the rule
of folding without its buffer, and `FoldOutput` shows that the output is what the rule says.
`SelectedSpeed` and `LineStates` say what the selected speed changes. `BusNotes` and
`BusStory` give all that interface 1 reports of the bus, from the bytes and from the frames sent.

**Clock and frames as sent.** `Timestamps` proves the 20-bit clock extension right exactly
if the overflow bit counts the periods begun. `Frames` prints frames as `docs/protocol.md`
and the generators do. `EndToEnd` and `SessionClock` put the layers up to the records
together, and `SessionFile` goes on to the closed file and its reader, interface by interface.

**Two bounded queues.** `BufferRing` is the ring and the stack of free buffers both queues have.
`RawQueue` (`src/main.c`) and `AsyncWriter` (`src/pcapng.c`) are state machines whose steps
are the sections between two points of interference. Runs are arbitrary interleavings with
unprompted wake-ups; stopping is a step of its own. `AsyncFlush` says what the two flushes
have done when they return.

**File format.** `PcapngFormat` prints and reads blocks as draft-ietf-opsawg-pcapng, sections
3.1, 4.1, 4.2 and 4.3, lay them out; `PcapngPrinter.Pcapng` is the assembly buffer and the
staging area in place; `PcapngOptions` reads the fixed fields and options back, among them the
unit of time; `Recording` says what a reader finds in the file while it is written.

**First generation.** `Gen1` is `src/gen1/capture.c` over the same state,
`Gen1Refinement` says exactly when the two part, and `Gen1Disagreement` is a capture on which
they do. `Jtag` and `JtagEngine` are the JTAG engine against the TAP controller of
IEEE Std 1149.1-2001, section 6.1, and `JtagValues` says which numbers the registers get.

**Coverage.** `Intervals` is the accounting of `tools/patcheck.py`.

## What turned out false, and when it holds

- The header checksum does not detect every burst of at most 16 bits (`src/uhsif.h:48-49`): it
  lies in octets 2 and 3, in front of the words it covers, low octet first. Flipping 0xa4 in
  octet 3 and 0x85 in octet 4 turns every valid header into another valid one
  (`WireBursts.BurstNotDetected`). Among all such bursts the checksum misses exactly eight
  patterns, all across octets 3 and 4, and the parser, which also looks at reserved bits,
  exactly two (`WireBursts.ChecksumMisses`, `WireBursts.ParserMisses`).
- A data sequence of `jtag_write_dr` or `jtag_read_dr` ends in Run-Test/Idle exactly if it
  has a bit to shift; without one the controller stays in Pause-DR (`Jtag.EndsInIdle`).
- Announcing a capture keeps the output in time order exactly if the trigger is in use or
  all that was written before, a pending line state included, is stamped 0
  (`TimeLaws.AnnounceKeepsOrder`). A status frame left over from the start-up breaks it
  (`SessionClock.LateAnnouncementBreaksOrder`).
- The two generations do not always write the same records. With folding off and detected
  speed, at a header in step, they part exactly if the header is a status frame that finds the
  capture waiting for its trigger, changes neither trigger nor VBUS, and ends a low-speed SE0 in
  J after at least 2^32 ns, the low 32 bits of the interval lying in the keep-alive window
  (`Gen1Refinement.HeadersAgree`): the first writes a line state, unless these are
  excluded, and the second takes it for a keep-alive and, still waiting, writes nothing. `Gen1Disagreement.GenerationsDisagree` is such
  a capture, from the announcement on: SE0 held for 2^32 + 1504 ns through 245 overflow
  markers. Without a trigger they never part (`Gen1Refinement.SameRecordsWithoutTrigger`).
- The N of a "Folded" record is not always at most the fold limit. The count is compared with
  the limit for equality, so it stays in range through an octet exactly if it is below what the
  limit then is (`FoldBound.ByteCounts`); that fails when the bus becomes slower behind a count
  of 1000 or more. `FoldRunaway.FoldedIsUnbounded` is, for every k that the 64-bit clock has
  room for, a capture that writes N = 1000 + k at full speed. As long as the bus does not become slower the limit holds
  (`FoldBound.LimitHolds`).
- The decoded time is right exactly if the overflow bit says how many clock periods began
  (`Timestamps.TickIsRight`).
- With a full ring the enqueue overwrites the oldest slot (`BufferRing.PutOverwritesWhenFull`);
  it is never called then (`RawQueue.EnqueueHasRoom`, `AsyncWriter.NeverWaitsForSlot`).
- Stopping the raw queue loses nothing, however the threads go on, exactly if no push is in
  progress (`RawQueue.StopExact`); `RawQueue.StopLosesAnOctet` is a run that loses one. In the
  program pushes and the stop come from one thread (`src/main.c:494-509`), so the stop
  finds no push in progress.

## Where the code and its comments differ

The code is followed. `src/pcapng.c:328-331` says that info records flush the file;
`src/packet.c:153-155` does not. The comment at `src/pcapng.c:424` calls the queue drained
after `pcapng_flush`, which waits for an empty queue only: the chunk in the writer's hand
may still be unwritten. `src/stream.c:118-126` counts good blocks; nothing reads the count.

## Model

| member | source | states |
|---|---|---|
| Bytes.Le32RoundTrip | src/uhsif.h:84-95 | reading back a printed little-endian word gives the word |
| HeaderCrc.HdrCrc16 | src/uhsif.h:51-64 | the two nested loops compute the polynomial remainder of the 96 message bits in wire order |
| HeaderCrc.FeedAtOnce | src/uhsif.h:59-61 | XOR-ing an octet in and shifting eight times is feeding its eight bits one by one |
| HeaderCrc.CrcLinear | src/uhsif.h:51-64 | the checksum of an XOR is the XOR of the checksums (affine over XOR) |
| HeaderCrc.CrcParity | src/uhsif.h:45-50 | the parity of the checksum is the parity of the 96 header bits |
| HeaderCrc.UndetectedIffZeroSyndrome | src/uhsif.h:67-70 | a corrupted codeword is accepted exactly if the flipped bits have syndrome zero |
| HeaderCrc.OddFlipsDetected | src/uhsif.h:45-50 | every odd number of flipped bits among the 112 has a nonzero syndrome |
| HeaderCrc.TwoFlipsDetected | src/uhsif.h:45-50 | any two flipped bits among the 112 have a nonzero syndrome |
| HeaderCrc.BurstDetected | src/uhsif.h:51-64 | flips confined to 16 consecutive bits in the order in which the checksum takes them have a nonzero syndrome |
| Checksum.CrcIsRemainder | src/uhsif.h:40-64 | of any message of at least two octets the checksum is the zero-start remainder of its bits with the first sixteen flipped: with it appended they are a multiple of x^16 + x^12 + x^5 + 1 |
| Checksum.RemainderIsUnique | src/uhsif.h:40-64 | a multiple of the generator is determined by its leading bits, so no other value is that remainder |
| Checksum.TwelveZeros | src/uhsif.h:51-64 | the checksum of twelve zero octets is 0x84F9 |
| Checksum.HeaderOnWire | src/uhsif.h:67-97 | a valid header octet by octet, in numbers: magic, checksum position and order, reserved bits, length and sequence number |
| BlockLaws.CorruptionIsSyndrome | src/uhsif.h:67-70 | a valid header with its magic intact passes after corruption exactly if the flips have syndrome zero |
| BlockLaws.CorruptHeaderRejected | src/stream.c:66-91 | odd flips, two flips, and 16 consecutive bits in checksum order make a valid header invalid for the stream parser |
| WireBursts.StepsShow | src/uhsif.h:57-62 | the closed form, bit by bit, of what 96 shifts make of 16 bits |
| WireBursts.ChecksumMisses | src/uhsif.h:45-70 | of all bursts of at most 16 bits on the wire the checksum misses exactly eight patterns |
| WireBursts.ParserMisses | src/stream.c:66-91 | the parser accepts such a burst exactly if it is one of the two patterns that leave octet 5 alone |
| WireBursts.ConfinedBurstRejected | src/stream.c:66-91 | a burst inside the checksum, or inside what is not the checksum, is always rejected |
| WireBursts.BurstNotDetected | src/uhsif.h:48-50 | the claim on bursts fails for every valid header: six flips within 16 bits give another valid one |
| WireBursts.SomeBurstPasses | src/uhsif.h:48-50 | there are such headers: any printed one |
| BlockLaws.HeaderRoundTrip | tools/make_fake_stream.py:50-56 | a printed header is valid and gives back its length and its sequence number modulo 256 |
| BlockLaws.BlocksRoundTrip | src/stream.c:94-137 | any consecutively numbered legal blocks, ACKs included, are delivered exactly, with no report, whatever follows |
| BlockLaws.ResyncExact | src/stream.c:168-249 | after an invalid aligned header there is one report and the next block is the one at the smallest offset with a valid header |
| BlockLaws.ResyncSilent | src/stream.c:183-242 | if no later block is complete the report is all there is |
| BlockLaws.DeliveriesOfStream | src/stream.c:94-137 | alignment and sequence history decide reports only, never which blocks are delivered |
| LossReports.StreamLosses | src/stream.c:94-251 | the blocks delivered are those found by searching valid headers from the end of the last block, and the reports are as many as gaps and sequence jumps |
| LossReports.AlignedLosses | src/stream.c:94-181 | the same from the end of any block on: one report for a gap, one for a jump between adjacent blocks |
| BlockParse.AdvanceSkip | src/stream.c:188-233 | octets at which no header can begin may be dropped whatever follows them |
| BlockParse.AdvanceAccept | src/stream.c:94-137 | taking a complete valid block commutes with the arrival of more input |
| StreamBuffer.HeaderCheck | src/stream.c:66-91 | the in-place check accepts exactly the valid headers and gives their payload length |
| StreamBuffer.FindMagic | src/stream.c:188-198 | the scan finds the first magic half-word, or says that none begins before the tail |
| StreamBuffer.Stream.ProcessAvailable | src/stream.c:140-251 | afterwards only an incomplete block or a scan tail below 16384 octets is left, and the callbacks are those of the parse |
| StreamBuffer.Stream.Feed | src/stream.c:254-304 | for a piece of any size, above 1 MiB too, the callbacks ever made are the parse of everything ever fed |
| StreamBuffer.FeedAll | src/stream.c:254-304 | chunk independence: however a stream is cut, the callbacks are those of one parse of the whole |
| Usbcap.Capture.ParsePush | tools/usbcap.c:84-125 | the second parser's payload and ACK count are those of the parse, for any urb |
| Usbcap.BothParsers | tools/usbcap.c:84-125 | both parsers, each under its own cutting of the stream, deliver the same payload and the same number of ACKs |
| Walker.WalkStaysOk | src/packet.c:523-596 | for arbitrary bytes the assembly index stays below the current size and the size at most 1273 |
| Walker.SameWalk | src/packet.c:523-596 | under every option the packet layer walks as the reference does |
| FoldLaws.FeedFollowsWalker | src/packet.c:407-462 | feeding bytes adds exactly the reference's diagnostics and solid frames, all its frames with folding off, and a subsequence of payloads with it on |
| FoldLaws.FoldingIsOutputOnly | src/packet.c:407-596 | runs of one stream with and without folding: equal walker state, identical diagnostics and solid frames with times, folded payloads a subsequence |
| FoldLaws.StopFoldingEffect | src/packet.c:310-347 | flushing moves the buffered frames to the output, in order, and adds no diagnostic and no solid frame |
| FoldLaws.DataEffect | src/packet.c:407-462 | a received frame is shown, buffered or dropped as the views allow |
| FoldLaws.UnlimitedConsumesAll | src/packet.c:367-376 | without a record limit every byte is consumed |
| FoldExact.ShownUnlessLost | src/packet.c:407-462 | by the rule a frame or keep-alive is written or held back exactly if it is not in a batch of at most 256, from a start-of-frame or keep-alive over INs and NAKs only, that the next start-of-frame or keep-alive closes |
| FoldOutput.FoldedOutputIsExact | src/packet.c:310-462 | with folding on, over any session: the frames and keep-alives written are exactly those the rule gives, in order, with octets, marks and times, and the buffer is the open batch |
| FoldOutput.HeardAreWalked | src/packet.c:565-596 | the frames the rule speaks of are those the reference walker finds in the bytes taken in |
| FoldCount.FoldConservation | src/packet.c:310-462 | over one stream SOF frames and keep-alives received = those written + the pending one + the fold count + the sum over all Folded records |
| FoldCount.RefoldDue | src/packet.c:385-400 | opening a new batch keeps the balance, the flush at the limit included |
| TimeLaws.FeedOnTime | src/packet.c:121-166 | while the decoded clock does not run back, records stay ordered and a pending line state lies between the last record and now |
| TimeLaws.OutputIsMonotone | src/packet.c:310-347 | from the announcement of a fresh capture on, through one stream without interruption, all records of both interfaces are in time order, folding or not |
| PacketCalls.SessionOutputIsMonotone | src/packet.c:660-689 | the same over whole sessions, with loss reports and messages between the pieces |
| PacketCalls.SessionFoldingIsOutputOnly | src/packet.c:407-689 | runs with and without folding over the same session: equal walker state, identical diagnostics, loss reports, messages and solid frames, folded payloads a subsequence |
| PacketCalls.SessionFoldConservation | src/packet.c:310-462 | the balance of SOF frames and keep-alives over whole sessions |
| TimeLaws.AnnounceKeepsOrder | src/packet.c:639-657 | announcing keeps the order exactly under the stated condition |
| TimeLaws.LineOnTime | src/packet.c:282-307 | deferring a line state or turning it into a keep-alive keeps the invariant of time |
| LimitLaws.LimitIsExact | src/packet.c:367-376 | with a limit of n, any session takes in at most n frames and keep-alives, folded ones included, and is done exactly when it has taken in n |
| FoldBound.ByteCounts | src/packet.c:382-462 | through one octet the fold count stays below the limit in force exactly if it is below what the limit becomes |
| FoldBound.FoldedIsBounded | src/packet.c:310-462 | over any session in which that holds the count stays below the limit in force and each Folded record counts at least one and at most the largest limit |
| FoldBound.LimitHolds | src/packet.c:310-462 | from the announcement on, while the bus does not become slower, the count is below the limit for its speed and every N between one and that limit |
| FoldRunaway.FoldedIsUnbounded | src/packet.c:437-446 | for every k that the clock has room for a legal capture that drops from high to full speed and ends with a Folded record of N = 1000 + k |
| SelectedSpeed.SelectedSpeedDecides | src/packet.c:103-118 | over any session with folding on, sound start-of-frames received while the bus reports low speed are never written, the last one being held back, if full or high speed is selected, and are written one by one if low speed or none is |
| SelectedSpeed.SelectedSpeedCounts | src/packet.c:385-446 | a legal capture that reports low speed with full or high speed selected: of n start-of-frames one is held back and n - 1 are counted modulo 1000 or 8000 |
| LineStates.LineStatesAreNamed | src/packet.c:182-233 | over any session in which the polarity of the bus does not change every line state is named by it |
| LineStates.SelectedSpeedNames | src/packet.c:111-118 | with full or high speed selected no line state is named as on a low-speed bus |
| LineStates.LineStateSays | src/packet.c:182-233 | what is written of a pending line state: its time, its state, its length in 32 signed bits, and its polarity |
| LineStates.KeepaliveSeen | src/packet.c:282-307 | a status frame counts as a keep-alive exactly if the capture runs, nothing but the line changes, and on a low-speed bus SE0 lasted between 1000 and 2000 ns and ends in J |
| LineStates.UpdatesAreDue | src/packet.c:550-554 | at a header an update is written exactly if the capture runs and was silent for more than 2 s, so no record of a running capture is older |
| BusNotes.NotesAreExact | src/packet.c:236-280 | for any bytes and options the notes on trigger, VBUS, speed, lost data and framing errors are exactly those of the reference, in order and at their times |
| BusNotes.SessionNotesAreExact | src/packet.c:660-689 | the same over any session, with loss reports and messages |
| BusStory.BusIsReported | src/packet.c:236-280 | from the frames sent: interface 1 reports exactly the changes of trigger, VBUS and speed, the start and end of the capture, and overflows and transceiver errors, each at the time of its frame |
| LimitNotes.LimitIsAnnounced | src/packet.c:367-376 | with a limit, over any session, "limit reached" is written exactly when the capture is done |
| FrameBounds.EveryFrameFits | src/packet.c:565-595 | whatever the bytes, each frame handed on has 1 to 1273 octets and makes a block of at most 4096 |
| FrameBounds.EverySessionFrameFits | src/packet.c:565-595 | the same over whole sessions |
| PacketEngine.Packet.constructor | src/packet.c:612-636 | a new object is the fresh state |
| PacketEngine.Packet.DoStopFolding | src/packet.c:310-347 | the loop over the fold buffer does what the model's flush does |
| PacketEngine.Packet.DoDataEvent | src/packet.c:407-462 | in place, with every fold-buffer store in bounds, it is the model's data event |
| PacketEngine.Packet.DoStatusEvent | src/packet.c:236-307 | in place it is the model's status event |
| PacketEngine.Packet.DoCaptureSm | src/packet.c:523-596 | one byte in place is one byte of the model, and the walk stays in bounds |
| PacketEngine.Packet.DoFeed | src/packet.c:660-672 | feeding a buffer is feeding the model, stopping where the capture is done |
| PacketEngine.Packet.DoAnnounce | src/packet.c:639-657 | in place it is the model's announcement |
| Timestamps.OrIsPlus | src/packet.c:547 | over disjoint bits the OR of the source is a sum |
| Timestamps.TickIsRight | src/packet.c:544-547 | the decoded time is floor(ticks * 100 / 6) exactly if the overflow bit counts the periods begun |
| Timestamps.NsIncreases | src/packet.c:547 | distinct ticks have distinct times in the same order |
| Timestamps.NsToTicks | tools/make_fake_stream.py:59-68 | the loop finds the least tick count not before a time, and inverts the decoder on its image |
| Frames.HeaderWalked | src/packet.c:536-587 | a printed header is taken in step, moves the clock to its tick and starts exactly its payload, with no diagnostic |
| Frames.FramesRoundTrip | tools/feature_tests.py:28-55 | any legal alternating frames are read back exactly: octets, flags, times, trigger gating, and no diagnostic |
| Frames.FillerIsSilent | tools/make_fake_stream.py:207-214 | the incomplete header that fills the last word means nothing |
| EndToEnd.FramesComeBack | src/packet.c:523-596 | frames, any legal blocks, any transfers: no loss report, no error record, and exactly the frames the trigger lets through |
| EndToEnd.FoldedFramesComeBack | src/packet.c:407-462 | the same with folding on: every solid frame, no error, nothing shown that was not sent |
| EndToEnd.PayloadsFeed | src/main.c:224-235 | delivering blocks one by one is feeding their concatenation |
| EndToEnd.EventsAreCalls | src/main.c:224-249 | the callbacks of any parse, losses included, are a session of calls |
| SessionClock.SessionIsOrdered | src/packet.c:121-166 | whatever the options, the records of such a session are in time order, with no assumption on the decoded clock |
| SessionClock.LateAnnouncementBreaksOrder | src/packet.c:639-657 | a status frame at a positive time before the announcement puts the output out of order |
| SessionFile.SessionFits | src/pcapng.c:215-259 | every record of any session, losses and messages included, fits the block buffer, info records with up to 511 characters too |
| SessionFile.FilePackets | tools/check_pcapng.py:40-53 | a reader collects for interface 0 exactly the frames among the records and for interface 1 exactly the tagged texts of the others, in order |
| SessionFile.SessionIsRead | tools/check_pcapng.py:40-53 | once closed, the file of any session, with losses, messages, folding and a limit, shows every record on its interface in the order written |
| SessionFile.SentIsRead | tools/check_pcapng.py:40-53 | from the bus to the reader: in the closed file interface 0 holds exactly the frames sent that the trigger lets through, with their times, whatever the blocks, transfers and interleaving, and interface 1 the texts |
| SessionFile.SentIsReadFolded | src/packet.c:407-462 | the same with folding: all frames received with an error or of other kinds than SOF, IN and NAK, with their times, the packets of other kinds exactly those sent, and none that was not sent |
| BufferRing.PutAppends | src/main.c:176-180 | with a slot to spare the unchecked enqueue appends and writes over nothing queued |
| BufferRing.PutOverwritesWhenFull | src/main.c:176-180 | without one it would write over the oldest item |
| BufferRing.PopTakesOldest | src/main.c:128-130 | the dequeue takes the oldest item |
| BufferRing.ContentElsewhere | src/main.c:173 | filling a buffer that is not queued changes no queued octet |
| BufferRing.RingBuffer.PutItem | src/main.c:176-179 | in place it is the enqueue of the model |
| BufferRing.RingBuffer.PopItem | src/pcapng.c:78-81 | in place it is the dequeue of the model |
| RawQueue.StepKeepsInv | src/main.c:117-198 | every step of producer, worker and stop keeps the invariant: buffers conserved, first in first out, sleepers wait rightly |
| RawQueue.BuffersCounted | src/main.c:117-185 | queued + free + in-hand buffers are 32 and no buffer is in two places |
| RawQueue.RunsAreFifo | src/main.c:117-185 | in every state of every interleaving the octets fed are a prefix of those pushed |
| RawQueue.EveryRun | src/main.c:117-198 | in every state of every run from the start: fed is a prefix of pushed, 32 buffers are accounted for, and all is fed when nobody can move and no stop came |
| RawQueue.EnqueueHasRoom | src/main.c:175-182 | whenever the enqueue runs there is a free slot and it appends exactly its item |
| RawQueue.StepsAreSafe | src/main.c:117-185 | every array access of every step is in range, and only sleepers, the idle and the exited have no step |
| RawQueue.StuckMeansDone | src/main.c:117-198 | no deadlock although nonfull is signalled before the buffer is back: when nobody can move nothing is left to push, all is fed if no stop came, and at most one accepted chunk otherwise stays |
| RawQueue.ThreadsComeToRest | src/main.c:117-185 | left to themselves the threads come to rest within a computed number of steps |
| RawQueue.StopDrains | src/main.c:188-198 | a stop between pushes loses nothing: when the worker has left, everything pushed was fed |
| RawQueue.StopExact | src/main.c:159-198 | every push-free way to rest after a stop has fed all that was pushed exactly if no push was in progress |
| RawQueue.StopLosesAnOctet | src/main.c:159-198 | a run in which a stop overtakes a push and one octet is never fed |
| RawQueue.Rawq.TryAcquire | src/main.c:167-171 | the critical section waits, refuses or takes a buffer as the step says |
| RawQueue.Rawq.TryPop | src/main.c:123-132 | the critical section waits, leaves or takes an item as the step says |
| AsyncWriter.StepKeepsInv | src/pcapng.c:64-187 | every step of producer and writer, and every call, keeps the invariant |
| AsyncWriter.BuffersCounted | src/pcapng.c:64-148 | free + queued + current + in-hand buffers are 32 and no buffer is in two places |
| AsyncWriter.EveryRun | src/pcapng.c:64-187 | in every state of every run the file is a prefix of what was given until a write fails, all of it once closed; the queue never overflows, the wait for a slot is never entered, each buffer is freed once |
| AsyncWriter.GivenIsWritten | src/pcapng.c:152-177 | unless a write failed, what was given is what the calls asked to write since the file was begun, in their order |
| AsyncWriter.NeverWaitsForSlot | src/pcapng.c:129-131 | whenever chunk_flush looks there is a free slot |
| AsyncWriter.ClosedFileIsComplete | src/pcapng.c:420-444 | after close each buffer was freed once, and without a write error the file is exactly what was given |
| AsyncWriter.FlushLeavesOnlyTheHand | src/pcapng.c:404-417 | a flush returns with all in the file but the chunk in the writer's hand |
| AsyncFlush.FlushIsDone | src/pcapng.c:396-417 | whatever the threads do meanwhile, when a flush of the chunk returns all that was given is written, in hand or queued, and when pcapng_flush returns it is written or in hand |
| AsyncFlush.AgedChunkIsQueued | src/pcapng.c:179-187 | a write that ends with a chunk past its age returns with nothing collected |
| AsyncWriter.StuckMeansDone | src/pcapng.c:64-148 | no deadlock: when nobody can move the producer is between calls or closed and the queue is empty |
| AsyncWriter.ThreadsComeToRest | src/pcapng.c:64-187 | every call returns within a computed number of steps, while fwrite takes at least an octet or fails |
| AsyncWriter.WriteQueue.TryGetFree | src/pcapng.c:113-121 | the critical section of buf_get_free, shared with the step |
| AsyncWriter.WriteQueue.TryEnqueue | src/pcapng.c:129-143 | the critical section of chunk_flush, shared with the step |
| AsyncWriter.WriteQueue.TryDequeue | src/pcapng.c:70-83 | the critical section of writer_main, shared with the step |
| PcapngFormat.BlockIsFramed | src/pcapng.c:233-241 | every block is 4-aligned with equal lengths in front and behind |
| PcapngFormat.ReadPrinted | src/pcapng.c:365-393 | an entry read back has its interface, 64-bit timestamp and payload |
| PcapngFormat.FileRoundTrip | tools/check_pcapng.py:26-53 | reading a file shows section, two interfaces, then every entry in the order of the calls |
| PcapngOptions.InterfacesSay | src/pcapng.c:282-313 | a reader of the options finds for both interfaces link type, snap length, name, description and the resolution 10^-9 s |
| PcapngOptions.SectionSays | src/pcapng.c:269-279 | byte order, version 1.0, unknown length and the hardware name |
| PcapngOptions.TimesAreNanoseconds | src/pcapng.c:282-377 | in any file the time a reader finds for an entry, in seconds, is its timestamp over 10^9 |
| PcapngOptions.TypesAndLengths | src/pcapng.c:365-393 | block types by number, and equal captured and original lengths |
| PcapngOptions.SyslogSays | src/pcapng.c:380-393 | a reader of the tags finds the dissector name "syslog" and then the text |
| PcapngFormat.CutFileReads | tools/check_pcapng.py:30-35 | a file cut anywhere shows its first blocks and nothing else |
| PcapngFormat.SessionMakesFile | src/pcapng.c:243-256 | writes before and after pcapng_begin make one file in the order of the calls, head first |
| PcapngFormat.WalkBlocks | tools/check_pcapng.py:26-37 | the loop yields the blocks of the octets |
| PcapngFormat.Collect | tools/check_pcapng.py:40-53 | link types and packets by interface, in order; gives up exactly on a short packet block |
| PcapngPrinter.Pcapng.Stage | src/pcapng.c:247-256 | one doubling always makes room for one more block |
| PcapngPrinter.Pcapng.SendBuffer | src/pcapng.c:233-259 | the assembled block, its length patched in, goes to the sink or to the stage |
| PcapngPrinter.Pcapng.WriteEpb | src/pcapng.c:365-377 | the put calls assemble exactly the enhanced packet block |
| PcapngPrinter.Pcapng.WriteInfo | src/pcapng.c:380-393 | the put calls assemble exactly the tagged info block |
| PcapngPrinter.Pcapng.Begin | src/pcapng.c:346-362 | the head goes out before what was staged |
| Recording.EveryMomentReads | src/pcapng.c:64-187 | at any moment of any run that has handed over some part of a recording, inside pcapng_begin too, the file shows its first blocks |
| Recording.ClosedSessionReads | src/pcapng.c:346-444 | a session printed before and after pcapng_begin, once closed, is the whole file |
| Recording.ClosedFileReads | src/pcapng.c:420-444 | and a reader sees section, interfaces and every entry in the order of the calls |
| Gen1Refinement.HeadersAgree | src/gen1/capture.c:617-677 | on time, with a header in step and the clock not running back, both generations do the same at a header exactly unless it is the one kind of status frame named above |
| Gen1Refinement.BytesAgree | src/gen1/capture.c:617-677 | the same iff for every octet, payloads included |
| Gen1Refinement.StatusesAgree | src/gen1/capture.c:359-430 | trigger, VBUS, speed and line-state handling agree exactly unless nothing else speaks and a low-speed SE0 of a wrapping length ends in J |
| Gen1Refinement.LineChangesAgree | src/gen1/capture.c:408-430 | both handle a line-state change alike exactly if the interval is not looked at, or is below 2^32 ns or outside the window in its low 32 bits |
| Gen1Refinement.GenerationsAgree | src/gen1/capture.c:516-677 | over any stream in step without such a frame they go through the same states |
| Gen1Refinement.SameRecords | src/gen1/capture.c:616-677 | from the announcement on, for any trigger, both write the same records on such a stream |
| Gen1Refinement.SameRecordsWithoutTrigger | src/gen1/capture.c:616-677 | without a trigger both write the same records on every stream in step whose clock does not run back |
| Gen1Disagreement.GenerationsDisagree | src/gen1/capture.c:408-430 | for every trigger that is in use a legal capture from the announcement on in which the first generation writes exactly one record more |
| Gen1Refinement.AnnounceSame | src/gen1/capture.c:720-726 | the announcement agrees |
| Jtag.WriteIrLoads | src/gen1/fpga.c:103-115 | from idle the sequence loads exactly its bits into the instruction register and ends in idle |
| Jtag.WriteDrLoads | src/gen1/fpga.c:118-129 | from idle it loads exactly its bits into the data register and ends in idle, or shifts a stray zero if it has none |
| Jtag.EndsInIdle | src/gen1/fpga.c:118-147 | a data sequence ends in idle exactly if it has bits |
| Jtag.ResetReachesIdle | src/gen1/fpga.c:94-100 | from any state the reset sequence ends in idle |
| Jtag.RunsInIdle | src/gen1/fpga.c:150-154 | idle clocks stay in idle |
| Jtag.SramProgrammed | src/gen1/fpga.c:227-264 | programming makes the device load these registers in this order, the bitstream most significant bit first, and leaves it idle |
| JtagValues.LsbFirstValue | src/gen1/fpga.c:110-125 | the n low bits of some octets, shifted least significant first, are their little-endian number modulo 2^n |
| JtagValues.IrLoadsNumber | src/gen1/fpga.c:103-115 | an instruction sequence leaves its octet, as a number, in the instruction register |
| JtagValues.DrLoadsNumber | src/gen1/fpga.c:118-129 | a data sequence of n bits leaves the little-endian number modulo 2^n in the data register |
| JtagValues.MsbFirstValue | src/gen1/fpga.c:247-251 | the bitstream goes out most significant bit first: read from its last bit it is a big-endian number |
| JtagValues.SramInNumbers | src/gen1/fpga.c:227-264 | every load of the programming sequence, with its width, value and idle clocks, in numbers |
| JtagValues.OctetOfClocks | src/gen1/usb.c:254-271 | four clocks to an octet, the first one lowest |
| JtagValues.BitstreamNamesDevice | src/gen1/fpga.c:215-224 | a bitstream is accepted exactly if "LCMXO2-2000HC" stands in its first 1024 octets |
| JtagEngine.UsbJtagRequest | src/gen1/usb.c:254-271 | packing loses nothing: what is sent decodes to what was given |
| JtagEngine.UsbJtagResponse | src/gen1/usb.c:274-291 | eight bits to an octet, whatever the upper halves of the raw octets hold |
| JtagEngine.Engine.Clock | src/gen1/fpga.c:84-90 | requests sent and clocks waiting are all clocks issued, across the batch of 255 |
| JtagEngine.Engine.WriteIr | src/gen1/fpga.c:103-115 | it issues the instruction sequence, least significant bit first |
| JtagEngine.Engine.WriteDr | src/gen1/fpga.c:118-129 | it issues the data sequence, least significant bit first |
| JtagEngine.Engine.ReadDr | src/gen1/fpga.c:132-147 | the bits read are those the device shifted out at exactly the clocks of this read |
| JtagEngine.Engine.ProgramSram | src/gen1/fpga.c:227-264 | refused without a signature, else the whole sequence is with the device on return |
| Intervals.MergeIntervals | tools/patcheck.py:108-125 | the intervals are ordered, disjoint, not touching, cover exactly the packets, and the word count is their size |
| Intervals.Account | tools/patcheck.py:277-292 | the two independent counts of missing words agree, and the gaps are exactly the uncovered octets of the span |

## Left out

- Transport, device I/O and command channel (`src/transport*.c`, `src/device.c`, `src/cmd.c`): arbitrary octet pieces arrive, and no command is suppressing input.
- Command line, logging, extcap, session start and the bandwidth probe: they would add easy members.
- Text of info records: a record is a constructor with its values; the line-state wording, floating-point durations and the hex digits of a header are not modelled.
- FoldOutput.FoldedOutputIsExact: which status frames count as keep-alives is LineStates.KeepaliveSeen's, and how summaries are counted is that of the conservation laws.
- Wall-clock flushing of a partial chunk: a nondeterministic choice of the step.
- Integer overflow of `len + size` in `stream_feed` for a transfer near 2^31 octets, and of `pend_len`: lengths are unbounded.
- The count of good blocks in `src/stream.c` is kept in the object and constrained to 0..2 only, since nothing reads it.
- Keep-alives are not compared between a folded and an unfolded run: a periodic update flushes a pending line state, so the two runs may detect different keep-alives.
- After a failed write the file may have a gap, since the writer goes on with the next chunk; nothing is claimed about its contents then.
- FPGA flash programming, JED parsing, the I2C bridge and the FX2 loader.
- `src/gen1/capture.c` writing its own file: its record sequence is modelled, its block layout is that of the other printer with another hardware name.
- Gen1Refinement.SameRecords: the first generation is modelled on values over the shared state, not on its file-level variables; update in place is shown for the second generation only.
- Folding in the first generation (`Gen1.StopFolding`, `Gen1.Refold`): it is modelled as the source has it, and nothing is proved about it; the comparison is for captures without folding.
- Gen1Refinement.GenerationsAgree: streams that lose synchronisation are excluded, since the first generation exits there.
- RawQueue.StopDrains: it speaks of a stop while no push is in progress and none follows; RawQueue.StopExact settles the other case.
- AsyncWriter.ThreadsComeToRest: an fwrite that blocks for ever is not modelled.
- PcapngFormat.SessionMakesFile: entries fit the 4096-octet block buffer, as SessionFile.SessionFits shows for the records of a session.
- SessionFile.SentIsRead: the wording of info records is any function into at most 511 octets.
- PacketCalls.SessionOutputIsMonotone: a second announcement is not one of the calls; TimeLaws.AnnounceKeepsOrder says what it does.
- Timestamps.TickIsRight: up to the point where ticks * 100 leaves 64 bits, some 97 years.
- Intervals.MergeIntervals: the library sort is an insertion sort.
- Recovery of packet bases and expected contents in `tools/patcheck.py`, and its stream and slice gap heuristics.
