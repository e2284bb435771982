# PL trace pipeline: a verified model

A model of the part of XDP that turns hardware trace into events, from the data mover's ring buffer to
the event database, and of two history algorithms of the statistics database. Nothing was executed: the
claims are the contracts and lemmas listed below.

**Offload** (`OffloadSpec`, `Offload`, `Ring`, `Pipeline`). A data mover writes 8-byte words into a ring.
The offload thread samples its word count, works out rollover, offset and wraparound, and queues copies
of at most two ring intervals; the processing thread drains the queue into the logger. `OffloadSpec` has
the arithmetic of a turn as functions, `Offload` the offloader as a class whose methods are proved to
compute them, `Ring` the device side and the proof that what is queued is the mover's byte stream, and
`Pipeline` both threads, any number of movers and the shutdown handshake as a state machine, with
theorems over every interleaving. `Polling` connects its polls with the class's, `FinalPoll` says when the
final poll comes and what it reads, `BufferFull` when a buffer is full or a mover done, and `Shutdown` when
the handshake completes.

**Packet interpreter** (`TraceTypes`, `Packets`, `StartLists`, `Database`, `LoggerSpec`, `Logger`). 64-bit
packets are decoded, starts matched with ends, dropped packets repaired with invented events, clock
training reassembled across calls, and hanging events closed at CU end and at the end of the trace.
`LoggerSpec` says on values what each step does; `Logger` is the class, in the original's shape, each of
whose methods is proved to take its fields exactly there. The theorems about whole histories are proved
about the specification functions: `Pairing`, `Conservation`, `QueueInvariants`, `StallBits`,
`Logged` (what each packet logs, event by event), `Executions`, `StallTimes`, `EndOfTrace`, `Retraining`,
`AimIntervals`, `ClockTraining`. A logged event carries a role, start or
end, beside the start id the original keeps, so that an end that found no start can be told from a start.

**Statistics** (`CallStats`, `TopTen`, `Statistics`) and **buffer sizes** (`BufferSizing`).

Where the code does not do what one would expect, the code is modelled, and the exact condition under
which it does is proved:

- A stall that starts while its CU is idle breaks the agreement of toggle bits and outstanding stalls;
  nothing else does (`StallBits.StepTracks`, counterexample `StallBits.StrayStallBreaksTracking`).
- A stall that the end of its CU forces to end, on an unmoved line of nominal slope, ends later than it
  started if and only if it started at an earlier device time than the CU's end
  (`StallTimes.ForcedStallEndsLaterIff`, counterexample `StallTimes.StallEndsBeforeItStarts`).
- A stream packet with no flag set on a read monitor counts as a write, and the end-of-trace pass does
  not close it (`EndOfTrace.StreamPassCompleteIff`, counterexample `EndOfTrace.UnflaggedStartSurvives`).
- A stream pulse packet loses the start it finds; starts are ended first started, first ended if and only
  if that never happens (`Conservation.StartsAreEndedInOrder`, counterexample
  `Conservation.PulseLosesItsStart`).
- The end-of-trace pass closes one execution per CU, and only if some activity after time 0 was seen
  (`EndOfTrace.CloseCUsLeaves`, counterexamples `EndOfTrace.SecondHangingStartSurvives` and
  `EndOfTrace.StartAtZeroSurvives`).
- An approximate end can be earlier than its start as logged, when training moved the line back in between
  (counterexample `Retraining.RetrainedEndIsEarlier`). With a positive slope it is later if and only if the
  line moved back, at the start's device time, by less than the invented length
  (`Retraining.InventedEndsAreLater`), so always if the line was not moved since the start
  (`Retraining.EndsLaterUnlessRetrained`).
- If the processing thread has not yet stored its own flag when the offload thread clears it, shutdown
  never completes; otherwise it does, however the threads are scheduled
  (`Shutdown.ShutdownCompletesIff`, `Shutdown.EveryRunFinishes`, counterexample `Shutdown.LateStartHangs`).
- Two training samples give a line if and only if the first is not (0, 0), which stands for "none", and,
  outside a hardware flow, the two do not share a device time (`ClockTraining.SamplesGiveLineIff`,
  counterexamples `ClockTraining.ZeroSampleIsLost` and `ClockTraining.EqualTimesLeaveNoLine`).
- The buffers together stay within the request if and only if it grants each of them the minimum
  (`BufferSizing.SizesFit`).
- A mark of a call's end changes something if and only if a call is open and the time is not 0
  (`CallStats.EndClosesIff`).

Conventions. A shift right is a division by a power of two and a mask of low bits a remainder; the nibble
`traceIDs[slot]` is a record of four flags. Doubles are reals; a line whose slope was divided by zero is
marked as undefined. The static design tables are given: a
monitor's slot indexes the array of its type, as does the AM slot of a CU; an AM is only ever made for a known CU
(profile/database/static_info_database.cpp:2374-2402); and the trace clock rate is positive. Function-local statics are fields. The end of an approximate read or write carries the AM
slot where the monitor id should be, as in the code. `firstTimestamp` is never assigned by the code, so
device times are the packets' own, and the branch that would subtract it from a training packet's time
has no effect. The AM range ends at id 544, so ids 545 to 559 are ignored, although the comment beside the
constant speaks of 31 AMs.

## Model

| member | source | states |
|---|---|---|
| `Packets.BitOrDisjoint` | profile/device/pl_device_trace_logger.cpp:788 | or-ing a word in above the bits collected so far adds it: no bit is lost or carried |
| `Packets.PacketsOfConcat` | profile/device/pl_device_trace_logger.cpp:743-769 | cutting a byte stream at a packet boundary cuts its packets there and changes none |
| `Packets.PacketBytes` | profile/device/pl_device_trace_logger.cpp:743-769 | byte k of a packet in memory is its bits 8k to 8k + 7 |
| `Packets.EventPacketFields` | profile/device/pl_device_trace_logger.h:48-61 | a packet built from trace id, flags, pulse bit, overflow bit and device time decodes to exactly these, each flag bit to its own flag |
| `Packets.EveryEventPacket` | profile/device/pl_device_trace_logger.h:48-61 | and every packet that is not a clock training packet is built from such fields |
| `Packets.AMTraceIdFields` | profile/device/pl_device_trace_logger.cpp:176-216 | an AM trace id gives back the slot and, signal by signal, what fired |
| `StartLists.PLDB.MarkStart` | profile/database/dynamic_info/pl_db.cpp:60-65 | appends to the list of that monitor, creating it if needed; nothing else moves |
| `StartLists.PLDB.FindMatchingStart` | profile/database/dynamic_info/pl_db.cpp:67-86 | returns and erases the oldest start of the kind, or the unknown marker, leaving the rest as it was |
| `StartLists.PLDB.HasMatchingStart` | profile/database/dynamic_info/pl_db.cpp:88-97 | true exactly when the (monitor, kind) queue is not empty, and no queue changes |
| `StartLists.MarkRefines` | profile/database/dynamic_info/pl_db.cpp:60-65 | seen as a queue per (monitor, kind), a mark appends to its own queue and touches no other |
| `StartLists.TakeRefines` | profile/database/dynamic_info/pl_db.cpp:67-86 | a lookup removes the head of its own queue, that head is what it returns, and no other queue moves |
| `StartLists.UnknownMeansEmpty` | profile/database/dynamic_info/pl_db.cpp:67-86 | the unknown marker comes back exactly when the queue is empty |
| `StartLists.RunRefinesQueues` | profile/database/dynamic_info/pl_db.cpp:60-97 | over any sequence of operations the mixed per-monitor lists behave as independent FIFO queues |
| `Database.VPDynamicDatabase.AddEvent` | profile/database/dynamic_event_database.cpp:45-94 | stamps the event with the next id, logs it, and marks nothing |
| `Logger.PLDeviceTraceLogger.constructor` | profile/device/pl_device_trace_logger.cpp:35-62 | the initial state: arrays of the design's sizes, nominal slope, nothing outstanding |
| `Logger.PLDeviceTraceLogger.AddCUEndEvent` | profile/device/pl_device_trace_logger.cpp:64-93 | ends the oldest remembered start of the slot and forgets it; the CU must be known, as the statistics look it up unchecked, and all callers see to that |
| `Logger.PLDeviceTraceLogger.AddCUEvent` | profile/device/pl_device_trace_logger.cpp:95-136 | the whole new state after a CU start or end: log, both start lists, bits reset at a first start |
| `Logger.PLDeviceTraceLogger.AddStallEvent` | profile/device/pl_device_trace_logger.cpp:138-174 | a stall ends when its bit is set and starts when clear, in log and start lists |
| `Logger.PLDeviceTraceLogger.AddAMEvent` | profile/device/pl_device_trace_logger.cpp:176-222 | the whole new state: signals in order, bits toggled, and closing once the CU has no start left |
| `Logger.PLDeviceTraceLogger.AddAIMEvent` | profile/device/pl_device_trace_logger.cpp:224-249 | the whole new state for a read or write packet, chosen by the parity of its id |
| `Logger.PLDeviceTraceLogger.AddKernelDataTransferEvent` | profile/device/pl_device_trace_logger.cpp:322-415 | start, end, dummy end, dummy start and pulse: log, start lists and last activity |
| `Logger.PLDeviceTraceLogger.AddASMEvent` | profile/device/pl_device_trace_logger.cpp:251-320 | the whole new state for a stream packet, whose flags choose the kind |
| `Logger.PLDeviceTraceLogger.AddApproximateCUEndEvents` | profile/device/pl_device_trace_logger.cpp:417-480 | the CU pass, loops and pruning included, gives one end at the latest activity to each hanging CU and keeps the class invariant |
| `Logger.PLDeviceTraceLogger.LastActivityOf` | profile/device/pl_device_trace_logger.cpp:426-463 | the scan that looks at times before monitors finds what a scan of all monitors would, and never looks up a missing one |
| `Logger.PLDeviceTraceLogger.AddApproximateDataTransferEvent` | profile/device/pl_device_trace_logger.cpp:482-526 | closes one outstanding read or write at the CU's last time, or half a cycle on, with the AM slot as monitor id |
| `Logger.PLDeviceTraceLogger.AddApproximateDataTransferEndEvents` | profile/device/pl_device_trace_logger.cpp:528-566 | the pass over all user AIMs with trace |
| `Logger.PLDeviceTraceLogger.AddApproximateDataTransferEndEventsOf` | profile/device/pl_device_trace_logger.cpp:568-601 | the pass over the AIMs of one CU |
| `Logger.PLDeviceTraceLogger.AddApproximateStreamEndEvents` | profile/device/pl_device_trace_logger.cpp:603-642 | the pass over the ASMs with trace: three kinds each, and the last time they end |
| `Logger.PLDeviceTraceLogger.AddApproximateStallEndEvents` | profile/device/pl_device_trace_logger.cpp:644-663 | ends the stalls whose bit is set, half a cycle before the CU's end |
| `Logger.PLDeviceTraceLogger.AddApproximateStreamEndEvent` | profile/device/pl_device_trace_logger.cpp:665-696 | the loop terminates and closes every outstanding start of the kind, oldest first |
| `Logger.PLDeviceTraceLogger.TrainDeviceHostTimestamps` | profile/device/pl_device_trace_logger.cpp:704-728 | the first of two points is remembered, the second fixes slope and offset, or leaves the line undefined when the code divides by zero |
| `Logger.PLDeviceTraceLogger.SeekTraining` | profile/device/pl_device_trace_logger.cpp:751-765 | finds the first of the tried positions with eight training packets in a row, or none |
| `Logger.PLDeviceTraceLogger.ProcessTraceData` | profile/device/pl_device_trace_logger.cpp:736-831 | one call takes the state to what discarding up to the window and interpreting the packets in order gives |
| `Logger.PLDeviceTraceLogger.EndProcessTraceData` | profile/device/pl_device_trace_logger.cpp:833-838 | the three passes in order, keeping the class invariant |
| `Logger.StepAttested` | profile/device/pl_device_trace_logger.cpp:176-320 | starts and last times are only ever recorded for monitors the tables know, and CU starts for CUs they know |
| `Logger.CloseCUsAttested` | profile/device/pl_device_trace_logger.cpp:417-480 | the CU pass keeps that, so its unchecked monitor and CU lookups never miss |
| `Pairing.EndsHaveTheirOwnStart` | profile/device/pl_device_trace_logger.cpp:64-415 | over every history of buffers and ends of trace: ids number the log; every event logged as an end, unless a stall's that found no start, names an earlier start of its kind (and, but for reads and writes, monitor); no start is named twice |
| `Pairing.RunOk` | profile/device/pl_device_trace_logger.cpp:736-838 | the invariant behind it: outstanding starts are logged starts under their own monitor, oldest first, times unchanged, not yet ended |
| `Logged.AIMPacketLogs` | profile/device/pl_device_trace_logger.cpp:224-415 | what a read or write packet logs, in order, from its fields and the oldest outstanding start: kinds, ids ended, both times, monitor, CU and memory |
| `Logged.ASMPacketLogs` | profile/device/pl_device_trace_logger.cpp:251-320 | the same for a stream packet; its flags say activity, else starve, else stall, else plain write |
| `Logged.SignalsLog` | profile/device/pl_device_trace_logger.cpp:95-216 | the same for the signals of an AM packet: the CU's first, then dataflow, pipe, external memory, each ended or started by its bit |
| `Logged.AMPacketLogs` | profile/device/pl_device_trace_logger.cpp:176-222 | an AM packet that does not end its CU's last execution logs just that |
| `Logged.CUEndCloses` | profile/device/pl_device_trace_logger.cpp:213-222 | one that does logs, after its signals, an end for reads and writes of the CU, each where and when the end-of-trace pass would put it, and then an end of every stall whose bit is set, half a cycle early |
| `Logged.CUEndLeavesNothingOpen` | profile/device/pl_device_trace_logger.cpp:568-601 | after it no read or write of an AIM on that CU is outstanding, and those of other AIMs wait as before |
| `Logged.OthersLogNothing` | profile/device/pl_device_trace_logger.cpp:807-815 | packets of ids outside the three ranges, or of slots without a monitor, log and mark nothing |
| `Executions.KernelEventsAreOfThePacket` | profile/device/pl_device_trace_logger.cpp:64-136 | every kernel event a packet logs lies at the packet's device time, on the line, on the CU of its AM |
| `Executions.ExecutionEndsLaterIff` | profile/device/pl_device_trace_logger.cpp:64-136 | an execution started on the current line of positive slope ends later than it started exactly if it ends at a later device time |
| `Executions.HangingEndsAtLastActivity` | profile/device/pl_device_trace_logger.cpp:417-480 | a hanging execution is ended at the maximum of its AM's last time and those of all AIMs and ASMs on its CU, with the host time on the line |
| `Executions.HangingEndsLaterIff` | profile/device/pl_device_trace_logger.cpp:477-478 | and later than it started exactly if that activity is |
| `Conservation.StartsAreEndedInOrder` | profile/device/pl_device_trace_logger.cpp:64-415 | for every kind on every monitor, over every history: starts logged are as many as those ended, waiting and discarded by pulse packets; they are those ended, in the order of the ends, then those waiting, if and only if none was discarded; only streams discard |
| `Conservation.PulseLosesItsStart` | profile/device/pl_device_trace_logger.cpp:301-313 | a concrete stream start and pulse: the start is neither ended nor waiting |
| `Conservation.StepConserves` | profile/device/pl_device_trace_logger.cpp:64-415 | one packet keeps that balance; the count of lost starts grows exactly when a stream pulse finds an outstanding start |
| `Conservation.TracedTransfersAllEnd` | profile/device/pl_device_trace_logger.cpp:528-566 | after the end-of-trace pass every read and write ever started on a traced user AIM has its end, in order |
| `QueueInvariants.ReachableQueues` | profile/device/pl_device_trace_logger.cpp:95-136 | before the end of trace: `cuStarts` mirrors the database's CU starts in order, both give up the same start, an AIM id has at most one outstanding start, and key ranges never mix |
| `QueueInvariants.StepDisciplined` | profile/device/pl_device_trace_logger.cpp:322-415 | each packet keeps the key ranges apart and at most one start per AIM id |
| `QueueInvariants.StepMirrored` | profile/device/pl_device_trace_logger.cpp:95-136 | each packet keeps `cuStarts` equal to the database's CU queues, for every slot |
| `StallBits.StepTracks` | profile/device/pl_device_trace_logger.cpp:138-222 | outstanding stalls keep numbering exactly the toggle bits (none while idle) if and only if the packet starts no stall on an idle CU |
| `StallBits.StallsFollowBits` | profile/device/pl_device_trace_logger.cpp:138-222 | so they do over every sequence of buffers before the end of trace without such a packet, resets and forced closings included |
| `StallBits.StrayStallBreaksTracking` | profile/device/pl_device_trace_logger.cpp:138-222 | a concrete design and packet that break it |
| `StallTimes.ForcedStallEndsLaterIff` | profile/device/pl_device_trace_logger.cpp:644-663 | a forced stall end lies half a cycle before the CU's end; on the current line with a nominal slope that is later than the stall's start if and only if the stall started at an earlier device time |
| `StallTimes.StallEndsBeforeItStarts` | profile/device/pl_device_trace_logger.cpp:176-222 | a concrete trace whose stall, reported with the CU's end, ends before it starts |
| `EndOfTrace.LastActivityIsMax` | profile/device/pl_device_trace_logger.cpp:417-480 | the end given to a hanging CU is the maximum of its own last time and those of all AIMs and ASMs attached to it, for any tables |
| `EndOfTrace.LastTimesAreSeen` | profile/device/pl_device_trace_logger.cpp:204-317 | each last-activity entry is the device time of the monitor's last packet that counts as activity |
| `EndOfTrace.CloseCUsLeaves` | profile/device/pl_device_trace_logger.cpp:417-480 | a CU is left without outstanding starts if and only if it had none, or one and some activity after time 0 |
| `EndOfTrace.SecondHangingStartSurvives` | profile/device/pl_device_trace_logger.cpp:417-480 | two executions hanging on one slot: one start is left |
| `EndOfTrace.StartAtZeroSurvives` | profile/device/pl_device_trace_logger.cpp:467-469 | an execution started at device time 0 and nothing after it is not ended |
| `EndOfTrace.CloseTransfersEmpties` | profile/device/pl_device_trace_logger.cpp:528-566 | one lookup per id empties the read and write queues of every traced user AIM and moves no other |
| `EndOfTrace.CloseStreamEmpties` | profile/device/pl_device_trace_logger.cpp:665-696 | the closing loop empties its own queue and moves no other |
| `EndOfTrace.EndProcessLeaves` | profile/device/pl_device_trace_logger.cpp:833-838 | what the whole pass leaves in each queue, kind by kind |
| `EndOfTrace.StreamPassCompleteIff` | profile/device/pl_device_trace_logger.cpp:603-642 | a covered ASM ends with nothing outstanding if and only if it held no unflagged write of a read monitor |
| `EndOfTrace.WellFlaggedStreamsAllEnd` | profile/device/pl_device_trace_logger.cpp:603-696 | after any history whose stream packets are well-flagged, the pass leaves nothing outstanding on any covered ASM |
| `EndOfTrace.UnflaggedStartSurvives` | profile/device/pl_device_trace_logger.cpp:251-320 | a concrete design and packet for which something is |
| `EndOfTrace.ApproxEndIs` | profile/device/pl_device_trace_logger.cpp:665-696 | an invented end lies on the line, at its start's device time plus the invented length: up to the last time the CU was seen, if later, else half a cycle; its device time is the later of the two |
| `EndOfTrace.InventedEnds` | profile/device/pl_device_trace_logger.cpp:482-696 | so does every event the read, write and stream passes add; each ends an earlier start of its kind and carries the monitor, CU and memory that belong to it |
| `EndOfTrace.CloseASMLast` | profile/device/pl_device_trace_logger.cpp:603-642 | an ASM's last time becomes the latest device time of the ends logged for it, 0 without one |
| `Retraining.StepOnLine` | profile/device/pl_device_trace_logger.cpp:736-831 | whatever the packet, every start it logs lies on the line of the moment |
| `Retraining.StepKeepsLine` | profile/device/pl_device_trace_logger.cpp:704-728 | only the packet that completes the second sample of a pair moves the line |
| `Retraining.RunOnLines` | profile/device/pl_device_trace_logger.cpp:731-838 | over every history each start logged lies on the line that held when it was logged |
| `Retraining.InventedEndsAreLater` | profile/device/pl_device_trace_logger.cpp:482-696 | from every reachable state with a positive slope: an end invented by the read, write or stream pass is later than its start was logged if and only if the line moved back since, at the start's device time, by less than the invented length; always if the line is where it was |
| `Retraining.EndsLaterUnlessRetrained` | profile/device/pl_device_trace_logger.cpp:482-696 | after any history, for starts logged during any further calls that do not move the line, the ends the pass then invents are strictly later than the starts as logged |
| `Retraining.RetrainedEndIsEarlier` | profile/device/pl_device_trace_logger.cpp:704-728 | a concrete trace in which training in between makes the invented end earlier than its start |
| `AimIntervals.TransferIntervalsDisjoint` | profile/device/pl_device_trace_logger.cpp:322-415 | over any packets that do not move a line of nominal slope, the intervals of one AIM id, that of a start outstanding before, dummy ends and pulses included, have positive length and do not overlap |
| `AimIntervals.Ticks` | profile/device/pl_device_trace_logger.cpp:704-734 | at the nominal slope two device ticks are at least a full cycle apart in host time, so half-cycle repairs cannot collide |
| `ClockTraining.TraceFunnel.InitiateClockTraining` | profile/device/traceFunnel.cpp:47-65 | writes, twice, the four words of a host time, low word first |
| `ClockTraining.TrainingPacketFields` | profile/device/pl_device_trace_logger.h:48-61 | a packet with the word in bits 45 to 60 decodes to that word and device time |
| `ClockTraining.TrainingProgress` | profile/device/pl_device_trace_logger.cpp:766-805 | after k words, whatever comes between, the accumulator holds the low 16k bits of the host time and the phase counter is k |
| `ClockTraining.TrainingRoundTrip` | profile/device/traceFunnel.cpp:47-65 | every 64-bit host time comes back exactly through any interleaving with event packets, and the phase counter returns to zero |
| `ClockTraining.TrainingRoundTripInBuffers` | profile/device/pl_device_trace_logger.cpp:766-805 | the same over any chunk boundaries, once the window has been seen |
| `ClockTraining.TwoSamplesMakeALine` | profile/device/pl_device_trace_logger.cpp:704-728 | two samples give the line through the second (and, outside a hardware flow, both); or leave the line as it was when the first is (0, 0); or leave none when they divide by zero |
| `ClockTraining.SamplesGiveLineIff` | profile/device/pl_device_trace_logger.cpp:704-728 | they give their line, whatever line was there before, if and only if the first is not (0, 0) and, outside a hardware flow, their device times differ |
| `ClockTraining.ZeroSampleIsLost` | profile/device/pl_device_trace_logger.cpp:711-713 | eight packets whose first sample is (0, 0): the line has not moved |
| `ClockTraining.EqualTimesLeaveNoLine` | profile/device/pl_device_trace_logger.cpp:718-723 | eight packets whose samples share a device time: no line is left |
| `ClockTraining.ProcessConcat` | profile/device/pl_device_trace_logger.cpp:736-831 | two calls equal one on the joined packets, once the training window has been seen |
| `ClockTraining.BuffersDoNotMatter` | profile/device/pl_device_trace_logger.cpp:736-831 | so do any number of calls, if the window lies in the first buffer |
| `ClockTraining.GarbageIsDropped` | profile/device/pl_device_trace_logger.cpp:746-770 | until a window was seen, whatever comes before the first eight training packets in a row might as well not be there |
| `ClockTraining.NothingElseIsDropped` | profile/device/pl_device_trace_logger.cpp:746-770 | a buffer without a window at the positions tried is interpreted whole, and so is every later one |
| `OffloadSpec.RingArithmetic` | profile/device/pl_device_trace_offload.cpp:297-368 | when the overwrite check passes: no underflow, the two intervals are disjoint, their lengths add up to what is new, the second ends no later than the first began, the rollover counter does not wrap |
| `Offload.PLDeviceTraceOffload.InitS2mm` | profile/device/pl_device_trace_offload.cpp:416-457 | circular mode only with support, wish and a sufficient rate; success only if every buffer was granted; buffers start empty |
| `Offload.PLDeviceTraceOffload.StopOffload` | profile/device/pl_device_trace_offload.cpp:184-190 | asks for a stop unless already stopped |
| `Offload.PLDeviceTraceOffload.SyncAndLog` | profile/device/pl_device_trace_offload.cpp:372-414 | queues exactly the bytes from offset to used size, or marks the mover done when the sync fails |
| `Offload.PLDeviceTraceOffload.ReadTurn` | profile/device/pl_device_trace_offload.cpp:297-368 | one mover's turn: new buffer state and chunks, early exits included |
| `Offload.PLDeviceTraceOffload.ReadTraceS2mm` | profile/device/pl_device_trace_offload.cpp:288-370 | all movers in turn into one queue; an overwritten ring stops the offload and the poll |
| `Offload.PLDeviceTraceOffload.ProcessTrace` | profile/device/pl_device_trace_offload.cpp:121-157 | drains the queue, oldest first, and leaves the logger as handling those chunks in order does; chunks behind the one with the training window may be of any size |
| `Ring.Slice` | profile/device/pl_device_trace_offload.cpp:372-394 | an interval of the ring that was not overtaken is that interval of the stream |
| `Ring.WholeBursts` | profile/device/traceS2MM.cpp:126-147 | dropping the incomplete burst from a version 2 count leaves exactly the bytes that are in memory |
| `Ring.PollOk` | profile/device/traceS2MM.cpp:126-147 | a poll keeps the mover's invariant and reports exactly the bytes in memory; a final one flushes what was held back |
| `Ring.ReadGetsStream` | profile/device/pl_device_trace_offload.cpp:288-370 | a turn queues the stream from the last byte read on, all of it unless the mover is done, and is done only for the four reasons there are |
| `BufferFull.DoneIff` | profile/device/pl_device_trace_offload.cpp:297-414 | a mover is done after a turn exactly if its ring was overwritten, or full and not circular, or a sync it needed failed |
| `BufferFull.FullIff` | profile/device/pl_device_trace_offload.cpp:410-413 | in every run a buffer is marked full exactly if it is not circular and every byte of it was read |
| `Ring.ReadOk` | profile/device/pl_device_trace_offload.cpp:288-370 | what was queued before and now is again the stream up to the bytes read |
| `Ring.ChunksAreWhole` | profile/device/pl_device_trace_offload.cpp:342-394 | chunks are nonempty and whole multiples of any unit that divides the ring, the bytes read and the bytes written |
| `Polling.BurstsUntilFinal` | profile/device/traceS2MM.cpp:126-147 | in every run: what a non-final poll reads of a version 2 mover, and every chunk queued for it until it is flushed, is whole bursts |
| `Pipeline.StepOk` | profile/device/pl_device_trace_offload.cpp:63-157 | every step of the device and of both threads keeps the rings, the FIFO and the handshake |
| `Polling.PollIsTurnByTurn` | profile/device/pl_device_trace_offload.cpp:288-370 | the offload thread on its own, turn by turn and push by push, does to buffers, queue and status what one single-threaded poll does |
| `Pipeline.RingsRefineStreams` | profile/device/pl_device_trace_offload.cpp:288-370 | in every run with any number of movers, what was read for a mover is its stream up to rollovers times size plus used, or for a done one a prefix |
| `Pipeline.HandOffSafe` | profile/device/pl_device_trace_offload.cpp:63-157 | in every interleaving, when the trace is about to be ended each chunk ever queued was processed exactly once, in order, the queue is empty and the processing thread is through |
| `FinalPoll.StepStatus` | profile/device/pl_device_trace_offload.cpp:63-91 | the status leaves running only by a stop request or an overwritten ring and never returns; the next poll is final exactly if it has left |
| `FinalPoll.FinalOnlyWhenStopped` | profile/device/pl_device_trace_offload.cpp:63-91 | in every run the final poll and what follows come only after a stop |
| `FinalPoll.PollsOnUntilStopped` | profile/device/pl_device_trace_offload.cpp:71-76 | a run without stop request or overwritten ring never leaves the polls that are not final, and flushes no mover |
| `FinalPoll.OverwriteStops` | profile/device/pl_device_trace_offload.cpp:303-316 | an overwritten ring stops the offload, reads nothing and ends the poll |
| `FinalPoll.FinalReadIsComplete` | profile/device/pl_device_trace_offload.cpp:78-91 | once the flag is cleared each mover had its turn in the final poll and, unless done, was read up to all it had written by then; a version 2 mover was flushed, and read to its very end |
| `Pipeline.AllMoversAtTheEnd` | profile/device/pl_device_trace_offload.cpp:63-157 | with any number of movers sharing the queue, the processed chunks of each join to its stream up to the bytes read, or for a done one to a prefix |
| `Pipeline.EndToEnd` | profile/device/pl_device_trace_offload.cpp:63-157 | with one mover and the window in the first chunk, the logger ends as one call on the whole prefix read would leave it |
| `Pipeline.OneMoverAtTheEnd` | profile/device/pl_device_trace_offload.cpp:104-157 | the chunks processed are whole packets and join to the stream's prefix |
| `Shutdown.ShutdownCompletesIff` | profile/device/pl_device_trace_offload.cpp:78-116 | a waiting offload thread can get through if and only if the processing thread had stored its flag before it was cleared |
| `Shutdown.EveryRunFinishes` | profile/device/pl_device_trace_offload.cpp:78-157 | and then every continuation that gives the processing thread enough steps, however interleaved, gets both threads through |
| `Shutdown.LateStartHangs` | profile/device/pl_device_trace_offload.cpp:104-116 | an offload stopped before its processing thread ran can reach a state from which no run ends the trace |
| `BufferSizing.SizesFit` | profile/device/pl_device_intf.cpp:1101-1123 | sizes are whole pages, bursts and packets; the total fits exactly when the request grants each the minimum, and wastes less than a page per buffer; otherwise each gets the minimum, and no buffers no size |
| `CallStats.RefinesStack` | profile/database/statistics_database.cpp:209-262 | with nonzero end times, marking ends in place is a call stack per key |
| `CallStats.TopIsLastOpen` | profile/database/statistics_database.cpp:242-262 | the backward search finds the top of the stack |
| `CallStats.EndClosesIff` | profile/database/statistics_database.cpp:242-262 | an end changes something if and only if a call is open and the end time is not 0 |
| `CallStats.CompletedNestOrDisjoint` | profile/database/statistics_database.cpp:209-262 | with nondecreasing times any two completed calls of a key are nested or disjoint |
| `CallStats.KeysIndependent` | profile/database/statistics_database.cpp:209-262 | each (name, thread) list is what its own calls alone would make |
| `Statistics.VPStatisticsDatabase.LogFunctionCallStart` | profile/database/statistics_database.cpp:209-240 | appends an open call to its key's list only |
| `Statistics.VPStatisticsDatabase.LogFunctionCallEnd` | profile/database/statistics_database.cpp:242-262 | closes the last open call of its key only, if there is one |
| `Statistics.VPStatisticsDatabase.AddTopHostRead` | profile/database/statistics_database.cpp:40-74 | the list becomes the insertion of the transfer, the other lists unchanged |
| `Statistics.VPStatisticsDatabase.AddTopHostWrite` | profile/database/statistics_database.cpp:76-110 | the same for writes |
| `Statistics.VPStatisticsDatabase.AddTopKernelExecution` | profile/database/statistics_database.cpp:112-146 | the same for executions |
| `Statistics.VPStatisticsDatabase.TopListsAreSortedPrefixes` | profile/database/statistics_database.cpp:40-146 | at any time the three lists are the first ten of the stable sorts of their histories |
| `TopTen.InsertInPlace` | profile/database/statistics_database.cpp:40-74 | the loop inserts before the first strictly shorter entry and drops the eleventh |
| `TopTen.OnlineIsSortedPrefix` | profile/database/statistics_database.cpp:40-146 | after any history the list is the first ten of the stable descending sort by duration |
| `TopTen.StableSortExists` | profile/database/statistics_database.cpp:40-146 | that sort exists for every history |

## Left out

- Register access, ioctl and mmap, device allocation: a poll sees a word count, a ring and whether each sync succeeds.
- The data mover's hardware: byte i of a mover's stream is taken to go to position i modulo the ring's size; a version 2 mover is taken to put bursts of 256 bytes into memory and to write nothing after its final flush; a mover stops before 2^32 rings have been filled, where the 32-bit rollover counter would wrap. 64-bit byte counts do not wrap.
- The sampling of the word count and the syncs that follow are one step against the device, as the ring gives no protection in between.
- Sleeping, the timing of clock training and the FIFO offload: `start_offload` is called once, with at least one data mover to read.
- ProcessTrace: requires every chunk queued before a training window is found to be empty or at least eight packets long, for the same reason as ProcessTraceData.
- SeekTraining: requires at least eight packets, for the same reason as ProcessTraceData.
- ProcessTraceData: requires a first buffer that is empty or has at least eight packets, because with fewer `numPackets - 8` wraps around and the search runs past the end of the buffer.
- TransferIntervalsDisjoint: covers the intervals completed by the id's own packets, not an approximate end made when the CU ends, whose time comes from another monitor.
- EndsHaveTheirOwnStart: the monitor of a read's or write's end is not stated, since an approximate end carries the AM slot instead.
- TrainDeviceHostTimestamps: after a division by zero the line is only marked as undefined; the not-a-number times of events logged until the next training, and comparisons with them, are not modelled.
- ReachableQueues: the mirror of CU starts is stated before the end of the trace, because the CU pass leaves the database's entries in place.
- Events of other devices and of the host, which would take ids in between; events are kept in the order they are added, not sorted by time; host-side string ids of memories are given.
- CU execution statistics, first and last kernel times, warnings, user markers, the `DUMP_TRACE` broadcast and the check that the database is still alive.
- `TraceS2MM::parseTraceBuf`, a second parser of the same packets for another consumer.
- Static information loading, `appdebug`, the JSON parser and metrics, host and AIE databases, event writers: formatting and lookups.
