/** What each packet logs, event by event: kind, role, both times, monitor, compute unit and memory, told
    from the packet's fields and the oldest outstanding starts. */
module Logged {
  import opened TraceTypes
  import opened Packets
  import opened StartLists
  import opened LoggerSpec
  import opened Pairing
  import opened QueueInvariants
  import opened EndOfTrace
  import opened StallTimes

  // ----- Lists of events -----

  /** An event but for its id. */
  function Make(site: Site, kind: EventType, dev: nat, role: Role, host: real): Event {
    Event(0, role, host, kind, dev, site.monitorId, site.cuId, site.memStrId)
  }

  /** Give the events ids from n on. */
  function Number(es: seq<Event>, n: nat): (r: seq<Event>)
    ensures |r| == |es|
  {
    seq(|es|, i requires 0 <= i < |es| => es[i].(id := n + i))
  }

  /** From d to d' exactly these events are logged, in this order. */
  ghost predicate Logs(d: Db, d': Db, es: seq<Event>) {
    d'.log == d.log + Number(es, d.nextId) && d'.nextId == d.nextId + |es|
  }

  lemma LogsNothing(d: Db, d': Db)
    requires d'.log == d.log && d'.nextId == d.nextId
    ensures Logs(d, d', [])
  {
  }

  lemma LogsOne(d: Db, d': Db, role: Role, kind: EventType, host: real, dev: nat, site: Site)
    requires d'.log == AddEvent(d, role, kind, host, dev, site).log && d'.nextId == d.nextId + 1
    ensures Logs(d, d', [Make(site, kind, dev, role, host)])
  {
  }

  lemma LogsMore(d: Db, d1: Db, d2: Db, a: seq<Event>, b: seq<Event>)
    requires Logs(d, d1, a) && Logs(d1, d2, b)
    ensures Logs(d, d2, a + b)
  {
    assert Number(a + b, d.nextId) == Number(a, d.nextId) + Number(b, d.nextId + |a|);
  }

  lemma Taking(d: Db, key: nat, kind: EventType)
    requires kind != UNKNOWN_EVENT
    ensures Logs(d, TakeStart(d, key, kind), [])
    ensures var q, f := Queue(d.starts, key, kind), Found(d.starts, key, kind);
            if q == [] then f.kind == UNKNOWN_EVENT && f.eventID == 0 else f.kind != UNKNOWN_EVENT && f == q[0]
  {
    hide Queue, Take, Found;
    LogsNothing(d, TakeStart(d, key, kind));
    TakeRefines(d.starts, key, kind, key, kind);
    UnknownMeansEmpty(d.starts, key, kind);
  }

  lemma Opening(d: Db, key: nat, kind: EventType, host: real, dev: nat, site: Site)
    ensures Logs(d, OpenEvent(d, key, kind, host, dev, site), [Make(site, kind, dev, Begin, host)])
  {
    LogsOne(d, OpenEvent(d, key, kind, host, dev, site), Begin, kind, host, dev, site);
  }

  lemma Ending(d: Db, key: nat, kind: EventType, id: nat, host: real, dev: nat, site: Site)
    ensures Logs(d, AddEvent(TakeStart(d, key, kind), End(id), kind, host, dev, site),
                 [Make(site, kind, dev, End(id), host)])
  {
    LogsOne(d, AddEvent(TakeStart(d, key, kind), End(id), kind, host, dev, site), End(id), kind, host, dev, site);
  }

  lemma Pulsing(d: Db, kind: EventType, host: real, hostEnd: real, dev: nat, site: Site)
    ensures Logs(d, Pulse(d, kind, host, hostEnd, dev, site),
                 [Make(site, kind, dev, Begin, host), Make(site, kind, dev, End(d.nextId), hostEnd)])
  {
    var d1 := AddEvent(d, Begin, kind, host, dev, site);
    var d2 := AddEvent(d1, End(d.nextId), kind, hostEnd, dev, site);
    LogsOne(d, d1, Begin, kind, host, dev, site);
    LogsOne(d1, d2, End(d.nextId), kind, hostEnd, dev, site);
    LogsMore(d, d1, d2, [Make(site, kind, dev, Begin, host)], [Make(site, kind, dev, End(d.nextId), hostEnd)]);
    assert [Make(site, kind, dev, Begin, host)] + [Make(site, kind, dev, End(d.nextId), hostEnd)] ==
           [Make(site, kind, dev, Begin, host), Make(site, kind, dev, End(d.nextId), hostEnd)];
  }

  // ----- Reads and writes -----

  /** What a read or write packet logs: an end is dropped if two starts come in a row, and is made up
      for half a cycle before the second; a start is dropped if an end finds none, and half a cycle is
      made of it; the pulse bit asks for such half a cycle, after ending the start that was found or,
      if that is of the same time, by ending it late. */
  function TransferEvents(q: seq<DeviceEventInfo>, next: nat, kind: EventType, begins: bool, pulse: bool, host: real,
                          half: real, dev: nat, site: Site): seq<Event>
  {
    if begins then
      if q == [] then [Make(site, kind, dev, Begin, host)]
      else [Make(site, kind, dev, End(q[0].eventID), host - half), Make(site, kind, dev, Begin, host)]
    else if q == [] then
      [Make(site, kind, dev, Begin, host), Make(site, kind, dev, End(next), host + half)]
    else if !pulse then [Make(site, kind, dev, End(q[0].eventID), host)]
    else if q[0].hostTimestamp == host then [Make(site, kind, dev, End(q[0].eventID), host + half)]
    else [Make(site, kind, dev, End(q[0].eventID), host), Make(site, kind, dev, Begin, host),
          Make(site, kind, dev, End(next + 1), host + half)]
  }

  lemma TransferLogs(D: Design, d: Db, kind: EventType, p: Packet, host: real, site: Site)
    requires D.Valid() && IsTransfer(kind)
    ensures var q := Queue(d.starts, TraceId(p), kind);
            Logs(d, DataTransfer(D, d, kind, p, host, site),
                 TransferEvents(q, d.nextId, kind, Flags(p) == 0, Flag16(p), host, D.HalfCycleMs(), DeviceTimestamp(p),
                                site))
  {
    hide Queue, Take, Found, Mark, Logs, Pulse, OpenEvent;
    var key, dev, half := TraceId(p), DeviceTimestamp(p), D.HalfCycleMs();
    var q, d0 := Queue(d.starts, key, kind), TakeStart(d, key, kind);
    Taking(d, key, kind);
    if Flags(p) == 0 {
      if q == [] {
        Opening(d, key, kind, host, dev, site);
      } else {
        var id := q[0].eventID;
        var d1 := AddEvent(d0, End(id), kind, host - half, dev, site);
        Ending(d, key, kind, id, host - half, dev, site);
        Opening(d1, key, kind, host, dev, site);
        var a, b := [Make(site, kind, dev, End(id), host - half)], [Make(site, kind, dev, Begin, host)];
        LogsMore(d, d1, OpenEvent(d1, key, kind, host, dev, site), a, b);
        assert a + b == [a[0], b[0]];
      }
    } else if q == [] {
      Pulsing(d0, kind, host, host + half, dev, site);
      var b := [Make(site, kind, dev, Begin, host), Make(site, kind, dev, End(d0.nextId), host + half)];
      LogsMore(d, d0, Pulse(d0, kind, host, host + half, dev, site), [], b);
      assert [] + b == b;
    } else {
      var id := q[0].eventID;
      var d1 := AddEvent(d0, End(id), kind, host, dev, site);
      Ending(d, key, kind, id, host, dev, site);
      Ending(d, key, kind, id, host + half, dev, site);
      Pulsing(d1, kind, host, host + half, dev, site);
      var a := [Make(site, kind, dev, End(id), host)];
      var b := [Make(site, kind, dev, Begin, host), Make(site, kind, dev, End(d1.nextId), host + half)];
      LogsMore(d, d1, Pulse(d1, kind, host, host + half, dev, site), a, b);
      assert a + b == [a[0], b[0], b[1]];
    }
  }

  /** A read or write packet: ids up to 61, two a slot, the odd one for writes. */
  lemma AIMPacketLogs(D: Design, s: State, p: Packet)
    requires s.Fits(D) && !IsClockTraining(p) && TraceId(p) <= 61 && TraceId(p) / 2 in D.aim
    ensures var slot, kind := TraceId(p) / 2, if TraceId(p) % 2 == 1 then KERNEL_WRITE else KERNEL_READ;
            var site := Site(slot, D.aim[slot].cuIndex, MemOf(D, D.aim[slot]));
            var s', host := Step(D, s, p), ToHost(s.cal, DeviceTimestamp(p));
            && Logs(s.db, s'.db,
                    TransferEvents(Queue(s.db.starts, TraceId(p), kind), s.db.nextId, kind, Flags(p) == 0, Flag16(p),
                                   host, D.HalfCycleMs(), DeviceTimestamp(p), site))
            && s'.latest == host
  {
    hide Queue, DataTransfer, Logs, TransferEvents, ToHost;
    var slot, kind := TraceId(p) / 2, if TraceId(p) % 2 == 1 then KERNEL_WRITE else KERNEL_READ;
    var site := Site(slot, D.aim[slot].cuIndex, MemOf(D, D.aim[slot]));
    TransferLogs(D, s.db, kind, p, ToHost(s.cal, DeviceTimestamp(p)), site);
  }

  // ----- Streams -----

  /** What the flag bits of a stream packet say. */
  function StreamEventKind(isRead: bool, flags: nat): EventType {
    if flags >= 8 then if isRead then KERNEL_STREAM_READ else KERNEL_STREAM_WRITE
    else if flags in {2, 3, 6, 7} then if isRead then KERNEL_STREAM_READ_STARVE else KERNEL_STREAM_WRITE_STARVE
    else if flags in {4, 5} then if isRead then KERNEL_STREAM_READ_STALL else KERNEL_STREAM_WRITE_STALL
    else KERNEL_STREAM_WRITE
  }

  /** What a stream packet logs: a start; or, for a pulse or without a start to end, half a cycle; or the
      end of the oldest start. */
  function StreamEvents(q: seq<DeviceEventInfo>, next: nat, kind: EventType, begins: bool, pulse: bool, host: real,
                        half: real, dev: nat, site: Site): seq<Event>
  {
    if begins then [Make(site, kind, dev, Begin, host)]
    else if pulse || q == [] then
      [Make(site, kind, dev, Begin, host), Make(site, kind, dev, End(next), host + half)]
    else [Make(site, kind, dev, End(q[0].eventID), host)]
  }

  lemma StreamLogs(D: Design, d: Db, kind: EventType, p: Packet, host: real, site: Site)
    requires D.Valid() && IsStream(kind)
    ensures var q := Queue(d.starts, TraceId(p), kind);
            Logs(d, StreamTransfer(D, d, kind, p, host, site),
                 StreamEvents(q, d.nextId, kind, Flag1(p), Flag16(p), host, D.HalfCycleMs(), DeviceTimestamp(p), site))
  {
    hide Queue, Take, Found, Mark, Logs, Pulse, OpenEvent;
    var key, dev, later := TraceId(p), DeviceTimestamp(p), host + D.HalfCycleMs();
    var q, d0 := Queue(d.starts, key, kind), TakeStart(d, key, kind);
    Taking(d, key, kind);
    if Flag1(p) {
      Opening(d, key, kind, host, dev, site);
    } else if Flag16(p) || q == [] {
      Pulsing(d0, kind, host, later, dev, site);
      var b := [Make(site, kind, dev, Begin, host), Make(site, kind, dev, End(d0.nextId), later)];
      LogsMore(d, d0, Pulse(d0, kind, host, later, dev, site), [], b);
      assert [] + b == b;
    } else {
      Ending(d, key, kind, q[0].eventID, host, dev, site);
    }
  }

  /** A stream packet: ids 576 to 606, one a slot. */
  lemma ASMPacketLogs(D: Design, s: State, p: Packet)
    requires s.Fits(D) && !IsClockTraining(p) && 576 <= TraceId(p) <= 606 && TraceId(p) - 576 in D.asm
    ensures var slot := TraceId(p) - 576;
            var kind, site := StreamEventKind(D.asm[slot].isStreamRead, Flags(p)), Site(slot, D.asm[slot].cuIndex, 0);
            var s', host := Step(D, s, p), ToHost(s.cal, DeviceTimestamp(p));
            && Logs(s.db, s'.db,
                    StreamEvents(Queue(s.db.starts, TraceId(p), kind), s.db.nextId, kind, Flags(p) % 2 == 1, Flag16(p),
                                 host, D.HalfCycleMs(), DeviceTimestamp(p), site))
            && s'.latest == host
  {
    hide Queue, StreamTransfer, Logs, StreamEvents, ToHost;
    var slot := TraceId(p) - 576;
    var site := Site(slot, D.asm[slot].cuIndex, 0);
    StreamKindIs(D.asm[slot], p);
    StreamLogs(D, s.db, StreamKind(D.asm[slot], p), p, ToHost(s.cal, DeviceTimestamp(p)), site);
  }

  lemma StreamKindIs(mon: Monitor, p: Packet)
    ensures StreamKind(mon, p) == StreamEventKind(mon.isStreamRead, Flags(p)) && IsStream(StreamKind(mon, p))
  {
    FlagBits(Flags(p));
  }

  // ----- Compute units and their stalls -----

  function HeadId(starts: Starts, key: nat, kind: EventType): nat {
    if Queue(starts, key, kind) == [] then 0 else Queue(starts, key, kind)[0].eventID
  }

  function StallMark(starts: Starts, bit: bool, kind: EventType, host: real, dev: nat, site: Site): Event {
    Make(site, kind, dev, if bit then End(HeadId(starts, AMKey(site.monitorId), kind)) else Begin, host)
  }

  /** The stall signals that fired, dataflow first, then pipe, then external memory: an end where the bit
      is set, of the oldest outstanding stall of the kind (0 without one); a start where it is clear. */
  function StallMarks(starts: Starts, fired: Nibble, bits: Nibble, host: real, dev: nat, site: Site): seq<Event> {
    (if fired.dataflow then [StallMark(starts, bits.dataflow, KERNEL_STALL_DATAFLOW, host, dev, site)] else [])
    + (if fired.pipe then [StallMark(starts, bits.pipe, KERNEL_STALL_PIPE, host, dev, site)] else [])
    + (if fired.ext then [StallMark(starts, bits.ext, KERNEL_STALL_EXT_MEM, host, dev, site)] else [])
  }

  lemma StallLogs(d: Db, bit: bool, kind: EventType, host: real, dev: nat, site: Site)
    requires IsStall(kind)
    ensures Logs(d, StallEvent(d, bit, AMKey(site.monitorId), kind, host, dev, site),
                 [StallMark(d.starts, bit, kind, host, dev, site)])
  {
    hide Queue, Take, Found, Mark, Logs, OpenEvent;
    var key := AMKey(site.monitorId);
    Taking(d, key, kind);
    if bit {
      Ending(d, key, kind, Found(d.starts, key, kind).eventID, host, dev, site);
    } else {
      Opening(d, key, kind, host, dev, site);
    }
  }

  lemma MaybeStall(d: Db, on: bool, bit: bool, kind: EventType, host: real, dev: nat, site: Site)
    requires IsStall(kind)
    ensures var d' := if on then StallEvent(d, bit, AMKey(site.monitorId), kind, host, dev, site) else d;
            && Logs(d, d', if on then [StallMark(d.starts, bit, kind, host, dev, site)] else [])
            && (forall t: EventType :: t != kind ==>
                  Queue(d'.starts, AMKey(site.monitorId), t) == Queue(d.starts, AMKey(site.monitorId), t))
  {
    hide Queue, StallEvent;
    if on {
      StallLogs(d, bit, kind, host, dev, site);
      StallMoves(d, bit, AMKey(site.monitorId), kind, host, dev, site);
    } else {
      LogsNothing(d, d);
    }
  }

  lemma StallsLog(d: Db, fired: Nibble, bits: Nibble, host: real, dev: nat, site: Site)
    ensures Logs(d, StallEvents(d, fired, bits, AMKey(site.monitorId), host, dev, site),
                 StallMarks(d.starts, fired, bits, host, dev, site))
  {
    hide Queue, Logs, StallEvent, Make;
    var key := AMKey(site.monitorId);
    var d1 := if fired.dataflow then StallEvent(d, bits.dataflow, key, KERNEL_STALL_DATAFLOW, host, dev, site) else d;
    var d2 := if fired.pipe then StallEvent(d1, bits.pipe, key, KERNEL_STALL_PIPE, host, dev, site) else d1;
    var d3 := if fired.ext then StallEvent(d2, bits.ext, key, KERNEL_STALL_EXT_MEM, host, dev, site) else d2;
    MaybeStall(d, fired.dataflow, bits.dataflow, KERNEL_STALL_DATAFLOW, host, dev, site);
    MaybeStall(d1, fired.pipe, bits.pipe, KERNEL_STALL_PIPE, host, dev, site);
    MaybeStall(d2, fired.ext, bits.ext, KERNEL_STALL_EXT_MEM, host, dev, site);
    var a := if fired.dataflow then [StallMark(d.starts, bits.dataflow, KERNEL_STALL_DATAFLOW, host, dev, site)]
             else [];
    var b := if fired.pipe then [StallMark(d1.starts, bits.pipe, KERNEL_STALL_PIPE, host, dev, site)] else [];
    var c := if fired.ext then [StallMark(d2.starts, bits.ext, KERNEL_STALL_EXT_MEM, host, dev, site)] else [];
    LogsMore(d, d1, d2, a, b);
    LogsMore(d, d2, d3, a + b, c);
  }

  /** What the CU signal logs: a start; or the end of the oldest execution the slot remembers, if the
      database remembers one, too. */
  function CUEvents(s: State, begins: bool, host: real, dev: nat, site: Site): seq<Event>
    requires site.monitorId < |s.cuStarts|
  {
    var slot := site.monitorId;
    if begins then [Make(site, KERNEL, dev, Begin, host)]
    else if Queue(s.db.starts, AMKey(slot), KERNEL) == [] || s.cuStarts[slot] == [] then []
    else [Make(site, KERNEL, dev, End(s.cuStarts[slot][0].0), host)]
  }

  lemma CULogs(D: Design, s: State, p: Packet, host: real, slot: nat, cuId: int)
    requires s.Fits(D) && slot < D.numAM
    ensures Logs(s.db, CUEvent(D, s, p, host, slot, cuId).db,
                 CUEvents(s, Flag1(p), host, DeviceTimestamp(p), Site(slot, cuId, 0)))
  {
    hide Queue, Take, Found, Mark, Logs, OpenEvent;
    var key, dev, site := AMKey(slot), DeviceTimestamp(p), Site(slot, cuId, 0);
    Taking(s.db, key, KERNEL);
    if Flag1(p) {
      Opening(s.db, key, KERNEL, host, dev, site);
    } else if s.cuStarts[slot] != [] {
      Ending(s.db, key, KERNEL, s.cuStarts[slot][0].0, host, dev, site);
    }
  }

  /** The signals of an AM packet: the CU's first; the bits count from the first start of an idle CU. */
  function SignalEvents(D: Design, s: State, p: Packet, slot: nat): seq<Event>
    requires s.Fits(D) && slot in D.am
  {
    var fired, site := NibbleOf(TraceId(p)), Site(slot, D.am[slot].cuIndex, 0);
    var host, dev := ToHost(s.cal, DeviceTimestamp(p)), DeviceTimestamp(p);
    var begins := Flags(p) % 2 == 1;
    var bits := if fired.cu && begins && s.cuStarts[slot] == [] then Nibble(false, false, false, false)
                else s.traceIDs[slot];
    (if fired.cu then CUEvents(s, begins, host, dev, site) else [])
    + StallMarks(s.db.starts, fired, bits, host, dev, site)
  }

  lemma SignalsLog(D: Design, s: State, p: Packet, slot: nat)
    requires s.Fits(D) && !IsClockTraining(p) && 64 <= TraceId(p) <= 544
    requires slot == (TraceId(p) - 64) / 16 && slot in D.am
    ensures Logs(s.db, Signalled(D, s, p).db, SignalEvents(D, s, p, slot))
    ensures Signalled(D, s, p).cal == s.cal
  {
    hide Queue, Logs, CUEvent, StallEvents, CUEvents, StallMarks, ToHost;
    var cuId, dev := D.am[slot].cuIndex, DeviceTimestamp(p);
    var host, site, fired := ToHost(s.cal, dev), Site(slot, cuId, 0), NibbleOf(TraceId(p));
    CULogs(D, s, p, host, slot, cuId);
    CUMoves(D, s, p, host, slot, cuId);
    CUState(D, s, p, host, slot, cuId);
    var s1 := if fired.cu then CUEvent(D, s, p, host, slot, cuId) else s;
    StallsLog(s1.db, fired, s1.traceIDs[slot], host, dev, site);
    SameMarks(s.db.starts, s1.db.starts, fired, s1.traceIDs[slot], host, dev, site);
    if !fired.cu {
      LogsNothing(s.db, s1.db);
    }
    var a := if fired.cu then CUEvents(s, Flag1(p), host, dev, site) else [];
    LogsMore(s.db, s1.db, Signalled(D, s, p).db, a,
             StallMarks(s1.db.starts, fired, s1.traceIDs[slot], host, dev, site));
  }

  lemma CUState(D: Design, s: State, p: Packet, host: real, slot: nat, cuId: int)
    requires s.Fits(D) && slot < D.numAM
    ensures var s' := CUEvent(D, s, p, host, slot, cuId);
            && s'.cal == s.cal
            && s'.traceIDs[slot] ==
               if Flag1(p) && s.cuStarts[slot] == [] then Nibble(false, false, false, false) else s.traceIDs[slot]
  {
    hide Queue, Take, Found, Mark;
  }

  lemma SameMarks(m: Starts, m': Starts, fired: Nibble, bits: Nibble, host: real, dev: nat, site: Site)
    requires forall t: EventType :: IsStall(t) ==>
               Queue(m', AMKey(site.monitorId), t) == Queue(m, AMKey(site.monitorId), t)
    ensures StallMarks(m', fired, bits, host, dev, site) == StallMarks(m, fired, bits, host, dev, site)
  {
    hide Queue;
  }

  // ----- The end of a CU -----

  /** An AM packet that does not end the last execution of its CU logs its signals and nothing else. */
  lemma AMPacketLogs(D: Design, s: State, p: Packet, slot: nat)
    requires s.Fits(D) && !IsClockTraining(p) && 64 <= TraceId(p) <= 544
    requires slot == (TraceId(p) - 64) / 16 && slot in D.am
    requires !NibbleOf(TraceId(p)).cu || Step(D, s, p).cuStarts[slot] != []
    ensures Logs(s.db, Step(D, s, p).db, SignalEvents(D, s, p, slot))
    ensures Step(D, s, p).latest == ToHost(s.cal, DeviceTimestamp(p))
  {
    hide Logs, AMSignals, AMClose, SignalEvents, ToHost;
    SignalsLog(D, s, p, slot);
    CloseKeepsCUs(D, s, p, slot);
  }

  lemma CloseKeepsCUs(D: Design, s: State, p: Packet, slot: nat)
    requires s.Fits(D) && !IsClockTraining(p) && 64 <= TraceId(p) <= 544
    requires slot == (TraceId(p) - 64) / 16 && slot in D.am
    ensures Step(D, s, p).cuStarts == Signalled(D, s, p).cuStarts
    ensures Step(D, s, p).latest == ToHost(s.cal, DeviceTimestamp(p))
  {
    hide AMSignals, StallEvents, CloseCUTransfers, ToHost;
  }

  /** The stalls whose bit is set after the signals, ended half a cycle before the packet's time. */
  function ForcedMarks(D: Design, s: State, p: Packet, slot: nat): seq<Event>
    requires s.Fits(D) && 64 <= TraceId(p) <= 544 && slot == (TraceId(p) - 64) / 16 && slot in D.am
  {
    var s2, bits := Signalled(D, s, p), Signalled(D, s, p).traceIDs[slot];
    var early := ToHost(s.cal, DeviceTimestamp(p)) - D.HalfCycleMs();
    StallMarks(s2.db.starts, bits, bits, early, DeviceTimestamp(p), Site(slot, D.am[slot].cuIndex, 0))
  }

  /** One that does ends, after its signals, every read and write of the CU's AIMs that is outstanding, in
      the way the end-of-trace pass does, and then, half a cycle before its own time, every stall whose
      bit is set. */
  lemma CUEndCloses(D: Design, s: State, p: Packet, slot: nat) returns (transfers: seq<Event>)
    requires s.Fits(D) && Ok(s.db, s.cuStarts)
    requires !IsClockTraining(p) && 64 <= TraceId(p) <= 544
    requires slot == (TraceId(p) - 64) / 16 && slot in D.am
    requires NibbleOf(TraceId(p)).cu && Step(D, s, p).cuStarts[slot] == []
    ensures Logs(s.db, Step(D, s, p).db, SignalEvents(D, s, p, slot) + transfers + ForcedMarks(D, s, p, slot))
    ensures var s2, log := Signalled(D, s, p), Step(D, s, p).db.log;
            && |s2.db.log| + |transfers| <= |log|
            && forall j | |s2.db.log| <= j < |s2.db.log| + |transfers| ::
                 IsTransfer(log[j].kind) && InventedEnd(D, log, j, s2.cal, s2.amLastTrans)
  {
    hide Queue, Logs, AMSignals, StallEvents, CloseCUTransfers, SignalEvents, StallMarks, ToHost, Ok, InventedEnd;
    CloseKeepsCUs(D, s, p, slot);
    SignalsLog(D, s, p, slot);
    var s2, s', cuId := Signalled(D, s, p), Step(D, s, p), D.am[slot].cuIndex;
    var host, dev, site := ToHost(s.cal, DeviceTimestamp(p)), DeviceTimestamp(p), Site(slot, cuId, 0);
    var early, bits := host - D.HalfCycleMs(), s2.traceIDs[slot];
    SignalsOk(D, s, p, slot);
    transfers := CUTransfersLog(D, s2, cuId);
    var d1 := if cuId == -1 then s2.db else CloseCUTransfers(D, s2.db, s2.amLastTrans, s2.cal, cuId, D.numAIM);
    StallsLog(d1, bits, bits, early, dev, site);
    CloseCUTransfersMove(D, s2.db, s2.amLastTrans, s2.cal, cuId, D.numAIM);
    SameMarks(s2.db.starts, d1.starts, bits, bits, early, dev, site);
    var stalls := StallMarks(s2.db.starts, bits, bits, early, dev, site);
    assert s'.db == StallEvents(d1, bits, bits, AMKey(slot), early, dev, site);
    LogsMore(s.db, s2.db, d1, SignalEvents(D, s, p, slot), transfers);
    LogsMore(s.db, d1, s'.db, SignalEvents(D, s, p, slot) + transfers, stalls);
    LogsExtend(d1, s'.db, stalls);
    forall j | |s2.db.log| <= j < |s2.db.log| + |transfers|
      ensures IsTransfer(s'.db.log[j].kind) && InventedEnd(D, s'.db.log, j, s2.cal, s2.amLastTrans)
    {
      InventedStays(D, d1.log, s'.db.log, j, s2.cal, s2.amLastTrans);
    }
  }

  /** So when a CU has ended, nothing read or written by its AIMs is outstanding; the reads and writes of
      other AIMs wait as before. */
  lemma CUEndLeavesNothingOpen(D: Design, s: State, p: Packet, slot: nat, key: nat, kind: EventType)
    requires s.Fits(D) && Ok(s.db, s.cuStarts) && Disciplined(s.db.starts) && IsTransfer(kind)
    requires !IsClockTraining(p) && 64 <= TraceId(p) <= 544
    requires slot == (TraceId(p) - 64) / 16 && slot in D.am
    requires NibbleOf(TraceId(p)).cu && Step(D, s, p).cuStarts[slot] == []
    ensures var cuId := D.am[slot].cuIndex;
            Queue(Step(D, s, p).db.starts, key, kind) ==
            if cuId != -1 && OfCU(D, cuId, D.numAIM, key, kind) then [] else Queue(s.db.starts, key, kind)
  {
    hide Queue, AMSignals, StallEvents, CloseCUTransfers, ToHost, Ok, Disciplined, OfCU;
    CloseKeepsCUs(D, s, p, slot);
    SignalsOk(D, s, p, slot);
    Short(s.db.starts, key, kind);
    var s2, s', cuId := Signalled(D, s, p), Step(D, s, p), D.am[slot].cuIndex;
    var early, bits := ToHost(s.cal, DeviceTimestamp(p)) - D.HalfCycleMs(), s2.traceIDs[slot];
    var d1 := if cuId == -1 then s2.db else CloseCUTransfers(D, s2.db, s2.amLastTrans, s2.cal, cuId, D.numAIM);
    CloseCUTransfersTake(D, s2.db, s2.amLastTrans, s2.cal, cuId, D.numAIM);
    StallsMove(d1, bits, bits, AMKey(slot), early, DeviceTimestamp(p), Site(slot, cuId, 0));
    SignalsKeep(D, s, p, slot);
    assert s'.db == StallEvents(d1, bits, bits, AMKey(slot), early, DeviceTimestamp(p), Site(slot, cuId, 0));
    assert !IsStall(kind);
    assert Queue(s2.db.starts, key, kind) == Queue(s.db.starts, key, kind);
  }

  lemma SignalsKeep(D: Design, s: State, p: Packet, slot: nat)
    requires s.Fits(D) && 64 <= TraceId(p) <= 544 && slot == (TraceId(p) - 64) / 16 && slot in D.am
    ensures Signalled(D, s, p).cal == s.cal
  {
    hide StallEvents, Take, Found, Mark, Queue;
  }

  lemma Short(m: Starts, key: nat, kind: EventType)
    requires Disciplined(m) && IsTransfer(kind)
    ensures |Queue(m, key, kind)| <= 1
  {
    hide Queue;
  }

  lemma LogsExtend(d: Db, d': Db, es: seq<Event>)
    requires Logs(d, d', es)
    ensures d.log <= d'.log
  {
  }

  /** The signals keep the log in order, and touch no read or write. */
  lemma SignalsOk(D: Design, s: State, p: Packet, slot: nat)
    requires s.Fits(D) && Ok(s.db, s.cuStarts) && 64 <= TraceId(p) <= 544
    requires slot == (TraceId(p) - 64) / 16 && slot in D.am
    ensures var s2 := Signalled(D, s, p);
            && Ok(s2.db, s2.cuStarts)
            && forall key: nat, kind: EventType :: IsTransfer(kind) ==>
                 Queue(s2.db.starts, key, kind) == Queue(s.db.starts, key, kind)
  {
    hide Queue, Ok, CUEvent, StallEvents;
    var cuId, host := D.am[slot].cuIndex, ToHost(s.cal, DeviceTimestamp(p));
    var fired, site := NibbleOf(TraceId(p)), Site(slot, cuId, 0);
    CUEventOk(D, s, p, host, slot, cuId);
    CUMoves(D, s, p, host, slot, cuId);
    var s1 := if fired.cu then CUEvent(D, s, p, host, slot, cuId) else s;
    StallsOk(s1.db, s1.cuStarts, fired, s1.traceIDs[slot], AMKey(slot), host, DeviceTimestamp(p), site);
    StallsMove(s1.db, fired, s1.traceIDs[slot], AMKey(slot), host, DeviceTimestamp(p), site);
  }

  /** The events with which the CU's reads and writes are closed. */
  lemma CUTransfersLog(D: Design, s: State, cuId: int) returns (transfers: seq<Event>)
    requires s.Fits(D) && Ok(s.db, s.cuStarts)
    ensures var d1 := if cuId == -1 then s.db else CloseCUTransfers(D, s.db, s.amLastTrans, s.cal, cuId, D.numAIM);
            && Logs(s.db, d1, transfers)
            && |d1.log| == |s.db.log| + |transfers|
            && forall j | |s.db.log| <= j < |d1.log| ::
                 IsTransfer(d1.log[j].kind) && InventedEnd(D, d1.log, j, s.cal, s.amLastTrans)
  {
    hide Ok, CloseCUTransfers, InventedEnd;
    if cuId == -1 {
      transfers := [];
      LogsNothing(s.db, s.db);
    } else {
      var d1 := CloseCUTransfers(D, s.db, s.amLastTrans, s.cal, cuId, D.numAIM);
      CUTransfersInvented(D, s.db, s.cuStarts, s.amLastTrans, s.cal, cuId, D.numAIM, |s.db.log|);
      CloseCUTransfersOk(D, s.db, s.cuStarts, s.amLastTrans, s.cal, cuId, D.numAIM);
      TransfersOnly(D, s.db, s.amLastTrans, s.cal, cuId, D.numAIM);
      transfers := Unnumbered(d1.log[|s.db.log|..]);
      Numbered(s.db, s.cuStarts);
      Numbered(d1, s.cuStarts);
      assert d1.log == s.db.log + Number(transfers, s.db.nextId);
    }
  }

  function Unnumbered(es: seq<Event>): (r: seq<Event>)
    ensures |r| == |es|
  {
    seq(|es|, i requires 0 <= i < |es| => es[i].(id := 0))
  }

  lemma Numbered(d: Db, cus: seq<seq<(nat, nat)>>)
    requires Ok(d, cus)
    ensures d.nextId == |d.log| + 1 && forall i | 0 <= i < |d.log| :: d.log[i].id == i + 1
  {
  }

  lemma {:induction false} TransfersOnly(D: Design, d: Db, amLast: seq<nat>, cal: Calibration, cuId: int, n: nat)
    requires D.Valid() && |amLast| == D.numAM
    ensures var d' := CloseCUTransfers(D, d, amLast, cal, cuId, n);
            d.log <= d'.log && forall j | |d.log| <= j < |d'.log| :: IsTransfer(d'.log[j].kind)
  {
    hide Take, Found, ApproxEnd;
    if n > 0 {
      TransfersOnly(D, d, amLast, cal, cuId, n - 1);
    }
  }

  // ----- Nothing else is an event -----

  /** Ids outside the three ranges, slots without a monitor: such packets log nothing and mark nothing. */
  lemma OthersLogNothing(D: Design, s: State, p: Packet)
    requires s.Fits(D) && !IsClockTraining(p)
    requires var id := TraceId(p);
             || id in {62, 63} || 545 <= id <= 575 || id >= 607
             || (id <= 61 && id / 2 !in D.aim) || (64 <= id <= 544 && (id - 64) / 16 !in D.am)
             || (576 <= id <= 606 && id - 576 !in D.asm)
    ensures Step(D, s, p) == s.(latest := Step(D, s, p).latest)
    ensures TraceId(p) in {62, 63} || 545 <= TraceId(p) <= 575 || TraceId(p) >= 607 ==> Step(D, s, p) == s
  {
  }
}
