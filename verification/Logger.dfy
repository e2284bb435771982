/** The PL device trace logger: fields updated in place, one method per member function. Each
    method is proved to take its state exactly where the value-level specification says. */
module Logger {
  import opened TraceTypes
  import opened Packets
  import opened StartLists
  import opened LoggerSpec
  import opened Database

  /** Evidence of a monitor is only ever recorded for monitors the tables know. This is what makes
      the unchecked monitor and CU lookups of the end-of-trace pass safe. */
  ghost predicate Attested(D: Design, s: State)
    requires s.Fits(D)
  {
    && (forall i | 0 <= i < D.numAM && s.cuStarts[i] != [] :: i in D.am && D.am[i].cuIndex in D.accelMon)
    && (forall i | 0 <= i < D.numUserAIM && s.aimLastTrans[i] > 0 :: i in D.aim)
    && (forall i | 0 <= i < D.numUserASM && s.asmLastTrans[i] > 0 :: i in D.asm)
  }

  lemma AttestedCU(D: Design, s: State, slot: nat)
    requires s.Fits(D) && Attested(D, s) && slot < D.numAM && s.cuStarts[slot] != []
    ensures slot in D.am && D.am[slot].cuIndex in D.accelMon
  {
  }

  lemma AMAttested(D: Design, s: State, p: Packet, host: real)
    requires s.Fits(D) && Attested(D, s) && IsAM(TraceId(p))
    ensures Attested(D, AMEvent(D, s, p, host))
  {
    hide StallEvents, CloseCUTransfers, TakeStart, OpenEvent, AddEvent, Found;
    var slot := (TraceId(p) - MIN_TRACE_ID_AM) / 16;
    if slot in D.am {
      assert Attested(D, AMSignals(D, s, p, host, slot, D.am[slot].cuIndex));
    }
  }

  lemma StepAttested(D: Design, s: State, p: Packet)
    requires s.Fits(D) && Attested(D, s)
    ensures Attested(D, Step(D, s, p))
  {
    hide AMEvent, DataTransfer, StreamTransfer, Trained;
    if !IsClockTraining(p) && IsAM(TraceId(p)) {
      AMAttested(D, s, p, ToHost(s.cal, DeviceTimestamp(p)));
    }
  }

  lemma {:induction false} CloseCUsAttested(D: Design, s: State, n: nat)
    requires s.Fits(D) && Attested(D, s) && n <= D.numAM
    ensures Attested(D, CloseCUs(D, s, n))
    ensures CloseCUs(D, s, n).aimLastTrans == s.aimLastTrans && CloseCUs(D, s, n).asmLastTrans == s.asmLastTrans
    ensures CloseCUs(D, s, n).amLastTrans == s.amLastTrans && CloseCUs(D, s, n).cal == s.cal
  {
    if n > 0 {
      CloseCUsAttested(D, s, n - 1);
    }
  }

  lemma {:induction false} CloseStreamsAttested(D: Design, s: State, n: nat)
    requires s.Fits(D) && Attested(D, s) && n <= D.numUserASMWithTrace
    ensures Attested(D, CloseStreams(D, s, n))
  {
    hide CloseStream;
    if n > 0 {
      CloseStreamsAttested(D, s, n - 1);
    }
  }

  class PLDeviceTraceLogger {
    const D: Design
    const db: VPDynamicDatabase

    var traceIDs: seq<Nibble>
    var cuStarts: seq<seq<(nat, nat)>>
    var amLastTrans: seq<nat>
    var aimLastTrans: seq<nat>
    var asmLastTrans: seq<nat>

    var clockTrainSlope: real
    var clockTrainOffset: real
    ghost var lineDefined: bool  // false while slope and offset are no numbers
    var mLatestHostTimestampMs: real

    // Function-local statics of the original.
    var x1: real
    var y1: real
    var found: bool
    var modulus: nat
    var clockTrainingHostTimestamp: nat

    ghost function DbState(): Db
      reads db, db.plDb
    {
      Db(db.eventId, db.plDb.events, db.plDb.startEvents)
    }

    ghost function Cal(): Calibration
      reads this
    {
      Calibration(clockTrainSlope, clockTrainOffset, x1, y1, lineDefined)
    }

    ghost function State(): State
      reads this, db, db.plDb
    {
      LoggerSpec.State(DbState(), traceIDs, cuStarts, amLastTrans, aimLastTrans, asmLastTrans,
                       Cal(), Phase(found, modulus, clockTrainingHostTimestamp), mLatestHostTimestampMs)
    }

    ghost predicate Valid()
      reads this, db, db.plDb
    {
      State().Fits(D) && Attested(D, State())
    }

    constructor (design: Design, database: VPDynamicDatabase)
      requires design.Valid()
      requires database.eventId == 1 && database.plDb.events == [] && database.plDb.startEvents == map[]
      ensures D == design && db == database && Valid()
      ensures State() == Initial(design)
    {
      D := design;
      db := database;
      traceIDs := seq(design.numAM, _ => CLEAR);
      cuStarts := seq(design.numAM, _ => []);
      amLastTrans := seq(design.numAM, _ => 0);
      aimLastTrans := seq(design.numUserAIM, _ => 0);
      asmLastTrans := seq(design.numUserASM, _ => 0);
      clockTrainSlope := 1000.0 / design.clockRateMHz;
      clockTrainOffset := 0.0;
      lineDefined := true;
      mLatestHostTimestampMs := 0.0;
      x1, y1 := 0.0, 0.0;
      found, modulus, clockTrainingHostTimestamp := false, 0, 0;
      new;
      assert State() == Initial(design);
    }

    /** Log one event. */
    method Log(role: Role, kind: EventType, host: real, dev: nat, site: Site) returns (id: nat)
      modifies db, db.plDb
      ensures id == old(db.eventId)
      ensures DbState() == AddEvent(old(DbState()), role, kind, host, dev, site)
    {
      var e := db.AddEvent(Event(0, role, host, kind, dev, site.monitorId, site.cuId, site.memStrId));
      id := e.id;
    }

    /** Log a start and mark it as outstanding. */
    method LogStart(key: nat, kind: EventType, host: real, dev: nat, site: Site) returns (id: nat)
      modifies db, db.plDb
      ensures id == old(db.eventId)
      ensures DbState() == OpenEvent(old(DbState()), key, kind, host, dev, site)
    {
      id := Log(Begin, kind, host, dev, site);
      db.MarkDeviceEventStart(key, DeviceEventInfo(kind, id, host, dev));
    }

    method ConvertDeviceToHostTimestamp(dev: nat) returns (host: real)
      ensures host == ToHost(Cal(), dev)
    {
      host := (clockTrainSlope * (dev as real) + clockTrainOffset) / 1000000.0;
    }

    method TrainDeviceHostTimestamps(dev: nat, host: nat)
      requires D.Valid()
      modifies this`x1, this`y1, this`clockTrainSlope, this`clockTrainOffset, this`lineDefined
      ensures Cal() == Trained(D, old(Cal()), dev, host)
    {
      if y1 == 0.0 && x1 == 0.0 {
        y1 := host as real;
        x1 := dev as real;
      } else {
        var y2, x2 := host as real, dev as real;
        lineDefined := D.hwFlow || x2 != x1;
        if D.hwFlow {
          clockTrainSlope := 1000.0 / D.clockRateMHz;
        } else if x2 == x1 {
          clockTrainSlope := 0.0; // infinite or no number in the original
        } else {
          clockTrainSlope := (y2 - y1) / (x2 - x1);
        }
        clockTrainOffset := y2 - clockTrainSlope * x2;
        y1 := 0.0;
        x1 := 0.0;
      }
    }

    /** The CU must be known: the statistics of the execution look it up unchecked. */
    method AddCUEndEvent(host: real, dev: nat, slot: nat, cuId: int)
      requires slot < |cuStarts| && cuStarts[slot] != [] && cuId in D.accelMon
      modifies this, db, db.plDb
      ensures State() == CUEnd(old(State()), host, dev, slot, cuId)
    {
      var startEventID := cuStarts[slot][0].0;
      cuStarts := cuStarts[slot := cuStarts[slot][1..]];
      var _ := Log(End(startEventID), KERNEL, host, dev, Site(slot, cuId, 0));
    }

    method AddCUEvent(trace: Packet, host: real, slot: nat, monTraceId: nat, cuId: int)
      requires State().Fits(D) && slot < D.numAM && monTraceId == AMKey(slot) && cuId in D.accelMon
      modifies this, db, db.plDb
      ensures State() == CUEvent(D, old(State()), trace, host, slot, cuId)
    {
      var dev := DeviceTimestamp(trace);
      if !Flag1(trace) {
        var e := db.MatchingDeviceEventStart(monTraceId, KERNEL);
        if e.kind == UNKNOWN_EVENT {
          return;
        }
        if cuStarts[slot] == [] {
          return;
        }
        AddCUEndEvent(host, dev, slot, cuId);
      } else {
        var id := LogStart(monTraceId, KERNEL, host, dev, Site(slot, cuId, 0));
        cuStarts := cuStarts[slot := cuStarts[slot] + [(id, dev)]];
        if 1 == |cuStarts[slot]| {
          traceIDs := traceIDs[slot := CLEAR];
        }
      }
    }

    method AddStallEvent(trace: Packet, host: real, slot: nat, monTraceId: nat, cuId: int, kind: EventType, bit: bool)
      modifies db, db.plDb
      ensures DbState() == StallEvent(old(DbState()), bit, monTraceId, kind, host,
                                                        DeviceTimestamp(trace), Site(slot, cuId, 0))
    {
      if bit {
        var startEventInfo := db.MatchingDeviceEventStart(monTraceId, kind);
        var _ := Log(End(startEventInfo.eventID), kind, host, DeviceTimestamp(trace), Site(slot, cuId, 0));
      } else {
        var _ := LogStart(monTraceId, kind, host, DeviceTimestamp(trace), Site(slot, cuId, 0));
      }
    }

    method AddStallEvents(fired: Nibble, trace: Packet, host: real, slot: nat, monTraceId: nat, cuId: int)
      requires slot < |traceIDs|
      modifies db, db.plDb
      ensures DbState() == StallEvents(old(DbState()), fired, traceIDs[slot], monTraceId, host,
                                                         DeviceTimestamp(trace), Site(slot, cuId, 0))
    {
      if fired.dataflow {
        AddStallEvent(trace, host, slot, monTraceId, cuId, KERNEL_STALL_DATAFLOW, traceIDs[slot].dataflow);
      }
      if fired.pipe {
        AddStallEvent(trace, host, slot, monTraceId, cuId, KERNEL_STALL_PIPE, traceIDs[slot].pipe);
      }
      if fired.ext {
        AddStallEvent(trace, host, slot, monTraceId, cuId, KERNEL_STALL_EXT_MEM, traceIDs[slot].ext);
      }
    }

    method AddApproximateDataTransferEvent(kind: EventType, aimTraceID: nat, amId: int, cuId: int, memStrId: nat)
      requires D.Valid() && -1 <= amId < |amLastTrans|
      modifies db, db.plDb
      ensures DbState() == ApproxTransfer(D, old(DbState()), amLastTrans, Cal(), kind,
                                                            aimTraceID, amId, cuId, memStrId)
    {
      var startEvent := db.MatchingDeviceEventStart(aimTraceID, kind);
      if startEvent.kind == UNKNOWN_EVENT {
        return;
      }
      var cuLastTimestamp := if amId == -1 then 0 else amLastTrans[amId];
      var endTimestamp, endHost := ApproximateEnd(startEvent.deviceTimestamp, amId, cuLastTimestamp);
      var _ := Log(End(startEvent.eventID), kind, endHost, endTimestamp, Site(AsUint32(amId), cuId, memStrId));
    }

    method ApproximateEnd(start: nat, amId: int, cuLastTimestamp: nat) returns (endTimestamp: nat, endHost: real)
      requires D.Valid()
      ensures (endTimestamp, endHost) == ApproxEnd(D, Cal(), start, amId, cuLastTimestamp)
    {
      if -1 != amId && start < cuLastTimestamp {
        endTimestamp := cuLastTimestamp;
        endHost := ConvertDeviceToHostTimestamp(cuLastTimestamp);
      } else {
        endTimestamp := start;
        endHost := ConvertDeviceToHostTimestamp(start);
        endHost := endHost + D.HalfCycleMs();
      }
    }

    /** The read and the write of one AIM. */
    method AddApproximateDataTransferEvents(slot: nat, mon: Monitor, cuId: int)
      requires D.Valid() && |amLastTrans| == D.numAM
      modifies db, db.plDb
      ensures DbState() == ApproxTransfers(D, old(DbState()), amLastTrans, Cal(),
                                                             slot, mon, cuId)
    {
      var memStrId := D.MemStrId(mon);
      var amId := D.AccelMonOf(cuId);
      AddApproximateDataTransferEvent(KERNEL_READ, slot * 2, amId, cuId, memStrId);
      AddApproximateDataTransferEvent(KERNEL_WRITE, slot * 2 + 1, amId, cuId, memStrId);
    }

    /** The overload for one CU that just ended. */
    method AddApproximateDataTransferEndEventsOf(cuId: int)
      requires D.Valid() && |amLastTrans| == D.numAM
      modifies db, db.plDb
      ensures DbState() == if cuId == -1 then old(DbState())
                           else CloseCUTransfers(D, old(DbState()), amLastTrans, Cal(), cuId, D.numAIM)
    {
      hide ApproxTransfers;
      if cuId == -1 {
        return;
      }
      var aimIndex := 0;
      while aimIndex < D.numAIM
        invariant aimIndex <= D.numAIM
        invariant DbState() == CloseCUTransfers(D, old(DbState()), amLastTrans, Cal(),
                                                                  cuId, aimIndex)
      {
        if aimIndex in D.aim && cuId == D.aim[aimIndex].cuIndex {
          AddApproximateDataTransferEvents(aimIndex, D.aim[aimIndex], cuId);
        }
        aimIndex := aimIndex + 1;
      }
    }

    method AddApproximateStallEndEvents(trace: Packet, host: real, slot: nat, monTraceId: nat, cuId: int)
      requires D.Valid() && slot < |traceIDs|
      modifies db, db.plDb
      ensures DbState() == StallEvents(old(DbState()), traceIDs[slot], traceIDs[slot], monTraceId,
                                                         host - D.HalfCycleMs(), DeviceTimestamp(trace),
                                                         Site(slot, cuId, 0))
    {
      if traceIDs[slot] == CLEAR {
        return;
      }
      AddStallEvents(traceIDs[slot], trace, host - D.HalfCycleMs(), slot, monTraceId, cuId);
    }

    /** The signals of an AM packet. */
    method AddAMSignals(trace: Packet, host: real, slot: nat, monTraceId: nat, cuId: int)
      requires State().Fits(D) && slot < D.numAM && monTraceId == AMKey(slot) && cuId in D.accelMon
      modifies this, db, db.plDb
      ensures State() == AMSignals(D, old(State()), trace, host, slot, cuId)
    {
      var fired := NibbleOf(TraceId(trace));
      if fired.cu {
        AddCUEvent(trace, host, slot, monTraceId, cuId);
      }
      AddStallEvents(fired, trace, host, slot, monTraceId, cuId);
      traceIDs := traceIDs[slot := Xor(traceIDs[slot], fired)];
      amLastTrans := amLastTrans[slot := DeviceTimestamp(trace)];
    }

    method AddAMEvent(trace: Packet, host: real)
      requires State().Fits(D) && IsAM(TraceId(trace))
      modifies this, db, db.plDb
      ensures State() == AMEvent(D, old(State()), trace, host)
    {
      hide AMSignals, StallEvents, CloseCUTransfers;
      var traceID := TraceId(trace);
      var slot := (traceID - MIN_TRACE_ID_AM) / 16;
      var monTraceID := slot * 16 + MIN_TRACE_ID_AM;
      if slot !in D.am {
        return;
      }
      var cuId := D.am[slot].cuIndex;
      AddAMSignals(trace, host, slot, monTraceID, cuId);
      // A CU that ended completely leaves no read, write or stall hanging.
      if NibbleOf(traceID).cu && cuStarts[slot] == [] {
        AddApproximateDataTransferEndEventsOf(cuId);
        AddApproximateStallEndEvents(trace, host, slot, monTraceID, cuId);
      }
    }

    method AddAIMEvent(trace: Packet, host: real)
      requires State().Fits(D)
      modifies this, db, db.plDb
      ensures State() == AIMEvent(D, old(State()), trace, host)
    {
      var traceID := TraceId(trace);
      var slot := traceID / 2;
      if slot !in D.aim {
        return;
      }
      var mon := D.aim[slot];
      var kind := if traceID % 2 == 1 then KERNEL_WRITE else KERNEL_READ;
      AddKernelDataTransferEvent(kind, trace, slot, mon.cuIndex, host, D.MemStrId(mon));
    }

    method AddKernelDataTransferEvent(kind: EventType, trace: Packet, slot: nat, cuId: int, host: real, memStrId: nat)
      requires D.Valid() && slot < |aimLastTrans|
      modifies this`aimLastTrans, db, db.plDb
      ensures DbState() == DataTransfer(D, old(DbState()), kind, trace, host, Site(slot, cuId, memStrId))
      ensures aimLastTrans ==
              if Touches(old(DbState()), kind, trace) then old(aimLastTrans)[slot := DeviceTimestamp(trace)]
                              else old(aimLastTrans)
    {
      var dev := DeviceTimestamp(trace);
      var site := Site(slot, cuId, memStrId);
      if IsDeviceEventTypeStart(trace) {
        var closed := AddTransferStart(kind, TraceId(trace), host, dev, site);
        if closed {
          aimLastTrans := aimLastTrans[slot := dev];
        }
      } else {
        AddTransferEnd(kind, TraceId(trace), Flag16(trace), host, dev, site);
        aimLastTrans := aimLastTrans[slot := dev];
      }
    }

    /** The start branch; `closed` says that a dropped end was made up for. */
    method AddTransferStart(kind: EventType, traceId: nat, host: real, dev: nat, site: Site) returns (closed: bool)
      requires D.Valid()
      modifies db, db.plDb
      ensures closed <==> Queue(old(DbState()).starts, traceId, kind) != []
      ensures DbState() == TransferStart(D, old(DbState()), kind, traceId, host, dev, site)
    {
      hide Take, Found;
      ghost var d0 := DbState();
      closed := db.HasMatchingDeviceEventStart(traceId, kind);
      TouchAbsorbed(d0.starts, traceId, kind, DeviceEventInfo(kind, db.eventId, host, dev));
      if closed {
        var matchingStart := db.MatchingDeviceEventStart(traceId, kind);
        assert DbState() == TakeStart(d0, traceId, kind);
        var _ := Log(End(matchingStart.eventID), kind, host - D.HalfCycleMs(), dev, site);
      }
      var _ := LogStart(traceId, kind, host, dev, site);
    }

    /** The end branch. */
    method AddTransferEnd(kind: EventType, traceId: nat, pulse: bool, host: real, dev: nat, site: Site)
      requires D.Valid()
      modifies db, db.plDb
      ensures DbState() == TransferEnd(D, old(DbState()), kind, traceId, pulse, host, dev, site)
    {
      var matchingStart := db.MatchingDeviceEventStart(traceId, kind);
      if matchingStart.kind == UNKNOWN_EVENT {
        AddPulse(kind, host, dev, site);
      } else if pulse && matchingStart.hostTimestamp != host {
        var _ := Log(End(matchingStart.eventID), kind, host, dev, site);
        AddPulse(kind, host, dev, site);
      } else {
        var _ := Log(End(matchingStart.eventID), kind, if pulse then host + D.HalfCycleMs() else host, dev, site);
      }
    }

    /** A dummy start, and an end half a cycle later. */
    method AddPulse(kind: EventType, host: real, dev: nat, site: Site)
      requires D.Valid()
      modifies db, db.plDb
      ensures DbState() == Pulse(old(DbState()), kind, host, host + D.HalfCycleMs(), dev, site)
    {
      var id := Log(Begin, kind, host, dev, site);
      var _ := Log(End(id), kind, host + D.HalfCycleMs(), dev, site);
    }

    method AddASMEvent(trace: Packet, host: real)
      requires State().Fits(D) && IsASM(TraceId(trace))
      modifies this, db, db.plDb
      ensures State() == ASMEvent(D, old(State()), trace, host)
    {
      var traceId := TraceId(trace);
      var dev := DeviceTimestamp(trace);
      var slot := traceId - MIN_TRACE_ID_ASM;
      if slot !in D.asm {
        return;
      }
      var mon := D.asm[slot];
      var kind := KERNEL_STREAM_WRITE;
      if Flag8(trace) {
        kind := if mon.isStreamRead then KERNEL_STREAM_READ else KERNEL_STREAM_WRITE;
      } else if Flag2(trace) {
        kind := if mon.isStreamRead then KERNEL_STREAM_READ_STARVE else KERNEL_STREAM_WRITE_STARVE;
      } else if Flag4(trace) {
        kind := if mon.isStreamRead then KERNEL_STREAM_READ_STALL else KERNEL_STREAM_WRITE_STALL;
      }
      var site := Site(slot, mon.cuIndex, 0);
      if Flag1(trace) {
        var _ := LogStart(traceId, kind, host, dev, site);
      } else {
        var matchingStart := db.MatchingDeviceEventStart(traceId, kind);
        if Flag16(trace) || matchingStart.kind == UNKNOWN_EVENT {
          AddPulse(kind, host, dev, site);
        } else {
          var _ := Log(End(matchingStart.eventID), kind, host, dev, site);
        }
        asmLastTrans := asmLastTrans[slot := dev];
      }
    }

    /** The search first looks at times, and at a monitor only when its time could matter. */
    method LastActivityOf(amIndex: nat, cuId: int) returns (cuLastTimestamp: nat)
      requires Valid() && amIndex < D.numAM
      ensures cuLastTimestamp == LastActivity(D, State(), amIndex, cuId)
    {
      cuLastTimestamp := amLastTrans[amIndex];
      var aimIndex := 0;
      while aimIndex < |aimLastTrans|
        invariant aimIndex <= |aimLastTrans|
        invariant cuLastTimestamp == LastAttached(D.aim, aimLastTrans, cuId, amLastTrans[amIndex], aimIndex)
      {
        if cuLastTimestamp < aimLastTrans[aimIndex] {
          var aim := D.aim[aimIndex];
          if cuId == aim.cuIndex {
            cuLastTimestamp := aimLastTrans[aimIndex];
          }
        }
        aimIndex := aimIndex + 1;
      }
      ghost var base := cuLastTimestamp;
      var asmIndex := 0;
      while asmIndex < |asmLastTrans|
        invariant asmIndex <= |asmLastTrans|
        invariant cuLastTimestamp == LastAttached(D.asm, asmLastTrans, cuId, base, asmIndex)
      {
        if cuLastTimestamp < asmLastTrans[asmIndex] {
          var mon := D.asm[asmIndex];
          if cuId == mon.cuIndex {
            cuLastTimestamp := asmLastTrans[asmIndex];
          }
        }
        asmIndex := asmIndex + 1;
      }
    }

    method AddApproximateCUEndEvents()
      requires Valid()
      modifies this, db, db.plDb
      ensures Valid()
      ensures State() == CloseCUs(D, old(State()), D.numAM)
    {
      hide LastActivity, Attested;
      var amIndex := 0;
      while amIndex < |cuStarts|
        invariant amIndex <= D.numAM
        invariant State() == CloseCUs(D, old(State()), amIndex)
        invariant Valid()
      {
        if cuStarts[amIndex] != [] {
          assert amIndex in D.am && D.am[amIndex].cuIndex in D.accelMon by { AttestedCU(D, State(), amIndex); }
          var cuId := D.am[amIndex].cuIndex;
          var cuLastTimestamp := LastActivityOf(amIndex, cuId);
          if 0 != cuLastTimestamp {
            var host := ConvertDeviceToHostTimestamp(cuLastTimestamp);
            AddCUEndEvent(host, cuLastTimestamp, amIndex, cuId);
          }
        }
        amIndex := amIndex + 1;
        CloseCUsAttested(D, old(State()), amIndex);
      }
    }

    /** The pass over all user AIMs with trace. */
    method AddApproximateDataTransferEndEvents()
      requires D.Valid() && |amLastTrans| == D.numAM
      modifies db, db.plDb
      ensures DbState() == CloseTransfers(D, old(DbState()), amLastTrans, Cal(), |D.userAIMsWithTrace|)
    {
      hide ApproxTransfers;
      var i := 0;
      while i < |D.userAIMsWithTrace|
        invariant i <= |D.userAIMsWithTrace|
        invariant DbState() == CloseTransfers(D, old(DbState()), amLastTrans, Cal(), i)
      {
        var mon := D.userAIMsWithTrace[i];
        AddApproximateDataTransferEvents(mon.slotIndex, mon, mon.cuIndex);
        i := i + 1;
      }
    }

    method AddApproximateStreamEndEvent(asmIndex: nat, kind: EventType, cuId: int, amId: int, cuLastTimestamp: nat,
                                        lastTransIn: nat) returns (lastTrans: nat)
      requires D.Valid() && kind != UNKNOWN_EVENT
      modifies db, db.plDb
      ensures (DbState(), lastTrans) == CloseStream(D, old(DbState()), Cal(), asmIndex, kind, cuId, amId,
                                                    cuLastTimestamp, lastTransIn)
    {
      hide Take, Found, ApproxEnd;
      lastTrans := lastTransIn;
      var asmTraceID := MIN_TRACE_ID_ASM + asmIndex;
      ghost var d := DbState();
      ghost var goal := CloseStream(D, d, Cal(), asmIndex, kind, cuId, amId, cuLastTimestamp, lastTransIn);
      UnknownMeansEmpty(d.starts, asmTraceID, kind);
      var matchingStart := db.MatchingDeviceEventStart(asmTraceID, kind);
      while matchingStart.kind != UNKNOWN_EVENT
        invariant matchingStart == Found(d.starts, asmTraceID, kind)
        invariant matchingStart.kind == UNKNOWN_EVENT <==> Queue(d.starts, asmTraceID, kind) == []
        invariant DbState() == TakeStart(d, asmTraceID, kind)
        invariant goal == CloseStream(D, d, Cal(), asmIndex, kind, cuId, amId, cuLastTimestamp, lastTrans)
        decreases |Queue(d.starts, asmTraceID, kind)|
      {
        var endTimestamp, endHost := ApproximateEnd(matchingStart.deviceTimestamp, amId, cuLastTimestamp);
        TakeRefines(d.starts, asmTraceID, kind, asmTraceID, kind);
        lastTrans := if lastTrans < endTimestamp then endTimestamp else lastTrans;
        var _ := Log(End(matchingStart.eventID), kind, endHost, endTimestamp, Site(asmIndex, cuId, 0));
        d := DbState();
        UnknownMeansEmpty(d.starts, asmTraceID, kind);
        matchingStart := db.MatchingDeviceEventStart(asmTraceID, kind);
      }
    }

    method AddApproximateStreamEndEvents()
      requires State().Fits(D)
      modifies this, db, db.plDb
      ensures State() == CloseStreams(D, old(State()), D.numUserASMWithTrace)
    {
      hide CloseASM;
      var asmIndex := 0;
      while asmIndex < D.numUserASMWithTrace
        invariant asmIndex <= D.numUserASMWithTrace
        invariant State() == CloseStreams(D, old(State()), asmIndex)
      {
        AddApproximateStreamEndEventsOf(asmIndex);
        asmIndex := asmIndex + 1;
      }
    }

    /** The loop body: all three kinds of one ASM. */
    method AddApproximateStreamEndEventsOf(asmIndex: nat)
      requires State().Fits(D) && asmIndex < D.numUserASM
      modifies this, db, db.plDb
      ensures State() == CloseASM(D, old(State()), asmIndex)
    {
      hide CloseStream;
      if asmIndex !in D.asm {
        return;
      }
      var mon := D.asm[asmIndex];
      var cuId := mon.cuIndex;
      var amId := D.AccelMonOf(cuId);
      var cuLastTimestamp := if amId == -1 then 0 else amLastTrans[amId];
      var kinds := StreamKinds(mon);
      var last := AddApproximateStreamEndEvent(asmIndex, kinds[0], cuId, amId, cuLastTimestamp, 0);
      last := AddApproximateStreamEndEvent(asmIndex, kinds[1], cuId, amId, cuLastTimestamp, last);
      last := AddApproximateStreamEndEvent(asmIndex, kinds[2], cuId, amId, cuLastTimestamp, last);
      asmLastTrans := asmLastTrans[asmIndex := last];
    }

    method EndProcessTraceData()
      requires Valid()
      modifies this, db, db.plDb
      ensures Valid()
      ensures State() == EndProcess(D, old(State()))
    {
      hide CloseCUs, CloseTransfers, CloseStreams;
      AddApproximateCUEndEvents();
      AddApproximateDataTransferEndEvents();
      CloseStreamsAttested(D, State(), D.numUserASMWithTrace);
      AddApproximateStreamEndEvents();
    }

    /** A clock training packet. */
    method AddTraining(packet: Packet)
      requires State().Fits(D)
      modifies this
      ensures State() == TrainStep(D, old(State()), packet)
    {
      clockTrainingHostTimestamp := BitOr(clockTrainingHostTimestamp, TrainingWord(packet) * Pow2(16 * modulus));
      modulus := modulus + 1;
      if modulus == 4 {
        // The device time that counts is the one of the fourth packet.
        TrainDeviceHostTimestamps(DeviceTimestamp(packet), clockTrainingHostTimestamp);
        clockTrainingHostTimestamp := 0;
        modulus := 0;
      }
    }

    /** Find eight training packets in a row; the position is 0 when there are none. */
    method SeekTraining(packets: seq<Packet>) returns (start: nat)
      requires |packets| >= 8
      modifies this`found
      ensures found == (old(found) || SearchFrom(packets, 0) < |packets|)
      ensures start == if !old(found) && found then SearchFrom(packets, 0) else 0
    {
      start := 0;
      if !found {
        var i := 0;
        while i < |packets| - 8 && !found
          invariant i <= |packets| - 8
          invariant !found ==> SearchFrom(packets, 0) == SearchFrom(packets, i) && start == 0
          invariant found ==> SearchFrom(packets, 0) == start < |packets|
          decreases |packets| - i, !found
        {
          var j := i;
          while j < i + 8 && !found
            invariant i <= j <= i + 8
            invariant forall k | i <= k < j :: IsClockTraining(packets[k])
            invariant j == i + 8 ==> found
            invariant found ==> TrainingWindow(packets, i) && start == i
            invariant !found ==> start == 0
          {
            if !IsClockTraining(packets[j]) {
              break;
            }
            if j == i + 7 {
              start := i;
              found := true;
            }
            j := j + 1;
          }
          if !found {
            assert !TrainingWindow(packets, i);
            i := i + 1;
          }
        }
      }
    }

    /** Interpret one buffer. Before training was seen the search needs at least eight packets:
        with fewer, the bound `numPackets - 8` wraps around. */
    method ProcessTraceData(data: seq<Byte>)
      requires Valid()
      requires found || |data| == 0 || |data| / 8 >= 8
      modifies this, db, db.plDb
      ensures Valid()
      ensures State() == Process(D, old(State()), PacketsOf(data))
    {
      if |data| == 0 {
        return;
      }
      var packets := PacketsOf(data);
      var start := 0;
      if !found {
        start := SeekTraining(packets);
      }
      AddPackets(packets[start..]);
    }

    method AddPackets(packets: seq<Packet>)
      requires Valid()
      modifies this, db, db.plDb
      ensures Valid()
      ensures State() == Fold(D, old(State()), packets)
    {
      hide Step;
      var i := 0;
      while i < |packets|
        invariant i <= |packets|
        invariant Valid()
        invariant State() == Fold(D, old(State()), packets[..i])
      {
        StepAttested(D, State(), packets[i]);
        assert packets[..i + 1][..i] == packets[..i];
        AddPacket(packets[i]);
        i := i + 1;
      }
      assert packets[..i] == packets;
    }

    method AddPacket(packet: Packet)
      requires State().Fits(D)
      modifies this, db, db.plDb
      ensures State() == Step(D, old(State()), packet)
    {
      if IsClockTraining(packet) {
        AddTraining(packet);
        return;
      }
      var traceId := TraceId(packet);
      if !IsAM(traceId) && !IsAIM(traceId) && !IsASM(traceId) {
        return;
      }
      var host := ConvertDeviceToHostTimestamp(DeviceTimestamp(packet));
      if IsAM(traceId) {
        AddAMEvent(packet, host);
      }
      if IsAIM(traceId) {
        AddAIMEvent(packet, host);
      }
      if IsASM(traceId) {
        AddASMEvent(packet, host);
      }
      mLatestHostTimestampMs := host;
    }
  }
}
