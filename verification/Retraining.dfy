/** Host times are logged on the line of the moment, and clock training redraws the line. What an
    approximate end owes to its start as logged holds as long as no training completes in between. */
module Retraining {
  import opened TraceTypes
  import opened Packets
  import opened StartLists
  import opened LoggerSpec
  import opened Pairing
  import opened EndOfTrace
  import opened ClockTraining

  /** The log continues `base`, and the starts it has beyond lie on the line. */
  ghost predicate OnLine(log: seq<Event>, base: seq<Event>, cal: Calibration) {
    && base <= log
    && forall i | |base| <= i < |log| && log[i].role == Begin :: log[i].timestamp == ToHost(cal, log[i].deviceTimestamp)
  }

  lemma EventOnLine(d: Db, role: Role, kind: EventType, host: real, dev: nat, site: Site, base: seq<Event>,
                    cal: Calibration)
    requires OnLine(d.log, base, cal) && (role == Begin ==> host == ToHost(cal, dev))
    ensures OnLine(AddEvent(d, role, kind, host, dev, site).log, base, cal)
  {
    hide ToHost;
  }

  lemma PulseOnLine(d: Db, kind: EventType, host: real, hostEnd: real, dev: nat, site: Site, base: seq<Event>,
                    cal: Calibration)
    requires OnLine(d.log, base, cal) && host == ToHost(cal, dev)
    ensures OnLine(Pulse(d, kind, host, hostEnd, dev, site).log, base, cal)
  {
    hide ToHost, OnLine;
    EventOnLine(d, Begin, kind, host, dev, site, base, cal);
    EventOnLine(AddEvent(d, Begin, kind, host, dev, site), End(d.nextId), kind, hostEnd, dev, site, base, cal);
  }

  lemma StallOnLine(d: Db, bit: bool, key: nat, kind: EventType, host: real, dev: nat, site: Site, base: seq<Event>,
                    cal: Calibration)
    requires OnLine(d.log, base, cal) && (bit || host == ToHost(cal, dev))
    ensures OnLine(StallEvent(d, bit, key, kind, host, dev, site).log, base, cal)
  {
    hide ToHost, OnLine, Take, Found, Mark;
    if bit {
      EventOnLine(TakeStart(d, key, kind), End(Found(d.starts, key, kind).eventID), kind, host, dev, site, base, cal);
    } else {
      EventOnLine(d, Begin, kind, host, dev, site, base, cal);
    }
  }

  lemma StallsOnLine(d: Db, fired: Nibble, bits: Nibble, key: nat, host: real, dev: nat, site: Site, base: seq<Event>,
                     cal: Calibration)
    requires OnLine(d.log, base, cal) && (fired == bits || host == ToHost(cal, dev))
    ensures OnLine(StallEvents(d, fired, bits, key, host, dev, site).log, base, cal)
  {
    hide ToHost, OnLine, StallEvent;
    var d1 := if fired.dataflow then StallEvent(d, bits.dataflow, key, KERNEL_STALL_DATAFLOW, host, dev, site) else d;
    var d2 := if fired.pipe then StallEvent(d1, bits.pipe, key, KERNEL_STALL_PIPE, host, dev, site) else d1;
    if fired.dataflow {
      StallOnLine(d, bits.dataflow, key, KERNEL_STALL_DATAFLOW, host, dev, site, base, cal);
    }
    if fired.pipe {
      StallOnLine(d1, bits.pipe, key, KERNEL_STALL_PIPE, host, dev, site, base, cal);
    }
    if fired.ext {
      StallOnLine(d2, bits.ext, key, KERNEL_STALL_EXT_MEM, host, dev, site, base, cal);
    }
  }

  lemma ApproxOnLine(D: Design, d: Db, amLast: seq<nat>, line: Calibration, slot: nat, mon: Monitor, cuId: int,
                     base: seq<Event>, cal: Calibration)
    requires D.Valid() && |amLast| == D.numAM && OnLine(d.log, base, cal)
    ensures OnLine(ApproxTransfers(D, d, amLast, line, slot, mon, cuId).log, base, cal)
  {
    hide ToHost, Take, Found, ApproxEnd;
  }

  lemma {:induction false} CloseCUTransfersOnLine(D: Design, d: Db, amLast: seq<nat>, line: Calibration, cuId: int,
                                                  n: nat, base: seq<Event>, cal: Calibration)
    requires D.Valid() && |amLast| == D.numAM && OnLine(d.log, base, cal)
    ensures OnLine(CloseCUTransfers(D, d, amLast, line, cuId, n).log, base, cal)
  {
    hide ToHost, OnLine, ApproxTransfers;
    if n > 0 {
      CloseCUTransfersOnLine(D, d, amLast, line, cuId, n - 1, base, cal);
      if n - 1 in D.aim {
        ApproxOnLine(D, CloseCUTransfers(D, d, amLast, line, cuId, n - 1), amLast, line, n - 1, D.aim[n - 1], cuId,
                     base, cal);
      }
    }
  }

  lemma CUOnLine(D: Design, s: State, p: Packet, host: real, slot: nat, cuId: int, base: seq<Event>)
    requires s.Fits(D) && slot < D.numAM && OnLine(s.db.log, base, s.cal) && host == ToHost(s.cal, DeviceTimestamp(p))
    ensures OnLine(CUEvent(D, s, p, host, slot, cuId).db.log, base, s.cal)
  {
    hide ToHost, Take, Found, Mark;
  }

  lemma AMOnLine(D: Design, s: State, p: Packet, host: real, base: seq<Event>)
    requires s.Fits(D) && IsAM(TraceId(p)) && OnLine(s.db.log, base, s.cal) && host == ToHost(s.cal, DeviceTimestamp(p))
    ensures OnLine(AMEvent(D, s, p, host).db.log, base, s.cal) && AMEvent(D, s, p, host).cal == s.cal
  {
    hide ToHost, OnLine, CUEvent, StallEvents, CloseCUTransfers;
    var slot := (TraceId(p) - MIN_TRACE_ID_AM) / 16;
    if slot in D.am {
      var cuId, dev := D.am[slot].cuIndex, DeviceTimestamp(p);
      var site, fired := Site(slot, cuId, 0), NibbleOf(TraceId(p));
      CUOnLine(D, s, p, host, slot, cuId, base);
      CUKeepsLine(D, s, p, host, slot, cuId);
      var s1 := if fired.cu then CUEvent(D, s, p, host, slot, cuId) else s;
      StallsOnLine(s1.db, fired, s1.traceIDs[slot], AMKey(slot), host, dev, site, base, s.cal);
      var s2 := AMSignals(D, s, p, host, slot, cuId);
      CloseCUTransfersOnLine(D, s2.db, s2.amLastTrans, s2.cal, cuId, D.numAIM, base, s.cal);
      var d1 := if cuId == -1 then s2.db else CloseCUTransfers(D, s2.db, s2.amLastTrans, s2.cal, cuId, D.numAIM);
      var bits := s2.traceIDs[slot];
      StallsOnLine(d1, bits, bits, AMKey(slot), host - D.HalfCycleMs(), dev, site, base, s.cal);
    }
  }

  lemma CUKeepsLine(D: Design, s: State, p: Packet, host: real, slot: nat, cuId: int)
    requires s.Fits(D) && slot < D.numAM
    ensures CUEvent(D, s, p, host, slot, cuId).cal == s.cal
  {
    hide Take, Found, Mark;
  }

  lemma TransferOnLine(D: Design, d: Db, kind: EventType, p: Packet, host: real, site: Site, base: seq<Event>,
                       cal: Calibration)
    requires D.Valid() && OnLine(d.log, base, cal) && host == ToHost(cal, DeviceTimestamp(p))
    ensures OnLine(DataTransfer(D, d, kind, p, host, site).log, base, cal)
  {
    hide ToHost, OnLine, Take, Found, Mark, Queue, Pulse;
    var key, dev := TraceId(p), DeviceTimestamp(p);
    var start, d1 := Found(d.starts, key, kind), TakeStart(d, key, kind);
    var early, later := host - D.HalfCycleMs(), host + D.HalfCycleMs();
    EventOnLine(d, Begin, kind, host, dev, site, base, cal);
    EventOnLine(d1, End(start.eventID), kind, early, dev, site, base, cal);
    EventOnLine(AddEvent(d1, End(start.eventID), kind, early, dev, site), Begin, kind, host, dev, site, base, cal);
    EventOnLine(d1, End(start.eventID), kind, host, dev, site, base, cal);
    EventOnLine(d1, End(start.eventID), kind, later, dev, site, base, cal);
    PulseOnLine(d1, kind, host, later, dev, site, base, cal);
    PulseOnLine(AddEvent(d1, End(start.eventID), kind, host, dev, site), kind, host, later, dev, site, base, cal);
  }

  lemma StreamOnLine(D: Design, d: Db, kind: EventType, p: Packet, host: real, site: Site, base: seq<Event>,
                     cal: Calibration)
    requires D.Valid() && OnLine(d.log, base, cal) && host == ToHost(cal, DeviceTimestamp(p))
    ensures OnLine(StreamTransfer(D, d, kind, p, host, site).log, base, cal)
  {
    hide ToHost, OnLine, Take, Found, Mark, Pulse;
    var key, dev := TraceId(p), DeviceTimestamp(p);
    var d1 := TakeStart(d, key, kind);
    EventOnLine(d, Begin, kind, host, dev, site, base, cal);
    EventOnLine(d1, End(Found(d.starts, key, kind).eventID), kind, host, dev, site, base, cal);
    PulseOnLine(d1, kind, host, host + D.HalfCycleMs(), dev, site, base, cal);
  }

  /** Whatever the packet, the starts it logs lie on the line of the moment. */
  lemma StepOnLine(D: Design, s: State, p: Packet, base: seq<Event>)
    requires s.Fits(D) && OnLine(s.db.log, base, s.cal)
    ensures OnLine(Step(D, s, p).db.log, base, s.cal)
  {
    hide ToHost, OnLine, AMEvent, DataTransfer, StreamTransfer, Trained, BitOr;
    var id, host := TraceId(p), ToHost(s.cal, DeviceTimestamp(p));
    if IsClockTraining(p) {
    } else if IsAM(id) {
      AMOnLine(D, s, p, host, base);
    } else if IsAIM(id) {
      var slot := id / 2;
      if slot in D.aim {
        var kind := if id % 2 == 1 then KERNEL_WRITE else KERNEL_READ;
        TransferOnLine(D, s.db, kind, p, host, Site(slot, D.aim[slot].cuIndex, D.MemStrId(D.aim[slot])), base, s.cal);
      }
    } else if IsASM(id) {
      var slot := id - MIN_TRACE_ID_ASM;
      if slot in D.asm {
        var site := Site(slot, D.asm[slot].cuIndex, 0);
        StreamOnLine(D, s.db, StreamKind(D.asm[slot], p), p, host, site, base, s.cal);
      }
    }
  }

  /** Only the packet that completes the second sample of a pair moves the line. */
  lemma StepKeepsLine(D: Design, s: State, p: Packet)
    requires s.Fits(D)
    ensures !SameLine(Step(D, s, p).cal, s.cal) ==>
              IsClockTraining(p) && s.phase.modulus == 3 && (s.cal.x1 != 0.0 || s.cal.y1 != 0.0)
  {
    hide AMEvent, AIMEvent, ASMEvent, BitOr;
    if !IsClockTraining(p) {
      EventKeepsTraining(D, s, p);
    }
  }

  // ----- The end-of-trace pass logs ends only -----

  lemma {:induction false} CloseCUsOnLine(D: Design, s: State, n: nat, base: seq<Event>, cal: Calibration)
    requires s.Fits(D) && n <= D.numAM && OnLine(s.db.log, base, cal)
    ensures OnLine(CloseCUs(D, s, n).db.log, base, cal)
  {
    hide LastActivity, ToHost;
    if n > 0 {
      CloseCUsOnLine(D, s, n - 1, base, cal);
    }
  }

  lemma {:induction false} CloseTransfersOnLine(D: Design, d: Db, amLast: seq<nat>, line: Calibration, n: nat,
                                                base: seq<Event>, cal: Calibration)
    requires D.Valid() && |amLast| == D.numAM && n <= |D.userAIMsWithTrace| && OnLine(d.log, base, cal)
    ensures OnLine(CloseTransfers(D, d, amLast, line, n).log, base, cal)
  {
    hide ToHost, OnLine, ApproxTransfers;
    if n > 0 {
      var mon := D.userAIMsWithTrace[n - 1];
      CloseTransfersOnLine(D, d, amLast, line, n - 1, base, cal);
      ApproxOnLine(D, CloseTransfers(D, d, amLast, line, n - 1), amLast, line, mon.slotIndex, mon, mon.cuIndex,
                   base, cal);
    }
  }

  lemma {:induction false} CloseStreamOnLine(D: Design, d: Db, line: Calibration, slot: nat, kind: EventType, cuId: int,
                                             amId: int, cuLast: nat, appx: nat, base: seq<Event>, cal: Calibration)
    requires D.Valid() && OnLine(d.log, base, cal)
    ensures OnLine(CloseStream(D, d, line, slot, kind, cuId, amId, cuLast, appx).0.log, base, cal)
    decreases |Queue(d.starts, MIN_TRACE_ID_ASM + slot, kind)|
  {
    hide ToHost, OnLine, Take, Found, Queue, ApproxEnd;
    var key := MIN_TRACE_ID_ASM + slot;
    var start := Found(d.starts, key, kind);
    TakeRefines(d.starts, key, kind, key, kind);
    if start.kind != UNKNOWN_EVENT && Queue(d.starts, key, kind) != [] {
      var end, site := ApproxEnd(D, line, start.deviceTimestamp, amId, cuLast), Site(slot, cuId, 0);
      var d1 := AddEvent(TakeStart(d, key, kind), End(start.eventID), kind, end.1, end.0, site);
      EventOnLine(TakeStart(d, key, kind), End(start.eventID), kind, end.1, end.0, site, base, cal);
      CloseStreamOnLine(D, d1, line, slot, kind, cuId, amId, cuLast, if appx < end.0 then end.0 else appx, base, cal);
    }
  }

  lemma {:induction false} CloseStreamsOnLine(D: Design, s: State, n: nat, base: seq<Event>, cal: Calibration)
    requires s.Fits(D) && n <= D.numUserASMWithTrace && OnLine(s.db.log, base, cal)
    ensures OnLine(CloseStreams(D, s, n).db.log, base, cal)
  {
    hide ToHost, OnLine, CloseStream;
    if n > 0 {
      CloseStreamsOnLine(D, s, n - 1, base, cal);
      var s1 := CloseStreams(D, s, n - 1);
      if n - 1 in D.asm {
        var m := D.asm[n - 1];
        var cuId, amId, kinds := m.cuIndex, D.AccelMonOf(m.cuIndex), StreamKinds(m);
        var last := if amId == -1 then 0 else s1.amLastTrans[amId];
        var r1 := CloseStream(D, s1.db, s1.cal, n - 1, kinds[0], cuId, amId, last, 0);
        var r2 := CloseStream(D, r1.0, s1.cal, n - 1, kinds[1], cuId, amId, last, r1.1);
        CloseStreamOnLine(D, s1.db, s1.cal, n - 1, kinds[0], cuId, amId, last, 0, base, cal);
        CloseStreamOnLine(D, r1.0, s1.cal, n - 1, kinds[1], cuId, amId, last, r1.1, base, cal);
        CloseStreamOnLine(D, r2.0, s1.cal, n - 1, kinds[2], cuId, amId, last, r2.1, base, cal);
      }
    }
  }

  lemma EndOnLine(D: Design, s: State, base: seq<Event>)
    requires s.Fits(D) && OnLine(s.db.log, base, s.cal)
    ensures OnLine(EndProcess(D, s).db.log, base, s.cal)
  {
    hide OnLine, CloseCUs, CloseTransfers, CloseStreams;
    CloseCUsOnLine(D, s, D.numAM, base, s.cal);
    var s1 := CloseCUs(D, s, D.numAM);
    CloseTransfersOnLine(D, s1.db, s1.amLastTrans, s1.cal, |D.userAIMsWithTrace|, base, s.cal);
    var s2 := s1.(db := CloseTransfers(D, s1.db, s1.amLastTrans, s1.cal, |D.userAIMsWithTrace|));
    CloseStreamsOnLine(D, s2, D.numUserASMWithTrace, base, s.cal);
  }

  lemma EndKeepsLine(D: Design, s: State)
    requires s.Fits(D) && Ok(s.db, s.cuStarts)
    ensures EndProcess(D, s).cal == s.cal
  {
    hide Ok, CloseCUs, CloseTransfers, CloseStreams, InventedSince;
    CloseCUsFrame(D, s, D.numAM);
    CloseCUsOk(D, s, D.numAM);
    var s1 := CloseCUs(D, s, D.numAM);
    CloseTransfersOk(D, s1.db, s1.cuStarts, s1.amLastTrans, s1.cal, |D.userAIMsWithTrace|);
    var s2 := s1.(db := CloseTransfers(D, s1.db, s1.amLastTrans, s1.cal, |D.userAIMsWithTrace|));
    NothingInvented(D, s2);
    StreamsInvented(D, s2, D.numUserASMWithTrace, |s2.db.log|);
  }

  lemma NothingInvented(D: Design, s: State)
    requires s.Fits(D)
    ensures InventedSince(D, s.db.log, |s.db.log|, s.cal, s.amLastTrans)
  {
  }

  // ----- The line every start was logged on -----

  /** The line at the moment a sequence of packets logs event f. */
  function LineIn(D: Design, s: State, ps: seq<Packet>, f: nat): Calibration
    requires s.Fits(D)
  {
    if ps == [] then s.cal
    else
      var before := ps[..|ps| - 1];
      if f <= |Fold(D, s, before).db.log| then LineIn(D, s, before, f) else Fold(D, s, before).cal
  }

  /** The line at the moment a history of calls logs event f. */
  function LineAt(D: Design, calls: seq<Call>, f: nat): Calibration
    requires D.Valid()
  {
    if calls == [] then Initial(D).cal
    else
      var before := calls[..|calls| - 1];
      var s := RunCalls(D, Initial(D), before);
      if f <= |s.db.log| then LineAt(D, before, f)
      else
        match calls[|calls| - 1]
        case Buffer(ps) => LineIn(D, Sought(s, ps), Interpreted(s, ps), f)
        case EndOfTrace => s.cal
  }

  lemma {:induction false} FoldOnLines(D: Design, s: State, ps: seq<Packet>)
    requires s.Fits(D)
    ensures var log := Fold(D, s, ps).db.log;
            && s.db.log <= log
            && forall i | |s.db.log| <= i < |log| && log[i].role == Begin ::
                 log[i].timestamp == ToHost(LineIn(D, s, ps, i + 1), log[i].deviceTimestamp)
  {
    hide Step, ToHost;
    if ps != [] {
      var before := ps[..|ps| - 1];
      var s1 := Fold(D, s, before);
      FoldOnLines(D, s, before);
      StepOnLine(D, s1, ps[|ps| - 1], s1.db.log);
    }
  }

  lemma {:induction false} RunOnLines(D: Design, calls: seq<Call>)
    requires D.Valid()
    ensures var log := RunCalls(D, Initial(D), calls).db.log;
            forall i | 0 <= i < |log| && log[i].role == Begin ::
              log[i].timestamp == ToHost(LineAt(D, calls, i + 1), log[i].deviceTimestamp)
  {
    hide RunCalls, LineAt, ToHost;
    if calls == [] {
      NothingLogged(D);
    } else {
      var before := calls[..|calls| - 1];
      RunOnLines(D, before);
      var s, log := RunCalls(D, Initial(D), before).db.log, RunCalls(D, Initial(D), calls).db.log;
      CallOnLines(D, calls);
      forall i | 0 <= i < |log| && log[i].role == Begin
        ensures log[i].timestamp == ToHost(LineAt(D, calls, i + 1), log[i].deviceTimestamp)
      {
        if i < |s| {
          assert log[i] == s[i];
          EarlierLine(D, calls, i + 1);
        }
      }
    }
  }

  lemma NothingLogged(D: Design)
    requires D.Valid()
    ensures RunCalls(D, Initial(D), []).db.log == []
  {
  }

  lemma EarlierLine(D: Design, calls: seq<Call>, f: nat)
    requires D.Valid() && calls != []
    requires f <= |RunCalls(D, Initial(D), calls[..|calls| - 1]).db.log|
    ensures LineAt(D, calls, f) == LineAt(D, calls[..|calls| - 1], f)
  {
    hide RunCalls;
  }

  /** What the last call logs. */
  lemma CallOnLines(D: Design, calls: seq<Call>)
    requires D.Valid() && calls != []
    ensures var s := RunCalls(D, Initial(D), calls[..|calls| - 1]).db.log;
            var log := RunCalls(D, Initial(D), calls).db.log;
            && s <= log
            && forall i | |s| <= i < |log| && log[i].role == Begin ::
                 log[i].timestamp == ToHost(LineAt(D, calls, i + 1), log[i].deviceTimestamp)
  {
    hide Fold, EndProcess, LineIn, ToHost, SearchFrom;
    var s := RunCalls(D, Initial(D), calls[..|calls| - 1]);
    var log := RunCalls(D, Initial(D), calls).db.log;
    match calls[|calls| - 1]
    case Buffer(ps) =>
      var s1, rest := Sought(s, ps), Interpreted(s, ps);
      FoldOnLines(D, s1, rest);
      assert log == Fold(D, s1, rest).db.log;
      forall i | |s.db.log| <= i < |log| && log[i].role == Begin
        ensures log[i].timestamp == ToHost(LineAt(D, calls, i + 1), log[i].deviceTimestamp)
      {
        assert LineAt(D, calls, i + 1) == LineIn(D, s1, rest, i + 1);
      }
    case EndOfTrace => EndOnLine(D, s, s.db.log);
  }

  // ----- Invented ends against their starts as logged -----

  lemma OneMoreCall(D: Design, calls: seq<Call>)
    requires D.Valid()
    ensures RunCalls(D, Initial(D), calls + [EndOfTrace]) == EndProcess(D, RunCalls(D, Initial(D), calls))
  {
    hide EndProcess;
    assert (calls + [EndOfTrace])[..|calls|] == calls;
  }

  /** From any state the logger can reach, with a positive slope, every event the read, write and stream
      passes log ends an earlier start. That start was logged on the line of its moment, `before`. The
      event has a positive length on the line of now, and ends later than its start was logged if and
      only if the line has not moved back, at the start's device time, by that length or more; so always
      if the line is where it was. */
  lemma InventedEndsAreLater(D: Design, calls: seq<Call>, j: nat)
    requires D.Valid() && RunCalls(D, Initial(D), calls).cal.slope > 0.0
    requires var s := RunCalls(D, Initial(D), calls);
             |CloseCUs(D, s, D.numAM).db.log| <= j < |EndProcess(D, s).db.log|
    ensures var s := RunCalls(D, Initial(D), calls);
            var log := EndProcess(D, s).db.log;
            var f := log[j].startId;
            && 1 <= f <= j && log[f - 1].role == Begin
            && var before, dev := LineAt(D, calls + [EndOfTrace], f), log[f - 1].deviceTimestamp;
               var added := Added(D, s.cal, dev, CuLast(D, s.amLastTrans, log[j].cuId));
               && added > 0.0
               && log[f - 1].timestamp == ToHost(before, dev)
               && (log[j].timestamp > log[f - 1].timestamp <==> ToHost(before, dev) - ToHost(s.cal, dev) < added)
               && (SameLine(before, s.cal) ==> log[j].timestamp > log[f - 1].timestamp)
  {
    hide RunCalls, EndProcess, CloseCUs, Ok, Added, CuLast, LineAt;
    InitialOk(D);
    RunOk(D, Initial(D), calls);
    var s := RunCalls(D, Initial(D), calls);
    InventedEnds(D, s);
    OneMoreCall(D, calls);
    RunOnLines(D, calls + [EndOfTrace]);
    var log := EndProcess(D, s).db.log;
    assert InventedEnd(D, log, j, s.cal, s.amLastTrans);
    var f := log[j].startId;
    AddedPositive(D, s.cal, log[f - 1].deviceTimestamp, CuLast(D, s.amLastTrans, log[j].cuId));
  }

  /** No packet of further calls moves the line. */
  ghost predicate LineStaysOver(D: Design, calls: seq<Call>, more: seq<Call>)
    requires D.Valid()
  {
    more == [] ||
    (var m := |more| - 1;
     && LineStaysOver(D, calls, more[..m])
     && (more[m].Buffer? ==>
           var s := RunCalls(D, Initial(D), calls + more[..m]);
           LineStays(D, Sought(s, more[m].packets), Interpreted(s, more[m].packets))))
  }

  lemma {:induction false} StayedIn(D: Design, s: State, ps: seq<Packet>, f: nat)
    requires s.Fits(D) && LineStays(D, s, ps)
    ensures SameLine(LineIn(D, s, ps, f), s.cal)
  {
    hide Fold;
    if ps != [] {
      var n := |ps| - 1;
      forall i | 0 <= i <= n ensures SameLine(Fold(D, s, ps[..n][..i]).cal, s.cal) {
        assert ps[..n][..i] == ps[..i];
      }
      StayedIn(D, s, ps[..n], f);
    }
  }

  lemma {:induction false} StayedAt(D: Design, calls: seq<Call>, more: seq<Call>, f: nat)
    requires D.Valid() && LineStaysOver(D, calls, more) && f > |RunCalls(D, Initial(D), calls).db.log|
    ensures var s0 := RunCalls(D, Initial(D), calls);
            && SameLine(RunCalls(D, Initial(D), calls + more).cal, s0.cal)
            && (more != [] ==> SameLine(LineAt(D, calls + more, f), s0.cal))
  {
    hide Fold, EndProcess, LineIn, LineStays, Ok;
    if more == [] {
      assert calls + more == calls;
    } else {
      var m := |more| - 1;
      var before := calls + more[..m];
      assert (calls + more)[..|calls + more| - 1] == before;
      StayedAt(D, calls, more[..m], f);
      if m == 0 {
        assert before == calls;
      }
      var s := RunCalls(D, Initial(D), before);
      InitialOk(D);
      RunOk(D, Initial(D), before);
      match more[m]
      case Buffer(ps) =>
        StayedIn(D, Sought(s, ps), Interpreted(s, ps), f);
        FoldStayed(D, Sought(s, ps), Interpreted(s, ps));
      case EndOfTrace => EndKeepsLine(D, s);
    }
  }

  lemma FoldStayed(D: Design, s: State, ps: seq<Packet>)
    requires s.Fits(D) && LineStays(D, s, ps)
    ensures SameLine(Fold(D, s, ps).cal, s.cal)
  {
    hide Fold;
    assert ps[..|ps|] == ps;
  }

  /** After any history, let more calls come whose packets do not move the line. With a positive slope,
      every end the end-of-trace pass then invents for a read, write or stream that started among them
      is strictly later than the host time its start was logged with. */
  lemma EndsLaterUnlessRetrained(D: Design, calls: seq<Call>, more: seq<Call>, j: nat)
    requires D.Valid() && LineStaysOver(D, calls, more) && RunCalls(D, Initial(D), calls).cal.slope > 0.0
    requires var s := RunCalls(D, Initial(D), calls + more);
             |CloseCUs(D, s, D.numAM).db.log| <= j < |EndProcess(D, s).db.log|
    ensures var log := EndProcess(D, RunCalls(D, Initial(D), calls + more)).db.log;
            && 1 <= log[j].startId <= j
            && (log[j].startId > |RunCalls(D, Initial(D), calls).db.log| ==>
                  log[j].timestamp > log[log[j].startId - 1].timestamp)
  {
    hide RunCalls, EndProcess, CloseCUs, Added, CuLast, LineAt, LineStaysOver, ToHost, Ok;
    StayedAt(D, calls, more, |RunCalls(D, Initial(D), calls).db.log| + 1);
    InventedEndsAreLater(D, calls + more, j);
    var f := EndProcess(D, RunCalls(D, Initial(D), calls + more)).db.log[j].startId;
    if f > |RunCalls(D, Initial(D), calls).db.log| {
      AlsoEnds(D, calls, more);
      StayedAt(D, calls, more + [EndOfTrace], f);
      assert calls + (more + [EndOfTrace]) == calls + more + [EndOfTrace];
    }
  }

  lemma AlsoEnds(D: Design, calls: seq<Call>, more: seq<Call>)
    requires D.Valid() && LineStaysOver(D, calls, more)
    ensures LineStaysOver(D, calls, more + [EndOfTrace])
  {
    assert (more + [EndOfTrace])[..|more|] == more;
  }

  // ----- And when training completes in between -----

  /** A design with one traced AIM, and a read start at device time 1000. */
  const OneAim: Design :=
    Design(map[], map[0 := Monitor(0, -1, -1, false)], map[], 0, 1, 1, 0, 0, [Monitor(0, -1, -1, false)], map[], map[],
           1000.0, true)

  lemma ReadLogged()
    ensures OneAim.Valid() && !IsClockTraining(1000)
    ensures var s := Step(OneAim, Initial(OneAim), 1000);
            && s.phase == Phase(false, 0, 0) && s.cal == Initial(OneAim).cal && s.cuStarts == []
            && s.db.log == [Event(1, Begin, 0.001, KERNEL_READ, 1000, 0, -1, 0)]
            && ListOf(s.db.starts, 0) == [DeviceEventInfo(KERNEL_READ, 1, 0.001, 1000)]
            && ListOf(s.db.starts, 1) == [] && s.db.nextId == 2
  {
  }

  /** Training leaves the database alone. */
  lemma {:induction false} TrainingKeepsDb(D: Design, s: State, ps: seq<Packet>)
    requires s.Fits(D) && forall p | p in ps :: IsClockTraining(p)
    ensures Fold(D, s, ps).db == s.db && Fold(D, s, ps).cuStarts == s.cuStarts
  {
    hide BitOr, Trained;
    if ps != [] {
      TrainingKeepsDb(D, s, ps[..|ps| - 1]);
    }
  }

  lemma SampleTrains(host: Uint64, dev: nat)
    requires dev < TIMESTAMP_RANGE
    ensures forall p | p in Sample(host, dev) :: IsClockTraining(p)
  {
    hide FunnelWords, TrainingPacket;
    FourWords(host);
    forall p | p in Sample(host, dev) ensures IsClockTraining(p) {
      var i :| 0 <= i < 4 && Sample(host, dev)[i] == p;
      TrainingPacketFields(FunnelWords(host)[i], dev);
    }
  }

  /** Host time 1 at device time 2000, then 2 at 3000: the slope stays, the line moves back. */
  lemma Retrained(s: State)
    requires s.Fits(OneAim) && s.phase == Phase(false, 0, 0) && s.cal == Initial(OneAim).cal
    ensures var s' := Fold(OneAim, s, Sample(1, 2000) + Sample(2, 3000));
            s'.db == s.db && s'.cuStarts == s.cuStarts && s'.cal.slope == 1.0 && s'.cal.offset == -2998.0
  {
    hide Fold, Sample, Drawn;
    SampleWords(1, 2000);
    SampleWords(2, 3000);
    SampleTrains(1, 2000);
    SampleTrains(2, 3000);
    TrainingKeepsDb(OneAim, s, Sample(1, 2000) + Sample(2, 3000));
    TwoSamplesMakeALine(OneAim, s, Sample(1, 2000), Sample(2, 3000), 1, 2);
    assert Drawn(OneAim, Fold(OneAim, s, Sample(1, 2000) + Sample(2, 3000)).cal, 2000, 1, 3000, 2);
    DrawnSlope(Fold(OneAim, s, Sample(1, 2000) + Sample(2, 3000)).cal);
  }

  lemma DrawnSlope(cal: Calibration)
    requires Drawn(OneAim, cal, 2000, 1, 3000, 2)
    ensures cal.slope == 1.0 && cal.offset == -2998.0
  {
  }

  /** The read's end, invented on the new line. */
  lemma EndInvented(s: State)
    requires s.Fits(OneAim) && s.cuStarts == [] && s.cal.slope == 1.0 && s.cal.offset == -2998.0
    requires s.db.log == [Event(1, Begin, 0.001, KERNEL_READ, 1000, 0, -1, 0)] && s.db.nextId == 2
    requires ListOf(s.db.starts, 0) == [DeviceEventInfo(KERNEL_READ, 1, 0.001, 1000)] && ListOf(s.db.starts, 1) == []
    ensures var log := EndProcess(OneAim, s).db.log;
            && |log| == 2 && log[0] == s.db.log[0]
            && log[1].role == End(1) && log[1].timestamp < log[0].timestamp
  {
    var mon := Monitor(0, -1, -1, false);
    assert OneAim.AccelMonOf(-1) == -1;
    var d1 := ApproxTransfer(OneAim, s.db, s.amLastTrans, s.cal, KERNEL_READ, 0, -1, -1, 0);
    assert d1.log == s.db.log +
           [Event(2, End(1), ToHost(s.cal, 1000) + OneAim.HalfCycleMs(), KERNEL_READ, 1000, 0xFFFF_FFFF, -1, 0)];
    assert ListOf(d1.starts, 1) == [];
    var d2 := ApproxTransfers(OneAim, s.db, s.amLastTrans, s.cal, 0, mon, -1);
    assert d2.log == d1.log;
    assert CloseTransfers(OneAim, s.db, s.amLastTrans, s.cal, 1) == d2;
    assert CloseCUs(OneAim, s, 0) == s;
  }

  /** A read starts at device time 1000; then the clock is trained, and the trace ends. The end invented
      for the read is earlier than its start. */
  lemma RetrainedEndIsEarlier()
    ensures OneAim.Valid()
    ensures var ps := [1000] + Sample(1, 2000) + Sample(2, 3000);
            var s := RunCalls(OneAim, Initial(OneAim), [Buffer(ps)]);
            var log := EndProcess(OneAim, s).db.log;
            && s.cal.slope > 0.0
            && |log| == 2 && log[1].role == End(1) && log[0].id == 1 && log[0].role == Begin
            && log[1].timestamp < log[0].timestamp
  {
    hide Fold, Sample, EndProcess, Step;
    var read, training := [1000], Sample(1, 2000) + Sample(2, 3000);
    ReadLogged();
    assert [1000] + Sample(1, 2000) + Sample(2, 3000) == read + training;
    NoWindow(read + training);
    var s0 := Initial(OneAim);
    FoldConcat(OneAim, s0, read, training);
    FoldOne(s0);
    Retrained(Fold(OneAim, s0, read));
    OneCall(s0, read + training);
    EndInvented(Fold(OneAim, s0, read + training));
  }

  lemma FoldOne(s: State)
    requires s.Fits(OneAim)
    ensures Fold(OneAim, s, [1000]) == Step(OneAim, s, 1000)
  {
    hide Step;
    assert [1000][..0] == [];
    assert Fold(OneAim, s, []) == s;
  }

  /** Nine packets of which the first is no training packet: the search finds no window. */
  lemma NoWindow(ps: seq<Packet>)
    requires |ps| == 9 && !IsClockTraining(ps[0])
    ensures SearchFrom(ps, 0) == |ps|
  {
  }

  lemma OneCall(s: State, ps: seq<Packet>)
    requires s.Fits(OneAim) && SearchFrom(ps, 0) == |ps|
    ensures RunCalls(OneAim, s, [Buffer(ps)]) == Fold(OneAim, s, ps)
  {
    hide Fold;
    assert [Buffer(ps)][..0] == [];
    assert RunCalls(OneAim, s, []) == s;
    assert Sought(s, ps) == s;
  }
}
