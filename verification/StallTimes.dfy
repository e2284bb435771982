/** How long a stall lasts when the end of its CU closes it. */
module StallTimes {
  import opened TraceTypes
  import opened Packets
  import opened StartLists
  import opened LoggerSpec
  import opened Pairing
  import opened EndOfTrace
  import AimIntervals

  /** The log continues `base`, and what it has beyond of stalls are ends at one host time. */
  ghost predicate StallsEndAt(base: seq<Event>, log: seq<Event>, host: real) {
    && base <= log
    && forall i | |base| <= i < |log| && IsStall(log[i].kind) :: log[i].role.End? && log[i].timestamp == host
  }

  lemma OneForced(base: seq<Event>, d: Db, key: nat, kind: EventType, host: real, dev: nat, site: Site)
    requires StallsEndAt(base, d.log, host)
    ensures StallsEndAt(base, StallEvent(d, true, key, kind, host, dev, site).log, host)
  {
  }

  /** A stall that is closed because its bit is set is ended, never started. */
  lemma AllForced(base: seq<Event>, d: Db, bits: Nibble, key: nat, host: real, dev: nat, site: Site)
    requires StallsEndAt(base, d.log, host)
    ensures StallsEndAt(base, StallEvents(d, bits, bits, key, host, dev, site).log, host)
  {
    hide StallsEndAt, StallEvent;
    var d1 := if bits.dataflow then StallEvent(d, true, key, KERNEL_STALL_DATAFLOW, host, dev, site) else d;
    var d2 := if bits.pipe then StallEvent(d1, true, key, KERNEL_STALL_PIPE, host, dev, site) else d1;
    OneForced(base, d, key, KERNEL_STALL_DATAFLOW, host, dev, site);
    OneForced(base, d1, key, KERNEL_STALL_PIPE, host, dev, site);
    OneForced(base, d2, key, KERNEL_STALL_EXT_MEM, host, dev, site);
  }

  lemma TransfersAreNoStalls(D: Design, base: seq<Event>, d: Db, amLast: seq<nat>, cal: Calibration, slot: nat,
                             mon: Monitor, cuId: int, host: real)
    requires D.Valid() && |amLast| == D.numAM && StallsEndAt(base, d.log, host)
    ensures StallsEndAt(base, ApproxTransfers(D, d, amLast, cal, slot, mon, cuId).log, host)
  {
    hide Take, Found, ApproxEnd;
  }

  lemma {:induction false} ClosingIsNoStall(D: Design, base: seq<Event>, d: Db, amLast: seq<nat>, cal: Calibration,
                                            cuId: int, n: nat, host: real)
    requires D.Valid() && |amLast| == D.numAM && StallsEndAt(base, d.log, host)
    ensures StallsEndAt(base, CloseCUTransfers(D, d, amLast, cal, cuId, n).log, host)
  {
    hide StallsEndAt, ApproxTransfers;
    if n > 0 {
      ClosingIsNoStall(D, base, d, amLast, cal, cuId, n - 1, host);
      if n - 1 in D.aim {
        var d1 := CloseCUTransfers(D, d, amLast, cal, cuId, n - 1);
        TransfersAreNoStalls(D, base, d1, amLast, cal, n - 1, D.aim[n - 1], cuId, host);
      }
    }
  }

  lemma ClosedStalls(D: Design, s: State, p: Packet, host: real, slot: nat, cuId: int)
    requires s.Fits(D) && slot < D.numAM
    ensures StallsEndAt(s.db.log, AMClose(D, s, p, host, slot, cuId).db.log, host - D.HalfCycleMs())
  {
    hide CloseCUTransfers, StallEvents;
    var early := host - D.HalfCycleMs();
    ClosingIsNoStall(D, s.db.log, s.db, s.amLastTrans, s.cal, cuId, D.numAIM, early);
    var d1 := if cuId == -1 then s.db else CloseCUTransfers(D, s.db, s.amLastTrans, s.cal, cuId, D.numAIM);
    AllForced(s.db.log, d1, s.traceIDs[slot], AMKey(slot), early, DeviceTimestamp(p), Site(slot, cuId, 0));
  }

  /** The state between the signals of a packet and what it closes. */
  function Signalled(D: Design, s: State, p: Packet): (r: State)
    requires s.Fits(D) && IsAM(TraceId(p)) && (TraceId(p) - MIN_TRACE_ID_AM) / 16 in D.am
    ensures r.Fits(D)
  {
    var slot := (TraceId(p) - MIN_TRACE_ID_AM) / 16;
    AMSignals(D, s, p, ToHost(s.cal, DeviceTimestamp(p)), slot, D.am[slot].cuIndex)
  }

  lemma ForcedPart(D: Design, s: State, p: Packet)
    requires s.Fits(D) && !IsClockTraining(p) && IsAM(TraceId(p)) && (TraceId(p) - MIN_TRACE_ID_AM) / 16 in D.am
    ensures StallsEndAt(Signalled(D, s, p).db.log, Step(D, s, p).db.log,
                        ToHost(s.cal, DeviceTimestamp(p)) - D.HalfCycleMs())
  {
    hide AMSignals, AMClose;
    var slot, host := (TraceId(p) - MIN_TRACE_ID_AM) / 16, ToHost(s.cal, DeviceTimestamp(p));
    ClosedStalls(D, Signalled(D, s, p), p, host, slot, D.am[slot].cuIndex);
  }

  /** A stall that the end of its CU forces to end, and that started on the current line with a nominal
      slope: its end is put half a cycle before the CU's, which is later than the stall's start if and
      only if the stall started at an earlier device time than the CU's end. */
  lemma ForcedStallEndsLaterIff(D: Design, s: State, p: Packet, j: nat)
    requires s.Fits(D) && Ok(s.db, s.cuStarts) && s.cal.slope == 1000.0 / D.clockRateMHz
    requires !IsClockTraining(p) && IsAM(TraceId(p)) && (TraceId(p) - MIN_TRACE_ID_AM) / 16 in D.am
    requires |Signalled(D, s, p).db.log| <= j < |Step(D, s, p).db.log| && IsStall(Step(D, s, p).db.log[j].kind)
    ensures var log, dev := Step(D, s, p).db.log, DeviceTimestamp(p);
            && log[j].role.End? && log[j].startId <= j
            && log[j].timestamp == ToHost(s.cal, dev) - D.HalfCycleMs()
            && (log[j].startId != 0 ==>
                  var start := log[log[j].startId - 1];
                  start.timestamp == ToHost(s.cal, start.deviceTimestamp) ==>
                    (log[j].timestamp > start.timestamp <==> start.deviceTimestamp < dev))
  {
    hide Step, Signalled, Ok, ToHost;
    ForcedPart(D, s, p);
    StepOk(D, s, p);
    var log, dev := Step(D, s, p).db.log, DeviceTimestamp(p);
    EndsEarlier(Step(D, s, p).db, Step(D, s, p).cuStarts, j);
    if log[j].startId != 0 {
      var startDev := log[log[j].startId - 1].deviceTimestamp;
      assert D.HalfCycleMs() > 0.0;
      if startDev < dev {
        AimIntervals.Ticks(D, s.cal, startDev, dev);
      } else if dev < startDev {
        AimIntervals.Ticks(D, s.cal, dev, startDev);
      }
    }
  }

  lemma EndsEarlier(d: Db, cus: seq<seq<(nat, nat)>>, j: nat)
    requires Ok(d, cus) && j < |d.log| && d.log[j].role.End?
    ensures d.log[j].startId <= j
  {
  }

  // ----- The stall that is reported together with the end of its CU -----

  /** Trace id 67, no flags: the CU ends, and its dataflow stall signal toggles. */
  function EndAndStall(dev: nat): Packet
    requires dev < TIMESTAMP_RANGE
  {
    67 * 0x2_0000_0000_0000 + dev
  }

  lemma EndAndStallFields(dev: nat)
    requires dev < TIMESTAMP_RANGE
    ensures var p := EndAndStall(dev);
            && TraceId(p) == 67 && Flags(p) == 0 && DeviceTimestamp(p) == dev && !IsClockTraining(p)
            && NibbleOf(TraceId(p)) == Nibble(true, true, false, false)
  {
  }

  /** A running execution of the one CU. */
  ghost predicate Running(s: State) {
    && s.Fits(OneCU) && |s.db.log| == 1 && s.db.nextId == 2
    && s.cuStarts[0] == [(1, 5)] && s.traceIDs[0] == Nibble(true, false, false, false)
    && |ListOf(s.db.starts, 64)| == 1 && ListOf(s.db.starts, 64)[0].kind == KERNEL
  }

  lemma Runs()
    ensures OneCU.Valid() && Running(Step(OneCU, Initial(OneCU), CUStart(5)))
  {
    var p := CUStart(5);
    assert TraceId(p) == 65 && Flags(p) == 1 && DeviceTimestamp(p) == 5 && !IsClockTraining(p);
    assert NibbleOf(65) == Nibble(true, false, false, false);
  }

  /** The execution ends, and then the stall starts. */
  lemma EndsAndStalls(s: State)
    requires Running(s)
    ensures var host := ToHost(s.cal, 7);
            var s' := AMSignals(OneCU, s, EndAndStall(7), host, 0, 0);
            && s'.cuStarts[0] == [] && s'.traceIDs[0].dataflow && !s'.traceIDs[0].pipe && !s'.traceIDs[0].ext
            && |s'.db.log| == 3 && s'.db.log[2].timestamp == host && s'.cal == s.cal
  {
    EndAndStallFields(7);
    assert AMKey(0) == 64;
    assert FirstIndex(ListOf(s.db.starts, 64), KERNEL) == 0;
  }

  lemma OneMoreEvent(s: State, host: real)
    requires s.Fits(OneCU) && s.traceIDs[0].dataflow && !s.traceIDs[0].pipe && !s.traceIDs[0].ext
    ensures var log := AMClose(OneCU, s, EndAndStall(7), host, 0, 0).db.log;
            |log| == |s.db.log| + 1 && log[..|s.db.log|] == s.db.log
            && log[|s.db.log|].timestamp == host - OneCU.HalfCycleMs()
  {
    hide Take, Found;
    assert CloseCUTransfers(OneCU, s.db, s.amLastTrans, s.cal, 0, 0) == s.db;
  }

  /** An execution starts at device time 5; at 7 one packet reports its end and the start of a stall. The
      stall is ended half a cycle before it started. */
  lemma StallEndsBeforeItStarts()
    ensures OneCU.Valid()
    ensures var log := Process(OneCU, Initial(OneCU), [CUStart(5), EndAndStall(7)]).db.log;
            |log| == 4 && log[3].timestamp < log[2].timestamp
  {
    hide AMSignals, AMClose;
    var s0, ps := Initial(OneCU), [CUStart(5), EndAndStall(7)];
    Runs();
    EndAndStallFields(7);
    assert [] + [CUStart(5)] == [CUStart(5)] && [CUStart(5)] + [EndAndStall(7)] == ps;
    FoldsOnePlus(s0, [], CUStart(5));
    FoldsOnePlus(s0, [CUStart(5)], EndAndStall(7));
    assert Sought(s0, ps) == s0;
    var s1, host := Step(OneCU, s0, CUStart(5)), ToHost(Step(OneCU, s0, CUStart(5)).cal, 7);
    EndsAndStalls(s1);
    OneMoreEvent(AMSignals(OneCU, s1, EndAndStall(7), host, 0, 0), host);
    assert OneCU.HalfCycleMs() > 0.0;
  }
}
