/** When executions end: at the packet that ends them; or, hanging at the end of the trace, at the last
    activity of their CU. */
module Executions {
  import opened TraceTypes
  import opened Packets
  import opened StartLists
  import opened LoggerSpec
  import opened Pairing
  import opened QueueInvariants
  import opened EndOfTrace
  import opened StallTimes
  import opened Logged

  ghost predicate NoKernel(es: seq<Event>) {
    forall i | 0 <= i < |es| :: es[i].kind != KERNEL
  }

  lemma StallsAreNoKernel(starts: Starts, fired: Nibble, bits: Nibble, host: real, dev: nat, site: Site)
    ensures NoKernel(StallMarks(starts, fired, bits, host, dev, site))
  {
    hide Queue;
  }

  /** Where a kernel event can be in what was logged. */
  lemma KernelIsFirst(d: Db, d': Db, a: seq<Event>, b: seq<Event>, j: nat)
    requires Logs(d, d', a + b) && |a| <= 1 && NoKernel(b)
    requires |d.log| <= j < |d'.log| && d'.log[j].kind == KERNEL
    ensures |a| == 1 && j == |d.log| && d'.log[j] == a[0].(id := d.nextId)
  {
    var es := Number(a + b, d.nextId);
    assert d'.log[j] == es[j - |d.log|];
    assert es[j - |d.log|].kind == (a + b)[j - |d.log|].kind;
  }

  /** A packet of an AM logs at most one kernel event, first, and that is about its own CU at its own time. */
  lemma AMKernelEvents(D: Design, s: State, p: Packet, slot: nat, j: nat)
    requires s.Fits(D) && Ok(s.db, s.cuStarts) && !IsClockTraining(p) && 64 <= TraceId(p) <= 544
    requires slot == (TraceId(p) - 64) / 16 && slot in D.am
    requires |s.db.log| <= j < |Step(D, s, p).db.log| && Step(D, s, p).db.log[j].kind == KERNEL
    ensures var e, dev := Step(D, s, p).db.log[j], DeviceTimestamp(p);
            && NibbleOf(TraceId(p)).cu && e.deviceTimestamp == dev && e.timestamp == ToHost(s.cal, dev)
            && e.monitorId == slot && e.cuId == D.am[slot].cuIndex
  {
    hide Step, Logs, StallMarks, ToHost, Queue, Ok, Signalled, NoKernel, InventedEnd;
    var fired, site := NibbleOf(TraceId(p)), Site(slot, D.am[slot].cuIndex, 0);
    var host, dev, begins := ToHost(s.cal, DeviceTimestamp(p)), DeviceTimestamp(p), Flags(p) % 2 == 1;
    var bits := if fired.cu && begins && s.cuStarts[slot] == [] then Nibble(false, false, false, false)
                else s.traceIDs[slot];
    var a := if fired.cu then CUEvents(s, begins, host, dev, site) else [];
    var b := StallMarks(s.db.starts, fired, bits, host, dev, site);
    assert SignalEvents(D, s, p, slot) == a + b;
    StallsAreNoKernel(s.db.starts, fired, bits, host, dev, site);
    if !fired.cu || Step(D, s, p).cuStarts[slot] != [] {
      AMPacketLogs(D, s, p, slot);
      KernelIsFirst(s.db, Step(D, s, p).db, a, b, j);
    } else {
      var transfers := CUEndCloses(D, s, p, slot);
      TransfersAreNoKernel(D, s, p, slot, transfers);
      var stalls := ForcedMarks(D, s, p, slot);
      ForcedAreNoKernel(D, s, p, slot);
      NoKernelTogether(b, transfers, stalls);
      assert (a + b) + transfers + stalls == a + (b + transfers + stalls);
      KernelIsFirst(s.db, Step(D, s, p).db, a, b + transfers + stalls, j);
    }
  }

  lemma NoKernelTogether(a: seq<Event>, b: seq<Event>, c: seq<Event>)
    requires NoKernel(a) && NoKernel(b) && NoKernel(c)
    ensures NoKernel(a + b + c)
  {
  }

  lemma ForcedAreNoKernel(D: Design, s: State, p: Packet, slot: nat)
    requires s.Fits(D) && 64 <= TraceId(p) <= 544 && slot == (TraceId(p) - 64) / 16 && slot in D.am
    ensures NoKernel(ForcedMarks(D, s, p, slot))
  {
    hide StallMarks, Signalled, ToHost, NoKernel;
    var s2 := Signalled(D, s, p);
    var early := ToHost(s.cal, DeviceTimestamp(p)) - D.HalfCycleMs();
    StallsAreNoKernel(s2.db.starts, s2.traceIDs[slot], s2.traceIDs[slot], early, DeviceTimestamp(p),
                      Site(slot, D.am[slot].cuIndex, 0));
  }

  lemma TransfersAreNoKernel(D: Design, s: State, p: Packet, slot: nat, transfers: seq<Event>)
    requires s.Fits(D) && !IsClockTraining(p) && 64 <= TraceId(p) <= 544
    requires slot == (TraceId(p) - 64) / 16 && slot in D.am
    requires Logs(s.db, Step(D, s, p).db, SignalEvents(D, s, p, slot) + transfers + ForcedMarks(D, s, p, slot))
    requires var s2, log := Signalled(D, s, p), Step(D, s, p).db.log;
             && |s2.db.log| + |transfers| <= |log|
             && forall j | |s2.db.log| <= j < |s2.db.log| + |transfers| :: IsTransfer(log[j].kind)
    ensures NoKernel(transfers)
  {
    hide Step, Signalled, SignalEvents, ForcedMarks;
    SignalsLog(D, s, p, slot);
    var a, c, log := SignalEvents(D, s, p, slot), ForcedMarks(D, s, p, slot), Step(D, s, p).db.log;
    forall i | 0 <= i < |transfers| ensures transfers[i].kind != KERNEL {
      var j := |s.db.log| + |a| + i;
      assert log[j] == Number(a + transfers + c, s.db.nextId)[|a| + i];
      assert (a + transfers + c)[|a| + i] == transfers[i];
      assert IsTransfer(log[j].kind);
    }
  }

  /** Every kernel event a packet logs lies at the packet's device time, on the line, and belongs to the CU
      of the packet's AM. */
  lemma KernelEventsAreOfThePacket(D: Design, s: State, p: Packet, j: nat)
    requires s.Fits(D) && Ok(s.db, s.cuStarts)
    requires |s.db.log| <= j < |Step(D, s, p).db.log| && Step(D, s, p).db.log[j].kind == KERNEL
    ensures var e, dev := Step(D, s, p).db.log[j], DeviceTimestamp(p);
            && e.deviceTimestamp == dev && e.timestamp == ToHost(s.cal, dev)
            && 64 <= TraceId(p) <= 544 && e.monitorId == (TraceId(p) - 64) / 16
            && e.monitorId in D.am && e.cuId == D.am[e.monitorId].cuIndex
  {
    hide Logs, ToHost, Queue, Ok, TransferEvents, StreamEvents, Step;
    var id := TraceId(p);
    if IsClockTraining(p) {
      TrainingLogsNothing(D, s, p);
    } else if 64 <= id <= 544 && (id - 64) / 16 in D.am {
      AMKernelEvents(D, s, p, (id - 64) / 16, j);
    } else if id <= 61 && id / 2 in D.aim {
      AIMPacketLogs(D, s, p);
      AIMIsNoKernel(D, s, p, j);
    } else if 576 <= id <= 606 && id - 576 in D.asm {
      ASMPacketLogs(D, s, p);
      ASMIsNoKernel(D, s, p, j);
    } else {
      OthersLogNothing(D, s, p);
    }
  }

  lemma TrainingLogsNothing(D: Design, s: State, p: Packet)
    requires s.Fits(D) && IsClockTraining(p)
    ensures Step(D, s, p).db == s.db
  {
  }

  lemma AIMIsNoKernel(D: Design, s: State, p: Packet, j: nat)
    requires s.Fits(D) && !IsClockTraining(p) && TraceId(p) <= 61 && TraceId(p) / 2 in D.aim
    requires |s.db.log| <= j < |Step(D, s, p).db.log|
    ensures Step(D, s, p).db.log[j].kind != KERNEL
  {
    hide Step, ToHost, Queue;
    AIMPacketLogs(D, s, p);
  }

  lemma ASMIsNoKernel(D: Design, s: State, p: Packet, j: nat)
    requires s.Fits(D) && !IsClockTraining(p) && 576 <= TraceId(p) <= 606 && TraceId(p) - 576 in D.asm
    requires |s.db.log| <= j < |Step(D, s, p).db.log|
    ensures Step(D, s, p).db.log[j].kind != KERNEL
  {
    hide Step, ToHost, Queue;
    ASMPacketLogs(D, s, p);
  }

  // ----- Hanging executions -----

  /** What the pass over the CUs logs is, for some slots in increasing order, the end of the oldest
      execution the slot remembers, at the CU's last activity. */
  ghost predicate Hanging(D: Design, s: State, log: seq<Event>, n: nat)
    requires s.Fits(D)
  {
    && s.db.log <= log
    && (forall j | |s.db.log| <= j < |log| ::
          var e := log[j];
          && e.kind == KERNEL && e.monitorId < n <= D.numAM && e.monitorId in D.am && s.cuStarts[e.monitorId] != []
          && e.role == End(s.cuStarts[e.monitorId][0].0) && e.cuId == D.am[e.monitorId].cuIndex
          && e.deviceTimestamp == LastActivity(D, s, e.monitorId, e.cuId) > 0
          && e.timestamp == ToHost(s.cal, e.deviceTimestamp))
    && (forall i, j | |s.db.log| <= i < j < |log| :: log[i].monitorId < log[j].monitorId)
  }

  lemma {:induction false} CloseCUsHanging(D: Design, s: State, n: nat)
    requires s.Fits(D) && n <= D.numAM
    ensures Hanging(D, s, CloseCUs(D, s, n).db.log, n)
  {
    hide LastActivity, ToHost;
    if n > 0 {
      hide CloseCUs, Hanging;
      var s1, slot := CloseCUs(D, s, n - 1), n - 1;
      CloseCUsHanging(D, s, n - 1);
      CloseCUsFrame(D, s, n - 1);
      StillThere(D, s, slot, n - 1);
      CloseOneLogs(D, s, n);
      MoreHanging(D, s, s1.db.log, n);
      if slot in D.am {
        SameActivity(D, s, s1, slot, D.am[slot].cuIndex);
        OneHanging(D, s, s1.db.log, CloseCUs(D, s, n).db.log, n);
      }
    }
  }

  /** What the last of the first n slots adds. */
  lemma CloseOneLogs(D: Design, s: State, n: nat)
    requires s.Fits(D) && 0 < n <= D.numAM
    ensures var s1, slot, log := CloseCUs(D, s, n - 1), n - 1, CloseCUs(D, s, n).db.log;
            || log == s1.db.log
            || (&& slot in D.am && s1.cuStarts[slot] != []
                && var cuId := D.am[slot].cuIndex;
                   var last := LastActivity(D, s1, slot, cuId);
                   && last > 0
                   && log == s1.db.log + [Event(s1.db.nextId, End(s1.cuStarts[slot][0].0), ToHost(s1.cal, last), KERNEL,
                                                last, slot, cuId, 0)])
  {
    hide LastActivity, ToHost;
  }

  lemma MoreHanging(D: Design, s: State, log: seq<Event>, n: nat)
    requires s.Fits(D) && 0 < n <= D.numAM && Hanging(D, s, log, n - 1)
    ensures Hanging(D, s, log, n)
  {
    hide LastActivity, ToHost;
  }

  lemma OneHanging(D: Design, s: State, log: seq<Event>, log': seq<Event>, n: nat)
    requires s.Fits(D) && 0 < n <= D.numAM && n - 1 in D.am && Hanging(D, s, log, n - 1)
    requires var cuId := D.am[n - 1].cuIndex;
             var last := LastActivity(D, s, n - 1, cuId);
             || log' == log
             || (&& s.cuStarts[n - 1] != [] && last > 0 && |log'| == |log| + 1 && log'[..|log|] == log
                 && log'[|log|].(id := 0) == Event(0, End(s.cuStarts[n - 1][0].0), ToHost(s.cal, last), KERNEL, last,
                                                   n - 1, cuId, 0))
    ensures Hanging(D, s, log', n)
  {
    hide LastActivity, ToHost;
    assert forall j | 0 <= j < |log| :: log'[j] == log[j];
  }

  lemma {:induction false} StillThere(D: Design, s: State, slot: nat, n: nat)
    requires s.Fits(D) && n <= slot < D.numAM
    ensures CloseCUs(D, s, n).cuStarts[slot] == s.cuStarts[slot]
  {
  }

  /** A hanging execution is ended at the latest of its AM's last time and those of all AIMs and ASMs
      attached to its CU, on the line. */
  lemma HangingEndsAtLastActivity(D: Design, s: State, j: nat)
    requires s.Fits(D) && |s.db.log| <= j < |CloseCUs(D, s, D.numAM).db.log|
    ensures var e := CloseCUs(D, s, D.numAM).db.log[j];
            var slot, cuId, dev := e.monitorId, e.cuId, e.deviceTimestamp;
            && e.kind == KERNEL && slot < D.numAM && slot in D.am && cuId == D.am[slot].cuIndex
            && s.cuStarts[slot] != [] && e.role == End(s.cuStarts[slot][0].0)
            && e.timestamp == ToHost(s.cal, dev) && dev > 0
            && dev >= s.amLastTrans[slot]
            && (forall i | 0 <= i < D.numUserAIM && Attached(D.aim, i, cuId) :: dev >= s.aimLastTrans[i])
            && (forall i | 0 <= i < D.numUserASM && Attached(D.asm, i, cuId) :: dev >= s.asmLastTrans[i])
            && (|| dev == s.amLastTrans[slot]
                || (exists i :: 0 <= i < D.numUserAIM && Attached(D.aim, i, cuId) && dev == s.aimLastTrans[i])
                || (exists i :: 0 <= i < D.numUserASM && Attached(D.asm, i, cuId) && dev == s.asmLastTrans[i]))
  {
    hide CloseCUs, LastActivity, ToHost, Attached;
    CloseCUsHanging(D, s, D.numAM);
    var e := CloseCUs(D, s, D.numAM).db.log[j];
    LastActivityIsMax(D, s, e.monitorId, e.cuId);
  }

  // ----- Lengths -----

  lemma LaterIff(cal: Calibration, a: nat, b: nat)
    requires cal.slope > 0.0
    ensures ToHost(cal, a) < ToHost(cal, b) <==> a < b
  {
    if a < b {
      Scaled(cal.slope, a, b);
    } else if b < a {
      Scaled(cal.slope, b, a);
    }
  }

  lemma Scaled(slope: real, a: nat, b: nat)
    requires slope > 0.0 && a < b
    ensures slope * (a as real) < slope * (b as real)
  {
  }

  /** An execution that started on the current line, of positive slope, ends later than it started if and
      only if it ends at a later device time. */
  lemma ExecutionEndsLaterIff(D: Design, s: State, p: Packet, j: nat)
    requires s.Fits(D) && Ok(s.db, s.cuStarts) && s.cal.slope > 0.0
    requires |s.db.log| <= j < |Step(D, s, p).db.log|
    requires Step(D, s, p).db.log[j].kind == KERNEL && Step(D, s, p).db.log[j].role.End?
    ensures var log := Step(D, s, p).db.log;
            var f := log[j].startId;
            && 1 <= f <= j
            && (log[f - 1].timestamp == ToHost(s.cal, log[f - 1].deviceTimestamp) ==>
                  (log[j].timestamp > log[f - 1].timestamp <==> log[f - 1].deviceTimestamp < DeviceTimestamp(p)))
  {
    hide Step, Ok, ToHost;
    KernelEventsAreOfThePacket(D, s, p, j);
    StepOk(D, s, p);
    var log := Step(D, s, p).db.log;
    NamesAStart(Step(D, s, p).db, Step(D, s, p).cuStarts, j);
    LaterIff(s.cal, log[log[j].startId - 1].deviceTimestamp, DeviceTimestamp(p));
  }

  lemma NamesAStart(d: Db, cus: seq<seq<(nat, nat)>>, j: nat)
    requires Ok(d, cus) && j < |d.log| && d.log[j].role.End? && !IsStall(d.log[j].kind)
    ensures 1 <= d.log[j].startId <= j
  {
  }

  /** The same for a hanging one and the last activity of its CU. */
  lemma HangingEndsLaterIff(D: Design, s: State, j: nat)
    requires s.Fits(D) && Ok(s.db, s.cuStarts) && s.cal.slope > 0.0
    requires |s.db.log| <= j < |CloseCUs(D, s, D.numAM).db.log|
    ensures var log := CloseCUs(D, s, D.numAM).db.log;
            var f := log[j].startId;
            && 1 <= f <= j
            && (log[f - 1].timestamp == ToHost(s.cal, log[f - 1].deviceTimestamp) ==>
                  (log[j].timestamp > log[f - 1].timestamp <==> log[f - 1].deviceTimestamp < log[j].deviceTimestamp))
  {
    hide CloseCUs, Ok, ToHost;
    HangingEndsAtLastActivity(D, s, j);
    CloseCUsOk(D, s, D.numAM);
    var log := CloseCUs(D, s, D.numAM).db.log;
    NamesAStart(CloseCUs(D, s, D.numAM).db, CloseCUs(D, s, D.numAM).cuStarts, j);
    LaterIff(s.cal, log[log[j].startId - 1].deviceTimestamp, log[j].deviceTimestamp);
  }
}
