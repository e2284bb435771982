/** What the outstanding-start queues look like in every reachable state: which keys hold which
    kinds, how many reads and writes can be open, how the CU queues mirror `cuStarts`, and how the
    stall queues follow the toggle bits. */
module QueueInvariants {
  import opened TraceTypes
  import opened Packets
  import opened StartLists
  import opened LoggerSpec

  // ----- How each operation moves the queues -----

  function Tail(q: seq<DeviceEventInfo>): seq<DeviceEventInfo> {
    if q == [] then [] else q[1..]
  }

  /** Every queue but one is the same. */
  ghost predicate Only(m: Starts, m': Starts, key: nat, kind: EventType) {
    forall k: nat, t: EventType :: k != key || t != kind ==> Queue(m', k, t) == Queue(m, k, t)
  }

  lemma TakeMoves(d: Db, key: nat, kind: EventType)
    ensures Only(d.starts, TakeStart(d, key, kind).starts, key, kind)
    ensures Queue(TakeStart(d, key, kind).starts, key, kind) == Tail(Queue(d.starts, key, kind))
  {
    forall k: nat, t: EventType {
      TakeRefines(d.starts, key, kind, k, t);
    }
  }

  lemma OpenMoves(d: Db, key: nat, kind: EventType, host: real, dev: nat, site: Site)
    ensures var info := DeviceEventInfo(kind, d.nextId, host, dev);
            var d' := OpenEvent(d, key, kind, host, dev, site);
            && Only(d.starts, d'.starts, key, kind)
            && Queue(d'.starts, key, kind) == Queue(d.starts, key, kind) + [info]
  {
    forall k: nat, t: EventType {
      MarkRefines(d.starts, key, DeviceEventInfo(kind, d.nextId, host, dev), k, t);
    }
  }

  lemma StallMoves(d: Db, bit: bool, key: nat, kind: EventType, host: real, dev: nat, site: Site)
    ensures var d' := StallEvent(d, bit, key, kind, host, dev, site);
            && Only(d.starts, d'.starts, key, kind)
            && |Queue(d'.starts, key, kind)| ==
               (if bit then |Tail(Queue(d.starts, key, kind))| else |Queue(d.starts, key, kind)| + 1)
  {
    hide Queue, TakeStart, Mark;
    TakeMoves(d, key, kind);
    OpenMoves(d, key, kind, host, dev, site);
  }

  /** The bit of a nibble that speaks of a stall kind. */
  predicate BitOf(n: Nibble, kind: EventType) {
    match kind
    case KERNEL_STALL_DATAFLOW => n.dataflow
    case KERNEL_STALL_PIPE => n.pipe
    case KERNEL_STALL_EXT_MEM => n.ext
    case _ => false
  }

  /** Each stall kind that fired ends a start when its bit is set and adds one when it is clear. */
  lemma StallsMove(d: Db, fired: Nibble, bits: Nibble, key: nat, host: real, dev: nat, site: Site)
    ensures var d' := StallEvents(d, fired, bits, key, host, dev, site);
            && (forall k: nat, t: EventType :: k != key || !IsStall(t) ==>
                  Queue(d'.starts, k, t) == Queue(d.starts, k, t))
            && (forall t: EventType :: IsStall(t) ==>
                  |Queue(d'.starts, key, t)| ==
                  if !BitOf(fired, t) then |Queue(d.starts, key, t)|
                  else if BitOf(bits, t) then |Tail(Queue(d.starts, key, t))| else |Queue(d.starts, key, t)| + 1)
  {
    hide Queue, StallEvent;
    var d1 := if fired.dataflow then StallEvent(d, bits.dataflow, key, KERNEL_STALL_DATAFLOW, host, dev, site) else d;
    var d2 := if fired.pipe then StallEvent(d1, bits.pipe, key, KERNEL_STALL_PIPE, host, dev, site) else d1;
    StallMoves(d, bits.dataflow, key, KERNEL_STALL_DATAFLOW, host, dev, site);
    StallMoves(d1, bits.pipe, key, KERNEL_STALL_PIPE, host, dev, site);
    StallMoves(d2, bits.ext, key, KERNEL_STALL_EXT_MEM, host, dev, site);
  }

  lemma ApproxTransferMoves(D: Design, d: Db, amLast: seq<nat>, cal: Calibration, kind: EventType, key: nat,
                            amId: int, cuId: int, memStrId: nat)
    requires D.Valid() && -1 <= amId < |amLast|
    ensures var d' := ApproxTransfer(D, d, amLast, cal, kind, key, amId, cuId, memStrId);
            && Only(d.starts, d'.starts, key, kind)
            && Queue(d'.starts, key, kind) == Tail(Queue(d.starts, key, kind))
  {
    hide Queue, Take;
    TakeMoves(d, key, kind);
  }

  lemma ApproxTransfersMove(D: Design, d: Db, amLast: seq<nat>, cal: Calibration, slot: nat, mon: Monitor, cuId: int)
    requires D.Valid() && |amLast| == D.numAM
    ensures var d' := ApproxTransfers(D, d, amLast, cal, slot, mon, cuId);
            && (forall k: nat, t: EventType ::
                  (k != slot * 2 || t != KERNEL_READ) && (k != slot * 2 + 1 || t != KERNEL_WRITE) ==>
                    Queue(d'.starts, k, t) == Queue(d.starts, k, t))
            && Queue(d'.starts, slot * 2, KERNEL_READ) == Tail(Queue(d.starts, slot * 2, KERNEL_READ))
            && Queue(d'.starts, slot * 2 + 1, KERNEL_WRITE) == Tail(Queue(d.starts, slot * 2 + 1, KERNEL_WRITE))
  {
    hide Queue, ApproxTransfer;
    var amId := D.AccelMonOf(cuId);
    var d1 := ApproxTransfer(D, d, amLast, cal, KERNEL_READ, slot * 2, amId, cuId, D.MemStrId(mon));
    ApproxTransferMoves(D, d, amLast, cal, KERNEL_READ, slot * 2, amId, cuId, D.MemStrId(mon));
    ApproxTransferMoves(D, d1, amLast, cal, KERNEL_WRITE, slot * 2 + 1, amId, cuId, D.MemStrId(mon));
  }

  /** Only queues of reads and writes change, and the ones that do lose entries. */
  ghost predicate Shrinks(m: Starts, m': Starts) {
    && (forall k: nat, t: EventType :: t != KERNEL_READ && t != KERNEL_WRITE ==> Queue(m', k, t) == Queue(m, k, t))
    && (forall k: nat, t: EventType :: Queue(m', k, t) == Queue(m, k, t) || |Queue(m', k, t)| < |Queue(m, k, t)|)
  }

  lemma {:induction false} CloseCUTransfersMove(D: Design, d: Db, amLast: seq<nat>, cal: Calibration, cuId: int, n: nat)
    requires D.Valid() && |amLast| == D.numAM
    ensures Shrinks(d.starts, CloseCUTransfers(D, d, amLast, cal, cuId, n).starts)
  {
    hide Queue, ApproxTransfers;
    if n > 0 {
      CloseCUTransfersMove(D, d, amLast, cal, cuId, n - 1);
      if n - 1 in D.aim {
        ApproxTransfersMove(D, CloseCUTransfers(D, d, amLast, cal, cuId, n - 1), amLast, cal, n - 1, D.aim[n - 1],
                            cuId);
      }
    }
  }

  /** A key of one of the first n AIMs on the CU, and the kind it holds. */
  predicate OfCU(D: Design, cuId: int, n: nat, key: nat, kind: EventType) {
    && key / 2 < n && key / 2 in D.aim && D.aim[key / 2].cuIndex == cuId
    && kind == if key % 2 == 1 then KERNEL_WRITE else KERNEL_READ
  }

  /** Exactly the reads and writes of the CU's AIMs give up their oldest start. */
  lemma {:induction false} CloseCUTransfersTake(D: Design, d: Db, amLast: seq<nat>, cal: Calibration, cuId: int, n: nat)
    requires D.Valid() && |amLast| == D.numAM
    ensures var d' := CloseCUTransfers(D, d, amLast, cal, cuId, n);
            forall k: nat, t: EventType ::
              Queue(d'.starts, k, t) ==
              if OfCU(D, cuId, n, k, t) then Tail(Queue(d.starts, k, t)) else Queue(d.starts, k, t)
  {
    hide Queue, ApproxTransfers, Tail;
    if n > 0 {
      var d1 := CloseCUTransfers(D, d, amLast, cal, cuId, n - 1);
      CloseCUTransfersTake(D, d, amLast, cal, cuId, n - 1);
      if n - 1 in D.aim && D.aim[n - 1].cuIndex == cuId {
        ApproxTransfersMove(D, d1, amLast, cal, n - 1, D.aim[n - 1], cuId);
      }
      var d' := CloseCUTransfers(D, d, amLast, cal, cuId, n);
      forall k: nat, t: EventType
        ensures Queue(d'.starts, k, t) ==
                if OfCU(D, cuId, n, k, t) then Tail(Queue(d.starts, k, t)) else Queue(d.starts, k, t)
      {
        assert k == 2 * (k / 2) + k % 2;
        assert Queue(d1.starts, k, t) ==
               if OfCU(D, cuId, n - 1, k, t) then Tail(Queue(d.starts, k, t)) else Queue(d.starts, k, t);
      }
    }
  }

  lemma DataTransferMoves(D: Design, d: Db, kind: EventType, p: Packet, host: real, site: Site)
    requires D.Valid()
    ensures var d' := DataTransfer(D, d, kind, p, host, site);
            && Only(d.starts, d'.starts, TraceId(p), kind)
            && |Queue(d'.starts, TraceId(p), kind)| ==
               |Tail(Queue(d.starts, TraceId(p), kind))| + (if IsDeviceEventTypeStart(p) then 1 else 0)
  {
    hide Queue, Take, Mark, Found;
    var key, dev := TraceId(p), DeviceTimestamp(p);
    TakeMoves(d, key, kind);
    if IsDeviceEventTypeStart(p) {
      var d1 := if Queue(d.starts, key, kind) == [] then d
                else AddEvent(TakeStart(d, key, kind), End(Found(d.starts, key, kind).eventID), kind,
                              host - D.HalfCycleMs(), dev, site);
      OpenMoves(d1, key, kind, host, dev, site);
    }
  }

  lemma StreamMoves(D: Design, d: Db, kind: EventType, p: Packet, host: real, site: Site)
    requires D.Valid()
    ensures var d' := StreamTransfer(D, d, kind, p, host, site);
            && Only(d.starts, d'.starts, TraceId(p), kind)
            && |Queue(d'.starts, TraceId(p), kind)| ==
               (if Flag1(p) then |Queue(d.starts, TraceId(p), kind)| + 1 else |Tail(Queue(d.starts, TraceId(p), kind))|)
  {
    hide Queue, Take, Mark, Found;
    TakeMoves(d, TraceId(p), kind);
    OpenMoves(d, TraceId(p), kind, host, DeviceTimestamp(p), site);
  }

  lemma CUMoves(D: Design, s: State, p: Packet, host: real, slot: nat, cuId: int)
    requires s.Fits(D) && slot < D.numAM
    ensures var s' := CUEvent(D, s, p, host, slot, cuId);
            && Only(s.db.starts, s'.db.starts, AMKey(slot), KERNEL)
            && Queue(s'.db.starts, AMKey(slot), KERNEL) ==
               if Flag1(p) then
                 Queue(s.db.starts, AMKey(slot), KERNEL) +
                 [DeviceEventInfo(KERNEL, s.db.nextId, host, DeviceTimestamp(p))]
               else Tail(Queue(s.db.starts, AMKey(slot), KERNEL))
  {
    hide Queue, Take, Mark, Found;
    TakeMoves(s.db, AMKey(slot), KERNEL);
    OpenMoves(s.db, AMKey(slot), KERNEL, host, DeviceTimestamp(p), Site(slot, cuId, 0));
  }

  // ----- Which key holds which kind -----

  /** The kinds a monitor key can hold. The three ranges of keys do not meet. */
  predicate Owns(key: nat, kind: EventType) {
    match kind
    case KERNEL => MIN_TRACE_ID_AM <= key <= MAX_TRACE_ID_AM && key % 16 == 0
    case KERNEL_STALL_EXT_MEM => MIN_TRACE_ID_AM <= key <= MAX_TRACE_ID_AM && key % 16 == 0
    case KERNEL_STALL_DATAFLOW => MIN_TRACE_ID_AM <= key <= MAX_TRACE_ID_AM && key % 16 == 0
    case KERNEL_STALL_PIPE => MIN_TRACE_ID_AM <= key <= MAX_TRACE_ID_AM && key % 16 == 0
    case KERNEL_READ => key <= MAX_TRACE_ID_AIM && key % 2 == 0
    case KERNEL_WRITE => key <= MAX_TRACE_ID_AIM && key % 2 == 1
    case UNKNOWN_EVENT => false
    case _ => MIN_TRACE_ID_ASM <= key < MAX_TRACE_ID_ASM
  }

  /** Queues live where their kind belongs, and a read or write queue holds at most one start. */
  ghost predicate Disciplined(m: Starts) {
    && (forall k: nat, t: EventType :: Queue(m, k, t) != [] ==> Owns(k, t))
    && (forall k: nat, t: EventType :: t == KERNEL_READ || t == KERNEL_WRITE ==> |Queue(m, k, t)| <= 1)
  }

  lemma StallsDisciplined(d: Db, fired: Nibble, bits: Nibble, key: nat, host: real, dev: nat, site: Site)
    requires Disciplined(d.starts) && Owns(key, KERNEL)
    ensures Disciplined(StallEvents(d, fired, bits, key, host, dev, site).starts)
  {
    hide Queue, StallEvents;
    StallsMove(d, fired, bits, key, host, dev, site);
  }

  lemma CloseCUDisciplined(D: Design, d: Db, amLast: seq<nat>, cal: Calibration, cuId: int, n: nat)
    requires D.Valid() && |amLast| == D.numAM && Disciplined(d.starts)
    ensures Disciplined(CloseCUTransfers(D, d, amLast, cal, cuId, n).starts)
  {
    hide Queue, CloseCUTransfers;
    CloseCUTransfersMove(D, d, amLast, cal, cuId, n);
  }

  lemma CUDisciplined(D: Design, s: State, p: Packet, host: real, slot: nat, cuId: int)
    requires s.Fits(D) && slot < D.numAM && Disciplined(s.db.starts) && Owns(AMKey(slot), KERNEL)
    ensures Disciplined(CUEvent(D, s, p, host, slot, cuId).db.starts)
  {
    hide Queue, CUEvent;
    CUMoves(D, s, p, host, slot, cuId);
  }

  lemma SignalsDisciplined(D: Design, s: State, p: Packet, host: real, slot: nat, cuId: int)
    requires s.Fits(D) && slot < D.numAM && Owns(AMKey(slot), KERNEL) && Disciplined(s.db.starts)
    ensures Disciplined(AMSignals(D, s, p, host, slot, cuId).db.starts)
  {
    hide Disciplined, CUEvent, StallEvents, Owns;
    var fired := NibbleOf(TraceId(p));
    CUDisciplined(D, s, p, host, slot, cuId);
    var s1 := if fired.cu then CUEvent(D, s, p, host, slot, cuId) else s;
    StallsDisciplined(s1.db, fired, s1.traceIDs[slot], AMKey(slot), host, DeviceTimestamp(p), Site(slot, cuId, 0));
  }

  lemma CloseDisciplined(D: Design, s: State, p: Packet, host: real, slot: nat, cuId: int)
    requires s.Fits(D) && slot < D.numAM && Owns(AMKey(slot), KERNEL) && Disciplined(s.db.starts)
    ensures Disciplined(AMClose(D, s, p, host, slot, cuId).db.starts)
  {
    hide Disciplined, StallEvents, CloseCUTransfers, Owns;
    var bits, early := s.traceIDs[slot], host - D.HalfCycleMs();
    CloseCUDisciplined(D, s.db, s.amLastTrans, s.cal, cuId, D.numAIM);
    var d1 := if cuId == -1 then s.db else CloseCUTransfers(D, s.db, s.amLastTrans, s.cal, cuId, D.numAIM);
    StallsDisciplined(d1, bits, bits, AMKey(slot), early, DeviceTimestamp(p), Site(slot, cuId, 0));
  }

  lemma AMDisciplined(D: Design, s: State, p: Packet, host: real)
    requires s.Fits(D) && IsAM(TraceId(p)) && Disciplined(s.db.starts)
    ensures Disciplined(AMEvent(D, s, p, host).db.starts)
  {
    hide Disciplined, AMSignals, AMClose;
    var slot := (TraceId(p) - MIN_TRACE_ID_AM) / 16;
    if slot in D.am {
      var cuId := D.am[slot].cuIndex;
      assert Owns(AMKey(slot), KERNEL);
      SignalsDisciplined(D, s, p, host, slot, cuId);
      CloseDisciplined(D, AMSignals(D, s, p, host, slot, cuId), p, host, slot, cuId);
    }
  }

  lemma StepDisciplined(D: Design, s: State, p: Packet)
    requires s.Fits(D) && Disciplined(s.db.starts)
    ensures Disciplined(Step(D, s, p).db.starts)
  {
    hide Queue, AMEvent, DataTransfer, StreamTransfer, Trained;
    var id, host := TraceId(p), ToHost(s.cal, DeviceTimestamp(p));
    if IsClockTraining(p) {
    } else if IsAM(id) {
      AMDisciplined(D, s, p, host);
    } else if IsAIM(id) {
      var slot := id / 2;
      if slot in D.aim {
        var kind := if id % 2 == 1 then KERNEL_WRITE else KERNEL_READ;
        DataTransferMoves(D, s.db, kind, p, host, Site(slot, D.aim[slot].cuIndex, D.MemStrId(D.aim[slot])));
      }
    } else if IsASM(id) {
      var slot := id - MIN_TRACE_ID_ASM;
      if slot in D.asm {
        StreamMoves(D, s.db, StreamKind(D.asm[slot], p), p, host, Site(slot, D.asm[slot].cuIndex, 0));
      }
    }
  }

  // ----- CU queues mirror cuStarts -----

  function Pairs(q: seq<DeviceEventInfo>): (r: seq<(nat, nat)>)
    ensures |r| == |q|
  {
    seq(|q|, i requires 0 <= i < |q| => (q[i].eventID, q[i].deviceTimestamp))
  }

  /** Each AM slot remembers exactly the CU starts the database keeps for its monitor, in order. */
  ghost predicate Mirrored(s: State) {
    forall slot | 0 <= slot < |s.cuStarts| :: s.cuStarts[slot] == Pairs(Queue(s.db.starts, AMKey(slot), KERNEL))
  }

  lemma CUMirrored(D: Design, s: State, p: Packet, host: real, slot: nat, cuId: int)
    requires s.Fits(D) && slot < D.numAM && Mirrored(s)
    ensures Mirrored(CUEvent(D, s, p, host, slot, cuId))
  {
    hide Queue, Take, Mark, FirstIndex;
    var s' := CUEvent(D, s, p, host, slot, cuId);
    var q := Queue(s.db.starts, AMKey(slot), KERNEL);
    CUMoves(D, s, p, host, slot, cuId);
    UnknownMeansEmpty(s.db.starts, AMKey(slot), KERNEL);
    assert s.cuStarts[slot] == Pairs(q);
    if Flag1(p) {
      var info := DeviceEventInfo(KERNEL, s.db.nextId, host, DeviceTimestamp(p));
      assert Pairs(q + [info]) == Pairs(q) + [(info.eventID, info.deviceTimestamp)];
    } else if q != [] {
      assert Pairs(q[1..]) == Pairs(q)[1..];
    }
    forall i | 0 <= i < |s'.cuStarts|
      ensures s'.cuStarts[i] == Pairs(Queue(s'.db.starts, AMKey(i), KERNEL))
    {
      if i != slot {
        assert AMKey(i) != AMKey(slot);
      }
    }
  }

  /** When CU queues and cuStarts do not move, they stay mirrored. */
  lemma StillMirrored(s: State, s': State)
    requires Mirrored(s) && s'.cuStarts == s.cuStarts
    requires forall k: nat :: Queue(s'.db.starts, k, KERNEL) == Queue(s.db.starts, k, KERNEL)
    ensures Mirrored(s')
  {
    hide Queue;
  }

  lemma SignalsMirrored(D: Design, s: State, p: Packet, host: real, slot: nat, cuId: int)
    requires s.Fits(D) && slot < D.numAM && Mirrored(s)
    ensures Mirrored(AMSignals(D, s, p, host, slot, cuId))
  {
    hide Queue, CUEvent, StallEvents, Mirrored;
    var fired := NibbleOf(TraceId(p));
    CUMirrored(D, s, p, host, slot, cuId);
    var s1 := if fired.cu then CUEvent(D, s, p, host, slot, cuId) else s;
    StallsMove(s1.db, fired, s1.traceIDs[slot], AMKey(slot), host, DeviceTimestamp(p), Site(slot, cuId, 0));
    StillMirrored(s1, AMSignals(D, s, p, host, slot, cuId));
  }

  lemma CloseMirrored(D: Design, s: State, p: Packet, host: real, slot: nat, cuId: int)
    requires s.Fits(D) && slot < D.numAM && Mirrored(s)
    ensures Mirrored(AMClose(D, s, p, host, slot, cuId))
  {
    hide Queue, StallEvents, CloseCUTransfers, Mirrored;
    CloseCUTransfersMove(D, s.db, s.amLastTrans, s.cal, cuId, D.numAIM);
    var d1 := if cuId == -1 then s.db else CloseCUTransfers(D, s.db, s.amLastTrans, s.cal, cuId, D.numAIM);
    StallsMove(d1, s.traceIDs[slot], s.traceIDs[slot], AMKey(slot), host - D.HalfCycleMs(), DeviceTimestamp(p),
               Site(slot, cuId, 0));
    StillMirrored(s, AMClose(D, s, p, host, slot, cuId));
  }

  lemma AMMirrored(D: Design, s: State, p: Packet, host: real)
    requires s.Fits(D) && IsAM(TraceId(p)) && Mirrored(s)
    ensures Mirrored(AMEvent(D, s, p, host))
  {
    hide AMSignals, AMClose, Mirrored;
    var slot := (TraceId(p) - MIN_TRACE_ID_AM) / 16;
    if slot in D.am {
      var cuId := D.am[slot].cuIndex;
      SignalsMirrored(D, s, p, host, slot, cuId);
      CloseMirrored(D, AMSignals(D, s, p, host, slot, cuId), p, host, slot, cuId);
    }
  }

  lemma StepMirrored(D: Design, s: State, p: Packet)
    requires s.Fits(D) && Mirrored(s)
    ensures Mirrored(Step(D, s, p))
  {
    hide Queue, AMEvent, DataTransfer, StreamTransfer, Trained, Mirrored;
    var id, host := TraceId(p), ToHost(s.cal, DeviceTimestamp(p));
    var s' := Step(D, s, p);
    if IsClockTraining(p) {
      StillMirrored(s, s');
    } else if IsAM(id) {
      AMMirrored(D, s, p, host);
      StillMirrored(AMEvent(D, s, p, host), s');
    } else if IsAIM(id) {
      var slot := id / 2;
      if slot in D.aim {
        var kind := if id % 2 == 1 then KERNEL_WRITE else KERNEL_READ;
        DataTransferMoves(D, s.db, kind, p, host, Site(slot, D.aim[slot].cuIndex, D.MemStrId(D.aim[slot])));
      }
      StillMirrored(s, s');
    } else if IsASM(id) {
      var slot := id - MIN_TRACE_ID_ASM;
      if slot in D.asm {
        StreamMoves(D, s.db, StreamKind(D.asm[slot], p), p, host, Site(slot, D.asm[slot].cuIndex, 0));
      }
      StillMirrored(s, s');
    }
  }

  // ----- Every reachable state -----

  lemma {:induction false} FoldInvariants(D: Design, s: State, ps: seq<Packet>)
    requires s.Fits(D) && Mirrored(s) && Disciplined(s.db.starts)
    ensures Mirrored(Fold(D, s, ps)) && Disciplined(Fold(D, s, ps).db.starts)
  {
    hide Mirrored, Disciplined, Step;
    if ps != [] {
      FoldInvariants(D, s, ps[..|ps| - 1]);
      StepMirrored(D, Fold(D, s, ps[..|ps| - 1]), ps[|ps| - 1]);
      StepDisciplined(D, Fold(D, s, ps[..|ps| - 1]), ps[|ps| - 1]);
    }
  }

  lemma {:induction false} ProcessAllInvariants(D: Design, s: State, buffers: seq<seq<Packet>>)
    requires s.Fits(D) && Mirrored(s) && Disciplined(s.db.starts)
    ensures Mirrored(ProcessAll(D, s, buffers)) && Disciplined(ProcessAll(D, s, buffers).db.starts)
  {
    hide Mirrored, Disciplined, Fold;
    if buffers != [] {
      var s1, ps := ProcessAll(D, s, buffers[..|buffers| - 1]), buffers[|buffers| - 1];
      ProcessAllInvariants(D, s, buffers[..|buffers| - 1]);
      StillMirrored(s1, Sought(s1, ps));
      FoldInvariants(D, Sought(s1, ps), Interpreted(s1, ps));
    }
  }

  lemma InitialInvariants(D: Design)
    requires D.Valid()
    ensures Mirrored(Initial(D)) && Disciplined(Initial(D).db.starts)
  {
  }

  /** Before the end of the trace, whatever was received: an AIM trace id has at most one outstanding
      start, of the kind its parity says; AM, AIM and ASM keys never hold each other's kinds; and
      `cuStarts[slot]` lists, in order, the (event id, device time) of exactly the CU starts the
      database keeps for the slot's monitor, so that both always give up the same start. */
  lemma ReachableQueues(D: Design, buffers: seq<seq<Packet>>, slot: nat, key: nat, kind: EventType)
    requires D.Valid() && slot < D.numAM
    ensures var s := ProcessAll(D, Initial(D), buffers);
            && s.cuStarts[slot] == Pairs(Queue(s.db.starts, AMKey(slot), KERNEL))
            && (Queue(s.db.starts, key, kind) != [] ==> Owns(key, kind))
            && (key <= MAX_TRACE_ID_AIM ==> |Queue(s.db.starts, key, kind)| <= 1)
            && (s.cuStarts[slot] != [] ==>
                  var found := Found(s.db.starts, AMKey(slot), KERNEL);
                  s.cuStarts[slot][0] == (found.eventID, found.deviceTimestamp))
  {
    hide ProcessAll, Queue, Found;
    InitialInvariants(D);
    ProcessAllInvariants(D, Initial(D), buffers);
    var s := ProcessAll(D, Initial(D), buffers);
    assert Queue(s.db.starts, key, kind) != [] ==> Owns(key, kind);
    TakeRefines(s.db.starts, AMKey(slot), KERNEL, AMKey(slot), KERNEL);
  }
}
