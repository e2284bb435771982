/** What the packet interpreter does to its state, as functions on values. The class in
    Logger.dfy is proved to compute exactly these; the theorems about whole packet sequences
    are proved about these. */
module LoggerSpec {
  import opened TraceTypes
  import opened Packets
  import opened StartLists

  /** The part of the database the logger writes: event ids, logged events, outstanding starts. */
  datatype Db = Db(nextId: nat, log: seq<Event>, starts: Starts)

  /** The line from device to host time, and the first of a pair of training points (0, 0 if none).
      `defined` is false after a division by zero: slope, offset and all times converted with them are
      then no numbers, and the reals that stand in their places mean nothing. */
  datatype Calibration = Calibration(slope: real, offset: real, x1: real, y1: real, defined: bool)

  predicate SameLine(a: Calibration, b: Calibration) {
    a.slope == b.slope && a.offset == b.offset && a.defined == b.defined
  }

  /** Progress through clock training, kept across calls. */
  datatype Phase = Phase(found: bool, modulus: nat, hostTimestamp: nat)

  datatype State = State(
    db: Db,
    traceIDs: seq<Nibble>,
    cuStarts: seq<seq<(nat, nat)>>,  // per AM slot: (event id, device time)
    amLastTrans: seq<nat>,
    aimLastTrans: seq<nat>,
    asmLastTrans: seq<nat>,
    cal: Calibration,
    phase: Phase,
    latest: real)
  {
    ghost predicate Fits(D: Design) {
      && D.Valid()
      && |traceIDs| == |cuStarts| == |amLastTrans| == D.numAM
      && |aimLastTrans| == D.numUserAIM
      && |asmLastTrans| == D.numUserASM
      && phase.modulus < 4
    }
  }

  /** Where an event happened: monitor slot, compute unit, memory name. */
  datatype Site = Site(monitorId: nat, cuId: int, memStrId: nat)

  // ----- Database primitives -----

  function AddEvent(d: Db, role: Role, kind: EventType, host: real, dev: nat, site: Site): Db {
    Db(d.nextId + 1,
       d.log + [Event(d.nextId, role, host, kind, dev, site.monitorId, site.cuId, site.memStrId)],
       d.starts)
  }

  /** Log a start and remember it as outstanding. */
  function OpenEvent(d: Db, key: nat, kind: EventType, host: real, dev: nat, site: Site): Db {
    var added := AddEvent(d, Begin, kind, host, dev, site);
    added.(starts := Mark(added.starts, key, DeviceEventInfo(kind, d.nextId, host, dev)))
  }

  function TakeStart(d: Db, key: nat, kind: EventType): Db {
    d.(starts := Take(d.starts, key, kind))
  }

  // ----- Time -----

  function ToHost(cal: Calibration, dev: nat): real {
    (cal.slope * (dev as real) + cal.offset) / 1000000.0
  }

  /** The second of two training points fixes the line; the first is only remembered. In a hardware
      flow the slope is nominal. Otherwise two points at one device time leave no line at all. */
  function Trained(D: Design, cal: Calibration, dev: nat, host: nat): Calibration
    requires D.Valid()
  {
    var x2, y2 := dev as real, host as real;
    if cal.y1 == 0.0 && cal.x1 == 0.0 then cal.(x1 := x2, y1 := y2)
    else
      var defined := D.hwFlow || x2 != cal.x1;
      var slope := if D.hwFlow then 1000.0 / D.clockRateMHz
                   else if defined then (y2 - cal.y1) / (x2 - cal.x1) else 0.0;
      Calibration(slope, y2 - slope * x2, 0.0, 0.0, defined)
  }

  function TrainStep(D: Design, s: State, p: Packet): (r: State)
    requires s.Fits(D)
    ensures r.Fits(D)
  {
    var host := BitOr(s.phase.hostTimestamp, TrainingWord(p) * Pow2(16 * s.phase.modulus));
    if s.phase.modulus + 1 == 4 then
      s.(cal := Trained(D, s.cal, DeviceTimestamp(p), host), phase := Phase(s.phase.found, 0, 0))
    else
      s.(phase := Phase(s.phase.found, s.phase.modulus + 1, host))
  }

  // ----- Compute units -----

  function AMKey(slot: nat): nat { slot * 16 + MIN_TRACE_ID_AM }

  function CUEnd(s: State, host: real, dev: nat, slot: nat, cuId: int): State
    requires slot < |s.cuStarts| && s.cuStarts[slot] != []
  {
    s.(db := AddEvent(s.db, End(s.cuStarts[slot][0].0), KERNEL, host, dev, Site(slot, cuId, 0)),
       cuStarts := s.cuStarts[slot := s.cuStarts[slot][1..]])
  }

  function CUEvent(D: Design, s: State, p: Packet, host: real, slot: nat, cuId: int): (r: State)
    requires s.Fits(D) && slot < D.numAM
    ensures r.Fits(D)
  {
    if !Flag1(p) then
      var s1 := s.(db := TakeStart(s.db, AMKey(slot), KERNEL));
      if Found(s.db.starts, AMKey(slot), KERNEL).kind == UNKNOWN_EVENT || s.cuStarts[slot] == [] then s1
      else CUEnd(s1, host, DeviceTimestamp(p), slot, cuId)
    else
      var starts := s.cuStarts[slot] + [(s.db.nextId, DeviceTimestamp(p))];
      s.(db := OpenEvent(s.db, AMKey(slot), KERNEL, host, DeviceTimestamp(p), Site(slot, cuId, 0)),
         cuStarts := s.cuStarts[slot := starts],
         traceIDs := if |starts| == 1 then s.traceIDs[slot := CLEAR] else s.traceIDs)
  }

  /** A stall signal toggles: it ends when its bit is set and starts when it is clear. An end with
      no outstanding start carries start id 0. */
  function StallEvent(d: Db, bit: bool, key: nat, kind: EventType, host: real, dev: nat, site: Site): Db {
    if bit then
      AddEvent(TakeStart(d, key, kind), End(Found(d.starts, key, kind).eventID), kind, host, dev, site)
    else
      OpenEvent(d, key, kind, host, dev, site)
  }

  /** The stall signals in `fired`, in the order the logger looks at them. */
  function StallEvents(d: Db, fired: Nibble, bits: Nibble, key: nat, host: real, dev: nat, site: Site): Db {
    var d1 := if fired.dataflow then StallEvent(d, bits.dataflow, key, KERNEL_STALL_DATAFLOW, host, dev, site) else d;
    var d2 := if fired.pipe then StallEvent(d1, bits.pipe, key, KERNEL_STALL_PIPE, host, dev, site) else d1;
    if fired.ext then StallEvent(d2, bits.ext, key, KERNEL_STALL_EXT_MEM, host, dev, site) else d2
  }

  // ----- Approximate ends -----

  /** Device and host time invented for the end of something that started at `startDev`: the last
      time the CU was seen, if later, else half a cycle after the start. */
  function ApproxEnd(D: Design, cal: Calibration, startDev: nat, amId: int, cuLast: nat): (nat, real)
    requires D.Valid()
  {
    if amId != -1 && startDev < cuLast then (cuLast, ToHost(cal, cuLast))
    else (startDev, ToHost(cal, startDev) + D.HalfCycleMs())
  }

  /** The AM slot stands in for the monitor id, cast to 32 bits. */
  function AsUint32(amId: int): nat
    requires amId >= -1
  {
    if amId == -1 then 0xFFFF_FFFF else amId
  }

  function ApproxTransfer(D: Design, d: Db, amLast: seq<nat>, cal: Calibration, kind: EventType, key: nat,
                          amId: int, cuId: int, memStrId: nat): Db
    requires D.Valid() && -1 <= amId < |amLast|
  {
    var start := Found(d.starts, key, kind);
    var d1 := TakeStart(d, key, kind);
    if start.kind == UNKNOWN_EVENT then d1
    else
      var end := ApproxEnd(D, cal, start.deviceTimestamp, amId, if amId == -1 then 0 else amLast[amId]);
      AddEvent(d1, End(start.eventID), kind, end.1, end.0, Site(AsUint32(amId), cuId, memStrId))
  }

  /** Close an outstanding read and write of the AIM in `slot`. */
  function ApproxTransfers(D: Design, d: Db, amLast: seq<nat>, cal: Calibration, slot: nat, mon: Monitor, cuId: int): Db
    requires D.Valid() && |amLast| == D.numAM
  {
    var amId := D.AccelMonOf(cuId);
    var d1 := ApproxTransfer(D, d, amLast, cal, KERNEL_READ, slot * 2, amId, cuId, D.MemStrId(mon));
    ApproxTransfer(D, d1, amLast, cal, KERNEL_WRITE, slot * 2 + 1, amId, cuId, D.MemStrId(mon))
  }

  /** The first n AIM slots, as far as they watch the CU. */
  function CloseCUTransfers(D: Design, d: Db, amLast: seq<nat>, cal: Calibration, cuId: int, n: nat): Db
    requires D.Valid() && |amLast| == D.numAM
  {
    if n == 0 then d
    else
      var d1 := CloseCUTransfers(D, d, amLast, cal, cuId, n - 1);
      if n - 1 in D.aim && D.aim[n - 1].cuIndex == cuId then
        ApproxTransfers(D, d1, amLast, cal, n - 1, D.aim[n - 1], cuId)
      else d1
  }

  // ----- Packets by monitor kind -----

  /** The signals of an AM packet: the CU's, then the stalls', then the toggled bits. */
  function AMSignals(D: Design, s: State, p: Packet, host: real, slot: nat, cuId: int): (r: State)
    requires s.Fits(D) && slot < D.numAM
    ensures r.Fits(D)
  {
    var fired := NibbleOf(TraceId(p));
    var s1 := if fired.cu then CUEvent(D, s, p, host, slot, cuId) else s;
    s1.(db := StallEvents(s1.db, fired, s1.traceIDs[slot], AMKey(slot), host, DeviceTimestamp(p), Site(slot, cuId, 0)),
        traceIDs := s1.traceIDs[slot := Xor(s1.traceIDs[slot], fired)],
        amLastTrans := s1.amLastTrans[slot := DeviceTimestamp(p)])
  }

  /** What a CU that just ended leaves hanging: transfers of its AIMs, stalls whose bit is set. */
  function AMClose(D: Design, s: State, p: Packet, host: real, slot: nat, cuId: int): (r: State)
    requires s.Fits(D) && slot < D.numAM
    ensures r.Fits(D)
  {
    var d1 := if cuId == -1 then s.db else CloseCUTransfers(D, s.db, s.amLastTrans, s.cal, cuId, D.numAIM);
    s.(db := StallEvents(d1, s.traceIDs[slot], s.traceIDs[slot], AMKey(slot), host - D.HalfCycleMs(),
                         DeviceTimestamp(p), Site(slot, cuId, 0)))
  }

  function AMEvent(D: Design, s: State, p: Packet, host: real): (r: State)
    requires s.Fits(D) && MIN_TRACE_ID_AM <= TraceId(p)
    ensures r.Fits(D)
  {
    var slot := (TraceId(p) - MIN_TRACE_ID_AM) / 16;
    if slot !in D.am then s
    else
      var cuId := D.am[slot].cuIndex;
      var s1 := AMSignals(D, s, p, host, slot, cuId);
      if NibbleOf(TraceId(p)).cu && s1.cuStarts[slot] == [] then AMClose(D, s1, p, host, slot, cuId) else s1
  }

  /** A start packet of a read or write. A second start in a row means an end was dropped: close
      the first half a cycle early. */
  function TransferStart(D: Design, d: Db, kind: EventType, key: nat, host: real, dev: nat, site: Site): Db
    requires D.Valid()
  {
    var d1 := if Queue(d.starts, key, kind) == [] then d
              else AddEvent(TakeStart(d, key, kind), End(Found(d.starts, key, kind).eventID), kind,
                            host - D.HalfCycleMs(), dev, site);
    OpenEvent(d1, key, kind, host, dev, site)
  }

  /** An end packet of a read or write. Without a start it makes a pulse of half a cycle; the pulse
      bit asks for one too, after ending the start that was found. */
  function TransferEnd(D: Design, d: Db, kind: EventType, key: nat, pulse: bool, host: real, dev: nat, site: Site): Db
    requires D.Valid()
  {
    var start := Found(d.starts, key, kind);
    var d1 := TakeStart(d, key, kind);
    var later := host + D.HalfCycleMs();
    if start.kind == UNKNOWN_EVENT then Pulse(d1, kind, host, later, dev, site)
    else if pulse && start.hostTimestamp != host then
      Pulse(AddEvent(d1, End(start.eventID), kind, host, dev, site), kind, host, later, dev, site)
    else AddEvent(d1, End(start.eventID), kind, if pulse then later else host, dev, site)
  }

  function DataTransfer(D: Design, d: Db, kind: EventType, p: Packet, host: real, site: Site): Db
    requires D.Valid()
  {
    if IsDeviceEventTypeStart(p) then TransferStart(D, d, kind, TraceId(p), host, DeviceTimestamp(p), site)
    else TransferEnd(D, d, kind, TraceId(p), Flag16(p), host, DeviceTimestamp(p), site)
  }

  /** A dummy start and the end that closes it. */
  function Pulse(d: Db, kind: EventType, host: real, hostEnd: real, dev: nat, site: Site): Db {
    AddEvent(AddEvent(d, Begin, kind, host, dev, site), End(d.nextId), kind, hostEnd, dev, site)
  }

  /** Whether a read or write packet counts as activity of its AIM: an end does, and so does a
      start that reveals a dropped end. */
  predicate Touches(d: Db, kind: EventType, p: Packet) {
    !IsDeviceEventTypeStart(p) || Queue(d.starts, TraceId(p), kind) != []
  }

  function AIMEvent(D: Design, s: State, p: Packet, host: real): (r: State)
    requires s.Fits(D)
    ensures r.Fits(D)
  {
    var slot := TraceId(p) / 2;
    if slot !in D.aim then s
    else
      var kind := if TraceId(p) % 2 == 1 then KERNEL_WRITE else KERNEL_READ;
      var site := Site(slot, D.aim[slot].cuIndex, D.MemStrId(D.aim[slot]));
      s.(db := DataTransfer(D, s.db, kind, p, host, site),
         aimLastTrans := if Touches(s.db, kind, p) then s.aimLastTrans[slot := DeviceTimestamp(p)] else s.aimLastTrans)
  }

  /** The flag bits say whether a stream packet is about activity, starvation or a stall; with none
      of them set it counts as a write, whatever the monitor watches. */
  function StreamKind(mon: Monitor, p: Packet): EventType {
    if Flag8(p) then (if mon.isStreamRead then KERNEL_STREAM_READ else KERNEL_STREAM_WRITE)
    else if Flag2(p) then (if mon.isStreamRead then KERNEL_STREAM_READ_STARVE else KERNEL_STREAM_WRITE_STARVE)
    else if Flag4(p) then (if mon.isStreamRead then KERNEL_STREAM_READ_STALL else KERNEL_STREAM_WRITE_STALL)
    else KERNEL_STREAM_WRITE
  }

  function StreamTransfer(D: Design, d: Db, kind: EventType, p: Packet, host: real, site: Site): Db
    requires D.Valid()
  {
    var key, dev := TraceId(p), DeviceTimestamp(p);
    var start := Found(d.starts, key, kind);
    if Flag1(p) then OpenEvent(d, key, kind, host, dev, site)
    else
      var d1 := TakeStart(d, key, kind);
      if Flag16(p) || start.kind == UNKNOWN_EVENT then Pulse(d1, kind, host, host + D.HalfCycleMs(), dev, site)
      else AddEvent(d1, End(start.eventID), kind, host, dev, site)
  }

  function ASMEvent(D: Design, s: State, p: Packet, host: real): (r: State)
    requires s.Fits(D) && MIN_TRACE_ID_ASM <= TraceId(p)
    ensures r.Fits(D)
  {
    var slot := TraceId(p) - MIN_TRACE_ID_ASM;
    if slot !in D.asm then s
    else
      var kind := StreamKind(D.asm[slot], p);
      s.(db := StreamTransfer(D, s.db, kind, p, host, Site(slot, D.asm[slot].cuIndex, 0)),
         asmLastTrans := if Flag1(p) then s.asmLastTrans else s.asmLastTrans[slot := DeviceTimestamp(p)])
  }

  // ----- Whole buffers -----

  predicate IsAM(id: nat) { MIN_TRACE_ID_AM <= id <= MAX_TRACE_ID_AM }

  predicate IsAIM(id: nat) { id <= MAX_TRACE_ID_AIM }

  predicate IsASM(id: nat) { MIN_TRACE_ID_ASM <= id < MAX_TRACE_ID_ASM }

  function Step(D: Design, s: State, p: Packet): (r: State)
    requires s.Fits(D)
    ensures r.Fits(D)
  {
    var id := TraceId(p);
    var host := ToHost(s.cal, DeviceTimestamp(p));
    if IsClockTraining(p) then TrainStep(D, s, p)
    else if IsAM(id) then AMEvent(D, s, p, host).(latest := host)
    else if IsAIM(id) then AIMEvent(D, s, p, host).(latest := host)
    else if IsASM(id) then ASMEvent(D, s, p, host).(latest := host)
    else s
  }

  function Fold(D: Design, s: State, ps: seq<Packet>): (r: State)
    requires s.Fits(D)
    ensures r.Fits(D)
  {
    if ps == [] then s else Step(D, Fold(D, s, ps[..|ps| - 1]), ps[|ps| - 1])
  }

  /** No packet of the sequence moves the line. */
  ghost predicate LineStays(D: Design, s: State, ps: seq<Packet>)
    requires s.Fits(D)
  {
    forall n | 0 <= n <= |ps| :: SameLine(Fold(D, s, ps[..n]).cal, s.cal)
  }

  /** Eight clock training packets in a row. */
  predicate TrainingWindow(ps: seq<Packet>, i: nat) {
    i + 8 <= |ps| && forall j | i <= j < i + 8 :: IsClockTraining(ps[j])
  }

  /** First window among the positions the search tries, which stop one short of the last; |ps| if none. */
  function SearchFrom(ps: seq<Packet>, i: nat): (r: nat)
    requires i <= |ps|
    ensures i <= r <= |ps|
    ensures r < |ps| ==> r + 8 < |ps| && TrainingWindow(ps, r)
    ensures forall k | i <= k < r && k + 8 < |ps| :: !TrainingWindow(ps, k)
    decreases |ps| - i
  {
    if i + 8 >= |ps| then |ps|
    else if TrainingWindow(ps, i) then i
    else SearchFrom(ps, i + 1)
  }

  /** Until a training window has been seen every buffer is searched for one. */
  function Sought(s: State, ps: seq<Packet>): State {
    s.(phase := s.phase.(found := s.phase.found || SearchFrom(ps, 0) < |ps|))
  }

  /** The packets before the first window are dropped; a buffer without one is interpreted whole. */
  function Interpreted(s: State, ps: seq<Packet>): seq<Packet> {
    if !s.phase.found && SearchFrom(ps, 0) < |ps| then ps[SearchFrom(ps, 0)..] else ps
  }

  /** One call on the packets of a buffer. */
  function Process(D: Design, s: State, ps: seq<Packet>): (r: State)
    requires s.Fits(D)
    ensures r.Fits(D)
  {
    Fold(D, Sought(s, ps), Interpreted(s, ps))
  }

  /** Any number of buffers, one after the other. */
  function ProcessAll(D: Design, s: State, buffers: seq<seq<Packet>>): (r: State)
    requires s.Fits(D)
    ensures r.Fits(D)
  {
    if buffers == [] then s
    else Process(D, ProcessAll(D, s, buffers[..|buffers| - 1]), buffers[|buffers| - 1])
  }

  // ----- End of trace -----

  /** Latest activity among `n` monitors of one kind attached to a CU, and `base`. */
  function LastAttached(mons: map<nat, Monitor>, last: seq<nat>, cuId: int, base: nat, n: nat): nat
    requires n <= |last|
  {
    if n == 0 then base
    else
      var r := LastAttached(mons, last, cuId, base, n - 1);
      if n - 1 in mons && mons[n - 1].cuIndex == cuId && last[n - 1] > r then last[n - 1] else r
  }

  function LastActivity(D: Design, s: State, slot: nat, cuId: int): nat
    requires s.Fits(D) && slot < D.numAM
  {
    var r := LastAttached(D.aim, s.aimLastTrans, cuId, s.amLastTrans[slot], |s.aimLastTrans|);
    LastAttached(D.asm, s.asmLastTrans, cuId, r, |s.asmLastTrans|)
  }

  /** Give one approximate end to each of the first n CUs that still has a start outstanding. */
  function CloseCUs(D: Design, s: State, n: nat): (r: State)
    requires s.Fits(D) && n <= D.numAM
    ensures r.Fits(D)
    ensures forall i | n <= i < D.numAM :: r.cuStarts[i] == s.cuStarts[i]
  {
    if n == 0 then s
    else
      var s1 := CloseCUs(D, s, n - 1);
      var slot := n - 1;
      if s1.cuStarts[slot] == [] || slot !in D.am then s1
      else
        var cuId := D.am[slot].cuIndex;
        var last := LastActivity(D, s1, slot, cuId);
        if last == 0 then s1 else CUEnd(s1, ToHost(s1.cal, last), last, slot, cuId)
  }

  /** The same for the first n user AIMs with trace, whatever CU they watch. */
  function CloseTransfers(D: Design, d: Db, amLast: seq<nat>, cal: Calibration, n: nat): Db
    requires D.Valid() && |amLast| == D.numAM && n <= |D.userAIMsWithTrace|
  {
    if n == 0 then d
    else
      var mon := D.userAIMsWithTrace[n - 1];
      ApproxTransfers(D, CloseTransfers(D, d, amLast, cal, n - 1), amLast, cal, mon.slotIndex, mon, mon.cuIndex)
  }

  /** Close every outstanding start of one kind on one ASM; `appx` is the latest end so far. */
  function CloseStream(D: Design, d: Db, cal: Calibration, slot: nat, kind: EventType, cuId: int, amId: int,
                       cuLast: nat, appx: nat): (Db, nat)
    requires D.Valid()
    decreases |Queue(d.starts, MIN_TRACE_ID_ASM + slot, kind)|
  {
    var key := MIN_TRACE_ID_ASM + slot;
    var start := Found(d.starts, key, kind);
    var d1 := TakeStart(d, key, kind);
    TakeRefines(d.starts, key, kind, key, kind);
    if start.kind == UNKNOWN_EVENT || Queue(d.starts, key, kind) == [] then (d1, appx)
    else
      var end := ApproxEnd(D, cal, start.deviceTimestamp, amId, cuLast);
      CloseStream(D, AddEvent(d1, End(start.eventID), kind, end.1, end.0, Site(slot, cuId, 0)),
                  cal, slot, kind, cuId, amId, cuLast, if appx < end.0 then end.0 else appx)
  }

  /** The three kinds the end-of-trace pass closes on a monitor: activity, stall, starve. */
  function StreamKinds(mon: Monitor): seq<EventType> {
    if mon.isStreamRead then [KERNEL_STREAM_READ, KERNEL_STREAM_READ_STALL, KERNEL_STREAM_READ_STARVE]
    else [KERNEL_STREAM_WRITE, KERNEL_STREAM_WRITE_STALL, KERNEL_STREAM_WRITE_STARVE]
  }

  function CloseASM(D: Design, s: State, slot: nat): (r: State)
    requires s.Fits(D) && slot < D.numUserASM
    ensures r.Fits(D)
  {
    if slot !in D.asm then s
    else
      var mon := D.asm[slot];
      var amId := D.AccelMonOf(mon.cuIndex);
      var cuLast := if amId == -1 then 0 else s.amLastTrans[amId];
      var kinds := StreamKinds(mon);
      var r1 := CloseStream(D, s.db, s.cal, slot, kinds[0], mon.cuIndex, amId, cuLast, 0);
      var r2 := CloseStream(D, r1.0, s.cal, slot, kinds[1], mon.cuIndex, amId, cuLast, r1.1);
      var r3 := CloseStream(D, r2.0, s.cal, slot, kinds[2], mon.cuIndex, amId, cuLast, r2.1);
      s.(db := r3.0, asmLastTrans := s.asmLastTrans[slot := r3.1])
  }

  function CloseStreams(D: Design, s: State, n: nat): (r: State)
    requires s.Fits(D) && n <= D.numUserASMWithTrace
    ensures r.Fits(D)
  {
    if n == 0 then s else CloseASM(D, CloseStreams(D, s, n - 1), n - 1)
  }

  function EndProcess(D: Design, s: State): (r: State)
    requires s.Fits(D)
    ensures r.Fits(D)
  {
    var s1 := CloseCUs(D, s, D.numAM);
    var s2 := s1.(db := CloseTransfers(D, s1.db, s1.amLastTrans, s1.cal, |D.userAIMsWithTrace|));
    CloseStreams(D, s2, D.numUserASMWithTrace)
  }

  /** What the constructor sets up. */
  function Initial(D: Design): (s: State)
    requires D.Valid()
    ensures s.Fits(D)
  {
    State(Db(1, [], map[]), seq(D.numAM, _ => CLEAR), seq(D.numAM, _ => []),
          seq(D.numAM, _ => 0), seq(D.numUserAIM, _ => 0), seq(D.numUserASM, _ => 0),
          Calibration(1000.0 / D.clockRateMHz, 0.0, 0.0, 0.0, true), Phase(false, 0, 0), 0.0)
  }
}
