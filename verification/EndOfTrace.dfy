/** What the end-of-trace pass achieves: how late a hanging CU is taken to have ended, which CUs,
    reads, writes and stream events are left open, and when the invented ends happen. */
module EndOfTrace {
  import opened TraceTypes
  import opened Packets
  import opened StartLists
  import opened LoggerSpec
  import opened Pairing
  import opened QueueInvariants

  // ----- Compute units -----

  ghost predicate Attached(mons: map<nat, Monitor>, i: nat, cuId: int) {
    i in mons && mons[i].cuIndex == cuId
  }

  lemma {:induction false} LastAttachedIsMax(mons: map<nat, Monitor>, last: seq<nat>, cuId: int, base: nat, n: nat)
    requires n <= |last|
    ensures var r := LastAttached(mons, last, cuId, base, n);
            && r >= base
            && (forall i | 0 <= i < n && Attached(mons, i, cuId) :: r >= last[i])
            && (r == base || exists i :: 0 <= i < n && Attached(mons, i, cuId) && r == last[i])
  {
    if n > 0 {
      LastAttachedIsMax(mons, last, cuId, base, n - 1);
      if Attached(mons, n - 1, cuId) {
        assert LastAttached(mons, last, cuId, base, n) in {last[n - 1], LastAttached(mons, last, cuId, base, n - 1)};
      }
    }
  }

  /** The time taken as the end of a hanging CU is the maximum of its own last time and the last
      times of all AIMs and ASMs attached to it, for any monitor tables. */
  lemma LastActivityIsMax(D: Design, s: State, slot: nat, cuId: int)
    requires s.Fits(D) && slot < D.numAM
    ensures var r := LastActivity(D, s, slot, cuId);
            && r >= s.amLastTrans[slot]
            && (forall i | 0 <= i < D.numUserAIM && Attached(D.aim, i, cuId) :: r >= s.aimLastTrans[i])
            && (forall i | 0 <= i < D.numUserASM && Attached(D.asm, i, cuId) :: r >= s.asmLastTrans[i])
            && (|| r == s.amLastTrans[slot]
                || (exists i :: 0 <= i < D.numUserAIM && Attached(D.aim, i, cuId) && r == s.aimLastTrans[i])
                || (exists i :: 0 <= i < D.numUserASM && Attached(D.asm, i, cuId) && r == s.asmLastTrans[i]))
  {
    hide LastAttached, Attached;
    LastAttachedIsMax(D.aim, s.aimLastTrans, cuId, s.amLastTrans[slot], |s.aimLastTrans|);
    var r := LastAttached(D.aim, s.aimLastTrans, cuId, s.amLastTrans[slot], |s.aimLastTrans|);
    LastAttachedIsMax(D.asm, s.asmLastTrans, cuId, r, |s.asmLastTrans|);
  }

  datatype MonitorKind = AM | AIM | ASM

  /** Whether a packet counts as activity of a monitor. Stream starts never do; a read or write start
      does only if it finds another one outstanding. */
  predicate Counts(D: Design, d: Db, p: Packet, monitor: MonitorKind, slot: nat) {
    var id := TraceId(p);
    && !IsClockTraining(p)
    && match monitor
       case AM => IsAM(id) && (id - MIN_TRACE_ID_AM) / 16 == slot && slot in D.am
       case AIM => IsAIM(id) && id / 2 == slot && slot in D.aim
                   && (Flags(p) != 0 || Queue(d.starts, id, if id % 2 == 1 then KERNEL_WRITE else KERNEL_READ) != [])
       case ASM => IsASM(id) && id - MIN_TRACE_ID_ASM == slot && slot in D.asm && !Flag1(p)
  }

  /** Device time of the last packet that counts; `base` if none does. */
  function LastSeen(D: Design, s: State, ps: seq<Packet>, monitor: MonitorKind, slot: nat, base: nat): nat
    requires s.Fits(D)
  {
    if ps == [] then base
    else
      var before, p := ps[..|ps| - 1], ps[|ps| - 1];
      if Counts(D, Fold(D, s, before).db, p, monitor, slot) then DeviceTimestamp(p)
      else LastSeen(D, s, before, monitor, slot, base)
  }

  lemma StepSees(D: Design, s: State, p: Packet, slot: nat)
    requires s.Fits(D)
    ensures var s' := Step(D, s, p);
            var t := DeviceTimestamp(p);
            && (slot < D.numAM ==>
                  s'.amLastTrans[slot] == if Counts(D, s.db, p, AM, slot) then t else s.amLastTrans[slot])
            && (slot < D.numUserAIM ==>
                  s'.aimLastTrans[slot] == if Counts(D, s.db, p, AIM, slot) then t else s.aimLastTrans[slot])
            && (slot < D.numUserASM ==>
                  s'.asmLastTrans[slot] == if Counts(D, s.db, p, ASM, slot) then t else s.asmLastTrans[slot])
  {
    hide StallEvents, CloseCUTransfers, DataTransfer, StreamTransfer, Trained, TakeStart, OpenEvent, Found, Queue;
  }

  /** The three last-activity arrays hold, for every monitor, the time of the last packet that counts. */
  lemma {:induction false} LastTimesAreSeen(D: Design, s: State, ps: seq<Packet>, slot: nat)
    requires s.Fits(D)
    ensures var s' := Fold(D, s, ps);
            && (slot < D.numAM ==> s'.amLastTrans[slot] == LastSeen(D, s, ps, AM, slot, s.amLastTrans[slot]))
            && (slot < D.numUserAIM ==> s'.aimLastTrans[slot] == LastSeen(D, s, ps, AIM, slot, s.aimLastTrans[slot]))
            && (slot < D.numUserASM ==> s'.asmLastTrans[slot] == LastSeen(D, s, ps, ASM, slot, s.asmLastTrans[slot]))
  {
    hide Step, Counts;
    if ps != [] {
      var before := ps[..|ps| - 1];
      LastTimesAreSeen(D, s, before, slot);
      StepSees(D, Fold(D, s, before), ps[|ps| - 1], slot);
    }
  }

  lemma {:induction false} CloseCUsFrame(D: Design, s: State, n: nat)
    requires s.Fits(D) && n <= D.numAM
    ensures var s' := CloseCUs(D, s, n);
            && s' == s.(db := s'.db, cuStarts := s'.cuStarts)
            && s'.db.starts == s.db.starts
  {
    hide LastActivity;
    if n > 0 {
      CloseCUsFrame(D, s, n - 1);
    }
  }

  /** One start per slot is ended, and only if the CU or a monitor attached to it was ever seen after
      time 0. So a CU is left without outstanding starts if and only if it had none, or just one
      and some activity. */
  lemma {:induction false} CloseCUsLeaves(D: Design, s: State, n: nat, slot: nat)
    requires s.Fits(D) && slot < n <= D.numAM && (s.cuStarts[slot] != [] ==> slot in D.am)
    ensures CloseCUs(D, s, n).cuStarts[slot] == [] <==>
            || s.cuStarts[slot] == []
            || (|s.cuStarts[slot]| == 1 && LastActivity(D, s, slot, D.am[slot].cuIndex) > 0)
  {
    hide LastActivity, CloseCUs;
    var s1 := CloseCUs(D, s, n - 1);
    CloseCUsFrame(D, s, n - 1);
    CloseOneCU(D, s, n);
    if slot < n - 1 {
      CloseCUsLeaves(D, s, n - 1, slot);
    } else if s1.cuStarts[slot] != [] {
      SameActivity(D, s, s1, slot, D.am[slot].cuIndex);
    }
  }

  /** The last of the first n slots: its oldest start goes, if there was activity. */
  lemma CloseOneCU(D: Design, s: State, n: nat)
    requires s.Fits(D) && 0 < n <= D.numAM
    ensures var s1, slot := CloseCUs(D, s, n - 1), n - 1;
            var starts := s1.cuStarts[slot];
            CloseCUs(D, s, n).cuStarts ==
            if starts != [] && slot in D.am && LastActivity(D, s1, slot, D.am[slot].cuIndex) > 0 then
              s1.cuStarts[slot := starts[1..]]
            else s1.cuStarts
  {
    hide LastActivity, AddEvent, ToHost;
  }

  /** One CU and the AM that watches it. */
  const OneCU: Design := Design(map[0 := Monitor(0, 0, -1, false)], map[], map[], 1, 0, 0, 0, 0, [], map[0 := 0],
                                map[], 1.0, false)

  /** A CU start packet of that slot: trace id 65, and the start bit of the flags. */
  function CUStart(dev: nat): Packet
    requires dev < TIMESTAMP_RANGE
  {
    65 * 0x2_0000_0000_0000 + TIMESTAMP_RANGE + dev
  }

  lemma CUStarted(s: State, dev: nat)
    requires s.Fits(OneCU) && dev < TIMESTAMP_RANGE
    ensures var s' := Step(OneCU, s, CUStart(dev));
            s'.cuStarts == [s.cuStarts[0] + [(s.db.nextId, dev)]] && s'.amLastTrans == [dev]
  {
    hide StallEvents, CloseCUTransfers, OpenEvent;
    var p := CUStart(dev);
    assert p / TIMESTAMP_RANGE == 65 * 16 + 1;
    assert TraceId(p) == 65 && Flags(p) == 1 && DeviceTimestamp(p) == dev && !IsClockTraining(p);
    assert NibbleOf(65) == Nibble(true, false, false, false);
  }

  lemma EndKeepsCUs(s: State)
    requires s.Fits(OneCU)
    ensures EndProcess(OneCU, s).cuStarts == CloseCUs(OneCU, s, 1).cuStarts
  {
  }

  lemma FoldsOnePlus(s: State, ps: seq<Packet>, p: Packet)
    requires s.Fits(OneCU)
    ensures Fold(OneCU, s, ps + [p]) == Step(OneCU, Fold(OneCU, s, ps), p)
  {
    assert (ps + [p])[..|ps|] == ps;
  }

  /** Two executions hanging on one slot: only one of them is ended. */
  lemma SecondHangingStartSurvives()
    ensures OneCU.Valid()
            && |EndProcess(OneCU, Process(OneCU, Initial(OneCU), [CUStart(5), CUStart(7)])).cuStarts[0]| == 1
  {
    hide Step, LastActivity, AddEvent;
    var s0, ps := Initial(OneCU), [CUStart(5), CUStart(7)];
    assert [] + [CUStart(5)] == [CUStart(5)] && [CUStart(5)] + [CUStart(7)] == ps;
    FoldsOnePlus(s0, [], CUStart(5));
    FoldsOnePlus(s0, [CUStart(5)], CUStart(7));
    CUStarted(s0, 5);
    CUStarted(Step(OneCU, s0, CUStart(5)), 7);
    assert Sought(s0, ps) == s0;
    var s := Process(OneCU, s0, ps);
    LastActivityIsMax(OneCU, s, 0, 0);
    EndKeepsCUs(s);
    assert CloseCUs(OneCU, s, 0) == s;
  }

  /** An execution that started at device time 0, and nothing after it: it is not ended at all. */
  lemma StartAtZeroSurvives()
    ensures OneCU.Valid() && |EndProcess(OneCU, Process(OneCU, Initial(OneCU), [CUStart(0)])).cuStarts[0]| == 1
  {
    hide Step, AddEvent;
    var s0 := Initial(OneCU);
    assert [] + [CUStart(0)] == [CUStart(0)];
    FoldsOnePlus(s0, [], CUStart(0));
    CUStarted(s0, 0);
    assert Sought(s0, [CUStart(0)]) == s0;
    var s := Process(OneCU, s0, [CUStart(0)]);
    EndKeepsCUs(s);
    assert |s.aimLastTrans| == 0 && |s.asmLastTrans| == 0;
    assert LastActivity(OneCU, s, 0, 0) == 0;
    assert CloseCUs(OneCU, s, 0) == s;
  }

  lemma SameActivity(D: Design, s: State, s1: State, slot: nat, cuId: int)
    requires s.Fits(D) && s1.Fits(D) && slot < D.numAM && s1 == s.(db := s1.db, cuStarts := s1.cuStarts)
    ensures LastActivity(D, s1, slot, cuId) == LastActivity(D, s, slot, cuId)
  {
  }

  // ----- Reads and writes -----

  /** The pass looks each trace id up once; that is enough because there is at most one start. */
  lemma {:induction false} CloseTransfersEmpties(D: Design, d: Db, amLast: seq<nat>, cal: Calibration, n: nat)
    requires D.Valid() && |amLast| == D.numAM && n <= |D.userAIMsWithTrace| && Disciplined(d.starts)
    ensures var d' := CloseTransfers(D, d, amLast, cal, n);
            && Shrinks(d.starts, d'.starts)
            && forall i | 0 <= i < n ::
                 && Queue(d'.starts, D.userAIMsWithTrace[i].slotIndex * 2, KERNEL_READ) == []
                 && Queue(d'.starts, D.userAIMsWithTrace[i].slotIndex * 2 + 1, KERNEL_WRITE) == []
  {
    hide Queue, ApproxTransfers;
    if n > 0 {
      var mon := D.userAIMsWithTrace[n - 1];
      var d1 := CloseTransfers(D, d, amLast, cal, n - 1);
      CloseTransfersEmpties(D, d, amLast, cal, n - 1);
      ApproxTransfersMove(D, d1, amLast, cal, mon.slotIndex, mon, mon.cuIndex);
    }
  }

  // ----- Streams -----

  /** The loop runs until its queue is empty, and touches no other. */
  lemma {:induction false} CloseStreamEmpties(D: Design, d: Db, cal: Calibration, slot: nat, kind: EventType, cuId: int,
                                              amId: int, cuLast: nat, appx: nat)
    requires D.Valid() && kind != UNKNOWN_EVENT
    ensures var d' := CloseStream(D, d, cal, slot, kind, cuId, amId, cuLast, appx).0;
            && Only(d.starts, d'.starts, MIN_TRACE_ID_ASM + slot, kind)
            && Queue(d'.starts, MIN_TRACE_ID_ASM + slot, kind) == []
    decreases |Queue(d.starts, MIN_TRACE_ID_ASM + slot, kind)|
  {
    hide Queue, Take, Found;
    var key := MIN_TRACE_ID_ASM + slot;
    var start, d1 := Found(d.starts, key, kind), TakeStart(d, key, kind);
    TakeMoves(d, key, kind);
    UnknownMeansEmpty(d.starts, key, kind);
    if start.kind != UNKNOWN_EVENT {
      var end := ApproxEnd(D, cal, start.deviceTimestamp, amId, cuLast);
      var d2 := AddEvent(d1, End(start.eventID), kind, end.1, end.0, Site(slot, cuId, 0));
      CloseStreamEmpties(D, d2, cal, slot, kind, cuId, amId, cuLast, if appx < end.0 then end.0 else appx);
    }
  }

  /** `last` is the latest device time of the events from position `from` on, and `least`. */
  ghost predicate LatestSince(log: seq<Event>, from: nat, least: nat, last: nat) {
    && last >= least
    && (forall j | from <= j < |log| :: log[j].deviceTimestamp <= last)
    && (last == least || exists j :: from <= j < |log| && log[j].deviceTimestamp == last)
  }

  lemma {:induction false} CloseStreamLast(D: Design, d: Db, cal: Calibration, slot: nat, kind: EventType, cuId: int,
                                           amId: int, cuLast: nat, appx: nat, from: nat, least: nat)
    requires D.Valid() && from <= |d.log| && LatestSince(d.log, from, least, appx)
    ensures var r := CloseStream(D, d, cal, slot, kind, cuId, amId, cuLast, appx);
            d.log <= r.0.log && LatestSince(r.0.log, from, least, r.1)
    decreases |Queue(d.starts, MIN_TRACE_ID_ASM + slot, kind)|
  {
    hide Queue, Take, Found, ApproxEnd;
    var key := MIN_TRACE_ID_ASM + slot;
    var start, d1 := Found(d.starts, key, kind), TakeStart(d, key, kind);
    TakeRefines(d.starts, key, kind, key, kind);
    if start.kind != UNKNOWN_EVENT && Queue(d.starts, key, kind) != [] {
      var end := ApproxEnd(D, cal, start.deviceTimestamp, amId, cuLast);
      var d2 := AddEvent(d1, End(start.eventID), kind, end.1, end.0, Site(slot, cuId, 0));
      var appx' := if appx < end.0 then end.0 else appx;
      assert LatestSince(d2.log, from, least, appx') by { OneMoreLast(d.log, d2.log, from, least, appx); }
      CloseStreamLast(D, d2, cal, slot, kind, cuId, amId, cuLast, appx', from, least);
    }
  }

  lemma OneMoreLast(log: seq<Event>, log': seq<Event>, from: nat, least: nat, last: nat)
    requires LatestSince(log, from, least, last) && from <= |log| && |log'| == |log| + 1 && log'[..|log|] == log
    ensures var t := log'[|log|].deviceTimestamp;
            LatestSince(log', from, least, if last < t then t else last)
  {
    assert forall j | 0 <= j < |log| :: log'[j] == log[j];
  }

  /** The pass leaves, as an ASM's last time, the latest device time of the ends it has logged for it, 0 if
      there were none; other ASMs' times stay. */
  lemma CloseASMLast(D: Design, s: State, slot: nat)
    requires s.Fits(D) && slot < D.numUserASM && slot in D.asm
    ensures var s' := CloseASM(D, s, slot);
            && LatestSince(s'.db.log, |s.db.log|, 0, s'.asmLastTrans[slot])
            && forall i | 0 <= i < D.numUserASM && i != slot :: s'.asmLastTrans[i] == s.asmLastTrans[i]
  {
    hide CloseStream, LatestSince;
    var mon := D.asm[slot];
    var cuId, amId, kinds := mon.cuIndex, D.AccelMonOf(mon.cuIndex), StreamKinds(mon);
    var last, from := if amId == -1 then 0 else s.amLastTrans[amId], |s.db.log|;
    var r1 := CloseStream(D, s.db, s.cal, slot, kinds[0], cuId, amId, last, 0);
    var r2 := CloseStream(D, r1.0, s.cal, slot, kinds[1], cuId, amId, last, r1.1);
    NoneSince(s.db.log);
    CloseStreamLast(D, s.db, s.cal, slot, kinds[0], cuId, amId, last, 0, from, 0);
    CloseStreamLast(D, r1.0, s.cal, slot, kinds[1], cuId, amId, last, r1.1, from, 0);
    CloseStreamLast(D, r2.0, s.cal, slot, kinds[2], cuId, amId, last, r2.1, from, 0);
  }

  lemma NoneSince(log: seq<Event>)
    ensures LatestSince(log, |log|, 0, 0)
  {
  }

  /** What is left on a stream monitor: nothing of the three kinds the pass closes. */
  ghost predicate Left(m: Starts, m': Starts, slot: nat, mon: Monitor) {
    forall t: EventType :: Queue(m', MIN_TRACE_ID_ASM + slot, t) ==
                           if t in StreamKinds(mon) then [] else Queue(m, MIN_TRACE_ID_ASM + slot, t)
  }

  lemma CloseASMLeaves(D: Design, s: State, slot: nat)
    requires s.Fits(D) && slot < D.numUserASM
    ensures var m, m' := s.db.starts, CloseASM(D, s, slot).db.starts;
            && (forall k: nat, t: EventType :: k != MIN_TRACE_ID_ASM + slot ==> Queue(m', k, t) == Queue(m, k, t))
            && (slot in D.asm ==> Left(m, m', slot, D.asm[slot]))
            && (slot !in D.asm ==> m' == m)
  {
    hide Queue, CloseStream;
    if slot in D.asm {
      var mon := D.asm[slot];
      var amId := D.AccelMonOf(mon.cuIndex);
      var cuLast := if amId == -1 then 0 else s.amLastTrans[amId];
      var kinds := StreamKinds(mon);
      assert forall t: EventType :: t in kinds <==> t == kinds[0] || t == kinds[1] || t == kinds[2];
      var r1 := CloseStream(D, s.db, s.cal, slot, kinds[0], mon.cuIndex, amId, cuLast, 0);
      var r2 := CloseStream(D, r1.0, s.cal, slot, kinds[1], mon.cuIndex, amId, cuLast, r1.1);
      CloseStreamEmpties(D, s.db, s.cal, slot, kinds[0], mon.cuIndex, amId, cuLast, 0);
      CloseStreamEmpties(D, r1.0, s.cal, slot, kinds[1], mon.cuIndex, amId, cuLast, r1.1);
      CloseStreamEmpties(D, r2.0, s.cal, slot, kinds[2], mon.cuIndex, amId, cuLast, r2.1);
    }
  }

  lemma {:induction false} CloseStreamsLeaves(D: Design, s: State, n: nat)
    requires s.Fits(D) && n <= D.numUserASMWithTrace
    ensures var m, m' := s.db.starts, CloseStreams(D, s, n).db.starts;
            && (forall k: nat, t: EventType :: Queue(m', k, t) ==
                  if Covers(D, n, k, t) then [] else Queue(m, k, t))
  {
    hide Queue, CloseASM;
    if n > 0 {
      CloseStreamsLeaves(D, s, n - 1);
      CloseASMLeaves(D, CloseStreams(D, s, n - 1), n - 1);
    }
  }

  /** The pass over the first n ASMs closes this kind under this key. */
  ghost predicate Covers(D: Design, n: nat, key: nat, kind: EventType) {
    && MIN_TRACE_ID_ASM <= key < MIN_TRACE_ID_ASM + n
    && key - MIN_TRACE_ID_ASM in D.asm
    && kind in StreamKinds(D.asm[key - MIN_TRACE_ID_ASM])
  }

  /** A stream monitor's queues hold only the kinds its packets can have: the three of its direction
      and, on a read monitor, the plain write that an unflagged packet counts as. */
  predicate Expected(D: Design, key: nat, kind: EventType) {
    && MIN_TRACE_ID_ASM <= key
    && key - MIN_TRACE_ID_ASM in D.asm
    && (kind in StreamKinds(D.asm[key - MIN_TRACE_ID_ASM]) || Unflagged(D, key, kind))
  }

  /** A plain write on a read monitor. */
  predicate Unflagged(D: Design, key: nat, kind: EventType) {
    && MIN_TRACE_ID_ASM <= key
    && key - MIN_TRACE_ID_ASM in D.asm
    && D.asm[key - MIN_TRACE_ID_ASM].isStreamRead
    && kind == KERNEL_STREAM_WRITE
  }

  ghost predicate StreamsFit(D: Design, m: Starts) {
    forall k: nat, t: EventType :: k >= MIN_TRACE_ID_ASM && Queue(m, k, t) != [] ==> Expected(D, k, t)
  }

  lemma StepStreamsFit(D: Design, s: State, p: Packet)
    requires s.Fits(D) && StreamsFit(D, s.db.starts)
    ensures StreamsFit(D, Step(D, s, p).db.starts)
  {
    hide Queue, AMEvent, AIMEvent, StreamTransfer, Trained;
    var id, host := TraceId(p), ToHost(s.cal, DeviceTimestamp(p));
    if !IsClockTraining(p) && IsASM(id) {
      var own := id - MIN_TRACE_ID_ASM;
      if own in D.asm {
        var kind := StreamKind(D.asm[own], p);
        StreamMoves(D, s.db, kind, p, host, Site(own, D.asm[own].cuIndex, 0));
        KindExpected(D, id, p);
      }
    } else {
      OtherStreamsStay(D, s, p);
    }
  }

  lemma KindExpected(D: Design, key: nat, p: Packet)
    requires MIN_TRACE_ID_ASM <= key && key - MIN_TRACE_ID_ASM in D.asm
    ensures Expected(D, key, StreamKind(D.asm[key - MIN_TRACE_ID_ASM], p))
  {
    var kinds := StreamKinds(D.asm[key - MIN_TRACE_ID_ASM]);
    assert kinds[0] in kinds && kinds[1] in kinds && kinds[2] in kinds;
  }

  /** Packets of other monitors add to no stream queue. */
  lemma OtherStreamsStay(D: Design, s: State, p: Packet)
    requires s.Fits(D) && (IsClockTraining(p) || !IsASM(TraceId(p)))
    ensures NoMore(s.db.starts, Step(D, s, p).db.starts)
  {
    hide Queue, AMEvent, DataTransfer, Trained;
    var id, host := TraceId(p), ToHost(s.cal, DeviceTimestamp(p));
    if IsClockTraining(p) {
    } else if IsAM(id) {
      AMAddsLow(D, s, p, host);
    } else if IsAIM(id) {
      var own := id / 2;
      if own in D.aim {
        var kind := if id % 2 == 1 then KERNEL_WRITE else KERNEL_READ;
        DataTransferMoves(D, s.db, kind, p, host, Site(own, D.aim[own].cuIndex, D.MemStrId(D.aim[own])));
      }
    }
  }

  /** No queue of the stream range grew. */
  ghost predicate NoMore(m: Starts, m': Starts) {
    forall k: nat, t: EventType :: k >= MIN_TRACE_ID_ASM ==> |Queue(m', k, t)| <= |Queue(m, k, t)|
  }

  lemma SignalsAddLow(D: Design, s: State, p: Packet, host: real, slot: nat, cuId: int)
    requires s.Fits(D) && slot < D.numAM && AMKey(slot) < MIN_TRACE_ID_ASM
    ensures NoMore(s.db.starts, AMSignals(D, s, p, host, slot, cuId).db.starts)
  {
    hide Queue, CUEvent, StallEvents;
    var fired := NibbleOf(TraceId(p));
    CUMoves(D, s, p, host, slot, cuId);
    var s1 := if fired.cu then CUEvent(D, s, p, host, slot, cuId) else s;
    StallsMove(s1.db, fired, s1.traceIDs[slot], AMKey(slot), host, DeviceTimestamp(p), Site(slot, cuId, 0));
  }

  lemma CloseAddsLow(D: Design, s: State, p: Packet, host: real, slot: nat, cuId: int)
    requires s.Fits(D) && slot < D.numAM && AMKey(slot) < MIN_TRACE_ID_ASM
    ensures NoMore(s.db.starts, AMClose(D, s, p, host, slot, cuId).db.starts)
  {
    hide Queue, StallEvents, CloseCUTransfers;
    CloseCUTransfersMove(D, s.db, s.amLastTrans, s.cal, cuId, D.numAIM);
    var d1 := if cuId == -1 then s.db else CloseCUTransfers(D, s.db, s.amLastTrans, s.cal, cuId, D.numAIM);
    StallsMove(d1, s.traceIDs[slot], s.traceIDs[slot], AMKey(slot), host - D.HalfCycleMs(), DeviceTimestamp(p),
               Site(slot, cuId, 0));
  }

  lemma AMAddsLow(D: Design, s: State, p: Packet, host: real)
    requires s.Fits(D) && IsAM(TraceId(p))
    ensures NoMore(s.db.starts, AMEvent(D, s, p, host).db.starts)
  {
    hide Queue, AMSignals, AMClose;
    var slot := (TraceId(p) - MIN_TRACE_ID_AM) / 16;
    if slot in D.am {
      assert AMKey(slot) < MIN_TRACE_ID_ASM;
      SignalsAddLow(D, s, p, host, slot, D.am[slot].cuIndex);
      CloseAddsLow(D, AMSignals(D, s, p, host, slot, D.am[slot].cuIndex), p, host, slot, D.am[slot].cuIndex);
    }
  }

  // ----- The whole pass -----

  /** After the pass a read or write queue of a traced user AIM is empty, a queue of a covered ASM is
      empty unless it holds plain writes of a read monitor, which stay as they were, and CU and
      stall queues have not moved. */
  lemma EndProcessLeaves(D: Design, s: State, key: nat, kind: EventType)
    requires s.Fits(D) && Disciplined(s.db.starts) && StreamsFit(D, s.db.starts)
    ensures var m, m' := s.db.starts, EndProcess(D, s).db.starts;
            && (forall mon | mon in D.userAIMsWithTrace ::
                  && Queue(m', mon.slotIndex * 2, KERNEL_READ) == []
                  && Queue(m', mon.slotIndex * 2 + 1, KERNEL_WRITE) == [])
            && (MIN_TRACE_ID_ASM <= key < MIN_TRACE_ID_ASM + D.numUserASMWithTrace ==>
                  Queue(m', key, kind) == if Unflagged(D, key, kind) then Queue(m, key, kind) else [])
            && (key < MIN_TRACE_ID_ASM && !IsTransfer(kind) ==> Queue(m', key, kind) == Queue(m, key, kind))
  {
    hide CloseCUs, CloseTransfers, CloseStreams, Queue;
    CloseCUsFrame(D, s, D.numAM);
    var s1 := CloseCUs(D, s, D.numAM);
    var d2 := CloseTransfers(D, s1.db, s1.amLastTrans, s1.cal, |D.userAIMsWithTrace|);
    CloseTransfersEmpties(D, s1.db, s1.amLastTrans, s1.cal, |D.userAIMsWithTrace|);
    CloseStreamsLeaves(D, s1.(db := d2), D.numUserASMWithTrace);
    var m' := EndProcess(D, s).db.starts;
    forall mon | mon in D.userAIMsWithTrace
      ensures Queue(m', mon.slotIndex * 2, KERNEL_READ) == []
      ensures Queue(m', mon.slotIndex * 2 + 1, KERNEL_WRITE) == []
    {
      var i :| 0 <= i < |D.userAIMsWithTrace| && D.userAIMsWithTrace[i] == mon;
      assert Queue(d2.starts, D.userAIMsWithTrace[i].slotIndex * 2, KERNEL_READ) == [];
    }
    assert Queue(m', key, kind) ==
           if Covers(D, D.numUserASMWithTrace, key, kind) then [] else Queue(d2.starts, key, kind);
    if MIN_TRACE_ID_ASM <= key < MIN_TRACE_ID_ASM + D.numUserASMWithTrace {
      NotBoth(D, key, kind);
      if Unflagged(D, key, kind) {
        assert Queue(d2.starts, key, kind) == Queue(s.db.starts, key, kind);
      } else if !Expected(D, key, kind) {
        assert Queue(s.db.starts, key, kind) == [];
      }
    }
  }

  lemma NotBoth(D: Design, key: nat, kind: EventType)
    ensures Unflagged(D, key, kind) ==> kind !in StreamKinds(D.asm[key - MIN_TRACE_ID_ASM])
  {
  }

  /** A well-flagged stream packet says whether it is about activity, starvation or a stall. */
  predicate WellFlagged(p: Packet) {
    Flag8(p) || Flag2(p) || Flag4(p)
  }

  /** The pass leaves nothing outstanding on a covered ASM if and only if no start of an unflagged
      packet was outstanding on it as a read monitor. */
  lemma StreamPassCompleteIff(D: Design, s: State, key: nat)
    requires s.Fits(D) && Disciplined(s.db.starts) && StreamsFit(D, s.db.starts)
    requires MIN_TRACE_ID_ASM <= key < MIN_TRACE_ID_ASM + D.numUserASMWithTrace
    ensures (forall kind: EventType :: Queue(EndProcess(D, s).db.starts, key, kind) == [])
            <==> !(Unflagged(D, key, KERNEL_STREAM_WRITE) && Queue(s.db.starts, key, KERNEL_STREAM_WRITE) != [])
  {
    hide EndProcess, Queue;
    forall kind: EventType
      ensures Queue(EndProcess(D, s).db.starts, key, kind) ==
              if Unflagged(D, key, kind) then Queue(s.db.starts, key, kind) else []
    {
      EndProcessLeaves(D, s, key, kind);
    }
  }

  /** No plain write waits on any read monitor. */
  ghost predicate NoUnflagged(D: Design, m: Starts) {
    forall k: nat, t: EventType :: Unflagged(D, k, t) ==> Queue(m, k, t) == []
  }

  lemma StepNoUnflagged(D: Design, s: State, p: Packet)
    requires s.Fits(D) && NoUnflagged(D, s.db.starts) && (IsASM(TraceId(p)) ==> WellFlagged(p))
    ensures NoUnflagged(D, Step(D, s, p).db.starts)
  {
    hide Queue, AMEvent, AIMEvent, StreamTransfer, Trained;
    var id, host := TraceId(p), ToHost(s.cal, DeviceTimestamp(p));
    if !IsClockTraining(p) && IsASM(id) {
      var own := id - MIN_TRACE_ID_ASM;
      if own in D.asm {
        StreamMoves(D, s.db, StreamKind(D.asm[own], p), p, host, Site(own, D.asm[own].cuIndex, 0));
      }
    } else {
      OtherStreamsStay(D, s, p);
    }
  }

  predicate AllWellFlagged(ps: seq<Packet>) {
    forall p | p in ps :: IsASM(TraceId(p)) ==> WellFlagged(p)
  }

  lemma {:induction false} FoldStreams(D: Design, s: State, ps: seq<Packet>)
    requires s.Fits(D) && StreamsFit(D, s.db.starts)
    ensures StreamsFit(D, Fold(D, s, ps).db.starts)
    ensures NoUnflagged(D, s.db.starts) && AllWellFlagged(ps) ==> NoUnflagged(D, Fold(D, s, ps).db.starts)
  {
    hide StreamsFit, NoUnflagged, Step, WellFlagged;
    if ps != [] {
      var s1, p := Fold(D, s, ps[..|ps| - 1]), ps[|ps| - 1];
      FoldStreams(D, s, ps[..|ps| - 1]);
      StepStreamsFit(D, s1, p);
      if NoUnflagged(D, s.db.starts) && AllWellFlagged(ps) {
        StepNoUnflagged(D, s1, p);
      }
    }
  }

  lemma InitialStreams(D: Design)
    requires D.Valid()
    ensures StreamsFit(D, Initial(D).db.starts) && NoUnflagged(D, Initial(D).db.starts)
  {
  }

  /** An unflagged start on a read monitor survives the pass. */
  lemma UnflaggedStartSurvives()
    ensures exists D: Design, p: Packet, key: nat ::
              && D.Valid() && MIN_TRACE_ID_ASM <= key < MIN_TRACE_ID_ASM + D.numUserASMWithTrace && !WellFlagged(p)
              && Queue(EndProcess(D, Fold(D, Initial(D), [p])).db.starts, key, KERNEL_STREAM_WRITE) != []
  {
    hide EndProcess, Queue;
    var D := Design(map[], map[], map[0 := Monitor(0, -1, -1, true)], 0, 0, 0, 1, 1, [], map[], map[], 300.0, true);
    // Trace id 576 with only the start bit of the flags.
    var p: Packet := 576 * 0x2_0000_0000_0000 + 0x2000_0000_0000;
    var s0 := Initial(D);
    assert TraceId(p) == 576 && Flags(p) == 1 && !IsClockTraining(p);
    assert Fold(D, s0, []) == s0;
    assert [p][..0] == [];
    var s := Fold(D, s0, [p]);
    assert s == Step(D, s0, p);
    StreamMoves(D, s0.db, KERNEL_STREAM_WRITE, p, ToHost(s0.cal, DeviceTimestamp(p)), Site(0, -1, 0));
    InitialInvariants(D);
    InitialStreams(D);
    FoldInvariants(D, s0, [p]);
    FoldStreams(D, s0, [p]);
    EndProcessLeaves(D, s, 576, KERNEL_STREAM_WRITE);
  }

  // ----- When the invented ends happen -----

  /** The last time a CU was seen, as far as its AM tells; 0 without one. */
  function CuLast(D: Design, amLast: seq<nat>, cuId: int): nat
    requires D.Valid() && |amLast| == D.numAM
  {
    if cuId != -1 && cuId in D.accelMon && D.accelMon[cuId] >= 0 then amLast[D.accelMon[cuId]] else 0
  }

  /** The length, in host time, of an event whose end is invented: up to the last time its CU was seen,
      if that is later than its start, else half a cycle. */
  function Added(D: Design, cal: Calibration, startDev: nat, cuLast: nat): real
    requires D.Valid()
  {
    if startDev < cuLast then cal.slope * ((cuLast - startDev) as real) / 1000000.0 else D.HalfCycleMs()
  }

  lemma AddedPositive(D: Design, cal: Calibration, startDev: nat, cuLast: nat)
    requires D.Valid() && cal.slope > 0.0
    ensures Added(D, cal, startDev, cuLast) > 0.0
  {
  }

  /** An invented end lies on the line that length after its start's device time. */
  lemma ApproxEndIs(D: Design, cal: Calibration, startDev: nat, amId: int, cuLast: nat)
    requires D.Valid() && (amId == -1 ==> cuLast == 0)
    ensures ApproxEnd(D, cal, startDev, amId, cuLast).1 == ToHost(cal, startDev) + Added(D, cal, startDev, cuLast)
    ensures ApproxEnd(D, cal, startDev, amId, cuLast).0 == if startDev < cuLast then cuLast else startDev
  {
    if startDev < cuLast {
      var n := (cuLast - startDev) as real;
      assert (cuLast as real) == (startDev as real) + n;
      assert cal.slope * (cuLast as real) == cal.slope * (startDev as real) + cal.slope * n;
    }
  }

  /** The AM slot of a CU, -1 if it has none. */
  function AMOf(D: Design, cuId: int): int {
    if cuId != -1 && cuId in D.accelMon then D.accelMon[cuId] else -1
  }

  function MemOf(D: Design, mon: Monitor): nat {
    if mon.memIndex != -1 && mon.memIndex in D.memoryTag then D.memoryTag[mon.memIndex] else 0
  }

  /** A monitor of AIM slot m, by the table of slots or by the list of user AIMs with trace. */
  predicate Watches(D: Design, mon: Monitor, m: nat) {
    (m in D.aim && mon == D.aim[m]) || (mon in D.userAIMsWithTrace && mon.slotIndex == m)
  }

  /** Where an invented end of something that started on monitor m is put: a stream's on its monitor; a
      read's or write's with its CU and memory, but on the CU's AM slot (-1 in 32 bits if there is none). */
  ghost predicate Placed(D: Design, kind: EventType, m: nat, site: Site) {
    if IsTransfer(kind) then
      && site.monitorId == (if AMOf(D, site.cuId) < 0 then 0xFFFF_FFFF else AMOf(D, site.cuId))
      && exists mon :: Watches(D, mon, m) && site.cuId == mon.cuIndex && site.memStrId == MemOf(D, mon)
    else m in D.asm && site == Site(m, D.asm[m].cuIndex, 0)
  }

  /** Event j ends an earlier start of its kind, in its place; on the line, the invented length after
      that start's device time; its own device time is the CU's last, if later, else the start's. */
  ghost predicate InventedEnd(D: Design, log: seq<Event>, j: nat, cal: Calibration, amLast: seq<nat>)
    requires D.Valid() && |amLast| == D.numAM && j < |log|
  {
    var e := log[j];
    && 1 <= e.startId <= j
    && var start, cuLast := log[e.startId - 1], CuLast(D, amLast, e.cuId);
       && start.role == Begin && start.kind == e.kind
       && Placed(D, e.kind, start.monitorId, Site(e.monitorId, e.cuId, e.memStrId))
       && e.timestamp == ToHost(cal, start.deviceTimestamp) + Added(D, cal, start.deviceTimestamp, cuLast)
       && e.deviceTimestamp == if start.deviceTimestamp < cuLast then cuLast else start.deviceTimestamp
  }

  /** So are all events from position `from` on. */
  ghost predicate InventedSince(D: Design, log: seq<Event>, from: nat, cal: Calibration, amLast: seq<nat>)
    requires D.Valid() && |amLast| == D.numAM
  {
    forall j | from <= j < |log| :: InventedEnd(D, log, j, cal, amLast)
  }

  lemma InventedStays(D: Design, log: seq<Event>, more: seq<Event>, j: nat, cal: Calibration, amLast: seq<nat>)
    requires D.Valid() && |amLast| == D.numAM && j < |log| && InventedEnd(D, log, j, cal, amLast) && log <= more
    ensures InventedEnd(D, more, j, cal, amLast)
  {
    hide Placed, Added, CuLast, ToHost;
  }

  lemma OneInvented(D: Design, d: Db, cus: seq<seq<(nat, nat)>>, amLast: seq<nat>, cal: Calibration, key: nat,
                    kind: EventType, site: Site, from: nat)
    requires D.Valid() && |amLast| == D.numAM && kind != KERNEL && kind != UNKNOWN_EVENT
    requires Ok(d, cus) && InventedSince(D, d.log, from, cal, amLast)
    requires Found(d.starts, key, kind).kind != UNKNOWN_EVENT
    requires forall m: nat :: StartKey(kind, m) == key ==> Placed(D, kind, m, site)
    ensures var start, amId := Found(d.starts, key, kind), D.AccelMonOf(site.cuId);
            var end := ApproxEnd(D, cal, start.deviceTimestamp, amId, CuLast(D, amLast, site.cuId));
            var d' := AddEvent(TakeStart(d, key, kind), End(start.eventID), kind, end.1, end.0, site);
            InventedSince(D, d'.log, from, cal, amLast)
  {
    hide Found, Ok, Take, ApproxEnd, Added, CuLast, StartKey, Placed, InventedEnd;
    var start, amId := Found(d.starts, key, kind), D.AccelMonOf(site.cuId);
    var cuLast := CuLast(D, amLast, site.cuId);
    assert amId == -1 ==> cuLast == 0 by { NoAM(D, amLast, site.cuId); }
    Taken(d, cus, key, kind);
    ApproxEndIs(D, cal, start.deviceTimestamp, amId, cuLast);
    var end := ApproxEnd(D, cal, start.deviceTimestamp, amId, cuLast);
    var log' := AddEvent(TakeStart(d, key, kind), End(start.eventID), kind, end.1, end.0, site).log;
    forall j | from <= j < |log'| ensures InventedEnd(D, log', j, cal, amLast) {
      if j < |d.log| {
        InventedStays(D, d.log, log', j, cal, amLast);
      } else {
        LastIsInvented(D, log', start.eventID, kind, end, site, cal, amLast);
      }
    }
  }

  lemma LastIsInvented(D: Design, log: seq<Event>, id: nat, kind: EventType, end: (nat, real), site: Site,
                       cal: Calibration, amLast: seq<nat>)
    requires D.Valid() && |amLast| == D.numAM && |log| > 1 && 1 <= id < |log|
    requires var start, cuLast := log[id - 1], CuLast(D, amLast, site.cuId);
             && start.role == Begin && start.kind == kind && Placed(D, kind, start.monitorId, site)
             && end.1 == ToHost(cal, start.deviceTimestamp) + Added(D, cal, start.deviceTimestamp, cuLast)
             && end.0 == if start.deviceTimestamp < cuLast then cuLast else start.deviceTimestamp
    requires var e := log[|log| - 1];
             && e.role == End(id) && e.kind == kind && e.timestamp == end.1 && e.deviceTimestamp == end.0
             && Site(e.monitorId, e.cuId, e.memStrId) == site
    ensures InventedEnd(D, log, |log| - 1, cal, amLast)
  {
    hide Placed, Added, CuLast, ToHost;
  }

  lemma NoAM(D: Design, amLast: seq<nat>, cuId: int)
    requires D.Valid() && |amLast| == D.numAM
    ensures D.AccelMonOf(cuId) == -1 ==> CuLast(D, amLast, cuId) == 0
  {
  }

  lemma {:induction false} StreamInvented(D: Design, d: Db, cus: seq<seq<(nat, nat)>>, amLast: seq<nat>,
                                          cal: Calibration, slot: nat, kind: EventType, cuId: int, appx: nat, from: nat)
    requires D.Valid() && |amLast| == D.numAM && IsStream(kind) && slot in D.asm && cuId == D.asm[slot].cuIndex
    requires Ok(d, cus) && InventedSince(D, d.log, from, cal, amLast)
    ensures var amId, cuLast := D.AccelMonOf(cuId), CuLast(D, amLast, cuId);
            var d' := CloseStream(D, d, cal, slot, kind, cuId, amId, cuLast, appx).0;
            InventedSince(D, d'.log, from, cal, amLast)
    decreases |Queue(d.starts, MIN_TRACE_ID_ASM + slot, kind)|
  {
    hide Ok, Loose, Take, Found, InventedSince, ApproxEnd, CuLast;
    var key, site := MIN_TRACE_ID_ASM + slot, Site(slot, cuId, 0);
    var amId, cuLast := D.AccelMonOf(cuId), CuLast(D, amLast, cuId);
    var start := Found(d.starts, key, kind);
    Taken(d, cus, key, kind);
    TakeRefines(d.starts, key, kind, key, kind);
    if start.kind != UNKNOWN_EVENT && Queue(d.starts, key, kind) != [] {
      var end := ApproxEnd(D, cal, start.deviceTimestamp, amId, cuLast);
      var d1 := AddEvent(TakeStart(d, key, kind), End(start.eventID), kind, end.1, end.0, site);
      EndInHand(TakeStart(d, key, kind), cus, start.eventID, kind, end.1, end.0, site);
      OneInvented(D, d, cus, amLast, cal, key, kind, site, from);
      StreamInvented(D, d1, cus, amLast, cal, slot, kind, cuId, if appx < end.0 then end.0 else appx, from);
    }
  }

  lemma TransfersInvented(D: Design, d: Db, cus: seq<seq<(nat, nat)>>, amLast: seq<nat>, cal: Calibration,
                          slot: nat, mon: Monitor, cuId: int, from: nat)
    requires D.Valid() && |amLast| == D.numAM && Ok(d, cus) && InventedSince(D, d.log, from, cal, amLast)
    requires Watches(D, mon, slot) && cuId == mon.cuIndex
    ensures InventedSince(D, ApproxTransfers(D, d, amLast, cal, slot, mon, cuId).log, from, cal, amLast)
  {
    hide Ok, Take, Found, InventedSince, ApproxEnd;
    var amId, mem := D.AccelMonOf(cuId), D.MemStrId(mon);
    var site := Site(AsUint32(amId), cuId, mem);
    var d1 := ApproxTransfer(D, d, amLast, cal, KERNEL_READ, slot * 2, amId, cuId, mem);
    ApproxTransferOk(D, d, cus, amLast, cal, KERNEL_READ, slot * 2, amId, cuId, mem);
    if Found(d.starts, slot * 2, KERNEL_READ).kind != UNKNOWN_EVENT {
      OneInvented(D, d, cus, amLast, cal, slot * 2, KERNEL_READ, site, from);
    }
    if Found(d1.starts, slot * 2 + 1, KERNEL_WRITE).kind != UNKNOWN_EVENT {
      OneInvented(D, d1, cus, amLast, cal, slot * 2 + 1, KERNEL_WRITE, site, from);
    }
  }

  /** The reads and writes that the end of a CU closes are closed in the same way. */
  lemma {:induction false} CUTransfersInvented(D: Design, d: Db, cus: seq<seq<(nat, nat)>>, amLast: seq<nat>,
                                               cal: Calibration, cuId: int, n: nat, from: nat)
    requires D.Valid() && |amLast| == D.numAM && Ok(d, cus) && InventedSince(D, d.log, from, cal, amLast)
    ensures InventedSince(D, CloseCUTransfers(D, d, amLast, cal, cuId, n).log, from, cal, amLast)
  {
    hide Ok, ApproxTransfers, InventedSince;
    if n > 0 {
      var d1 := CloseCUTransfers(D, d, amLast, cal, cuId, n - 1);
      CUTransfersInvented(D, d, cus, amLast, cal, cuId, n - 1, from);
      CloseCUTransfersOk(D, d, cus, amLast, cal, cuId, n - 1);
      if n - 1 in D.aim && D.aim[n - 1].cuIndex == cuId {
        TransfersInvented(D, d1, cus, amLast, cal, n - 1, D.aim[n - 1], cuId, from);
      }
    }
  }

  lemma {:induction false} AllTransfersInvented(D: Design, d: Db, cus: seq<seq<(nat, nat)>>, amLast: seq<nat>,
                                                cal: Calibration, n: nat, from: nat)
    requires D.Valid() && |amLast| == D.numAM && n <= |D.userAIMsWithTrace|
    requires Ok(d, cus) && InventedSince(D, d.log, from, cal, amLast)
    ensures InventedSince(D, CloseTransfers(D, d, amLast, cal, n).log, from, cal, amLast)
  {
    hide Ok, ApproxTransfers, InventedSince;
    if n > 0 {
      var mon, d1 := D.userAIMsWithTrace[n - 1], CloseTransfers(D, d, amLast, cal, n - 1);
      AllTransfersInvented(D, d, cus, amLast, cal, n - 1, from);
      CloseTransfersOk(D, d, cus, amLast, cal, n - 1);
      TransfersInvented(D, d1, cus, amLast, cal, mon.slotIndex, mon, mon.cuIndex, from);
    }
  }

  lemma ASMInvented(D: Design, s: State, slot: nat, from: nat)
    requires s.Fits(D) && slot < D.numUserASM
    requires Ok(s.db, s.cuStarts) && InventedSince(D, s.db.log, from, s.cal, s.amLastTrans)
    ensures InventedSince(D, CloseASM(D, s, slot).db.log, from, s.cal, s.amLastTrans)
  {
    hide Ok, CloseStream, InventedSince;
    if slot in D.asm {
      var mon, am := D.asm[slot], s.amLastTrans;
      var amId, cuId := D.AccelMonOf(mon.cuIndex), mon.cuIndex;
      var last, kinds := CuLast(D, am, cuId), StreamKinds(mon);
      var r1 := CloseStream(D, s.db, s.cal, slot, kinds[0], cuId, amId, last, 0);
      var r2 := CloseStream(D, r1.0, s.cal, slot, kinds[1], cuId, amId, last, r1.1);
      CloseStreamOk(D, s.db, s.cuStarts, s.cal, slot, kinds[0], cuId, amId, last, 0);
      CloseStreamOk(D, r1.0, s.cuStarts, s.cal, slot, kinds[1], cuId, amId, last, r1.1);
      StreamInvented(D, s.db, s.cuStarts, am, s.cal, slot, kinds[0], cuId, 0, from);
      StreamInvented(D, r1.0, s.cuStarts, am, s.cal, slot, kinds[1], cuId, r1.1, from);
      StreamInvented(D, r2.0, s.cuStarts, am, s.cal, slot, kinds[2], cuId, r2.1, from);
    }
  }

  lemma {:induction false} StreamsInvented(D: Design, s: State, n: nat, from: nat)
    requires s.Fits(D) && n <= D.numUserASMWithTrace
    requires Ok(s.db, s.cuStarts) && InventedSince(D, s.db.log, from, s.cal, s.amLastTrans)
    ensures InventedSince(D, CloseStreams(D, s, n).db.log, from, s.cal, s.amLastTrans)
    ensures CloseStreams(D, s, n).cal == s.cal && CloseStreams(D, s, n).amLastTrans == s.amLastTrans
  {
    hide Ok, InventedSince, CloseStream;
    if n > 0 {
      StreamsInvented(D, s, n - 1, from);
      CloseStreamsOk(D, s, n - 1);
      ASMInvented(D, CloseStreams(D, s, n - 1), n - 1, from);
    }
  }

  /** Where in host time the read, write and stream passes put the ends they invent. */
  lemma InventedEnds(D: Design, s: State)
    requires s.Fits(D) && Ok(s.db, s.cuStarts)
    ensures InventedSince(D, EndProcess(D, s).db.log, |CloseCUs(D, s, D.numAM).db.log|, s.cal, s.amLastTrans)
  {
    hide Ok, CloseCUs, CloseTransfers, CloseStreams, Added, CuLast;
    CloseCUsOk(D, s, D.numAM);
    CloseCUsFrame(D, s, D.numAM);
    var s1 := CloseCUs(D, s, D.numAM);
    var from := |s1.db.log|;
    CloseTransfersOk(D, s1.db, s1.cuStarts, s1.amLastTrans, s1.cal, |D.userAIMsWithTrace|);
    AllTransfersInvented(D, s1.db, s1.cuStarts, s1.amLastTrans, s1.cal, |D.userAIMsWithTrace|, from);
    var s2 := s1.(db := CloseTransfers(D, s1.db, s1.amLastTrans, s1.cal, |D.userAIMsWithTrace|));
    StreamsInvented(D, s2, D.numUserASMWithTrace, from);
  }

  // ----- The discipline of the queues lasts through the end of the trace -----

  lemma EndDisciplined(D: Design, s: State)
    requires s.Fits(D) && Disciplined(s.db.starts) && StreamsFit(D, s.db.starts)
    ensures Disciplined(EndProcess(D, s).db.starts) && StreamsFit(D, EndProcess(D, s).db.starts)
    ensures NoUnflagged(D, s.db.starts) ==> NoUnflagged(D, EndProcess(D, s).db.starts)
  {
    hide CloseCUs, CloseTransfers, CloseStreams, Queue;
    CloseCUsFrame(D, s, D.numAM);
    var s1 := CloseCUs(D, s, D.numAM);
    CloseTransfersEmpties(D, s1.db, s1.amLastTrans, s1.cal, |D.userAIMsWithTrace|);
    var s2 := s1.(db := CloseTransfers(D, s1.db, s1.amLastTrans, s1.cal, |D.userAIMsWithTrace|));
    CloseStreamsLeaves(D, s2, D.numUserASMWithTrace);
  }

  lemma {:induction false} FoldDisciplined(D: Design, s: State, ps: seq<Packet>)
    requires s.Fits(D) && Disciplined(s.db.starts)
    ensures Disciplined(Fold(D, s, ps).db.starts)
  {
    hide Disciplined, Step;
    if ps != [] {
      FoldDisciplined(D, s, ps[..|ps| - 1]);
      StepDisciplined(D, Fold(D, s, ps[..|ps| - 1]), ps[|ps| - 1]);
    }
  }

  lemma {:induction false} RunDisciplined(D: Design, s: State, calls: seq<Call>)
    requires s.Fits(D) && Disciplined(s.db.starts) && StreamsFit(D, s.db.starts)
    ensures Disciplined(RunCalls(D, s, calls).db.starts) && StreamsFit(D, RunCalls(D, s, calls).db.starts)
    ensures NoUnflagged(D, s.db.starts) && (forall c | c in calls && c.Buffer? :: AllWellFlagged(c.packets)) ==>
              NoUnflagged(D, RunCalls(D, s, calls).db.starts)
  {
    hide Disciplined, StreamsFit, Fold, EndProcess, NoUnflagged, WellFlagged;
    if calls != [] {
      RunDisciplined(D, s, calls[..|calls| - 1]);
      var s1 := RunCalls(D, s, calls[..|calls| - 1]);
      match calls[|calls| - 1]
      case Buffer(ps) =>
        FoldDisciplined(D, Sought(s1, ps), Interpreted(s1, ps));
        FoldStreams(D, Sought(s1, ps), Interpreted(s1, ps));
      case EndOfTrace => EndDisciplined(D, s1);
    }
  }

  /** Whatever buffers of well-flagged stream packets arrived and however often the trace was ended
      before, the pass leaves no activity, stall or starve start outstanding on any covered ASM. */
  lemma WellFlaggedStreamsAllEnd(D: Design, calls: seq<Call>, key: nat, kind: EventType)
    requires D.Valid() && MIN_TRACE_ID_ASM <= key < MIN_TRACE_ID_ASM + D.numUserASMWithTrace
    requires forall c | c in calls && c.Buffer? :: AllWellFlagged(c.packets)
    ensures Queue(EndProcess(D, RunCalls(D, Initial(D), calls)).db.starts, key, kind) == []
  {
    hide EndProcess, RunCalls, Queue, Mirrored, Disciplined, StreamsFit;
    InitialInvariants(D);
    InitialStreams(D);
    RunDisciplined(D, Initial(D), calls);
    EndProcessLeaves(D, RunCalls(D, Initial(D), calls), key, kind);
  }
}
