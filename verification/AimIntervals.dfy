/** The intervals read and write packets make: with increasing device times and a nominal slope
    they have positive length and do not overlap, invented ends and pulses included. */
module AimIntervals {
  import opened TraceTypes
  import opened Packets
  import opened StartLists
  import opened LoggerSpec
  import opened Pairing
  import opened QueueInvariants
  import opened EndOfTrace

  type Interval = (real, real)

  /** The intervals that the events from position `from` on complete: an end, together with the
      time of the start it names. */
  ghost function Completed(log: seq<Event>, from: nat): seq<Interval> {
    if |log| <= from then []
    else
      var before, e := log[..|log| - 1], log[|log| - 1];
      Completed(before, from) +
      (if 1 <= e.startId <= |before| then [(before[e.startId - 1].timestamp, e.timestamp)] else [])
  }

  lemma AfterEvent(d: Db, role: Role, kind: EventType, host: real, dev: nat, site: Site, from: nat)
    requires from <= |d.log| && (role.End? ==> 1 <= role.startId <= |d.log|)
    ensures Completed(AddEvent(d, role, kind, host, dev, site).log, from) ==
            Completed(d.log, from) + (if role == Begin then [] else [(d.log[role.startId - 1].timestamp, host)])
  {
    var log' := AddEvent(d, role, kind, host, dev, site).log;
    assert log'[..|log'| - 1] == d.log;
  }

  /** What one read or write packet completes, given the start that was outstanding. */
  function PacketIntervals(q: seq<DeviceEventInfo>, begins: bool, pulse: bool, host: real, half: real): seq<Interval> {
    if begins then (if q == [] then [] else [(q[0].hostTimestamp, host - half)])
    else if q == [] then [(host, host + half)]
    else if pulse && q[0].hostTimestamp != host then [(q[0].hostTimestamp, host), (host, host + half)]
    else [(q[0].hostTimestamp, if pulse then host + half else host)]
  }

  /** The head of a queue, as the database and the log know it. */
  lemma HeadIsLogged(d: Db, cus: seq<seq<(nat, nat)>>, key: nat, kind: EventType)
    requires Ok(d, cus) && kind != UNKNOWN_EVENT
    ensures var q := Queue(d.starts, key, kind);
            && (q == [] ==> Found(d.starts, key, kind) == NO_START)
            && (q != [] ==> Found(d.starts, key, kind) == q[0] && q[0].kind == kind && 1 <= q[0].eventID <= |d.log|
                            && d.log[q[0].eventID - 1].timestamp == q[0].hostTimestamp)
  {
    hide Ok, FirstIndex;
    TakeRefines(d.starts, key, kind, key, kind);
    UnknownMeansEmpty(d.starts, key, kind);
    Taken(d, cus, key, kind);
  }

  lemma StartIntervals(D: Design, d: Db, cus: seq<seq<(nat, nat)>>, kind: EventType, key: nat, host: real, dev: nat,
                       site: Site)
    requires D.Valid() && Ok(d, cus) && (kind == KERNEL_READ || kind == KERNEL_WRITE)
    ensures Completed(TransferStart(D, d, kind, key, host, dev, site).log, |d.log|) ==
            PacketIntervals(Queue(d.starts, key, kind), true, false, host, D.HalfCycleMs())
  {
    hide Found, Take, Mark, Ok, Queue, Completed;
    HeadIsLogged(d, cus, key, kind);
    var id, early := Found(d.starts, key, kind).eventID, host - D.HalfCycleMs();
    var d0 := TakeStart(d, key, kind);
    var d1 := if Queue(d.starts, key, kind) == [] then d else AddEvent(d0, End(id), kind, early, dev, site);
    NothingCompleted(d.log);
    if Queue(d.starts, key, kind) != [] {
      AfterEvent(d0, End(id), kind, early, dev, site, |d.log|);
    }
    AfterEvent(d1, Begin, kind, host, dev, site, |d.log|);
  }

  lemma PulseIntervals(d: Db, kind: EventType, host: real, hostEnd: real, dev: nat, site: Site, from: nat)
    requires from <= |d.log| && d.nextId == |d.log| + 1
    ensures Completed(Pulse(d, kind, host, hostEnd, dev, site).log, from) == Completed(d.log, from) + [(host, hostEnd)]
  {
    var d1 := AddEvent(d, Begin, kind, host, dev, site);
    AfterEvent(d, Begin, kind, host, dev, site, from);
    AfterEvent(d1, End(d.nextId), kind, hostEnd, dev, site, from);
  }

  lemma EndIntervals(D: Design, d: Db, cus: seq<seq<(nat, nat)>>, kind: EventType, key: nat, pulse: bool, host: real,
                     dev: nat, site: Site)
    requires D.Valid() && Ok(d, cus) && (kind == KERNEL_READ || kind == KERNEL_WRITE)
    ensures Completed(TransferEnd(D, d, kind, key, pulse, host, dev, site).log, |d.log|) ==
            PacketIntervals(Queue(d.starts, key, kind), false, pulse, host, D.HalfCycleMs())
  {
    hide Found, Take, Queue, WellPaired, Completed, Pulse;
    HeadIsLogged(d, cus, key, kind);
    var start, d1 := Found(d.starts, key, kind), TakeStart(d, key, kind);
    var later := host + D.HalfCycleMs();
    assert Completed(d.log, |d.log|) == [] by { NothingCompleted(d.log); }
    if Queue(d.starts, key, kind) == [] {
      PulseIntervals(d1, kind, host, later, dev, site, |d.log|);
    } else if pulse && start.hostTimestamp != host {
      AfterEvent(d1, End(start.eventID), kind, host, dev, site, |d.log|);
      PulseIntervals(AddEvent(d1, End(start.eventID), kind, host, dev, site), kind, host, later, dev, site, |d.log|);
    } else {
      AfterEvent(d1, End(start.eventID), kind, if pulse then later else host, dev, site, |d.log|);
    }
  }

  lemma NothingCompleted(log: seq<Event>)
    ensures Completed(log, |log|) == []
  {
  }

  // ----- Chains of intervals -----

  /** Positive lengths, in order, no overlap. */
  ghost predicate Chain(xs: seq<Interval>) {
    && (forall i | 0 <= i < |xs| :: xs[i].0 < xs[i].1)
    && (forall i, j | 0 <= i < j < |xs| :: xs[i].1 <= xs[j].0)
  }

  ghost predicate EndBy(xs: seq<Interval>, t: real) {
    forall i | 0 <= i < |xs| :: xs[i].1 <= t
  }

  lemma Extend(xs: seq<Interval>, x: Interval)
    requires Chain(xs) && EndBy(xs, x.0) && x.0 < x.1
    ensures Chain(xs + [x]) && EndBy(xs + [x], x.1)
  {
    var ys := xs + [x];
    forall i | 0 <= i < |ys| ensures ys[i].0 < ys[i].1 && ys[i].1 <= x.1 {
      assert i < |xs| ==> ys[i] == xs[i];
    }
    forall i, j | 0 <= i < j < |ys| ensures ys[i].1 <= ys[j].0 {
      assert ys[i] == xs[i];
      assert j < |xs| ==> ys[j] == xs[j];
    }
  }

  /** What is known between two packets of a trace id: everything completed ends by `limit`, and a
      start that is outstanding is no earlier than any of it, and no later than `last`. */
  ghost predicate Between(q: seq<DeviceEventInfo>, xs: seq<Interval>, last: real, limit: real) {
    && Chain(xs) && EndBy(xs, limit)
    && |q| <= 1
    && (q != [] ==> EndBy(xs, q[0].hostTimestamp) && q[0].hostTimestamp <= last)
  }

  /** One packet, at least a full cycle after the last one. */
  lemma PacketChains(q: seq<DeviceEventInfo>, xs: seq<Interval>, last: real, limit: real,
                     begins: bool, pulse: bool, host: real, half: real, q': seq<DeviceEventInfo>)
    requires Between(q, xs, last, limit) && half > 0.0 && last + 2.0 * half <= host && limit <= host
    requires |q'| == (if begins then 1 else 0) && (begins ==> q'[0].hostTimestamp == host)
    ensures Between(q', xs + PacketIntervals(q, begins, pulse, host, half), host, host + half)
  {
    var ys := xs + PacketIntervals(q, begins, pulse, host, half);
    if begins {
      if q == [] {
        assert ys == xs;
      } else {
        Extend(xs, (q[0].hostTimestamp, host - half));
      }
    } else if q == [] {
      Extend(xs, (host, host + half));
    } else if pulse {
      Extend(xs, (q[0].hostTimestamp, host));
      Extend(xs + [(q[0].hostTimestamp, host)], (host, host + half));
      assert ys == xs + [(q[0].hostTimestamp, host)] + [(host, host + half)];
    } else {
      Extend(xs, (q[0].hostTimestamp, host));
    }
  }

  // ----- Time -----

  /** With the nominal slope, one tick is two half cycles. */
  lemma Ticks(D: Design, cal: Calibration, a: nat, b: nat)
    requires D.Valid() && cal.slope == 1000.0 / D.clockRateMHz && a < b
    ensures ToHost(cal, a) + 2.0 * D.HalfCycleMs() <= ToHost(cal, b)
  {
    var n := (b - a) as real;
    assert (b as real) == (a as real) + n;
    assert cal.slope * (b as real) == cal.slope * (a as real) + cal.slope * n;
    assert cal.slope * n >= cal.slope by { AtLeastOnce(cal.slope, n); }
    HalfCycleScale(D);
  }

  lemma AtLeastOnce(x: real, n: real)
    requires x > 0.0 && n >= 1.0
    ensures x * n >= x
  {
    assert x * (n - 1.0) >= 0.0;
  }

  lemma HalfCycleScale(D: Design)
    requires D.Valid()
    ensures 2.0 * D.HalfCycleMs() == (1000.0 / D.clockRateMHz) / 1000000.0
  {
    var c := D.clockRateMHz;
    assert 0.5 / c == 0.5 * (1.0 / c);
    assert 1000.0 / c == 1000.0 * (1.0 / c);
  }

  // ----- Whole packet sequences -----

  function KindOf(key: nat): EventType {
    if key % 2 == 1 then KERNEL_WRITE else KERNEL_READ
  }

  /** A packet of the trace id. (Clock training packets have none.) */
  predicate Own(p: Packet, key: nat) { !IsClockTraining(p) && TraceId(p) == key }

  /** The intervals completed by the packets of one AIM trace id, in the order they were logged. */
  ghost function Emitted(D: Design, s: State, ps: seq<Packet>, key: nat): seq<Interval>
    requires s.Fits(D)
  {
    if ps == [] then []
    else
      var before := ps[..|ps| - 1];
      var s1, p := Fold(D, s, before), ps[|ps| - 1];
      Emitted(D, s, before, key) + (if Own(p, key) then Completed(Step(D, s1, p).db.log, |s1.db.log|) else [])
  }

  /** Device times strictly increase along the packets of one trace id, and are later than `since`. */
  predicate Increasing(ps: seq<Packet>, key: nat, since: int) {
    && (forall i | 0 <= i < |ps| && Own(ps[i], key) :: since < DeviceTimestamp(ps[i]))
    && (forall i, j | 0 <= i < j < |ps| && Own(ps[i], key) && Own(ps[j], key) ::
          DeviceTimestamp(ps[i]) < DeviceTimestamp(ps[j]))
  }

  /** Device time of the last packet of the trace id, `since` before the first. */
  function LastTime(ps: seq<Packet>, key: nat, since: int): (t: int)
    ensures t >= -1 || t == since
  {
    if ps == [] then since
    else if Own(ps[|ps| - 1], key) then DeviceTimestamp(ps[|ps| - 1])
    else LastTime(ps[..|ps| - 1], key, since)
  }

  lemma {:induction false} LastTimeEarlier(ps: seq<Packet>, key: nat, since: int)
    requires ps != [] && Increasing(ps, key, since) && Own(ps[|ps| - 1], key)
    ensures LastTime(ps[..|ps| - 1], key, since) < DeviceTimestamp(ps[|ps| - 1])
  {
    LastTimeBound(ps[..|ps| - 1], key, since, DeviceTimestamp(ps[|ps| - 1]));
  }

  lemma {:induction false} LastTimeBound(ps: seq<Packet>, key: nat, since: int, t: nat)
    requires since < t && forall i | 0 <= i < |ps| :: Own(ps[i], key) ==> DeviceTimestamp(ps[i]) < t
    ensures LastTime(ps, key, since) < t
  {
    if ps != [] && !Own(ps[|ps| - 1], key) {
      LastTimeBound(ps[..|ps| - 1], key, since, t);
    }
  }

  /** `Between` for a state: times of the last packet and half a cycle beyond; nothing before the first. */
  ghost predicate ChainedSoFar(D: Design, s: State, key: nat, xs: seq<Interval>, last: int)
    requires D.Valid() && last >= -1
  {
    var q := Queue(s.db.starts, key, KindOf(key));
    if last == -1 then q == [] && xs == []
    else Between(q, xs, ToHost(s.cal, last), ToHost(s.cal, last) + D.HalfCycleMs())
  }

  /** A packet of the trace id itself. */
  lemma OwnPacket(D: Design, s: State, p: Packet, key: nat, xs: seq<Interval>, last: int)
    requires s.Fits(D) && Ok(s.db, s.cuStarts) && s.cal.slope == 1000.0 / D.clockRateMHz
    requires !IsClockTraining(p) && TraceId(p) == key <= MAX_TRACE_ID_AIM
    requires -1 <= last < DeviceTimestamp(p) && ChainedSoFar(D, s, key, xs, last)
    ensures var s' := Step(D, s, p);
            s'.cal == s.cal && ChainedSoFar(D, s', key, xs + Completed(s'.db.log, |s.db.log|), DeviceTimestamp(p))
  {
    hide Queue, TransferStart, TransferEnd, Completed, Ok, Between, ToHost, PacketIntervals;
    var kind, dev := KindOf(key), DeviceTimestamp(p);
    var host, half := ToHost(s.cal, dev), D.HalfCycleMs();
    var slot, s' := key / 2, Step(D, s, p);
    var q, q' := Queue(s.db.starts, key, kind), Queue(s'.db.starts, key, kind);
    if last >= 0 {
      Ticks(D, s.cal, last, dev);
      QueueShort(q, xs, ToHost(s.cal, last), ToHost(s.cal, last) + half);
    }
    if slot in D.aim {
      var site := Site(slot, D.aim[slot].cuIndex, D.MemStrId(D.aim[slot]));
      OwnQueue(D, s.db, kind, p, host, site);
      StartIntervals(D, s.db, s.cuStarts, kind, key, host, dev, site);
      EndIntervals(D, s.db, s.cuStarts, kind, key, Flag16(p), host, dev, site);
      var begins, pulse := IsDeviceEventTypeStart(p), if IsDeviceEventTypeStart(p) then false else Flag16(p);
      assert Completed(s'.db.log, |s.db.log|) == PacketIntervals(q, begins, pulse, host, half);
      if last == -1 {
        Nothing(host);
        PacketChains(q, xs, host - 2.0 * half, host, begins, pulse, host, half, q');
      } else {
        PacketChains(q, xs, ToHost(s.cal, last), ToHost(s.cal, last) + half, begins, pulse, host, half, q');
      }
    } else {
      assert Completed(s'.db.log, |s.db.log|) == [] by { NothingCompleted(s.db.log); }
      assert xs + [] == xs;
      if last == -1 {
        Nothing(host);
      } else {
        Later(q, xs, ToHost(s.cal, last), ToHost(s.cal, last) + half, host, host + half);
      }
    }
  }

  lemma Nothing(t: real)
    ensures forall last: real, limit: real :: Between([], [], last, limit)
  {
  }

  lemma QueueShort(q: seq<DeviceEventInfo>, xs: seq<Interval>, last: real, limit: real)
    requires Between(q, xs, last, limit)
    ensures |q| <= 1
  {
  }

  lemma Later(q: seq<DeviceEventInfo>, xs: seq<Interval>, last: real, limit: real, last': real, limit': real)
    requires Between(q, xs, last, limit) && last <= last' && limit <= limit'
    ensures Between(q, xs, last', limit') && Between([], xs, last', limit')
  {
  }

  /** The queue after a packet: the new start, or nothing of what was outstanding. */
  lemma OwnQueue(D: Design, d: Db, kind: EventType, p: Packet, host: real, site: Site)
    requires D.Valid() && |Queue(d.starts, TraceId(p), kind)| <= 1
    ensures var q' := Queue(DataTransfer(D, d, kind, p, host, site).starts, TraceId(p), kind);
            && |q'| == (if IsDeviceEventTypeStart(p) then 1 else 0)
            && (IsDeviceEventTypeStart(p) ==> q'[0].hostTimestamp == host)
  {
    hide Queue, Take, Mark, Found;
    var key, dev := TraceId(p), DeviceTimestamp(p);
    TakeMoves(d, key, kind);
    if IsDeviceEventTypeStart(p) {
      var d1 := if Queue(d.starts, key, kind) == [] then d
                else AddEvent(TakeStart(d, key, kind), End(Found(d.starts, key, kind).eventID), kind,
                              host - D.HalfCycleMs(), dev, site);
      OpenMoves(d1, key, kind, host, dev, site);
    }
  }

  /** Any other packet leaves the trace id's queue alone or empties it. */
  lemma OtherPacket(D: Design, s: State, p: Packet, key: nat)
    requires s.Fits(D) && !IsClockTraining(p) && TraceId(p) != key && key <= MAX_TRACE_ID_AIM
    requires |Queue(s.db.starts, key, KindOf(key))| <= 1
    ensures var q, q' := Queue(s.db.starts, key, KindOf(key)), Queue(Step(D, s, p).db.starts, key, KindOf(key));
            (q' == q || q' == []) && Step(D, s, p).cal == s.cal
  {
    hide Queue, AMSignals, AMClose, DataTransfer, StreamTransfer;
    var id, host := TraceId(p), ToHost(s.cal, DeviceTimestamp(p));
    if IsAM(id) {
      var slot := (id - MIN_TRACE_ID_AM) / 16;
      if slot in D.am {
        var cuId := D.am[slot].cuIndex;
        OtherSignals(D, s, p, host, slot, cuId, key);
        OtherClose(D, AMSignals(D, s, p, host, slot, cuId), p, host, slot, cuId, key);
      }
    } else if IsAIM(id) {
      var slot := id / 2;
      if slot in D.aim {
        var kind := if id % 2 == 1 then KERNEL_WRITE else KERNEL_READ;
        DataTransferMoves(D, s.db, kind, p, host, Site(slot, D.aim[slot].cuIndex, D.MemStrId(D.aim[slot])));
      }
    } else if IsASM(id) {
      var slot := id - MIN_TRACE_ID_ASM;
      if slot in D.asm {
        StreamMoves(D, s.db, StreamKind(D.asm[slot], p), p, host, Site(slot, D.asm[slot].cuIndex, 0));
      }
    }
  }

  lemma OtherSignals(D: Design, s: State, p: Packet, host: real, slot: nat, cuId: int, key: nat)
    requires s.Fits(D) && slot < D.numAM && key <= MAX_TRACE_ID_AIM
    ensures Queue(AMSignals(D, s, p, host, slot, cuId).db.starts, key, KindOf(key)) ==
            Queue(s.db.starts, key, KindOf(key))
    ensures AMSignals(D, s, p, host, slot, cuId).cal == s.cal
  {
    hide Queue, Take, Mark, Found, StallEvents;
    var fired := NibbleOf(TraceId(p));
    CUMoves(D, s, p, host, slot, cuId);
    var s1 := if fired.cu then CUEvent(D, s, p, host, slot, cuId) else s;
    StallsMove(s1.db, fired, s1.traceIDs[slot], AMKey(slot), host, DeviceTimestamp(p), Site(slot, cuId, 0));
  }

  lemma OtherClose(D: Design, s: State, p: Packet, host: real, slot: nat, cuId: int, key: nat)
    requires s.Fits(D) && slot < D.numAM && key <= MAX_TRACE_ID_AIM && |Queue(s.db.starts, key, KindOf(key))| <= 1
    ensures var q := Queue(s.db.starts, key, KindOf(key));
            var q' := Queue(AMClose(D, s, p, host, slot, cuId).db.starts, key, KindOf(key));
            q' == q || q' == []
    ensures AMClose(D, s, p, host, slot, cuId).cal == s.cal
  {
    hide Queue, StallEvents, CloseCUTransfers;
    CloseCUTransfersMove(D, s.db, s.amLastTrans, s.cal, cuId, D.numAIM);
    var d1 := if cuId == -1 then s.db else CloseCUTransfers(D, s.db, s.amLastTrans, s.cal, cuId, D.numAIM);
    StallsMove(d1, s.traceIDs[slot], s.traceIDs[slot], AMKey(slot), host - D.HalfCycleMs(), DeviceTimestamp(p),
               Site(slot, cuId, 0));
  }

  /** Device time of the outstanding start of a trace id, -1 if there is none. */
  function StartTime(s: State, key: nat): (t: int)
    ensures t >= -1
  {
    var q := Queue(s.db.starts, key, KindOf(key));
    if q == [] then -1 else q[0].deviceTimestamp
  }

  /** The outstanding start, if there is one, lies on the line. */
  predicate StartOnLine(s: State, key: nat) {
    var q := Queue(s.db.starts, key, KindOf(key));
    q != [] ==> q[0].hostTimestamp == ToHost(s.cal, q[0].deviceTimestamp)
  }

  lemma TrainingMovesNothing(D: Design, s: State, p: Packet, key: nat, xs: seq<Interval>, last: int)
    requires s.Fits(D) && IsClockTraining(p) && last >= -1 && ChainedSoFar(D, s, key, xs, last)
    requires SameLine(Step(D, s, p).cal, s.cal)
    ensures ChainedSoFar(D, Step(D, s, p), key, xs, last)
  {
    hide Queue, Between, BitOr, Trained;
  }

  lemma NotOwn(D: Design, s: State, p: Packet, key: nat, xs: seq<Interval>, last: int)
    requires s.Fits(D) && !IsClockTraining(p) && TraceId(p) != key && key <= MAX_TRACE_ID_AIM
    requires last >= -1 && ChainedSoFar(D, s, key, xs, last)
    ensures ChainedSoFar(D, Step(D, s, p), key, xs, last)
  {
    hide Queue, Step, Between, ToHost;
    var q := Queue(s.db.starts, key, KindOf(key));
    if last >= 0 {
      var t := ToHost(s.cal, last);
      QueueShort(q, xs, t, t + D.HalfCycleMs());
      Later(q, xs, t, t + D.HalfCycleMs(), t, t + D.HalfCycleMs());
    }
    OtherPacket(D, s, p, key);
  }

  lemma {:induction false} ChainSoFar(D: Design, s: State, ps: seq<Packet>, key: nat, since: int)
    requires s.Fits(D) && Ok(s.db, s.cuStarts) && s.cal.slope == 1000.0 / D.clockRateMHz
    requires key <= MAX_TRACE_ID_AIM && since >= -1 && ChainedSoFar(D, s, key, [], since)
    requires LineStays(D, s, ps) && Increasing(ps, key, since)
    ensures ChainedSoFar(D, Fold(D, s, ps), key, Emitted(D, s, ps, key), LastTime(ps, key, since))
  {
    hide Queue, Step, Ok, Completed, ChainedSoFar, ToHost;
    if ps != [] {
      var n := |ps| - 1;
      var before := ps[..n];
      var s1, p := Fold(D, s, before), ps[n];
      forall i | 0 <= i <= n ensures SameLine(Fold(D, s, before[..i]).cal, s.cal) {
        assert before[..i] == ps[..i];
      }
      ChainSoFar(D, s, before, key, since);
      FoldOk(D, s, before);
      var xs, last := Emitted(D, s, before, key), LastTime(before, key, since);
      assert SameLine(s1.cal, s.cal);
      if Own(p, key) {
        LastTimeEarlier(ps, key, since);
        OwnPacket(D, s1, p, key, xs, last);
      } else {
        assert xs + [] == xs;
        if IsClockTraining(p) {
          assert ps[..|ps|] == ps;
          assert SameLine(Fold(D, s, ps[..|ps|]).cal, s.cal);
          TrainingMovesNothing(D, s1, p, key, xs, last);
        } else {
          NotOwn(D, s1, p, key, xs, last);
        }
      }
    }
  }

  lemma ChainStarts(D: Design, s: State, key: nat)
    requires s.Fits(D) && StartOnLine(s, key) && |Queue(s.db.starts, key, KindOf(key))| <= 1
    ensures ChainedSoFar(D, s, key, [], StartTime(s, key))
  {
    hide Queue;
  }

  /** From any state the logger can reach in which the slope is nominal and the start outstanding on an
      AIM trace id, if there is one, lies on the line: over any packets that do not move the line, in
      which the device times of that id strictly increase from that start on, all intervals the id's
      packets complete have positive length and, in the order they are logged, each begins no earlier
      than the one before ends. */
  lemma TransferIntervalsDisjoint(D: Design, calls: seq<Call>, ps: seq<Packet>, key: nat, i: nat, j: nat)
    requires D.Valid() && key <= MAX_TRACE_ID_AIM
    requires var s := RunCalls(D, Initial(D), calls);
             && s.cal.slope == 1000.0 / D.clockRateMHz && StartOnLine(s, key)
             && LineStays(D, s, ps) && Increasing(ps, key, StartTime(s, key))
    requires i <= j < |Emitted(D, RunCalls(D, Initial(D), calls), ps, key)|
    ensures var xs := Emitted(D, RunCalls(D, Initial(D), calls), ps, key);
            xs[i].0 < xs[i].1 && (i < j ==> xs[i].1 <= xs[j].0)
  {
    hide RunCalls, Queue, Ok, Fold, Emitted, StartOnLine, StartTime, LineStays, StreamsFit;
    InitialOk(D);
    InitialInvariants(D);
    InitialStreams(D);
    RunOk(D, Initial(D), calls);
    RunDisciplined(D, Initial(D), calls);
    var s := RunCalls(D, Initial(D), calls);
    assert KindOf(key) == KERNEL_READ || KindOf(key) == KERNEL_WRITE;
    ChainStarts(D, s, key);
    ChainSoFar(D, s, ps, key, StartTime(s, key));
  }
}
