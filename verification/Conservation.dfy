/** Where every start goes. The starts logged on a monitor are, in order, those that have been ended,
    followed by those still waiting: nothing is lost, invented or overtaken, but for stream starts
    that a pulse packet finds, each of which is lost. */
module Conservation {
  import opened TraceTypes
  import opened Packets
  import opened StartLists
  import opened LoggerSpec
  import opened Pairing
  import opened QueueInvariants
  import opened EndOfTrace

  /** Ids of the starts of one kind on one monitor, in the order they were logged. */
  function StartsOf(log: seq<Event>, kind: EventType, mon: nat): seq<nat> {
    if log == [] then []
    else
      var e := log[|log| - 1];
      StartsOf(log[..|log| - 1], kind, mon) +
      (if e.role == Begin && e.kind == kind && e.monitorId == mon then [e.id] else [])
  }

  predicate Ends(log: seq<Event>, startId: nat, mon: nat) {
    1 <= startId <= |log| && log[startId - 1].monitorId == mon
  }

  /** Ids of the starts of one kind on one monitor that have an end, in the order of the ends. */
  function EndsOf(log: seq<Event>, kind: EventType, mon: nat): seq<nat> {
    if log == [] then []
    else
      var e, before := log[|log| - 1], log[..|log| - 1];
      EndsOf(before, kind, mon) + (if e.kind == kind && Ends(before, e.startId, mon) then [e.startId] else [])
  }

  function Firsts(ps: seq<(nat, nat)>): (r: seq<nat>)
    ensures |r| == |ps|
  {
    seq(|ps|, i requires 0 <= i < |ps| => ps[i].0)
  }

  /** Ids of the starts that wait for an end, oldest first. */
  function Waiting(d: Db, cus: seq<seq<(nat, nat)>>, kind: EventType, mon: nat): seq<nat> {
    if kind == KERNEL then if mon < |cus| then Firsts(cus[mon]) else []
    else Firsts(Pairs(Queue(d.starts, StartKey(kind, mon), kind)))
  }

  /** Of the starts logged, `lost` have neither an end nor wait for one; if none are lost, those ended
      and those waiting are, in order, all there are. */
  ghost predicate Conserved(d: Db, cus: seq<seq<(nat, nat)>>, kind: EventType, mon: nat, lost: nat) {
    var starts, ends, waiting := StartsOf(d.log, kind, mon), EndsOf(d.log, kind, mon), Waiting(d, cus, kind, mon);
    && |starts| == |ends| + |waiting| + lost
    && (lost == 0 ==> starts == ends + waiting)
  }

  lemma AfterEvent(d: Db, role: Role, k: EventType, host: real, dev: nat, site: Site, kind: EventType, mon: nat)
    ensures var d' := AddEvent(d, role, k, host, dev, site);
            && StartsOf(d'.log, kind, mon) ==
               StartsOf(d.log, kind, mon) +
               (if role == Begin && k == kind && site.monitorId == mon then [d.nextId] else [])
            && EndsOf(d'.log, kind, mon) ==
               EndsOf(d.log, kind, mon) + (if k == kind && Ends(d.log, role.stored, mon) then [role.stored] else [])
  {
    var log' := AddEvent(d, role, k, host, dev, site).log;
    assert log'[..|log'| - 1] == d.log;
  }

  lemma WaitingGrows(q: seq<DeviceEventInfo>, info: DeviceEventInfo)
    ensures Firsts(Pairs(q + [info])) == Firsts(Pairs(q)) + [info.eventID]
  {
  }

  lemma WaitingShrinks(q: seq<DeviceEventInfo>)
    requires q != []
    ensures Firsts(Pairs(q)) == [q[0].eventID] + Firsts(Pairs(q[1..]))
  {
  }

  // ----- What does not concern a kind -----

  ghost predicate Quiet(d: Db, d': Db, kind: EventType, mon: nat) {
    && StartsOf(d'.log, kind, mon) == StartsOf(d.log, kind, mon)
    && EndsOf(d'.log, kind, mon) == EndsOf(d.log, kind, mon)
    && Queue(d'.starts, StartKey(kind, mon), kind) == Queue(d.starts, StartKey(kind, mon), kind)
  }

  lemma QuietPrimitives(d: Db, role: Role, key: nat, k: EventType, host: real, dev: nat, site: Site,
                        kind: EventType, mon: nat)
    requires k != kind
    ensures Quiet(d, AddEvent(d, role, k, host, dev, site), kind, mon)
    ensures Quiet(d, TakeStart(d, key, k), kind, mon)
    ensures Quiet(d, OpenEvent(d, key, k, host, dev, site), kind, mon)
  {
    hide Queue, StartsOf, EndsOf, StartKey, Take, Mark;
    AfterEvent(d, role, k, host, dev, site, kind, mon);
    AfterEvent(d, Begin, k, host, dev, site, kind, mon);
    TakeMoves(d, key, k);
    OpenMoves(d, key, k, host, dev, site);
  }

  lemma StillConserved(d: Db, d': Db, cus: seq<seq<(nat, nat)>>, kind: EventType, mon: nat, lost: nat)
    requires Conserved(d, cus, kind, mon, lost) && Quiet(d, d', kind, mon)
    ensures Conserved(d', cus, kind, mon, lost)
  {
  }

  // ----- The logger's moves, for every kind but CU executions -----

  lemma OpenConserves(d: Db, cus: seq<seq<(nat, nat)>>, k: EventType, host: real, dev: nat, site: Site,
                      kind: EventType, mon: nat, lost: nat)
    requires k != KERNEL && Conserved(d, cus, kind, mon, lost)
    ensures Conserved(OpenEvent(d, StartKey(k, site.monitorId), k, host, dev, site), cus, kind, mon, lost)
  {
    hide Queue, StartsOf, EndsOf, Mark, Firsts, Pairs;
    var key := StartKey(k, site.monitorId);
    if k == kind {
      AfterEvent(d, Begin, k, host, dev, site, kind, mon);
      OpenMoves(d, key, k, host, dev, site);
      WaitingGrows(Queue(d.starts, key, k), DeviceEventInfo(k, d.nextId, host, dev));
    } else {
      QuietPrimitives(d, Begin, key, k, host, dev, site, kind, mon);
      StillConserved(d, OpenEvent(d, key, k, host, dev, site), cus, kind, mon, lost);
    }
  }

  /** Ending the start that was found, wherever the end claims to be. */
  lemma EndConserves(d: Db, cus: seq<seq<(nat, nat)>>, key: nat, k: EventType, host: real, dev: nat, site: Site,
                     kind: EventType, mon: nat, lost: nat)
    requires Ok(d, cus) && k != KERNEL && k != UNKNOWN_EVENT && Found(d.starts, key, k).kind != UNKNOWN_EVENT
    requires Conserved(d, cus, kind, mon, lost)
    ensures var id := Found(d.starts, key, k).eventID;
            Conserved(AddEvent(TakeStart(d, key, k), End(id), k, host, dev, site), cus, kind, mon, lost)
  {
    hide Queue, StartsOf, EndsOf, Take, Found, Firsts, Pairs, Ok, Loose;
    var id := Found(d.starts, key, k).eventID;
    var d1 := TakeStart(d, key, k);
    var d2 := AddEvent(d1, End(id), k, host, dev, site);
    if k == kind {
      Taken(d, cus, key, k);
      AfterEvent(d1, End(id), k, host, dev, site, kind, mon);
      TakeMoves(d, key, k);
      UnknownMeansEmpty(d.starts, key, k);
      TakeRefines(d.starts, key, k, key, k);
      WaitingShrinks(Queue(d.starts, key, k));
      assert Ends(d.log, id, mon) <==> key == StartKey(kind, mon);
    } else {
      QuietPrimitives(d, End(0), key, k, host, dev, site, kind, mon);
      QuietPrimitives(d1, End(id), key, k, host, dev, site, kind, mon);
      StillConserved(d, d1, cus, kind, mon, lost);
      StillConserved(d1, d2, cus, kind, mon, lost);
    }
  }

  lemma NothingFound(d: Db, cus: seq<seq<(nat, nat)>>, key: nat, k: EventType, kind: EventType, mon: nat, lost: nat)
    requires Found(d.starts, key, k).kind == UNKNOWN_EVENT && k != KERNEL && k != UNKNOWN_EVENT
    requires Conserved(d, cus, kind, mon, lost)
    ensures Conserved(TakeStart(d, key, k), cus, kind, mon, lost)
    ensures Queue(TakeStart(d, key, k).starts, key, k) == []
  {
    hide Queue, Take, Found, StartsOf, EndsOf, Firsts, Pairs;
    TakeMoves(d, key, k);
    UnknownMeansEmpty(d.starts, key, k);
  }

  lemma AfterPulse(d: Db, k: EventType, host: real, hostEnd: real, dev: nat, site: Site, kind: EventType, mon: nat)
    requires d.nextId == |d.log| + 1
    ensures var d', own := Pulse(d, k, host, hostEnd, dev, site), k == kind && site.monitorId == mon;
            && d'.starts == d.starts
            && StartsOf(d'.log, kind, mon) == StartsOf(d.log, kind, mon) + (if own then [d.nextId] else [])
            && EndsOf(d'.log, kind, mon) == EndsOf(d.log, kind, mon) + (if own then [d.nextId] else [])
  {
    hide StartsOf, EndsOf;
    AfterEvent(d, Begin, k, host, dev, site, kind, mon);
    AfterEvent(AddEvent(d, Begin, k, host, dev, site), End(d.nextId), k, hostEnd, dev, site, kind, mon);
  }

  /** A pulse ends at once: it overtakes nobody if nobody waits. */
  lemma PulseConserves(d: Db, cus: seq<seq<(nat, nat)>>, k: EventType, host: real, hostEnd: real, dev: nat, site: Site,
                       kind: EventType, mon: nat, lost: nat)
    requires d.nextId == |d.log| + 1 && k != KERNEL && Conserved(d, cus, kind, mon, lost)
    requires Queue(d.starts, StartKey(k, site.monitorId), k) == []
    ensures Conserved(Pulse(d, k, host, hostEnd, dev, site), cus, kind, mon, lost)
  {
    hide Queue, StartsOf, EndsOf, Firsts, Pairs, Pulse;
    AfterPulse(d, k, host, hostEnd, dev, site, kind, mon);
    assert k == kind && site.monitorId == mon ==> Waiting(d, cus, kind, mon) == [];
  }

  /** A pulse that comes while others wait and takes the oldest of them along loses it. */
  lemma PulseDiscards(d: Db, cus: seq<seq<(nat, nat)>>, k: EventType, host: real, hostEnd: real, dev: nat, site: Site,
                      kind: EventType, mon: nat, lost: nat)
    requires d.nextId == |d.log| + 1 && IsStream(k) && Conserved(d, cus, kind, mon, lost)
    requires Queue(d.starts, StartKey(k, site.monitorId), k) != []
    ensures var d' := Pulse(TakeStart(d, StartKey(k, site.monitorId), k), k, host, hostEnd, dev, site);
            Conserved(d', cus, kind, mon, if k == kind && site.monitorId == mon then lost + 1 else lost)
  {
    hide Queue, StartsOf, EndsOf, Firsts, Pairs, Take, Pulse, Conserved;
    var key := StartKey(k, site.monitorId);
    var d0 := TakeStart(d, key, k);
    var d' := Pulse(d0, k, host, hostEnd, dev, site);
    TakeMoves(d, key, k);
    AfterPulse(d0, k, host, hostEnd, dev, site, kind, mon);
    if k == kind && site.monitorId == mon {
      WaitingShrinks(Queue(d.starts, key, k));
      OneLost(d, d', cus, kind, mon, lost);
    } else {
      assert Quiet(d, d', kind, mon);
      StillConserved(d, d', cus, kind, mon, lost);
    }
  }

  lemma OneLost(d: Db, d': Db, cus: seq<seq<(nat, nat)>>, kind: EventType, mon: nat, lost: nat)
    requires Conserved(d, cus, kind, mon, lost)
    requires |StartsOf(d'.log, kind, mon)| == |StartsOf(d.log, kind, mon)| + 1
    requires |EndsOf(d'.log, kind, mon)| == |EndsOf(d.log, kind, mon)| + 1
    requires |Waiting(d', cus, kind, mon)| == |Waiting(d, cus, kind, mon)| - 1
    ensures Conserved(d', cus, kind, mon, lost + 1)
  {
    hide StartsOf, EndsOf, Waiting;
  }

  /** A stall that ends without having started concerns nobody. */
  lemma StallConserves(d: Db, cus: seq<seq<(nat, nat)>>, bit: bool, k: EventType, host: real, dev: nat, site: Site,
                       kind: EventType, mon: nat, lost: nat)
    requires Ok(d, cus) && IsStall(k) && Conserved(d, cus, kind, mon, lost)
    ensures Conserved(StallEvent(d, bit, AMKey(site.monitorId), k, host, dev, site), cus, kind, mon, lost)
  {
    hide Ok, Queue, StartsOf, EndsOf, Firsts, Pairs, Take, Found, OpenEvent;
    var key := AMKey(site.monitorId);
    if !bit {
      OpenConserves(d, cus, k, host, dev, site, kind, mon, lost);
    } else if Found(d.starts, key, k).kind != UNKNOWN_EVENT {
      EndConserves(d, cus, key, k, host, dev, site, kind, mon, lost);
    } else {
      NothingFound(d, cus, key, k, kind, mon, lost);
      UnknownIsNone(d, cus, key, k);
      AfterEvent(TakeStart(d, key, k), End(0), k, host, dev, site, kind, mon);
    }
  }

  lemma StallsConserve(d: Db, cus: seq<seq<(nat, nat)>>, fired: Nibble, bits: Nibble, host: real, dev: nat, site: Site,
                       kind: EventType, mon: nat, lost: nat)
    requires Ok(d, cus) && Conserved(d, cus, kind, mon, lost)
    ensures Conserved(StallEvents(d, fired, bits, AMKey(site.monitorId), host, dev, site), cus, kind, mon, lost)
  {
    hide Ok, Conserved, StallEvent;
    var key := AMKey(site.monitorId);
    var d1 := if fired.dataflow then StallEvent(d, bits.dataflow, key, KERNEL_STALL_DATAFLOW, host, dev, site) else d;
    var d2 := if fired.pipe then StallEvent(d1, bits.pipe, key, KERNEL_STALL_PIPE, host, dev, site) else d1;
    StallOk(d, cus, bits.dataflow, key, KERNEL_STALL_DATAFLOW, host, dev, site);
    StallOk(d1, cus, bits.pipe, key, KERNEL_STALL_PIPE, host, dev, site);
    StallConserves(d, cus, bits.dataflow, KERNEL_STALL_DATAFLOW, host, dev, site, kind, mon, lost);
    StallConserves(d1, cus, bits.pipe, KERNEL_STALL_PIPE, host, dev, site, kind, mon, lost);
    StallConserves(d2, cus, bits.ext, KERNEL_STALL_EXT_MEM, host, dev, site, kind, mon, lost);
  }

  /** Whether a pulse packet finds a start of this kind on this monitor, and so discards it. */
  predicate Discards(D: Design, d: Db, p: Packet, kind: EventType, mon: nat) {
    && !IsClockTraining(p) && TraceId(p) == MIN_TRACE_ID_ASM + mon && IsASM(TraceId(p)) && mon in D.asm
    && StreamKind(D.asm[mon], p) == kind
    && !Flag1(p) && Flag16(p)
    && Queue(d.starts, TraceId(p), kind) != []
  }

  lemma StreamConserves(D: Design, d: Db, cus: seq<seq<(nat, nat)>>, p: Packet, host: real, slot: nat,
                        kind: EventType, mon: nat, lost: nat)
    requires D.Valid() && !IsClockTraining(p) && IsASM(TraceId(p)) && slot == TraceId(p) - MIN_TRACE_ID_ASM
             && slot in D.asm
    requires Ok(d, cus) && Conserved(d, cus, kind, mon, lost)
    ensures var d' := StreamTransfer(D, d, StreamKind(D.asm[slot], p), p, host, Site(slot, D.asm[slot].cuIndex, 0));
            Conserved(d', cus, kind, mon, if Discards(D, d, p, kind, mon) then lost + 1 else lost)
  {
    hide Conserved, Queue, Take, Found, OpenEvent, Pulse, WellPaired, ListOk, CuOk;
    var k, site := StreamKind(D.asm[slot], p), Site(slot, D.asm[slot].cuIndex, 0);
    var key, dev, later := TraceId(p), DeviceTimestamp(p), host + D.HalfCycleMs();
    assert IsStream(k) && key == StartKey(k, slot);
    UnknownMeansEmpty(d.starts, key, k);
    if Flag1(p) {
      OpenConserves(d, cus, k, host, dev, site, kind, mon, lost);
    } else if Found(d.starts, key, k).kind == UNKNOWN_EVENT {
      NothingFound(d, cus, key, k, kind, mon, lost);
      PulseConserves(TakeStart(d, key, k), cus, k, host, later, dev, site, kind, mon, lost);
    } else if Flag16(p) {
      PulseDiscards(d, cus, k, host, later, dev, site, kind, mon, lost);
    } else {
      EndConserves(d, cus, key, k, host, dev, site, kind, mon, lost);
    }
  }

  lemma {:induction false} CloseStreamConserves(D: Design, d: Db, cus: seq<seq<(nat, nat)>>, cal: Calibration,
                                                slot: nat, k: EventType, cuId: int, amId: int, cuLast: nat, appx: nat,
                                                kind: EventType, mon: nat, lost: nat)
    requires D.Valid() && IsStream(k) && Ok(d, cus) && Conserved(d, cus, kind, mon, lost)
    ensures Conserved(CloseStream(D, d, cal, slot, k, cuId, amId, cuLast, appx).0, cus, kind, mon, lost)
    decreases |Queue(d.starts, MIN_TRACE_ID_ASM + slot, k)|
  {
    hide Conserved, Queue, Take, Found, ApproxEnd, Ok, Loose;
    var key := MIN_TRACE_ID_ASM + slot;
    var start := Found(d.starts, key, k);
    TakeRefines(d.starts, key, k, key, k);
    UnknownMeansEmpty(d.starts, key, k);
    if start.kind == UNKNOWN_EVENT {
      NothingFound(d, cus, key, k, kind, mon, lost);
    } else {
      var end, site := ApproxEnd(D, cal, start.deviceTimestamp, amId, cuLast), Site(slot, cuId, 0);
      var d1 := AddEvent(TakeStart(d, key, k), End(start.eventID), k, end.1, end.0, site);
      Taken(d, cus, key, k);
      EndInHand(TakeStart(d, key, k), cus, start.eventID, k, end.1, end.0, site);
      EndConserves(d, cus, key, k, end.1, end.0, site, kind, mon, lost);
      var appx' := if appx < end.0 then end.0 else appx;
      CloseStreamConserves(D, d1, cus, cal, slot, k, cuId, amId, cuLast, appx', kind, mon, lost);
    }
  }

  lemma CloseASMConserves(D: Design, s: State, slot: nat, kind: EventType, mon: nat, lost: nat)
    requires s.Fits(D) && slot < D.numUserASM && Ok(s.db, s.cuStarts) && Conserved(s.db, s.cuStarts, kind, mon, lost)
    ensures Conserved(CloseASM(D, s, slot).db, s.cuStarts, kind, mon, lost)
  {
    hide Ok, Conserved, CloseStream;
    if slot in D.asm {
      var m, cus := D.asm[slot], s.cuStarts;
      var cuId, amId, kinds := m.cuIndex, D.AccelMonOf(m.cuIndex), StreamKinds(m);
      var cuLast := if amId == -1 then 0 else s.amLastTrans[amId];
      var r1 := CloseStream(D, s.db, s.cal, slot, kinds[0], cuId, amId, cuLast, 0);
      var r2 := CloseStream(D, r1.0, s.cal, slot, kinds[1], cuId, amId, cuLast, r1.1);
      CloseStreamOk(D, s.db, cus, s.cal, slot, kinds[0], cuId, amId, cuLast, 0);
      CloseStreamOk(D, r1.0, cus, s.cal, slot, kinds[1], cuId, amId, cuLast, r1.1);
      CloseStreamConserves(D, s.db, cus, s.cal, slot, kinds[0], cuId, amId, cuLast, 0, kind, mon, lost);
      CloseStreamConserves(D, r1.0, cus, s.cal, slot, kinds[1], cuId, amId, cuLast, r1.1, kind, mon, lost);
      CloseStreamConserves(D, r2.0, cus, s.cal, slot, kinds[2], cuId, amId, cuLast, r2.1, kind, mon, lost);
    }
  }

  lemma {:induction false} CloseStreamsConserve(D: Design, s: State, n: nat, kind: EventType, mon: nat, lost: nat)
    requires s.Fits(D) && n <= D.numUserASMWithTrace
    requires Ok(s.db, s.cuStarts) && Conserved(s.db, s.cuStarts, kind, mon, lost)
    ensures Conserved(CloseStreams(D, s, n).db, s.cuStarts, kind, mon, lost)
            && CloseStreams(D, s, n).cuStarts == s.cuStarts
  {
    hide Ok, Conserved, CloseStream;
    if n > 0 {
      CloseStreamsConserve(D, s, n - 1, kind, mon, lost);
      CloseStreamsOk(D, s, n - 1);
      CloseASMConserves(D, CloseStreams(D, s, n - 1), n - 1, kind, mon, lost);
    }
  }

  lemma ApproxTransferConserves(D: Design, d: Db, cus: seq<seq<(nat, nat)>>, amLast: seq<nat>, cal: Calibration,
                                k: EventType, key: nat, amId: int, cuId: int, memStrId: nat,
                                kind: EventType, mon: nat, lost: nat)
    requires D.Valid() && -1 <= amId < |amLast| && Ok(d, cus) && IsTransfer(k) && Conserved(d, cus, kind, mon, lost)
    ensures Conserved(ApproxTransfer(D, d, amLast, cal, k, key, amId, cuId, memStrId), cus, kind, mon, lost)
  {
    hide Ok, Take, Found, Conserved, ApproxEnd;
    var start := Found(d.starts, key, k);
    if start.kind == UNKNOWN_EVENT {
      NothingFound(d, cus, key, k, kind, mon, lost);
    } else {
      var end := ApproxEnd(D, cal, start.deviceTimestamp, amId, if amId == -1 then 0 else amLast[amId]);
      EndConserves(d, cus, key, k, end.1, end.0, Site(AsUint32(amId), cuId, memStrId), kind, mon, lost);
    }
  }

  lemma ApproxTransfersConserve(D: Design, d: Db, cus: seq<seq<(nat, nat)>>, amLast: seq<nat>, cal: Calibration,
                                slot: nat, m: Monitor, cuId: int, kind: EventType, mon: nat, lost: nat)
    requires D.Valid() && |amLast| == D.numAM && Ok(d, cus) && Conserved(d, cus, kind, mon, lost)
    ensures Conserved(ApproxTransfers(D, d, amLast, cal, slot, m, cuId), cus, kind, mon, lost)
  {
    hide Ok, ApproxTransfer, Conserved;
    var amId := D.AccelMonOf(cuId);
    var d1 := ApproxTransfer(D, d, amLast, cal, KERNEL_READ, slot * 2, amId, cuId, D.MemStrId(m));
    ApproxTransferOk(D, d, cus, amLast, cal, KERNEL_READ, slot * 2, amId, cuId, D.MemStrId(m));
    ApproxTransferConserves(D, d, cus, amLast, cal, KERNEL_READ, slot * 2, amId, cuId, D.MemStrId(m), kind, mon, lost);
    ApproxTransferConserves(D, d1, cus, amLast, cal, KERNEL_WRITE, slot * 2 + 1, amId, cuId, D.MemStrId(m),
                            kind, mon, lost);
  }

  lemma {:induction false} CloseCUTransfersConserve(D: Design, d: Db, cus: seq<seq<(nat, nat)>>, amLast: seq<nat>,
                                                    cal: Calibration, cuId: int, n: nat,
                                                    kind: EventType, mon: nat, lost: nat)
    requires D.Valid() && |amLast| == D.numAM && Ok(d, cus) && Conserved(d, cus, kind, mon, lost)
    ensures Conserved(CloseCUTransfers(D, d, amLast, cal, cuId, n), cus, kind, mon, lost)
  {
    hide Ok, ApproxTransfers, Conserved;
    if n > 0 {
      var d1 := CloseCUTransfers(D, d, amLast, cal, cuId, n - 1);
      CloseCUTransfersConserve(D, d, cus, amLast, cal, cuId, n - 1, kind, mon, lost);
      CloseCUTransfersOk(D, d, cus, amLast, cal, cuId, n - 1);
      if n - 1 in D.aim {
        ApproxTransfersConserve(D, d1, cus, amLast, cal, n - 1, D.aim[n - 1], cuId, kind, mon, lost);
      }
    }
  }

  lemma {:induction false} CloseTransfersConserve(D: Design, d: Db, cus: seq<seq<(nat, nat)>>, amLast: seq<nat>,
                                                  cal: Calibration, n: nat, kind: EventType, mon: nat, lost: nat)
    requires D.Valid() && |amLast| == D.numAM && Ok(d, cus) && n <= |D.userAIMsWithTrace|
             && Conserved(d, cus, kind, mon, lost)
    ensures Conserved(CloseTransfers(D, d, amLast, cal, n), cus, kind, mon, lost)
  {
    hide Ok, ApproxTransfers, Conserved;
    if n > 0 {
      var m := D.userAIMsWithTrace[n - 1];
      CloseTransfersConserve(D, d, cus, amLast, cal, n - 1, kind, mon, lost);
      CloseTransfersOk(D, d, cus, amLast, cal, n - 1);
      ApproxTransfersConserve(D, CloseTransfers(D, d, amLast, cal, n - 1), cus, amLast, cal, m.slotIndex, m,
                              m.cuIndex, kind, mon, lost);
    }
  }

  lemma TransferStartConserves(D: Design, d: Db, cus: seq<seq<(nat, nat)>>, k: EventType, host: real, dev: nat,
                               site: Site, kind: EventType, mon: nat, lost: nat)
    requires D.Valid() && Ok(d, cus) && IsTransfer(k) && Conserved(d, cus, kind, mon, lost)
    ensures Conserved(TransferStart(D, d, k, StartKey(k, site.monitorId), host, dev, site), cus, kind, mon, lost)
  {
    hide Ok, Take, Found, OpenEvent, Conserved, Queue;
    var key := StartKey(k, site.monitorId);
    var d1 := d;
    if Queue(d.starts, key, k) != [] {
      UnknownMeansEmpty(d.starts, key, k);
      var id, early := Found(d.starts, key, k).eventID, host - D.HalfCycleMs();
      EndConserves(d, cus, key, k, early, dev, site, kind, mon, lost);
      d1 := AddEvent(TakeStart(d, key, k), End(id), k, early, dev, site);
    }
    OpenConserves(d1, cus, k, host, dev, site, kind, mon, lost);
  }

  lemma TransferEndConserves(D: Design, d: Db, cus: seq<seq<(nat, nat)>>, k: EventType, pulse: bool, host: real,
                             dev: nat, site: Site, kind: EventType, mon: nat, lost: nat)
    requires D.Valid() && Ok(d, cus) && IsTransfer(k) && Conserved(d, cus, kind, mon, lost)
    requires |Queue(d.starts, StartKey(k, site.monitorId), k)| <= 1
    ensures Conserved(TransferEnd(D, d, k, StartKey(k, site.monitorId), pulse, host, dev, site), cus, kind, mon, lost)
  {
    hide Take, Found, Conserved, Queue, Pulse, WellPaired, ListOk, CuOk;
    var key, later := StartKey(k, site.monitorId), host + D.HalfCycleMs();
    var start, d1 := Found(d.starts, key, k), TakeStart(d, key, k);
    TakeMoves(d, key, k);
    assert Queue(d1.starts, key, k) == [];
    if start.kind == UNKNOWN_EVENT {
      NothingFound(d, cus, key, k, kind, mon, lost);
      PulseConserves(d1, cus, k, host, later, dev, site, kind, mon, lost);
    } else {
      EndConserves(d, cus, key, k, host, dev, site, kind, mon, lost);
      EndConserves(d, cus, key, k, later, dev, site, kind, mon, lost);
      PulseConserves(AddEvent(d1, End(start.eventID), k, host, dev, site), cus, k, host, later, dev, site, kind, mon,
                     lost);
    }
  }

  // ----- CU executions -----

  lemma CUEndConserves(s: State, host: real, dev: nat, slot: nat, cuId: int, kind: EventType, mon: nat, lost: nat)
    requires slot < |s.cuStarts| && s.cuStarts[slot] != [] && Ok(s.db, s.cuStarts)
    requires Conserved(s.db, s.cuStarts, kind, mon, lost)
    ensures Conserved(CUEnd(s, host, dev, slot, cuId).db, CUEnd(s, host, dev, slot, cuId).cuStarts, kind, mon, lost)
  {
    hide Queue, StartsOf, EndsOf, Pairs, Ok, Firsts;
    var id := s.cuStarts[slot][0].0;
    CuBounds(s.db, s.cuStarts, slot);
    AfterEvent(s.db, End(id), KERNEL, host, dev, Site(slot, cuId, 0), kind, mon);
    FirstsShrink(s.cuStarts[slot]);
  }

  lemma CuBounds(d: Db, cus: seq<seq<(nat, nat)>>, slot: nat)
    requires Ok(d, cus) && slot < |cus| && cus[slot] != []
    ensures 1 <= cus[slot][0].0 <= |d.log| && d.log[cus[slot][0].0 - 1].monitorId == slot
  {
    assert CuOk(d.log, slot, cus[slot]);
    assert IsStart(d.log, cus[slot][0].0, KERNEL);
  }

  lemma CUEventConserves(D: Design, s: State, p: Packet, host: real, slot: nat, cuId: int, kind: EventType, mon: nat,
                         lost: nat)
    requires s.Fits(D) && slot < D.numAM && Ok(s.db, s.cuStarts)
    requires Conserved(s.db, s.cuStarts, kind, mon, lost)
    ensures Conserved(CUEvent(D, s, p, host, slot, cuId).db, CUEvent(D, s, p, host, slot, cuId).cuStarts, kind, mon,
                      lost)
  {
    hide Queue, StartsOf, EndsOf, Pairs, Ok, Take, Found, Mark, Firsts;
    var dev, key := DeviceTimestamp(p), AMKey(slot);
    if Flag1(p) {
      AfterEvent(s.db, Begin, KERNEL, host, dev, Site(slot, cuId, 0), kind, mon);
      OpenMoves(s.db, key, KERNEL, host, dev, Site(slot, cuId, 0));
      FirstsGrow(s.cuStarts[slot], (s.db.nextId, dev));
    } else {
      var s1 := s.(db := TakeStart(s.db, key, KERNEL));
      TakeMoves(s.db, key, KERNEL);
      assert Conserved(s1.db, s.cuStarts, kind, mon, lost);
      Taken(s.db, s.cuStarts, key, KERNEL);
      if s.cuStarts[slot] != [] {
        CUEndConserves(s1, host, dev, slot, cuId, kind, mon, lost);
      }
    }
  }

  lemma FirstsShrink(ps: seq<(nat, nat)>)
    requires ps != []
    ensures Firsts(ps) == [ps[0].0] + Firsts(ps[1..])
  {
  }

  lemma FirstsGrow(ps: seq<(nat, nat)>, x: (nat, nat))
    ensures Firsts(ps + [x]) == Firsts(ps) + [x.0]
  {
  }

  lemma AMConserves(D: Design, s: State, p: Packet, host: real, kind: EventType, mon: nat, lost: nat)
    requires s.Fits(D) && IsAM(TraceId(p)) && Ok(s.db, s.cuStarts)
    requires Conserved(s.db, s.cuStarts, kind, mon, lost)
    ensures Conserved(AMEvent(D, s, p, host).db, AMEvent(D, s, p, host).cuStarts, kind, mon, lost)
  {
    hide Ok, CUEvent, StallEvents, CloseCUTransfers, Conserved;
    var slot := (TraceId(p) - MIN_TRACE_ID_AM) / 16;
    if slot in D.am {
      var cuId, dev := D.am[slot].cuIndex, DeviceTimestamp(p);
      var site, fired := Site(slot, cuId, 0), NibbleOf(TraceId(p));
      CUEventConserves(D, s, p, host, slot, cuId, kind, mon, lost);
      CUEventOk(D, s, p, host, slot, cuId);
      var s1 := if fired.cu then CUEvent(D, s, p, host, slot, cuId) else s;
      StallsOk(s1.db, s1.cuStarts, fired, s1.traceIDs[slot], AMKey(slot), host, dev, site);
      StallsConserve(s1.db, s1.cuStarts, fired, s1.traceIDs[slot], host, dev, site, kind, mon, lost);
      var s2 := AMSignals(D, s, p, host, slot, cuId);
      CloseCUTransfersConserve(D, s2.db, s2.cuStarts, s2.amLastTrans, s2.cal, cuId, D.numAIM, kind, mon, lost);
      var d1 := if cuId == -1 then s2.db else CloseCUTransfers(D, s2.db, s2.amLastTrans, s2.cal, cuId, D.numAIM);
      var bits, early := s2.traceIDs[slot], host - D.HalfCycleMs();
      CloseCUTransfersOk(D, s2.db, s2.cuStarts, s2.amLastTrans, s2.cal, cuId, D.numAIM);
      StallsConserve(d1, s2.cuStarts, bits, bits, early, dev, site, kind, mon, lost);
    }
  }

  // ----- Whole histories -----

  lemma StepConserves(D: Design, s: State, p: Packet, kind: EventType, mon: nat, lost: nat)
    requires s.Fits(D) && Ok(s.db, s.cuStarts) && Disciplined(s.db.starts)
    requires Conserved(s.db, s.cuStarts, kind, mon, lost)
    ensures var s' := Step(D, s, p);
            Conserved(s'.db, s'.cuStarts, kind, mon, if Discards(D, s.db, p, kind, mon) then lost + 1 else lost)
  {
    hide Ok, AMEvent, TransferStart, TransferEnd, StreamTransfer, Trained, Conserved, Queue;
    var id, host, dev := TraceId(p), ToHost(s.cal, DeviceTimestamp(p)), DeviceTimestamp(p);
    if IsClockTraining(p) {
    } else if IsAM(id) {
      AMConserves(D, s, p, host, kind, mon, lost);
    } else if IsAIM(id) {
      var slot := id / 2;
      if slot in D.aim {
        var site := Site(slot, D.aim[slot].cuIndex, D.MemStrId(D.aim[slot]));
        var k := if id % 2 == 1 then KERNEL_WRITE else KERNEL_READ;
        assert StartKey(k, slot) == id;
        TransferStartConserves(D, s.db, s.cuStarts, k, host, dev, site, kind, mon, lost);
        TransferEndConserves(D, s.db, s.cuStarts, k, Flag16(p), host, dev, site, kind, mon, lost);
      }
    } else if IsASM(id) {
      var slot := id - MIN_TRACE_ID_ASM;
      if slot in D.asm {
        StreamConserves(D, s.db, s.cuStarts, p, host, slot, kind, mon, lost);
      }
    }
  }

  /** How many starts the pulse packets of a sequence discard. */
  function Discarded(D: Design, s: State, ps: seq<Packet>, kind: EventType, mon: nat): nat
    requires s.Fits(D)
  {
    if ps == [] then 0
    else
      var before, p := ps[..|ps| - 1], ps[|ps| - 1];
      Discarded(D, s, before, kind, mon) + (if Discards(D, Fold(D, s, before).db, p, kind, mon) then 1 else 0)
  }

  lemma {:induction false} FoldConserves(D: Design, s: State, ps: seq<Packet>, kind: EventType, mon: nat, lost: nat)
    requires s.Fits(D) && Ok(s.db, s.cuStarts) && Disciplined(s.db.starts)
    requires Conserved(s.db, s.cuStarts, kind, mon, lost)
    ensures var s' := Fold(D, s, ps);
            Conserved(s'.db, s'.cuStarts, kind, mon, lost + Discarded(D, s, ps, kind, mon))
  {
    hide Ok, Step, Conserved, Disciplined, Discards;
    if ps != [] {
      var before := ps[..|ps| - 1];
      FoldConserves(D, s, before, kind, mon, lost);
      FoldOk(D, s, before);
      FoldDisciplined(D, s, before);
      StepConserves(D, Fold(D, s, before), ps[|ps| - 1], kind, mon, lost + Discarded(D, s, before, kind, mon));
    }
  }

  lemma {:induction false} CloseCUsConserve(D: Design, s: State, n: nat, kind: EventType, mon: nat, lost: nat)
    requires s.Fits(D) && n <= D.numAM && Ok(s.db, s.cuStarts)
    requires Conserved(s.db, s.cuStarts, kind, mon, lost)
    ensures Conserved(CloseCUs(D, s, n).db, CloseCUs(D, s, n).cuStarts, kind, mon, lost)
  {
    hide Ok, LastActivity, CUEnd, Conserved;
    if n > 0 {
      CloseCUsConserve(D, s, n - 1, kind, mon, lost);
      CloseCUsOk(D, s, n - 1);
      var s1 := CloseCUs(D, s, n - 1);
      if s1.cuStarts[n - 1] != [] && n - 1 in D.am {
        var cuId := D.am[n - 1].cuIndex;
        var last := LastActivity(D, s1, n - 1, cuId);
        CUEndConserves(s1, ToHost(s1.cal, last), last, n - 1, cuId, kind, mon, lost);
      }
    }
  }

  lemma EndConserved(D: Design, s: State, kind: EventType, mon: nat, lost: nat)
    requires s.Fits(D) && Ok(s.db, s.cuStarts)
    requires Conserved(s.db, s.cuStarts, kind, mon, lost)
    ensures Conserved(EndProcess(D, s).db, EndProcess(D, s).cuStarts, kind, mon, lost)
  {
    hide Ok, CloseCUs, CloseTransfers, CloseStreams, Conserved;
    CloseCUsOk(D, s, D.numAM);
    CloseCUsConserve(D, s, D.numAM, kind, mon, lost);
    var s1 := CloseCUs(D, s, D.numAM);
    CloseTransfersConserve(D, s1.db, s1.cuStarts, s1.amLastTrans, s1.cal, |D.userAIMsWithTrace|, kind, mon, lost);
    var s2 := s1.(db := CloseTransfers(D, s1.db, s1.amLastTrans, s1.cal, |D.userAIMsWithTrace|));
    CloseTransfersOk(D, s1.db, s1.cuStarts, s1.amLastTrans, s1.cal, |D.userAIMsWithTrace|);
    CloseStreamsConserve(D, s2, D.numUserASMWithTrace, kind, mon, lost);
  }

  /** The same over a history of calls. The end-of-trace pass discards nothing. */
  function AllDiscarded(D: Design, calls: seq<Call>, kind: EventType, mon: nat): nat
    requires D.Valid()
  {
    if calls == [] then 0
    else
      var before := calls[..|calls| - 1];
      var s := RunCalls(D, Initial(D), before);
      AllDiscarded(D, before, kind, mon) +
      match calls[|calls| - 1]
      case Buffer(ps) => Discarded(D, Sought(s, ps), Interpreted(s, ps), kind, mon)
      case EndOfTrace => 0
  }

  lemma {:induction false} RunConserves(D: Design, calls: seq<Call>, kind: EventType, mon: nat)
    requires D.Valid()
    ensures var s := RunCalls(D, Initial(D), calls);
            Conserved(s.db, s.cuStarts, kind, mon, AllDiscarded(D, calls, kind, mon))
  {
    hide Ok, Fold, EndProcess, Conserved, Disciplined, StreamsFit, Discarded;
    if calls == [] {
      NothingYet(D, kind, mon);
    } else {
      var before := calls[..|calls| - 1];
      var lost := AllDiscarded(D, before, kind, mon);
      RunConserves(D, before, kind, mon);
      InitialOk(D);
      InitialInvariants(D);
      InitialStreams(D);
      RunOk(D, Initial(D), before);
      RunDisciplined(D, Initial(D), before);
      var s1 := RunCalls(D, Initial(D), before);
      match calls[|calls| - 1]
      case Buffer(ps) => FoldConserves(D, Sought(s1, ps), Interpreted(s1, ps), kind, mon, lost);
      case EndOfTrace => EndConserved(D, s1, kind, mon, lost);
    }
  }

  lemma NothingYet(D: Design, kind: EventType, mon: nat)
    requires D.Valid()
    ensures Conserved(Initial(D).db, Initial(D).cuStarts, kind, mon, 0)
  {
    assert Queue(map[], StartKey(kind, mon), kind) == [];
  }

  lemma {:induction false} OnlyStreamsDiscard(D: Design, s: State, ps: seq<Packet>, kind: EventType, mon: nat)
    requires s.Fits(D) && !IsStream(kind)
    ensures Discarded(D, s, ps, kind, mon) == 0
  {
    hide Fold;
    if ps != [] {
      OnlyStreamsDiscard(D, s, ps[..|ps| - 1], kind, mon);
    }
  }

  lemma {:induction false} OnlyStreamsLose(D: Design, calls: seq<Call>, kind: EventType, mon: nat)
    requires D.Valid() && !IsStream(kind)
    ensures AllDiscarded(D, calls, kind, mon) == 0
  {
    hide RunCalls;
    if calls != [] {
      var before, last := calls[..|calls| - 1], calls[|calls| - 1];
      OnlyStreamsLose(D, before, kind, mon);
      if last.Buffer? {
        var s := RunCalls(D, Initial(D), before);
        OnlyStreamsDiscard(D, Sought(s, last.packets), Interpreted(s, last.packets), kind, mon);
      }
    }
  }

  /** Whatever buffers arrive and however often the trace is ended, for every kind of event on every
      monitor: the starts logged are as many as those ended, those waiting and those a pulse packet
      discarded. They are first started, first ended (the starts logged are those ended, in the order
      of their ends, then those waiting) if and only if none was discarded; only streams discard. */
  lemma StartsAreEndedInOrder(D: Design, calls: seq<Call>, kind: EventType, mon: nat)
    requires D.Valid()
    ensures var s, lost := RunCalls(D, Initial(D), calls), AllDiscarded(D, calls, kind, mon);
            var starts, ends := StartsOf(s.db.log, kind, mon), EndsOf(s.db.log, kind, mon);
            var waiting := Waiting(s.db, s.cuStarts, kind, mon);
            && |starts| == |ends| + |waiting| + lost
            && (starts == ends + waiting <==> lost == 0)
            && (!IsStream(kind) ==> lost == 0)
  {
    hide RunCalls, AllDiscarded, StartsOf, EndsOf, Waiting;
    RunConserves(D, calls, kind, mon);
    if !IsStream(kind) {
      OnlyStreamsLose(D, calls, kind, mon);
    }
  }

  /** One traced ASM on a read port. */
  const OneStream: Design := Design(map[], map[], map[0 := Monitor(0, -1, -1, true)], 0, 0, 0, 1, 1, [], map[], map[],
                                    300.0, true)

  /** Its packets: activity (flag 8) that starts (flag 1) at device time 5, and a pulse (flag 16) at 7. */
  const StreamStart: Packet := 576 * 0x2_0000_0000_0000 + 9 * TIMESTAMP_RANGE + 5
  const StreamPulse: Packet := 0x2000_0000_0000_0000 + 576 * 0x2_0000_0000_0000 + 8 * TIMESTAMP_RANGE + 7

  lemma StreamFields()
    ensures OneStream.Valid()
    ensures TraceId(StreamStart) == 576 && Flag1(StreamStart) && Flag8(StreamStart) && !IsClockTraining(StreamStart)
    ensures TraceId(StreamPulse) == 576 && !Flag1(StreamPulse) && Flag8(StreamPulse) && Flag16(StreamPulse)
    ensures !IsClockTraining(StreamPulse)
  {
    assert Flags(StreamStart) == 9 && Flags(StreamPulse) == 8;
  }

  lemma StartWaits(s: State)
    requires s.Fits(OneStream)
    ensures Discards(OneStream, Step(OneStream, s, StreamStart).db, StreamPulse, KERNEL_STREAM_READ, 0)
  {
    hide Queue, StreamTransfer;
    StreamFields();
    var host := ToHost(s.cal, DeviceTimestamp(StreamStart));
    StreamMoves(OneStream, s.db, KERNEL_STREAM_READ, StreamStart, host, Site(0, -1, 0));
  }

  /** A stream starts, and then a pulse packet comes: the start is neither ended nor waiting. */
  lemma PulseLosesItsStart()
    ensures OneStream.Valid()
    ensures var calls := [Buffer([StreamStart, StreamPulse])];
            var s := RunCalls(OneStream, Initial(OneStream), calls);
            && AllDiscarded(OneStream, calls, KERNEL_STREAM_READ, 0) == 1
            && StartsOf(s.db.log, KERNEL_STREAM_READ, 0) !=
               EndsOf(s.db.log, KERNEL_STREAM_READ, 0) + Waiting(s.db, s.cuStarts, KERNEL_STREAM_READ, 0)
  {
    hide Step, Discards, StartsOf, EndsOf, Waiting;
    StreamFields();
    var s0, ps := Initial(OneStream), [StreamStart, StreamPulse];
    var calls := [Buffer(ps)];
    StartsAreEndedInOrder(OneStream, calls, KERNEL_STREAM_READ, 0);
    assert calls[..0] == [] && RunCalls(OneStream, s0, []) == s0 && Sought(s0, ps) == s0 && Interpreted(s0, ps) == ps;
    assert ps[..1] == [StreamStart] && ps[..1][..0] == [] && Fold(OneStream, s0, []) == s0;
    assert Fold(OneStream, s0, ps[..1]) == Step(OneStream, s0, StreamStart);
    StartWaits(s0);
    assert !Discards(OneStream, s0.db, StreamStart, KERNEL_STREAM_READ, 0) by { NotAPulse(s0.db); }
    assert Discarded(OneStream, s0, ps[..1], KERNEL_STREAM_READ, 0) == 0;
    assert Discarded(OneStream, s0, ps, KERNEL_STREAM_READ, 0) == 1;
  }

  lemma NotAPulse(d: Db)
    ensures !Discards(OneStream, d, StreamStart, KERNEL_STREAM_READ, 0)
  {
    StreamFields();
  }

  /** Once the trace has been ended, whatever came before, every read and write started on a traced
      user AIM has its end, in the order of the starts. */
  lemma TracedTransfersAllEnd(D: Design, calls: seq<Call>, m: Monitor, kind: EventType)
    requires D.Valid() && m in D.userAIMsWithTrace && kind in {KERNEL_READ, KERNEL_WRITE}
    ensures var log := EndProcess(D, RunCalls(D, Initial(D), calls)).db.log;
            StartsOf(log, kind, m.slotIndex) == EndsOf(log, kind, m.slotIndex)
  {
    hide EndProcess, Disciplined, StreamsFit, Queue, StartsOf, EndsOf, Ok, AllDiscarded;
    InitialInvariants(D);
    InitialStreams(D);
    InitialOk(D);
    RunDisciplined(D, Initial(D), calls);
    RunOk(D, Initial(D), calls);
    RunConserves(D, calls, kind, m.slotIndex);
    OnlyStreamsLose(D, calls, kind, m.slotIndex);
    var s := RunCalls(D, Initial(D), calls);
    EndConserved(D, s, kind, m.slotIndex, 0);
    EndProcessLeaves(D, s, StartKey(kind, m.slotIndex), kind);
  }
}
