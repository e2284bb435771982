/** Starts and ends in the event log pair up, whatever packets arrive: an end carries the id of an
    earlier start of its own kind, and no start is ended twice. */
module Pairing {
  import opened TraceTypes
  import opened Packets
  import opened StartLists
  import opened LoggerSpec

  /** The monitor key under which a start of this kind on this monitor is kept. */
  function StartKey(kind: EventType, monitorId: nat): nat {
    match kind
    case KERNEL => AMKey(monitorId)
    case KERNEL_STALL_EXT_MEM => AMKey(monitorId)
    case KERNEL_STALL_DATAFLOW => AMKey(monitorId)
    case KERNEL_STALL_PIPE => AMKey(monitorId)
    case KERNEL_READ => monitorId * 2
    case KERNEL_WRITE => monitorId * 2 + 1
    case _ => MIN_TRACE_ID_ASM + monitorId
  }

  ghost predicate IsStart(log: seq<Event>, id: nat, kind: EventType) {
    1 <= id <= |log| && log[id - 1].role == Begin && log[id - 1].kind == kind
  }

  ghost predicate Unclosed(log: seq<Event>, id: nat) {
    forall i | 0 <= i < |log| :: log[i].startId != id
  }

  predicate IsTransfer(kind: EventType) {
    kind == KERNEL_READ || kind == KERNEL_WRITE
  }

  predicate IsStream(kind: EventType) {
    kind in {KERNEL_STREAM_READ, KERNEL_STREAM_READ_STALL, KERNEL_STREAM_READ_STARVE,
             KERNEL_STREAM_WRITE, KERNEL_STREAM_WRITE_STALL, KERNEL_STREAM_WRITE_STARVE}
  }

  /** An end belongs on the monitor of the start it names. The approximate end of a read or write
      does not: it carries the slot of the CU's AM where the monitor id should be. */
  ghost predicate SameMonitor(log: seq<Event>, id: nat, kind: EventType, monitorId: nat)
    requires 1 <= id <= |log|
  {
    IsTransfer(kind) || log[id - 1].monitorId == monitorId
  }

  /** Ids number the log from 1; every end, unless it is a stall's that found no start, names an
      earlier start of its kind and monitor; no start is named twice. */
  ghost predicate WellPaired(log: seq<Event>) {
    && (forall i | 0 <= i < |log| :: log[i].id == i + 1)
    && (forall i | 0 <= i < |log| && log[i].role.End? ::
          if log[i].startId == 0 then IsStall(log[i].kind)
          else && log[i].startId <= i && IsStart(log, log[i].startId, log[i].kind)
               && SameMonitor(log, log[i].startId, log[i].kind, log[i].monitorId))
    && (forall i, j | 0 <= i < j < |log| && log[i].startId != 0 :: log[i].startId != log[j].startId)
  }

  ghost predicate SameTimes(e: Event, info: DeviceEventInfo) {
    e.timestamp == info.hostTimestamp && e.deviceTimestamp == info.deviceTimestamp
  }

  /** An outstanding start is a logged start, kept under its own key, oldest first, and not yet
      ended. CU starts are the exception: the end-of-trace pass ends them and leaves them listed. */
  ghost predicate ListOk(log: seq<Event>, key: nat, list: seq<DeviceEventInfo>) {
    && (forall i | 0 <= i < |list| ::
          && IsStart(log, list[i].eventID, list[i].kind)
          && StartKey(list[i].kind, log[list[i].eventID - 1].monitorId) == key
          && SameTimes(log[list[i].eventID - 1], list[i])
          && (list[i].kind != KERNEL ==> Unclosed(log, list[i].eventID)))
    && (forall i, j | 0 <= i < j < |list| :: list[i].eventID < list[j].eventID)
  }

  /** The same for the start ids a CU slot remembers. */
  ghost predicate CuOk(log: seq<Event>, slot: nat, list: seq<(nat, nat)>) {
    && (forall i | 0 <= i < |list| ::
          && IsStart(log, list[i].0, KERNEL)
          && log[list[i].0 - 1].monitorId == slot
          && Unclosed(log, list[i].0))
    && (forall i, j | 0 <= i < j < |list| :: list[i].0 < list[j].0)
  }

  ghost predicate Ok(d: Db, cus: seq<seq<(nat, nat)>>) {
    && d.nextId == |d.log| + 1
    && WellPaired(d.log)
    && (forall k | k in d.starts :: ListOk(d.log, k, d.starts[k]))
    && (forall s | 0 <= s < |cus| :: CuOk(d.log, s, cus[s]))
  }

  ghost predicate NotIn(list: seq<DeviceEventInfo>, id: nat) {
    forall i | 0 <= i < |list| :: list[i].kind != KERNEL ==> list[i].eventID != id
  }

  ghost predicate NotInCu(list: seq<(nat, nat)>, id: nat) {
    forall i | 0 <= i < |list| :: list[i].0 != id
  }

  /** A start in hand: not ended, and no longer (or not yet) outstanding anywhere. */
  ghost predicate Loose(d: Db, cus: seq<seq<(nat, nat)>>, id: nat, kind: EventType) {
    && IsStart(d.log, id, kind)
    && Unclosed(d.log, id)
    && (forall k | k in d.starts :: NotIn(d.starts[k], id))
    && (forall s | 0 <= s < |cus| :: NotInCu(cus[s], id))
  }

  // ----- The four primitives -----

  lemma ListAfterEvent(log: seq<Event>, e: Event, key: nat, list: seq<DeviceEventInfo>)
    requires ListOk(log, key, list) && NotIn(list, e.startId)
    ensures ListOk(log + [e], key, list)
  {
    forall i | 0 <= i < |list|
      ensures IsStart(log + [e], list[i].eventID, list[i].kind)
      ensures StartKey(list[i].kind, (log + [e])[list[i].eventID - 1].monitorId) == key
      ensures SameTimes((log + [e])[list[i].eventID - 1], list[i])
      ensures list[i].kind != KERNEL ==> Unclosed(log + [e], list[i].eventID)
    {
      assert IsStart(log, list[i].eventID, list[i].kind);
    }
  }

  lemma CuAfterEvent(log: seq<Event>, e: Event, slot: nat, list: seq<(nat, nat)>)
    requires CuOk(log, slot, list) && NotInCu(list, e.startId)
    ensures CuOk(log + [e], slot, list)
  {
    forall i | 0 <= i < |list|
      ensures IsStart(log + [e], list[i].0, KERNEL)
      ensures (log + [e])[list[i].0 - 1].monitorId == slot
      ensures Unclosed(log + [e], list[i].0)
    {
      assert IsStart(log, list[i].0, KERNEL);
    }
  }

  lemma PairedAfterEnd(log: seq<Event>, id: nat, e: Event)
    requires WellPaired(log) && e.id == |log| + 1 && e.role == End(id)
    requires IsStart(log, id, e.kind) && Unclosed(log, id) && SameMonitor(log, id, e.kind, e.monitorId)
    ensures WellPaired(log + [e])
  {
    var log' := log + [e];
    forall i | 0 <= i < |log'| && log'[i].role.End? && log'[i].startId != 0
      ensures log'[i].startId <= i && IsStart(log', log'[i].startId, log'[i].kind)
      ensures SameMonitor(log', log'[i].startId, log'[i].kind, log'[i].monitorId)
    {
      assert i < |log| ==> IsStart(log, log[i].startId, log[i].kind);
    }
  }

  lemma EndInHand(d: Db, cus: seq<seq<(nat, nat)>>, id: nat, kind: EventType, host: real, dev: nat, site: Site)
    requires Ok(d, cus) && Loose(d, cus, id, kind) && SameMonitor(d.log, id, kind, site.monitorId)
    ensures Ok(AddEvent(d, End(id), kind, host, dev, site), cus)
  {
    var d' := AddEvent(d, End(id), kind, host, dev, site);
    var e := d'.log[|d.log|];
    assert d'.log == d.log + [e];
    PairedAfterEnd(d.log, id, e);
    hide WellPaired, ListOk, CuOk, NotIn, NotInCu, IsStart, Unclosed, SameMonitor;
    forall k | k in d'.starts ensures ListOk(d'.log, k, d'.starts[k]) {
      ListAfterEvent(d.log, e, k, d.starts[k]);
    }
    forall s | 0 <= s < |cus| ensures CuOk(d'.log, s, cus[s]) {
      CuAfterEvent(d.log, e, s, cus[s]);
    }
  }

  lemma NoneHasZero(d: Db, cus: seq<seq<(nat, nat)>>)
    requires Ok(d, cus)
    ensures forall k | k in d.starts :: NotIn(d.starts[k], 0)
    ensures forall s | 0 <= s < |cus| :: NotInCu(cus[s], 0)
  {
    forall k | k in d.starts ensures NotIn(d.starts[k], 0) {
      assert ListOk(d.log, k, d.starts[k]);
    }
    forall s | 0 <= s < |cus| ensures NotInCu(cus[s], 0) {
      assert CuOk(d.log, s, cus[s]);
    }
  }

  /** A new start is in hand until it is marked. */
  lemma LogStart(d: Db, cus: seq<seq<(nat, nat)>>, kind: EventType, host: real, dev: nat, site: Site)
    requires Ok(d, cus)
    ensures Ok(AddEvent(d, Begin, kind, host, dev, site), cus)
    ensures Loose(AddEvent(d, Begin, kind, host, dev, site), cus, d.nextId, kind)
  {
    var d' := AddEvent(d, Begin, kind, host, dev, site);
    var e := d'.log[|d.log|];
    assert d'.log == d.log + [e];
    NoneHasZero(d, cus);
    forall k | k in d'.starts
      ensures ListOk(d'.log, k, d'.starts[k]) && NotIn(d'.starts[k], d.nextId)
    {
      ListAfterEvent(d.log, e, k, d.starts[k]);
    }
    forall s | 0 <= s < |cus|
      ensures CuOk(d'.log, s, cus[s]) && NotInCu(cus[s], d.nextId)
    {
      CuAfterEvent(d.log, e, s, cus[s]);
    }
  }

  /** A stall that ends without having started. */
  lemma StrayEnd(d: Db, cus: seq<seq<(nat, nat)>>, kind: EventType, host: real, dev: nat, site: Site)
    requires Ok(d, cus) && IsStall(kind)
    ensures Ok(AddEvent(d, End(0), kind, host, dev, site), cus)
  {
    var d' := AddEvent(d, End(0), kind, host, dev, site);
    var e := d'.log[|d.log|];
    assert d'.log == d.log + [e];
    NoneHasZero(d, cus);
    forall k | k in d'.starts ensures ListOk(d'.log, k, d'.starts[k]) {
      ListAfterEvent(d.log, e, k, d.starts[k]);
    }
    forall s | 0 <= s < |cus| ensures CuOk(d'.log, s, cus[s]) {
      CuAfterEvent(d.log, e, s, cus[s]);
    }
  }

  lemma AppendOk(before: seq<Event>, log: seq<Event>, key: nat, list: seq<DeviceEventInfo>, info: DeviceEventInfo)
    requires ListOk(before, key, list) && ListOk(log, key, list)
    requires info.eventID > |before| && IsStart(log, info.eventID, info.kind) && Unclosed(log, info.eventID)
    requires StartKey(info.kind, log[info.eventID - 1].monitorId) == key
    requires SameTimes(log[info.eventID - 1], info)
    ensures ListOk(log, key, list + [info])
  {
    hide StartKey, Unclosed;
    var r := list + [info];
    forall j | 0 <= j < |list| ensures r[j] == list[j] && r[j].eventID < info.eventID {
    }
  }

  lemma Opened(d: Db, cus: seq<seq<(nat, nat)>>, key: nat, kind: EventType, host: real, dev: nat, site: Site)
    requires Ok(d, cus) && key == StartKey(kind, site.monitorId)
    ensures Ok(OpenEvent(d, key, kind, host, dev, site), cus)
  {
    hide WellPaired, NotIn, NotInCu, CuOk;
    LogStart(d, cus, kind, host, dev, site);
    var d1 := AddEvent(d, Begin, kind, host, dev, site);
    var d2 := OpenEvent(d, key, kind, host, dev, site);
    var info := DeviceEventInfo(kind, d.nextId, host, dev);
    assert ListOk(d.log, key, ListOf(d.starts, key));
    assert ListOk(d1.log, key, ListOf(d1.starts, key));
    AppendOk(d.log, d1.log, key, ListOf(d1.starts, key), info);
    forall k | k in d2.starts ensures ListOk(d2.log, k, d2.starts[k]) {
      if k != key {
        assert ListOk(d1.log, k, d1.starts[k]);
      }
    }
  }

  lemma DropOk(log: seq<Event>, key: nat, list: seq<DeviceEventInfo>, i: nat)
    requires ListOk(log, key, list) && i < |list|
    ensures ListOk(log, key, Drop(list, i))
    ensures NotIn(Drop(list, i), list[i].eventID)
  {
    hide IsStart, Unclosed, StartKey, SameTimes;
    var r := Drop(list, i);
    forall j | 0 <= j < |r|
      ensures r[j] == list[if j < i then j else j + 1]
      ensures r[j].eventID != list[i].eventID
    {
    }
    forall j, k | 0 <= j < k < |r| ensures r[j].eventID < r[k].eventID {
    }
  }

  lemma CuTailOk(log: seq<Event>, slot: nat, list: seq<(nat, nat)>)
    requires CuOk(log, slot, list) && list != []
    ensures CuOk(log, slot, list[1..]) && NotInCu(list[1..], list[0].0)
  {
    hide IsStart, Unclosed;
    assert forall j | 0 <= j < |list[1..]| :: list[1..][j] == list[j + 1];
  }

  /** A looked-up start is in hand. */
  lemma Taken(d: Db, cus: seq<seq<(nat, nat)>>, key: nat, kind: EventType)
    requires Ok(d, cus) && kind != UNKNOWN_EVENT
    ensures Ok(TakeStart(d, key, kind), cus)
    ensures kind != KERNEL && Found(d.starts, key, kind).kind != UNKNOWN_EVENT ==>
              Loose(TakeStart(d, key, kind), cus, Found(d.starts, key, kind).eventID, kind)
    ensures Found(d.starts, key, kind).kind != UNKNOWN_EVENT ==>
              && 1 <= Found(d.starts, key, kind).eventID <= |d.log|
              && StartKey(kind, d.log[Found(d.starts, key, kind).eventID - 1].monitorId) == key
              && SameTimes(d.log[Found(d.starts, key, kind).eventID - 1], Found(d.starts, key, kind))
  {
    hide FirstIndex;
    var list := ListOf(d.starts, key);
    var i := FirstIndex(list, kind);
    var d' := TakeStart(d, key, kind);
    if i < |list| {
      var id := list[i].eventID;
      FirstHasKind(list, kind);
      DropOk(d.log, key, list, i);
      assert IsStart(d.log, id, kind);
      forall k | k in d'.starts
        ensures ListOk(d'.log, k, d'.starts[k])
        ensures NotIn(d'.starts[k], id)
      {
        if k != key {
          KeysDiffer(d.log, key, list, i, k, d.starts[k]);
        }
      }
      if kind != KERNEL {
        forall s | 0 <= s < |cus| ensures NotInCu(cus[s], id) {
          assert CuOk(d.log, s, cus[s]);
        }
      }
    } else {
      assert Found(d.starts, key, kind) == NO_START;
      forall k | k in d'.starts ensures ListOk(d'.log, k, d'.starts[k]) {
      }
    }
  }

  lemma FirstHasKind(list: seq<DeviceEventInfo>, kind: EventType)
    ensures FirstIndex(list, kind) < |list| ==> list[FirstIndex(list, kind)].kind == kind
  {
  }

  /** Lists of different keys hold different starts. */
  lemma KeysDiffer(log: seq<Event>, key: nat, list: seq<DeviceEventInfo>, i: nat, key': nat,
                   list': seq<DeviceEventInfo>)
    requires ListOk(log, key, list) && ListOk(log, key', list') && key != key' && i < |list|
    ensures NotIn(list', list[i].eventID)
  {
    forall j | 0 <= j < |list'| ensures list'[j].eventID != list[i].eventID {
      assert IsStart(log, list[i].eventID, list[i].kind);
      assert IsStart(log, list'[j].eventID, list'[j].kind);
    }
  }

  // ----- What the logger does with them -----

  lemma PulseOk(d: Db, cus: seq<seq<(nat, nat)>>, kind: EventType, host: real, hostEnd: real, dev: nat, site: Site)
    requires Ok(d, cus)
    ensures Ok(Pulse(d, kind, host, hostEnd, dev, site), cus)
  {
    LogStart(d, cus, kind, host, dev, site);
    EndInHand(AddEvent(d, Begin, kind, host, dev, site), cus, d.nextId, kind, hostEnd, dev, site);
  }

  lemma StallOk(d: Db, cus: seq<seq<(nat, nat)>>, bit: bool, key: nat, kind: EventType, host: real, dev: nat,
                site: Site)
    requires Ok(d, cus) && key == StartKey(kind, site.monitorId) && IsStall(kind)
    ensures Ok(StallEvent(d, bit, key, kind, host, dev, site), cus)
  {
    hide Ok, Loose, Take;
    if bit {
      Taken(d, cus, key, kind);
      if Found(d.starts, key, kind).kind == UNKNOWN_EVENT {
        UnknownIsNone(d, cus, key, kind);
        StrayEnd(TakeStart(d, key, kind), cus, kind, host, dev, site);
      } else {
        EndInHand(TakeStart(d, key, kind), cus, Found(d.starts, key, kind).eventID, kind, host, dev, site);
      }
    } else {
      Opened(d, cus, key, kind, host, dev, site);
    }
  }

  lemma UnknownIsNone(d: Db, cus: seq<seq<(nat, nat)>>, key: nat, kind: EventType)
    requires kind != UNKNOWN_EVENT && Found(d.starts, key, kind).kind == UNKNOWN_EVENT
    ensures Found(d.starts, key, kind) == NO_START
  {
    FirstHasKind(ListOf(d.starts, key), kind);
  }

  lemma StallsOk(d: Db, cus: seq<seq<(nat, nat)>>, fired: Nibble, bits: Nibble, key: nat, host: real, dev: nat,
                 site: Site)
    requires Ok(d, cus) && key == AMKey(site.monitorId)
    ensures Ok(StallEvents(d, fired, bits, key, host, dev, site), cus)
  {
    hide Ok, StallEvent;
    var d1 := if fired.dataflow then StallEvent(d, bits.dataflow, key, KERNEL_STALL_DATAFLOW, host, dev, site) else d;
    StallOk(d, cus, bits.dataflow, key, KERNEL_STALL_DATAFLOW, host, dev, site);
    var d2 := if fired.pipe then StallEvent(d1, bits.pipe, key, KERNEL_STALL_PIPE, host, dev, site) else d1;
    StallOk(d1, cus, bits.pipe, key, KERNEL_STALL_PIPE, host, dev, site);
    StallOk(d2, cus, bits.ext, key, KERNEL_STALL_EXT_MEM, host, dev, site);
  }

  lemma SlotsDiffer(log: seq<Event>, slot: nat, list: seq<(nat, nat)>, slot': nat, list': seq<(nat, nat)>)
    requires CuOk(log, slot, list) && CuOk(log, slot', list') && slot != slot' && list != []
    ensures NotInCu(list', list[0].0)
  {
    hide Unclosed;
    assert log[list[0].0 - 1].monitorId == slot;
  }

  lemma CuFront(log: seq<Event>, slot: nat, list: seq<(nat, nat)>)
    requires CuOk(log, slot, list) && list != []
    ensures IsStart(log, list[0].0, KERNEL) && Unclosed(log, list[0].0) && log[list[0].0 - 1].monitorId == slot
  {
  }

  /** The oldest start of a CU slot, taken off its list, is in hand. */
  lemma CuTaken(d: Db, cus: seq<seq<(nat, nat)>>, slot: nat)
    requires Ok(d, cus) && slot < |cus| && cus[slot] != []
    ensures Ok(d, cus[slot := cus[slot][1..]])
    ensures Loose(d, cus[slot := cus[slot][1..]], cus[slot][0].0, KERNEL)
    ensures d.log[cus[slot][0].0 - 1].monitorId == slot
  {
    hide CuOk, WellPaired, Unclosed, NotInCu;
    var id, cus' := cus[slot][0].0, cus[slot := cus[slot][1..]];
    CuFront(d.log, slot, cus[slot]);
    assert CuOk(d.log, slot, cus[slot]);
    assert IsStart(d.log, id, KERNEL);
    forall i | 0 <= i < |cus'|
      ensures CuOk(d.log, i, cus'[i]) && NotInCu(cus'[i], id)
    {
      assert CuOk(d.log, i, cus[i]);
      if i == slot {
        CuTailOk(d.log, slot, cus[slot]);
      } else {
        SlotsDiffer(d.log, slot, cus[slot], i, cus[i]);
      }
    }
    forall k | k in d.starts ensures NotIn(d.starts[k], id) {
      assert ListOk(d.log, k, d.starts[k]);
    }
  }

  lemma CUEndOk(s: State, host: real, dev: nat, slot: nat, cuId: int)
    requires slot < |s.cuStarts| && s.cuStarts[slot] != [] && Ok(s.db, s.cuStarts)
    ensures Ok(CUEnd(s, host, dev, slot, cuId).db, CUEnd(s, host, dev, slot, cuId).cuStarts)
  {
    hide Ok, Loose;
    CuTaken(s.db, s.cuStarts, slot);
    EndInHand(s.db, s.cuStarts[slot := s.cuStarts[slot][1..]], s.cuStarts[slot][0].0, KERNEL, host, dev,
              Site(slot, cuId, 0));
  }

  lemma CUEventOk(D: Design, s: State, p: Packet, host: real, slot: nat, cuId: int)
    requires s.Fits(D) && slot < D.numAM && Ok(s.db, s.cuStarts)
    ensures Ok(CUEvent(D, s, p, host, slot, cuId).db, CUEvent(D, s, p, host, slot, cuId).cuStarts)
  {
    hide Take, Found, Mark, WellPaired;
    var dev := DeviceTimestamp(p);
    if !Flag1(p) {
      Taken(s.db, s.cuStarts, AMKey(slot), KERNEL);
      if s.cuStarts[slot] != [] {
        CUEndOk(s.(db := TakeStart(s.db, AMKey(slot), KERNEL)), host, dev, slot, cuId);
      }
    } else {
      var site := Site(slot, cuId, 0);
      LogStart(s.db, s.cuStarts, KERNEL, host, dev, site);
      Opened(s.db, s.cuStarts, AMKey(slot), KERNEL, host, dev, site);
      var r := CUEvent(D, s, p, host, slot, cuId);
      assert CuOk(s.db.log, slot, s.cuStarts[slot]);
      assert CuOk(r.db.log, slot, s.cuStarts[slot]);
      assert IsStart(r.db.log, s.db.nextId, KERNEL) && Unclosed(r.db.log, s.db.nextId);
      assert CuOk(r.db.log, slot, r.cuStarts[slot]);
      forall i | 0 <= i < |r.cuStarts| ensures CuOk(r.db.log, i, r.cuStarts[i]) {
        assert CuOk(r.db.log, i, s.cuStarts[i]);
      }
    }
  }

  lemma ApproxTransferOk(D: Design, d: Db, cus: seq<seq<(nat, nat)>>, amLast: seq<nat>, cal: Calibration,
                         kind: EventType, key: nat, amId: int, cuId: int, memStrId: nat)
    requires D.Valid() && -1 <= amId < |amLast| && Ok(d, cus) && IsTransfer(kind)
    ensures Ok(ApproxTransfer(D, d, amLast, cal, kind, key, amId, cuId, memStrId), cus)
  {
    hide Ok, Loose, Take;
    Taken(d, cus, key, kind);
    var start := Found(d.starts, key, kind);
    if start.kind != UNKNOWN_EVENT {
      var end := ApproxEnd(D, cal, start.deviceTimestamp, amId, if amId == -1 then 0 else amLast[amId]);
      EndInHand(TakeStart(d, key, kind), cus, start.eventID, kind, end.1, end.0, Site(AsUint32(amId), cuId, memStrId));
    }
  }

  lemma ApproxTransfersOk(D: Design, d: Db, cus: seq<seq<(nat, nat)>>, amLast: seq<nat>, cal: Calibration,
                          slot: nat, mon: Monitor, cuId: int)
    requires D.Valid() && |amLast| == D.numAM && Ok(d, cus)
    ensures Ok(ApproxTransfers(D, d, amLast, cal, slot, mon, cuId), cus)
  {
    hide Ok, ApproxTransfer;
    var amId := D.AccelMonOf(cuId);
    ApproxTransferOk(D, d, cus, amLast, cal, KERNEL_READ, slot * 2, amId, cuId, D.MemStrId(mon));
    var d1 := ApproxTransfer(D, d, amLast, cal, KERNEL_READ, slot * 2, amId, cuId, D.MemStrId(mon));
    ApproxTransferOk(D, d1, cus, amLast, cal, KERNEL_WRITE, slot * 2 + 1, amId, cuId, D.MemStrId(mon));
  }

  lemma {:induction false} CloseCUTransfersOk(D: Design, d: Db, cus: seq<seq<(nat, nat)>>, amLast: seq<nat>,
                                              cal: Calibration, cuId: int, n: nat)
    requires D.Valid() && |amLast| == D.numAM && Ok(d, cus)
    ensures Ok(CloseCUTransfers(D, d, amLast, cal, cuId, n), cus)
  {
    hide Ok, ApproxTransfers;
    if n > 0 {
      CloseCUTransfersOk(D, d, cus, amLast, cal, cuId, n - 1);
      if n - 1 in D.aim {
        ApproxTransfersOk(D, CloseCUTransfers(D, d, amLast, cal, cuId, n - 1), cus, amLast, cal, n - 1, D.aim[n - 1],
                          cuId);
      }
    }
  }

  lemma {:induction false} CloseTransfersOk(D: Design, d: Db, cus: seq<seq<(nat, nat)>>, amLast: seq<nat>,
                                            cal: Calibration, n: nat)
    requires D.Valid() && |amLast| == D.numAM && Ok(d, cus) && n <= |D.userAIMsWithTrace|
    ensures Ok(CloseTransfers(D, d, amLast, cal, n), cus)
  {
    hide Ok, ApproxTransfers;
    if n > 0 {
      var mon := D.userAIMsWithTrace[n - 1];
      CloseTransfersOk(D, d, cus, amLast, cal, n - 1);
      ApproxTransfersOk(D, CloseTransfers(D, d, amLast, cal, n - 1), cus, amLast, cal, mon.slotIndex, mon, mon.cuIndex);
    }
  }

  lemma {:induction false} CloseStreamOk(D: Design, d: Db, cus: seq<seq<(nat, nat)>>, cal: Calibration, slot: nat,
                                         kind: EventType, cuId: int, amId: int, cuLast: nat, appx: nat)
    requires D.Valid() && Ok(d, cus) && IsStream(kind)
    ensures Ok(CloseStream(D, d, cal, slot, kind, cuId, amId, cuLast, appx).0, cus)
    decreases |Queue(d.starts, MIN_TRACE_ID_ASM + slot, kind)|
  {
    hide Ok, Loose, Take, Found;
    var key := MIN_TRACE_ID_ASM + slot;
    var start := Found(d.starts, key, kind);
    Taken(d, cus, key, kind);
    TakeRefines(d.starts, key, kind, key, kind);
    if start.kind != UNKNOWN_EVENT && Queue(d.starts, key, kind) != [] {
      var end := ApproxEnd(D, cal, start.deviceTimestamp, amId, cuLast);
      var d1 := AddEvent(TakeStart(d, key, kind), End(start.eventID), kind, end.1, end.0, Site(slot, cuId, 0));
      EndInHand(TakeStart(d, key, kind), cus, start.eventID, kind, end.1, end.0, Site(slot, cuId, 0));
      CloseStreamOk(D, d1, cus, cal, slot, kind, cuId, amId, cuLast, if appx < end.0 then end.0 else appx);
    }
  }

  lemma AMEventOk(D: Design, s: State, p: Packet, host: real)
    requires s.Fits(D) && IsAM(TraceId(p)) && Ok(s.db, s.cuStarts)
    ensures Ok(AMEvent(D, s, p, host).db, AMEvent(D, s, p, host).cuStarts)
  {
    hide Ok, CUEvent, StallEvents, CloseCUTransfers;
    var slot := (TraceId(p) - MIN_TRACE_ID_AM) / 16;
    if slot in D.am {
      var cuId, dev := D.am[slot].cuIndex, DeviceTimestamp(p);
      var site, fired := Site(slot, cuId, 0), NibbleOf(TraceId(p));
      CUEventOk(D, s, p, host, slot, cuId);
      var s1 := if fired.cu then CUEvent(D, s, p, host, slot, cuId) else s;
      StallsOk(s1.db, s1.cuStarts, fired, s1.traceIDs[slot], AMKey(slot), host, dev, site);
      var s2 := AMSignals(D, s, p, host, slot, cuId);
      CloseCUTransfersOk(D, s2.db, s2.cuStarts, s2.amLastTrans, s2.cal, cuId, D.numAIM);
      var d1 := if cuId == -1 then s2.db else CloseCUTransfers(D, s2.db, s2.amLastTrans, s2.cal, cuId, D.numAIM);
      StallsOk(d1, s2.cuStarts, s2.traceIDs[slot], s2.traceIDs[slot], AMKey(slot), host - D.HalfCycleMs(), dev, site);
    }
  }

  lemma TransferStartOk(D: Design, d: Db, cus: seq<seq<(nat, nat)>>, kind: EventType, key: nat, host: real, dev: nat,
                        site: Site)
    requires D.Valid() && Ok(d, cus) && key == StartKey(kind, site.monitorId) && IsTransfer(kind)
    ensures Ok(TransferStart(D, d, kind, key, host, dev, site), cus)
  {
    hide Ok, Loose, Take, Found, OpenEvent;
    var d1 := d;
    if Queue(d.starts, key, kind) != [] {
      Taken(d, cus, key, kind);
      UnknownMeansEmpty(d.starts, key, kind);
      var id, early := Found(d.starts, key, kind).eventID, host - D.HalfCycleMs();
      EndInHand(TakeStart(d, key, kind), cus, id, kind, early, dev, site);
      d1 := AddEvent(TakeStart(d, key, kind), End(id), kind, early, dev, site);
    }
    Opened(d1, cus, key, kind, host, dev, site);
  }

  lemma TransferEndOk(D: Design, d: Db, cus: seq<seq<(nat, nat)>>, kind: EventType, key: nat, pulse: bool, host: real,
                      dev: nat, site: Site)
    requires D.Valid() && Ok(d, cus) && IsTransfer(kind)
    ensures Ok(TransferEnd(D, d, kind, key, pulse, host, dev, site), cus)
  {
    hide Ok, Loose, Take, Found, Pulse;
    var start, d1 := Found(d.starts, key, kind), TakeStart(d, key, kind);
    var later := host + D.HalfCycleMs();
    Taken(d, cus, key, kind);
    if start.kind == UNKNOWN_EVENT {
      PulseOk(d1, cus, kind, host, later, dev, site);
    } else {
      EndInHand(d1, cus, start.eventID, kind, host, dev, site);
      EndInHand(d1, cus, start.eventID, kind, later, dev, site);
      PulseOk(AddEvent(d1, End(start.eventID), kind, host, dev, site), cus, kind, host, later, dev, site);
    }
  }

  lemma StreamTransferOk(D: Design, d: Db, cus: seq<seq<(nat, nat)>>, kind: EventType, p: Packet, host: real,
                         site: Site)
    requires D.Valid() && Ok(d, cus) && TraceId(p) == StartKey(kind, site.monitorId) && IsStream(kind)
    ensures Ok(StreamTransfer(D, d, kind, p, host, site), cus)
  {
    hide Ok, Loose, Take, Found, Pulse, OpenEvent;
    var key, dev := TraceId(p), DeviceTimestamp(p);
    var start, d1 := Found(d.starts, key, kind), TakeStart(d, key, kind);
    Taken(d, cus, key, kind);
    Opened(d, cus, key, kind, host, dev, site);
    PulseOk(d1, cus, kind, host, host + D.HalfCycleMs(), dev, site);
    if start.kind != UNKNOWN_EVENT {
      EndInHand(d1, cus, start.eventID, kind, host, dev, site);
    }
  }

  lemma StepOk(D: Design, s: State, p: Packet)
    requires s.Fits(D) && Ok(s.db, s.cuStarts)
    ensures Ok(Step(D, s, p).db, Step(D, s, p).cuStarts)
  {
    hide Ok, AMEvent, TransferStart, TransferEnd, StreamTransfer, Trained;
    var id, host, dev := TraceId(p), ToHost(s.cal, DeviceTimestamp(p)), DeviceTimestamp(p);
    if IsClockTraining(p) {
    } else if IsAM(id) {
      AMEventOk(D, s, p, host);
    } else if IsAIM(id) {
      var slot := id / 2;
      if slot in D.aim {
        var site := Site(slot, D.aim[slot].cuIndex, D.MemStrId(D.aim[slot]));
        var kind := if id % 2 == 1 then KERNEL_WRITE else KERNEL_READ;
        TransferStartOk(D, s.db, s.cuStarts, kind, id, host, dev, site);
        TransferEndOk(D, s.db, s.cuStarts, kind, id, Flag16(p), host, dev, site);
      }
    } else if IsASM(id) {
      var slot := id - MIN_TRACE_ID_ASM;
      if slot in D.asm {
        StreamTransferOk(D, s.db, s.cuStarts, StreamKind(D.asm[slot], p), p, host, Site(slot, D.asm[slot].cuIndex, 0));
      }
    }
  }

  lemma {:induction false} FoldOk(D: Design, s: State, ps: seq<Packet>)
    requires s.Fits(D) && Ok(s.db, s.cuStarts)
    ensures Ok(Fold(D, s, ps).db, Fold(D, s, ps).cuStarts)
  {
    hide Ok, Step;
    if ps != [] {
      FoldOk(D, s, ps[..|ps| - 1]);
      StepOk(D, Fold(D, s, ps[..|ps| - 1]), ps[|ps| - 1]);
    }
  }

  // ----- The end-of-trace pass -----

  lemma {:induction false} CloseCUsOk(D: Design, s: State, n: nat)
    requires s.Fits(D) && n <= D.numAM && Ok(s.db, s.cuStarts)
    ensures Ok(CloseCUs(D, s, n).db, CloseCUs(D, s, n).cuStarts)
  {
    hide Ok, LastActivity, CUEnd;
    if n > 0 {
      CloseCUsOk(D, s, n - 1);
      var s1 := CloseCUs(D, s, n - 1);
      if s1.cuStarts[n - 1] != [] && n - 1 in D.am {
        var cuId := D.am[n - 1].cuIndex;
        var last := LastActivity(D, s1, n - 1, cuId);
        CUEndOk(s1, ToHost(s1.cal, last), last, n - 1, cuId);
      }
    }
  }

  lemma CloseASMOk(D: Design, s: State, slot: nat)
    requires s.Fits(D) && slot < D.numUserASM && Ok(s.db, s.cuStarts)
    ensures Ok(CloseASM(D, s, slot).db, CloseASM(D, s, slot).cuStarts)
  {
    hide Ok, CloseStream;
    if slot in D.asm {
      var mon := D.asm[slot];
      var amId := D.AccelMonOf(mon.cuIndex);
      var cuLast := if amId == -1 then 0 else s.amLastTrans[amId];
      var kinds := StreamKinds(mon);
      var r1 := CloseStream(D, s.db, s.cal, slot, kinds[0], mon.cuIndex, amId, cuLast, 0);
      var r2 := CloseStream(D, r1.0, s.cal, slot, kinds[1], mon.cuIndex, amId, cuLast, r1.1);
      CloseStreamOk(D, s.db, s.cuStarts, s.cal, slot, kinds[0], mon.cuIndex, amId, cuLast, 0);
      CloseStreamOk(D, r1.0, s.cuStarts, s.cal, slot, kinds[1], mon.cuIndex, amId, cuLast, r1.1);
      CloseStreamOk(D, r2.0, s.cuStarts, s.cal, slot, kinds[2], mon.cuIndex, amId, cuLast, r2.1);
    }
  }

  lemma {:induction false} CloseStreamsOk(D: Design, s: State, n: nat)
    requires s.Fits(D) && n <= D.numUserASMWithTrace && Ok(s.db, s.cuStarts)
    ensures Ok(CloseStreams(D, s, n).db, CloseStreams(D, s, n).cuStarts)
  {
    hide Ok, CloseASM;
    if n > 0 {
      CloseStreamsOk(D, s, n - 1);
      CloseASMOk(D, CloseStreams(D, s, n - 1), n - 1);
    }
  }

  lemma EndProcessOk(D: Design, s: State)
    requires s.Fits(D) && Ok(s.db, s.cuStarts)
    ensures Ok(EndProcess(D, s).db, EndProcess(D, s).cuStarts)
  {
    hide Ok, CloseCUs, CloseTransfers, CloseStreams;
    CloseCUsOk(D, s, D.numAM);
    var s1 := CloseCUs(D, s, D.numAM);
    CloseTransfersOk(D, s1.db, s1.cuStarts, s1.amLastTrans, s1.cal, |D.userAIMsWithTrace|);
    var s2 := s1.(db := CloseTransfers(D, s1.db, s1.amLastTrans, s1.cal, |D.userAIMsWithTrace|));
    CloseStreamsOk(D, s2, D.numUserASMWithTrace);
  }

  // ----- Whole histories -----

  /** A call on the logger: a buffer of packets, or the end of the trace. */
  datatype Call = Buffer(packets: seq<Packet>) | EndOfTrace

  function RunCalls(D: Design, s: State, calls: seq<Call>): (r: State)
    requires s.Fits(D)
    ensures r.Fits(D)
  {
    if calls == [] then s
    else
      var s1 := RunCalls(D, s, calls[..|calls| - 1]);
      match calls[|calls| - 1]
      case Buffer(ps) => Process(D, s1, ps)
      case EndOfTrace => EndProcess(D, s1)
  }

  lemma ProcessOk(D: Design, s: State, ps: seq<Packet>)
    requires s.Fits(D) && Ok(s.db, s.cuStarts)
    ensures Ok(Process(D, s, ps).db, Process(D, s, ps).cuStarts)
  {
    hide Ok, Fold;
    FoldOk(D, Sought(s, ps), Interpreted(s, ps));
  }

  lemma {:induction false} RunOk(D: Design, s: State, calls: seq<Call>)
    requires s.Fits(D) && Ok(s.db, s.cuStarts)
    ensures Ok(RunCalls(D, s, calls).db, RunCalls(D, s, calls).cuStarts)
  {
    hide Ok, Process, EndProcess;
    if calls != [] {
      RunOk(D, s, calls[..|calls| - 1]);
      var s1 := RunCalls(D, s, calls[..|calls| - 1]);
      match calls[|calls| - 1]
      case Buffer(ps) => ProcessOk(D, s1, ps);
      case EndOfTrace => EndProcessOk(D, s1);
    }
  }

  /** Whatever buffers arrive and however often the trace is ended, the log pairs up: the event at
      position i has id i + 1; every event logged as an end, dummies and approximations included, names
      an earlier start of its own kind and, but for reads and writes, of its own monitor, the one
      exception being stalls that found no start; two ends never name the same start. */
  lemma EndsHaveTheirOwnStart(D: Design, calls: seq<Call>, i: nat)
    requires D.Valid()
    requires i < |RunCalls(D, Initial(D), calls).db.log|
    ensures var log := RunCalls(D, Initial(D), calls).db.log;
            var e := log[i];
            && e.id == i + 1
            && (e.role.End? && !IsStall(e.kind) ==> e.startId != 0)
            && (e.role.End? && e.startId != 0 ==>
                  && 1 <= e.startId < e.id
                  && log[e.startId - 1].role == Begin
                  && log[e.startId - 1].kind == e.kind
                  && (!IsTransfer(e.kind) ==> log[e.startId - 1].monitorId == e.monitorId)
                  && forall j | 0 <= j < |log| && j != i :: log[j].startId != e.startId)
  {
    hide RunCalls;
    InitialOk(D);
    RunOk(D, Initial(D), calls);
    var log := RunCalls(D, Initial(D), calls).db.log;
    assert WellPaired(log);
    if log[i].startId != 0 {
      assert IsStart(log, log[i].startId, log[i].kind);
    }
  }

  lemma InitialOk(D: Design)
    requires D.Valid()
    ensures Ok(Initial(D).db, Initial(D).cuStarts)
  {
  }
}
