/** The toggle bits of a CU slot and its outstanding stalls say the same thing, as long as no stall
    signal strays in while the CU is idle. */
module StallBits {
  import opened TraceTypes
  import opened Packets
  import opened StartLists
  import opened LoggerSpec
  import opened QueueInvariants

  /** While the CU is active each stall kind has as many outstanding starts as its bit says, and
      while it is idle it has none, whatever the bits. */
  ghost predicate Tracks(s: State, slot: nat)
    requires slot < |s.cuStarts| && slot < |s.traceIDs|
  {
    CountsAre(s.db.starts, slot, s.cuStarts[slot] != [], s.traceIDs[slot])
  }

  ghost predicate CountsAre(m: Starts, slot: nat, active: bool, bits: Nibble) {
    forall t: EventType :: IsStall(t) ==> |Queue(m, AMKey(slot), t)| == if active && BitOf(bits, t) then 1 else 0
  }

  /** A packet for an idle CU that carries no CU signal but starts a stall. */
  predicate Strays(D: Design, s: State, p: Packet, slot: nat)
    requires slot < |s.cuStarts| && slot < |s.traceIDs|
  {
    var fired, bits := NibbleOf(TraceId(p)), s.traceIDs[slot];
    && !IsClockTraining(p) && IsAM(TraceId(p)) && (TraceId(p) - MIN_TRACE_ID_AM) / 16 == slot && slot in D.am
    && s.cuStarts[slot] == [] && !fired.cu
    && ((fired.dataflow && !bits.dataflow) || (fired.pipe && !bits.pipe) || (fired.ext && !bits.ext))
  }

  lemma SignalsTrack(D: Design, s: State, p: Packet, host: real, slot: nat, cuId: int)
    requires s.Fits(D) && slot < D.numAM && Tracks(s, slot)
    ensures var s' := AMSignals(D, s, p, host, slot, cuId);
            var fired, bits := NibbleOf(TraceId(p)), s.traceIDs[slot];
            var active := s.cuStarts[slot] != [] || (fired.cu && Flag1(p));
            && (active ==> CountsAre(s'.db.starts, slot, true, s'.traceIDs[slot]))
            && (!active ==> s'.cuStarts[slot] == [] && s'.traceIDs[slot] == Xor(bits, fired)
                            && forall t: EventType :: IsStall(t) ==>
                                 |Queue(s'.db.starts, AMKey(slot), t)| ==
                                 if BitOf(fired, t) && !BitOf(bits, t) then 1 else 0)
            && (!fired.cu ==> s'.cuStarts[slot] == s.cuStarts[slot])
  {
    hide Queue, StallEvents, Take, Mark, Found;
    var fired := NibbleOf(TraceId(p));
    var s1 := if fired.cu then CUEvent(D, s, p, host, slot, cuId) else s;
    CUMoves(D, s, p, host, slot, cuId);
    var bits1 := s1.traceIDs[slot];
    StallsMove(s1.db, fired, bits1, AMKey(slot), host, DeviceTimestamp(p), Site(slot, cuId, 0));
    forall t: EventType | IsStall(t)
      ensures BitOf(Xor(bits1, fired), t) == (BitOf(bits1, t) != BitOf(fired, t))
    {
    }
  }

  lemma CloseTracks(D: Design, s: State, p: Packet, host: real, slot: nat, cuId: int)
    requires s.Fits(D) && slot < D.numAM
    requires forall t: EventType :: IsStall(t) ==>
               |Queue(s.db.starts, AMKey(slot), t)| <= if BitOf(s.traceIDs[slot], t) then 1 else 0
    ensures CountsAre(AMClose(D, s, p, host, slot, cuId).db.starts, slot, false, CLEAR)
  {
    hide Queue, StallEvents, CloseCUTransfers;
    var bits := s.traceIDs[slot];
    CloseCUTransfersMove(D, s.db, s.amLastTrans, s.cal, cuId, D.numAIM);
    var d1 := if cuId == -1 then s.db else CloseCUTransfers(D, s.db, s.amLastTrans, s.cal, cuId, D.numAIM);
    StallsMove(d1, bits, bits, AMKey(slot), host - D.HalfCycleMs(), DeviceTimestamp(p), Site(slot, cuId, 0));
  }

  /** For the slot the packet is about: tracking goes on exactly when the packet does not stray. */
  lemma AMTracks(D: Design, s: State, p: Packet, host: real, slot: nat)
    requires s.Fits(D) && !IsClockTraining(p) && IsAM(TraceId(p))
    requires slot == (TraceId(p) - MIN_TRACE_ID_AM) / 16 && slot in D.am && Tracks(s, slot)
    ensures Tracks(AMEvent(D, s, p, host), slot) <==> !Strays(D, s, p, slot)
  {
    hide Queue, AMSignals, AMClose;
    var cuId, fired := D.am[slot].cuIndex, NibbleOf(TraceId(p));
    var s1 := AMSignals(D, s, p, host, slot, cuId);
    SignalsTrack(D, s, p, host, slot, cuId);
    if fired.cu && s1.cuStarts[slot] == [] {
      CloseTracks(D, s1, p, host, slot, cuId);
      assert AMClose(D, s1, p, host, slot, cuId).cuStarts == s1.cuStarts by {
        AMCloseKeeps(D, s1, p, host, slot, cuId);
      }
    } else if Strays(D, s, p, slot) {
      var t := if fired.dataflow && !s.traceIDs[slot].dataflow then KERNEL_STALL_DATAFLOW
               else if fired.pipe && !s.traceIDs[slot].pipe then KERNEL_STALL_PIPE else KERNEL_STALL_EXT_MEM;
      assert IsStall(t) && |Queue(s1.db.starts, AMKey(slot), t)| == 1;
    }
  }

  lemma AMCloseKeeps(D: Design, s: State, p: Packet, host: real, slot: nat, cuId: int)
    requires s.Fits(D) && slot < D.numAM
    ensures AMClose(D, s, p, host, slot, cuId).cuStarts == s.cuStarts
    ensures AMClose(D, s, p, host, slot, cuId).traceIDs == s.traceIDs
  {
  }

  /** What the tracking of a slot depends on did not change. */
  lemma Unmoved(s: State, s': State, slot: nat)
    requires slot < |s.cuStarts| == |s'.cuStarts| && slot < |s.traceIDs| == |s'.traceIDs|
    requires s'.cuStarts[slot] == s.cuStarts[slot] && s'.traceIDs[slot] == s.traceIDs[slot]
    requires forall t: EventType :: IsStall(t) ==>
               Queue(s'.db.starts, AMKey(slot), t) == Queue(s.db.starts, AMKey(slot), t)
    ensures Tracks(s', slot) <==> Tracks(s, slot)
  {
    hide Queue;
  }

  lemma OtherSignals(D: Design, s: State, p: Packet, host: real, own: nat, cuId: int, slot: nat)
    requires s.Fits(D) && own < D.numAM && slot < D.numAM && slot != own
    ensures Tracks(AMSignals(D, s, p, host, own, cuId), slot) <==> Tracks(s, slot)
  {
    hide Queue, StallEvents, Take, Mark, Found, Tracks;
    assert AMKey(own) != AMKey(slot);
    var fired := NibbleOf(TraceId(p));
    CUMoves(D, s, p, host, own, cuId);
    var s1 := if fired.cu then CUEvent(D, s, p, host, own, cuId) else s;
    StallsMove(s1.db, fired, s1.traceIDs[own], AMKey(own), host, DeviceTimestamp(p), Site(own, cuId, 0));
    Unmoved(s, AMSignals(D, s, p, host, own, cuId), slot);
  }

  lemma OtherClose(D: Design, s: State, p: Packet, host: real, own: nat, cuId: int, slot: nat)
    requires s.Fits(D) && own < D.numAM && slot < D.numAM && slot != own
    ensures Tracks(AMClose(D, s, p, host, own, cuId), slot) <==> Tracks(s, slot)
  {
    hide Queue, StallEvents, CloseCUTransfers, Tracks;
    assert AMKey(own) != AMKey(slot);
    CloseCUTransfersMove(D, s.db, s.amLastTrans, s.cal, cuId, D.numAIM);
    var d1 := if cuId == -1 then s.db else CloseCUTransfers(D, s.db, s.amLastTrans, s.cal, cuId, D.numAIM);
    StallsMove(d1, s.traceIDs[own], s.traceIDs[own], AMKey(own), host - D.HalfCycleMs(), DeviceTimestamp(p),
               Site(own, cuId, 0));
    Unmoved(s, AMClose(D, s, p, host, own, cuId), slot);
  }

  lemma OtherSlotTracks(D: Design, s: State, p: Packet, host: real, slot: nat)
    requires s.Fits(D) && IsAM(TraceId(p)) && slot < D.numAM
    requires slot != (TraceId(p) - MIN_TRACE_ID_AM) / 16
    ensures Tracks(AMEvent(D, s, p, host), slot) <==> Tracks(s, slot)
  {
    hide AMSignals, AMClose, Tracks;
    var own := (TraceId(p) - MIN_TRACE_ID_AM) / 16;
    if own in D.am {
      OtherSignals(D, s, p, host, own, D.am[own].cuIndex, slot);
      OtherClose(D, AMSignals(D, s, p, host, own, D.am[own].cuIndex), p, host, own, D.am[own].cuIndex, slot);
    }
  }

  /** One packet of any sort: a slot that tracks keeps tracking if and only if the packet does not
      stray into it. This covers the reset at a first start and the forced closing at a last end. */
  lemma StepTracks(D: Design, s: State, p: Packet, slot: nat)
    requires s.Fits(D) && slot < D.numAM && Tracks(s, slot)
    ensures Tracks(Step(D, s, p), slot) <==> !Strays(D, s, p, slot)
  {
    hide Queue, AMEvent, DataTransfer, StreamTransfer, Trained;
    var id, host := TraceId(p), ToHost(s.cal, DeviceTimestamp(p));
    var s' := Step(D, s, p);
    if IsClockTraining(p) {
      Unmoved(s, s', slot);
    } else if IsAM(id) {
      var own := (id - MIN_TRACE_ID_AM) / 16;
      var s1 := AMEvent(D, s, p, host);
      if own != slot {
        OtherSlotTracks(D, s, p, host, slot);
      } else if own in D.am {
        AMTracks(D, s, p, host, slot);
      } else {
        assert s1 == s by { NoMonitor(D, s, p, host); }
      }
      Unmoved(s1, s', slot);
    } else if IsAIM(id) {
      var aim := id / 2;
      if aim in D.aim {
        var kind := if id % 2 == 1 then KERNEL_WRITE else KERNEL_READ;
        DataTransferMoves(D, s.db, kind, p, host, Site(aim, D.aim[aim].cuIndex, D.MemStrId(D.aim[aim])));
      }
      Unmoved(s, s', slot);
    } else if IsASM(id) {
      var strm := id - MIN_TRACE_ID_ASM;
      if strm in D.asm {
        StreamMoves(D, s.db, StreamKind(D.asm[strm], p), p, host, Site(strm, D.asm[strm].cuIndex, 0));
      }
      Unmoved(s, s', slot);
    }
  }

  lemma NoMonitor(D: Design, s: State, p: Packet, host: real)
    requires s.Fits(D) && IsAM(TraceId(p)) && (TraceId(p) - MIN_TRACE_ID_AM) / 16 !in D.am
    ensures AMEvent(D, s, p, host) == s
  {
  }

  /** No packet of the sequence strays into the slot at the moment it arrives. */
  ghost predicate NoneStrays(D: Design, s: State, ps: seq<Packet>, slot: nat)
    requires s.Fits(D) && slot < D.numAM
  {
    forall i | 0 <= i < |ps| :: !Strays(D, Fold(D, s, ps[..i]), ps[i], slot)
  }

  lemma {:induction false} FoldTracks(D: Design, s: State, ps: seq<Packet>, slot: nat)
    requires s.Fits(D) && slot < D.numAM && Tracks(s, slot) && NoneStrays(D, s, ps, slot)
    ensures Tracks(Fold(D, s, ps), slot)
  {
    hide Step, Tracks, Strays;
    if ps != [] {
      var n := |ps| - 1;
      var before := ps[..n];
      forall i | 0 <= i < |before| ensures !Strays(D, Fold(D, s, before[..i]), before[i], slot) {
        assert before[..i] == ps[..i];
        assert !Strays(D, Fold(D, s, ps[..i]), ps[i], slot);
      }
      FoldTracks(D, s, before, slot);
      assert !Strays(D, Fold(D, s, ps[..n]), ps[n], slot);
      StepTracks(D, Fold(D, s, before), ps[n], slot);
    }
  }

  /** No packet of any buffer strays into the slot at the moment it is interpreted. */
  ghost predicate NoneStrayIn(D: Design, buffers: seq<seq<Packet>>, slot: nat)
    requires D.Valid() && slot < D.numAM
  {
    forall b | 0 <= b < |buffers| ::
      var s := ProcessAll(D, Initial(D), buffers[..b]);
      NoneStrays(D, Sought(s, buffers[b]), Interpreted(s, buffers[b]), slot)
  }

  lemma NoneStrayBefore(D: Design, buffers: seq<seq<Packet>>, n: nat, slot: nat)
    requires D.Valid() && slot < D.numAM && n <= |buffers| && NoneStrayIn(D, buffers, slot)
    ensures NoneStrayIn(D, buffers[..n], slot)
  {
    hide ProcessAll, NoneStrays, Sought, Interpreted;
    forall b | 0 <= b < n
      ensures buffers[..n][..b] == buffers[..b] && buffers[..n][b] == buffers[b]
    {
    }
  }

  /** Before the end of the trace, over any buffers none of whose packets strays into the slot: while
      the CU is active its outstanding stalls number exactly its bits; while it is idle there are none. */
  lemma {:induction false} StallsFollowBits(D: Design, buffers: seq<seq<Packet>>, slot: nat)
    requires D.Valid() && slot < D.numAM
    requires NoneStrayIn(D, buffers, slot)
    ensures Tracks(ProcessAll(D, Initial(D), buffers), slot)
  {
    if buffers == [] {
      InitialTracks(D, slot);
    } else {
      hide Fold, Tracks, NoneStrays;
      var n := |buffers| - 1;
      var s := ProcessAll(D, Initial(D), buffers[..n]);
      assert NoneStrays(D, Sought(s, buffers[n]), Interpreted(s, buffers[n]), slot);
      hide NoneStrayIn;
      NoneStrayBefore(D, buffers, n, slot);
      StallsFollowBits(D, buffers[..n], slot);
      Unmoved(s, Sought(s, buffers[n]), slot);
      FoldTracks(D, Sought(s, buffers[n]), Interpreted(s, buffers[n]), slot);
    }
  }

  /** One packet is enough to break it: the first thing an AM reports is a dataflow stall. */
  lemma StrayStallBreaksTracking()
    ensures exists D: Design, p: Packet ::
              D.Valid() && D.numAM == 1 && Strays(D, Initial(D), p, 0) && !Tracks(Process(D, Initial(D), [p]), 0)
  {
    hide Queue;
    var D := Design(map[0 := Monitor(0, 0, -1, false)], map[], map[], 1, 0, 0, 0, 0, [], map[0 := 0], map[],
                    1.0, false);
    var p: Packet := 66 * 0x2_0000_0000_0000;  // trace id 66: AM slot 0, dataflow
    assert TraceId(p) == 66 && !IsClockTraining(p);
    assert NibbleOf(66) == Nibble(false, true, false, false);
    var s0 := Initial(D);
    InitialTracks(D, 0);
    StepTracks(D, s0, p, 0);
    assert [p][..0] == [];
    assert Fold(D, s0, []) == s0;
    assert Sought(s0, [p]) == s0 && Interpreted(s0, [p]) == [p];
    assert Process(D, s0, [p]) == Step(D, s0, p);
  }

  lemma InitialTracks(D: Design, slot: nat)
    requires D.Valid() && slot < D.numAM
    ensures Tracks(Initial(D), slot)
  {
  }
}
