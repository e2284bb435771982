/** When a trace buffer counts as full, and when its mover is done. */
module BufferFull {
  import opened Packets
  import opened OffloadSpec
  import opened Offload
  import opened Ring
  import opened Pipeline
  import opened Polling
  import opened FinalPoll

  /** A turn leaves a mover done exactly if its ring was overwritten, or was full before and is not
      circular, or a sync that was needed failed: the first if anything is new, the second if what is
      new crosses the end of the ring. */
  lemma DoneIff(m: Mover, bd: TraceBufferInfo, circular: bool, v: View, final: bool)
    requires m.mem != [] && Holds(m.mem, m.written) && v.mem == m.mem && bd.allocSize == |m.mem|
    requires BytesWritten(v, final) == |m.written| && (!circular ==> |m.written| <= |m.mem|)
    requires !bd.offloadDone && Readable(bd, |m.written|, m.mem)
    ensures var size, read, written := bd.allocSize, bd.BytesRead(), |m.written|;
            ReadMover(bd, circular, v, final).bd.offloadDone <==>
            || written > read + size
            || (!circular && bd.usedSize == size)
            || (written > read && !v.firstSync)
            || (circular && written > (read / size + 1) * size && !v.secondSync)
  {
    hide Holds, Position, BytesWritten;
    var size, read, written := bd.allocSize, bd.BytesRead(), |m.written|;
    if written <= read + size {
      RingArithmetic(bd, written);
      PositionNotDone(bd, written);
      var (first, second) := Position(bd, written);
      DivIs(read, first.rolloverCount, first.offset, size);
      assert (first.rolloverCount + 1) * size == first.rolloverCount * size + size;
    } else {
      MoreThanARing(read, written, size);
    }
  }

  lemma MoreThanARing(read: nat, written: nat, size: nat)
    requires size > 0 && written > read + size
    ensures written > read
  {
  }

  /** A buffer counts as full if and only if it is not circular and all of it has been read. */
  ghost predicate FullOk(bd: TraceBufferInfo, got: seq<Byte>, circular: bool) {
    && (!circular && !bd.offloadDone ==> bd.rolloverCount == 0)
    && (bd.full <==> !circular && |got| == bd.allocSize)
  }

  lemma ReadFullOk(m: Mover, bd: TraceBufferInfo, got: seq<Byte>, circular: bool, v: View, final: bool)
    requires m.mem != [] && Holds(m.mem, m.written) && v.mem == m.mem && bd.allocSize == |m.mem|
    requires BytesWritten(v, final) == |m.written| && (!circular ==> |m.written| <= |m.mem|)
    requires !bd.offloadDone && Readable(bd, |m.written|, m.mem)
    requires FullOk(bd, got, circular) && |got| == bd.BytesRead()
    ensures var r := ReadMover(bd, circular, v, final);
            FullOk(r.bd, got + Concat(r.chunks), circular)
  {
    hide Holds, BytesWritten, Concat;
    var r := ReadMover(bd, circular, v, final);
    ConcatShort(r.chunks);
    if circular || |m.written| > bd.BytesRead() + bd.allocSize || bd.usedSize == bd.allocSize {
      CircularNeverFull(bd, circular, v, final);
    }
  }

  lemma CircularNeverFull(bd: TraceBufferInfo, circular: bool, v: View, final: bool)
    requires bd.offloadDone || Readable(bd, BytesWritten(v, final), v.mem)
    ensures var r := ReadMover(bd, circular, v, final);
            && (circular ==> r.bd.full == bd.full)
            && r.bd.allocSize == bd.allocSize
  {
    hide BytesWritten;
  }

  ghost predicate AllFullOk(p: Pipe) {
    |p.bufs| == |p.movers| && forall i | 0 <= i < |p.bufs| :: FullOk(p.bufs[i], Got(p, i), p.circular)
  }

  lemma TurnFullOk(p: Pipe, firstSync: bool, secondSync: bool)
    requires Ok(p) && AllFullOk(p) && p.off.Turn? && p.off.i < |p.movers|
    ensures var k, p' := p.off.i, Step(p, OffloadThread(firstSync, secondSync));
            k < |p'.bufs| && FullOk(p'.bufs[k], Got(p', k), p.circular)
  {
    hide Poll, Concat, Of, FullOk, Step, Readable, BytesWritten, Holds, Position, Sync, FifoOk, HandOffOk;
    var k, final := p.off.i, p.off.final;
    assert RingOk(p, k);
    NotEmpty(p.movers[k], p.circular);
    PollOk(p.movers[k], p.circular, final, firstSync, secondSync);
    var m := Poll(p.movers[k], final);
    var v := ViewOf(m, firstSync, secondSync);
    TurnMoves(p, firstSync, secondSync);
    TurnCanRead(p, firstSync, secondSync);
    if p.bufs[k].offloadDone {
      DoneReadsNothing(p.bufs[k], p.circular, v, final);
      assert Got(p, k) + [] == Got(p, k);
    } else {
      ReadFullOk(m, p.bufs[k], Got(p, k), p.circular, v, final);
    }
    assert Concat([]) == [] by { ConcatShort([]); }
    var p', r := Step(p, OffloadThread(firstSync, secondSync)), TurnRead(p, firstSync, secondSync);
    var before := Concat(Of(p.pushed, k));
    assert Got(p, k) == before + [] == before;
    assert Got(p', k) == before + Concat(r.chunks) by {
      if r.overwritten {
        assert before + [] == before;
      }
    }
    assert FullOk(r.bd, Got(p, k) + Concat(r.chunks), p.circular);
  }

  lemma StepFullOk(p: Pipe, a: Action)
    requires Ok(p) && AllFullOk(p)
    ensures AllFullOk(Step(p, a))
  {
    hide Ok, Step, Got, FullOk;
    RingsThere(Step(p, a));
    FlushedOrNot(p, a);
    forall i | 0 <= i < |p.movers| ensures FullOk(Step(p, a).bufs[i], Got(Step(p, a), i), p.circular) {
      if a.OffloadThread? && p.off.Turn? && p.off.i == i {
        TurnFullOk(p, a.firstSync, a.secondSync);
      } else {
        GotStays(p, a, i);
      }
    }
  }

  lemma FlushedOrNot(p: Pipe, a: Action)
    requires Ok(p)
    ensures |Step(p, a).movers| == |p.movers| && Step(p, a).circular == p.circular
  {
    hide Step, Ok;
    StepKeepsInit(p, a);
  }

  lemma {:induction false} RunFullOk(p: Pipe, actions: seq<Action>)
    requires Ok(p) && AllFullOk(p)
    ensures AllFullOk(Run(p, actions))
  {
    hide Ok, Step, AllFullOk;
    if actions != [] {
      RunFullOk(p, actions[..|actions| - 1]);
      StepFullOk(Run(p, actions[..|actions| - 1]), actions[|actions| - 1]);
    }
  }

  /** In every run a buffer is marked full if and only if it is not circular and every byte of it has
      been read. */
  lemma FullIff(p: Pipe, actions: seq<Action>, i: nat)
    requires Fresh(p) && i < |p.movers|
    ensures var q := RunFresh(p, actions);
            q.bufs[i].full <==> !q.circular && |Got(q, i)| == q.bufs[i].allocSize
  {
    hide Run, Ok;
    FreshOk(p);
    assert AllFullOk(p) by { FreshFullOk(p); }
    RunFullOk(p, actions);
  }

  lemma FreshFullOk(p: Pipe)
    requires Fresh(p)
    ensures AllFullOk(p)
  {
    forall i | 0 <= i < |p.bufs| ensures FullOk(p.bufs[i], Got(p, i), p.circular) {
      assert Got(p, i) == [];
      assert p.movers[i].mem != [];
    }
  }
}
