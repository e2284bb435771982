/** One poll of the data movers: run turn by turn it is the single-threaded poll, and until a mover's
    final poll it reads whole bursts. */
module Polling {
  import opened Packets
  import opened OffloadSpec
  import opened Offload
  import opened Ring
  import opened Pipeline

  // ----- Whole bursts -----

  predicate WholeBurst(chunk: seq<Byte>) {
    |chunk| > 0 && |chunk| % BURST_BYTES == 0
  }

  /** Until a version 2 mover is flushed all its chunks are whole bursts, and what a poll that is not
      the final one holds of it is, too. */
  ghost predicate Bursty(p: Pipe) {
    && |p.movers| == |p.bufs|
    && (forall i | 0 <= i < |p.bufs| :: p.bufs[i].allocSize % BURST_BYTES == 0)
    && (forall k | 0 <= k < |p.pushed| ::
          var (i, chunk) := p.pushed[k];
          i < |p.movers| && (p.movers[i].version2 && !p.movers[i].flushed ==> WholeBurst(chunk)))
    && (p.off.Push? && p.off.i < |p.movers| && p.movers[p.off.i].version2 ==>
          if p.off.final then p.movers[p.off.i].flushed
          else forall k | 0 <= k < |p.off.rest| :: WholeBurst(p.off.rest[k]))
  }

  /** A turn that is not final reads whole bursts of a version 2 mover. */
  lemma TurnReadsBursts(p: Pipe, firstSync: bool, secondSync: bool, c: nat)
    requires Ok(p) && p.off.Turn? && !p.off.final && p.off.i < |p.movers|
    requires p.movers[p.off.i].version2 && p.bufs[p.off.i].allocSize % BURST_BYTES == 0
    requires TurnStep(p, firstSync, secondSync).off.Push? && c < |TurnStep(p, firstSync, secondSync).off.rest|
    ensures WholeBurst(TurnStep(p, firstSync, secondSync).off.rest[c])
  {
    hide ReadMover, Readable, BytesWritten, Holds, Got, Put;
    var k := p.off.i;
    assert RingOk(p, k);
    ReadOk(p.movers[k], p.bufs[k], Got(p, k), p.circular, false, firstSync, secondSync);
    PollOk(p.movers[k], p.circular, false, firstSync, secondSync);
    var v := ViewOf(Poll(p.movers[k], false), firstSync, secondSync);
    if p.bufs[k].offloadDone {
      DoneReadsNothing(p.bufs[k], p.circular, v, false);
    } else {
      ChunksAreWhole(p.bufs[k], p.circular, v, false, BURST_BYTES, c);
    }
  }

  lemma PollFlushes(m: Mover, final: bool)
    requires m.mem != []
    ensures Poll(m, final).version2 == m.version2
    ensures Poll(m, final).flushed == (m.flushed || (final && m.version2))
  {
  }

  lemma TurnBursty(p: Pipe, firstSync: bool, secondSync: bool)
    requires Ok(p) && Bursty(p) && p.off.Turn? && p.off.i < |p.movers|
    ensures Bursty(TurnStep(p, firstSync, secondSync))
  {
    hide RingsOk, Poll, ReadMover, Readable, WholeBurst, WriteWord;
    var final, k := p.off.final, p.off.i;
    var p' := TurnStep(p, firstSync, secondSync);
    assert RingOk(p, k) by { RingsMean(p, k); }
    NotEmpty(p.movers[k], p.circular);
    PollFlushes(p.movers[k], final);
    ReadOk(p.movers[k], p.bufs[k], Got(p, k), p.circular, final, firstSync, secondSync);
    ReadKeepsSize(p.bufs[k], p.circular, ViewOf(Poll(p.movers[k], final), firstSync, secondSync), final);
    if p'.off.Push? && !final && p.movers[k].version2 {
      forall c | 0 <= c < |p'.off.rest| ensures WholeBurst(p'.off.rest[c]) {
        TurnReadsBursts(p, firstSync, secondSync, c);
      }
    }
  }

  lemma RingsMean(p: Pipe, k: nat)
    requires RingsOk(p) && k < |p.movers|
    ensures RingOk(p, k)
  {
  }

  lemma DmaBursty(p: Pipe, i: nat, word: seq<Byte>)
    requires Bursty(p)
    ensures Bursty(DmaStep(p, i, word))
  {
    hide WriteWord, WholeBurst;
    var p' := DmaStep(p, i, word);
    if i < |p.movers| && p.movers[i].mem != [] {
      WordKeepsFlags(p.movers[i], p.circular, word);
      assert forall j | 0 <= j < |p.movers| ::
          p'.movers[j].version2 == p.movers[j].version2 && p'.movers[j].flushed == p.movers[j].flushed;
      forall k | 0 <= k < |p'.pushed|
        ensures var (j, chunk) := p'.pushed[k];
                j < |p'.movers| && (p'.movers[j].version2 && !p'.movers[j].flushed ==> WholeBurst(chunk))
      {
        assert p'.pushed[k] == p.pushed[k];
      }
    }
  }

  lemma PushBursty(p: Pipe)
    requires RingsOk(p) && Bursty(p) && p.off.Push? && p.off.rest != []
    ensures Bursty(OffloadStep(p, true, true))
  {
    hide RingOk, WholeBurst;
    var p' := OffloadStep(p, true, true);
    forall k | 0 <= k < |p'.pushed|
      ensures var (j, chunk) := p'.pushed[k];
              j < |p'.movers| && (p'.movers[j].version2 && !p'.movers[j].flushed ==> WholeBurst(chunk))
    {
      if k < |p.pushed| {
        assert p'.pushed[k] == p.pushed[k];
      } else {
        assert p'.pushed[k] == (p.off.i, p.off.rest[0]);
      }
    }
  }

  lemma OffloadBursty(p: Pipe, firstSync: bool, secondSync: bool)
    requires Ok(p) && Bursty(p)
    ensures Bursty(OffloadStep(p, firstSync, secondSync))
  {
    hide RingOk, FifoOk, HandOffOk, TurnStep, WholeBurst;
    if p.off.Turn? && p.off.i < |p.movers| {
      TurnBursty(p, firstSync, secondSync);
    } else if p.off.Push? && p.off.rest != [] {
      PushBursty(p);
    }
  }

  lemma StepBursty(p: Pipe, a: Action)
    requires Ok(p) && Bursty(p)
    ensures Bursty(Step(p, a))
  {
    hide RingOk, FifoOk, HandOffOk, DmaStep, OffloadStep, ProcessStep, WholeBurst;
    match a
    case Dma(i, word) => DmaBursty(p, i, word);
    case OffloadThread(firstSync, secondSync) => OffloadBursty(p, firstSync, secondSync);
    case ProcessThread => ProcessKeeps(p);
    case Stop =>
  }

  lemma {:induction false} RunBursty(p: Pipe, actions: seq<Action>)
    requires Ok(p) && Bursty(p)
    ensures Bursty(Run(p, actions))
  {
    hide Ok, Bursty, Step;
    if actions != [] {
      RunBursty(p, actions[..|actions| - 1]);
      StepBursty(Run(p, actions[..|actions| - 1]), actions[|actions| - 1]);
    }
  }

  /** In every run with rings of whole bursts: what a poll that is not the final one reads of a version
      2 mover, and every chunk queued for such a mover until its final poll flushes it, is whole
      bursts, and at least one. */
  lemma BurstsUntilFinal(p: Pipe, actions: seq<Action>, k: nat)
    requires Fresh(p) && forall i | 0 <= i < |p.movers| :: |p.movers[i].mem| % BURST_BYTES == 0
    ensures var q := RunFresh(p, actions);
            && (q.off.Push? && !q.off.final && q.off.i < |q.movers| && q.movers[q.off.i].version2
                && k < |q.off.rest| ==>
                  WholeBurst(q.off.rest[k]))
            && (k < |q.pushed| && q.pushed[k].0 < |q.movers|
                && q.movers[q.pushed[k].0].version2 && !q.movers[q.pushed[k].0].flushed ==>
                  WholeBurst(q.pushed[k].1))
  {
    hide Run, Ok, WholeBurst;
    FreshOk(p);
    RunBursty(p, actions);
  }

  // ----- Turn by turn -----

  /** What a poll moves: the first n movers, the buffers, the queue and the status. */
  ghost predicate Polled(p: Pipe, q: Pipe, bufs: seq<TraceBufferInfo>, chunks: seq<seq<Byte>>, stopped: bool, n: nat) {
    && |q.movers| == |p.movers| && (forall i | n <= i < |p.movers| :: q.movers[i] == p.movers[i])
    && q.circular == p.circular && q.initialized == p.initialized
    && q.bufs == bufs && q.queue == p.queue + chunks
    && q.status == if stopped then Stopping(p.status) else p.status
  }

  lemma PushStep(p: Pipe)
    requires Ok(p) && p.off.Push?
    ensures var p' := Step(p, OffloadThread(true, true));
            if p.off.rest == [] then p' == p.(off := Turn(p.off.final, p.off.i + 1))
            else && p'.off == Push(p.off.final, p.off.i, p.off.rest[1..])
                 && p' == p.(queue := p.queue + [p.off.rest[0]], pushed := p'.pushed, off := p'.off)
  {
    hide Ok, RingsOk;
  }

  /** Pushing what a turn read, one chunk a step. */
  lemma {:induction false} PushAll(p: Pipe, n: nat)
    requires Ok(p) && p.off.Push? && n == |p.off.rest|
    ensures var q := Run(p, Alone(n + 1));
            q == p.(queue := p.queue + p.off.rest, pushed := q.pushed, off := Turn(p.off.final, p.off.i + 1))
    decreases n
  {
    hide Ok, Step, Run;
    PushStep(p);
    AloneFirst(p, n);
    var p1 := Step(p, OffloadThread(true, true));
    if n == 0 {
      RunNothing(p1);
      assert p.queue + [] == p.queue;
    } else {
      PushAll(p1, n - 1);
      assert p.queue + [p.off.rest[0]] + p.off.rest[1..] == p.queue + p.off.rest;
    }
  }

  /** n steps of the offload thread, whose syncs (if it comes to any) succeed. */
  function Alone(n: nat): seq<Action> {
    seq(n, _ => OffloadThread(true, true))
  }

  lemma RunNothing(p: Pipe)
    requires Ok(p)
    ensures Run(p, []) == p && Alone(0) == []
  {
    hide Ok;
  }

  lemma AloneFirst(p: Pipe, n: nat)
    requires Ok(p)
    ensures Run(p, Alone(n + 1)) == Run(Step(p, OffloadThread(true, true)), Alone(n))
  {
    hide Ok, Step;
    RunConcat(p, [OffloadThread(true, true)], Alone(n));
    assert [OffloadThread(true, true)] + Alone(n) == Alone(n + 1);
    assert [OffloadThread(true, true)][..0] == [];
    RunNothing(p);
  }

  lemma {:induction false} RunConcat(p: Pipe, a: seq<Action>, b: seq<Action>)
    requires Ok(p)
    ensures Run(p, a + b) == Run(Run(p, a), b)
  {
    hide Ok, Step;
    if b == [] {
      assert a + b == a;
      RunNothing(Run(p, a));
    } else {
      assert (a + b)[..|a + b| - 1] == a + b[..|b| - 1];
      RunConcat(p, a, b[..|b| - 1]);
    }
  }

  /** What the poll sees of each mover. */
  function Views(p: Pipe, final: bool, syncs: seq<(bool, bool)>): (r: seq<View>)
    requires |syncs| == |p.movers| && forall i | 0 <= i < |p.movers| :: p.movers[i].mem != []
    ensures |r| == |syncs|
  {
    seq(|syncs|, i requires 0 <= i < |syncs| => ViewOf(Poll(p.movers[i], final), syncs[i].0, syncs[i].1))
  }

  lemma AllCanBeRead(p: Pipe, syncs: seq<(bool, bool)>)
    requires Ok(p) && p.off.Turn? && p.off.i == 0 && |syncs| == |p.movers|
    ensures |p.bufs| == |p.movers| && forall i | 0 <= i < |p.movers| :: p.movers[i].mem != []
    ensures AllReadable(p.bufs, Views(p, p.off.final, syncs), p.off.final)
  {
    hide Poll, MoverOk, BufferOk, Readable, Got, BytesWritten;
    forall i | 0 <= i < |p.movers|
      ensures p.movers[i].mem != []
      ensures var v := ViewOf(Poll(p.movers[i], p.off.final), syncs[i].0, syncs[i].1);
              p.bufs[i].offloadDone || Readable(p.bufs[i], BytesWritten(v, p.off.final), v.mem)
    {
      assert RingOk(p, i);
      NotEmpty(p.movers[i], p.circular);
      ReadOk(p.movers[i], p.bufs[i], Got(p, i), p.circular, p.off.final, syncs[i].0, syncs[i].1);
    }
  }

  /** What a turn reads. */
  ghost function TurnRead(p: Pipe, firstSync: bool, secondSync: bool): ReadResult
    requires Ok(p) && p.off.Turn? && p.off.i < |p.movers| && p.movers[p.off.i].mem != []
  {
    var k, final := p.off.i, p.off.final;
    TurnCanRead(p, firstSync, secondSync);
    ReadMover(p.bufs[k], p.circular, ViewOf(Poll(p.movers[k], final), firstSync, secondSync), final)
  }

  lemma TurnCanRead(p: Pipe, firstSync: bool, secondSync: bool)
    requires Ok(p) && p.off.Turn? && p.off.i < |p.movers| && p.movers[p.off.i].mem != []
    ensures var k, final := p.off.i, p.off.final;
            var v := ViewOf(Poll(p.movers[k], final), firstSync, secondSync);
            p.bufs[k].offloadDone || Readable(p.bufs[k], BytesWritten(v, final), v.mem)
  {
    hide FifoOk, HandOffOk, MoverOk, BufferOk, Readable, Poll, BytesWritten, Got;
    var k, final := p.off.i, p.off.final;
    assert RingOk(p, k);
    ReadOk(p.movers[k], p.bufs[k], Got(p, k), p.circular, final, firstSync, secondSync);
  }

  lemma TurnMoves(p: Pipe, firstSync: bool, secondSync: bool)
    requires Ok(p) && p.off.Turn? && p.off.i < |p.movers| && p.movers[p.off.i].mem != []
    ensures var k, final, r := p.off.i, p.off.final, TurnRead(p, firstSync, secondSync);
            && Step(p, OffloadThread(firstSync, secondSync)) ==
               p.(movers := p.movers[k := Poll(p.movers[k], final)], bufs := p.bufs[k := r.bd],
                  status := if r.overwritten then Stopping(p.status) else p.status,
                  off := if r.overwritten then Turn(final, |p.movers|) else Push(final, k, r.chunks))
            && (r.overwritten ==> r.chunks == [])
  {
    hide FifoOk, HandOffOk, MoverOk, BufferOk, Readable, Poll, BytesWritten, Got, Position, Sync;
  }

  /** One mover's turn, with all its pushes. */
  lemma OneTurn(p: Pipe, firstSync: bool, secondSync: bool) returns (actions: seq<Action>)
    requires Ok(p) && p.off.Turn? && p.off.i < |p.movers| && p.movers[p.off.i].mem != []
    ensures forall i | 0 <= i < |actions| :: actions[i].OffloadThread?
    ensures var k, final, q := p.off.i, p.off.final, Run(p, actions);
            var r := TurnRead(p, firstSync, secondSync);
            q == p.(movers := p.movers[k := Poll(p.movers[k], final)], bufs := p.bufs[k := r.bd],
                    queue := p.queue + r.chunks, pushed := q.pushed,
                    status := if r.overwritten then Stopping(p.status) else p.status,
                    off := Turn(final, if r.overwritten then |p.movers| else k + 1))
  {
    hide Ok, Step, Run, Poll, TurnRead;
    var turn := OffloadThread(firstSync, secondSync);
    TurnMoves(p, firstSync, secondSync);
    var p1 := Step(p, turn);
    RunOneStep(p, turn);
    if p1.off.Push? {
      var n := |p1.off.rest|;
      PushAll(p1, n);
      RunConcat(p, [turn], Alone(n + 1));
      actions := [turn] + Alone(n + 1);
    } else {
      actions := [turn];
      assert p.queue + [] == p.queue;
    }
  }

  lemma AlsoPolled(p: Pipe, q0: Pipe, q: Pipe, r0: Reads, r: ReadResult, k: nat)
    requires !r0.stopped && k < |p.movers| && k < |r0.bufs| && Polled(p, q0, r0.bufs, r0.chunks, false, k)
    requires q == q0.(movers := q.movers, bufs := q0.bufs[k := r.bd], queue := q0.queue + r.chunks, pushed := q.pushed,
                      status := if r.overwritten then Stopping(q0.status) else q0.status, off := q.off)
    requires |q.movers| == |q0.movers| && q.movers == q0.movers[k := q.movers[k]]
    ensures Polled(p, q, r0.bufs[k := r.bd], r0.chunks + r.chunks, r.overwritten, k + 1)
  {
    assert p.queue + r0.chunks + r.chunks == p.queue + (r0.chunks + r.chunks);
  }

  /** State q is what the single-threaded poll of the first n movers makes of p. */
  ghost predicate PolledTo(p: Pipe, syncs: seq<(bool, bool)>, n: nat, q: Pipe)
    requires Ok(p) && p.off.Turn? && p.off.i == 0 && |syncs| == |p.movers| && n <= |p.movers|
  {
    var r := ReadSoFar(p, syncs, n);
    && Polled(p, q, r.bufs, r.chunks, r.stopped, n)
    && q.off == Turn(p.off.final, if r.stopped then |p.movers| else n)
  }

  /** A mover whose turn has not come yet is read as the single-threaded poll reads it. */
  lemma SameRead(p: Pipe, syncs: seq<(bool, bool)>, k: nat, q: Pipe)
    requires Ok(p) && p.off.Turn? && p.off.i == 0 && |syncs| == |p.movers| && k < |p.movers|
    requires Ok(q) && q.off == Turn(p.off.final, k) && |q.movers| == |p.movers| == |p.bufs| == |q.bufs|
    requires q.movers[k] == p.movers[k] && q.bufs[k] == p.bufs[k] && q.circular == p.circular
    ensures p.movers[k].mem != []
    ensures var (first, second) := syncs[k];
            var v := ViewOf(Poll(p.movers[k], p.off.final), first, second);
            && (p.bufs[k].offloadDone || Readable(p.bufs[k], BytesWritten(v, p.off.final), v.mem))
            && TurnRead(q, first, second) == ReadMover(p.bufs[k], p.circular, v, p.off.final)
  {
    hide Ok, ReadMover, Readable, Poll, BytesWritten, AllReadable;
    AllCanBeRead(p, syncs);
    TurnCanRead(q, syncs[k].0, syncs[k].1);
  }

  ghost function ReadSoFar(p: Pipe, syncs: seq<(bool, bool)>, n: nat): (r: Reads)
    requires Ok(p) && p.off.Turn? && p.off.i == 0 && |syncs| == |p.movers| && n <= |p.movers|
    ensures |r.bufs| == |p.bufs| == |p.movers|
  {
    AllCanBeRead(p, syncs);
    ReadMovers(p.bufs, p.circular, Views(p, p.off.final, syncs), p.off.final, n)
  }

  /** The buffer of a mover whose turn has not come is as it was. */
  lemma NotYetRead(p: Pipe, syncs: seq<(bool, bool)>, k: nat)
    requires Ok(p) && p.off.Turn? && p.off.i == 0 && |syncs| == |p.movers| && k < |p.movers|
    ensures ReadSoFar(p, syncs, k).bufs[k] == p.bufs[k]
  {
    hide Ok, ReadMover, Readable, Poll, BytesWritten, AllReadable;
    var bufs := ReadSoFar(p, syncs, k).bufs;
    AllCanBeRead(p, syncs);
    assert bufs[k..] == p.bufs[k..];
    assert bufs[k..][0] == bufs[k] && p.bufs[k..][0] == p.bufs[k];
  }

  lemma ReadOneMore(p: Pipe, syncs: seq<(bool, bool)>, k: nat, r: ReadResult)
    requires Ok(p) && p.off.Turn? && p.off.i == 0 && |syncs| == |p.movers| && k < |p.movers|
    requires p.movers[k].mem != []
    requires var v := ViewOf(Poll(p.movers[k], p.off.final), syncs[k].0, syncs[k].1);
             && (p.bufs[k].offloadDone || Readable(p.bufs[k], BytesWritten(v, p.off.final), v.mem))
             && r == ReadMover(p.bufs[k], p.circular, v, p.off.final)
    ensures var r0 := ReadSoFar(p, syncs, k);
            ReadSoFar(p, syncs, k + 1) ==
            if r0.stopped then r0 else Reads(r0.bufs[k := r.bd], r0.chunks + r.chunks, r.overwritten)
  {
    hide Ok, ReadMover, Readable, Poll, BytesWritten, AllReadable;
    AllCanBeRead(p, syncs);
    var views := Views(p, p.off.final, syncs);
    if ReadSoFar(p, syncs, k).stopped {
      StoppedForGood(p.bufs, p.circular, views, p.off.final, k, k + 1);
    } else {
      NextMover(p.bufs, p.circular, views, p.off.final, k);
    }
  }

  lemma NextTurn(p: Pipe, syncs: seq<(bool, bool)>, k: nat, q0: Pipe) returns (turn: seq<Action>)
    requires Ok(p) && p.off.Turn? && p.off.i == 0 && |syncs| == |p.movers| && k < |p.movers|
    requires Ok(q0) && PolledTo(p, syncs, k, q0)
    ensures forall i | 0 <= i < |turn| :: turn[i].OffloadThread?
    ensures PolledTo(p, syncs, k + 1, Run(q0, turn))
  {
    hide Ok, Run, ReadSoFar, ReadMover, Readable, Poll, BytesWritten, TurnRead;
    var r0 := ReadSoFar(p, syncs, k);
    CanRead(p, syncs, k);
    ReadOneMore(p, syncs, k, ReadMover(p.bufs[k], p.circular,
                                       ViewOf(Poll(p.movers[k], p.off.final), syncs[k].0, syncs[k].1), p.off.final));
    if r0.stopped {
      turn := [];
      RunNothing(q0);
    } else {
      NotYetRead(p, syncs, k);
      SameRead(p, syncs, k, q0);
      turn := OneTurn(q0, syncs[k].0, syncs[k].1);
      AlsoPolled(p, q0, Run(q0, turn), r0, TurnRead(q0, syncs[k].0, syncs[k].1), k);
    }
  }

  lemma CanRead(p: Pipe, syncs: seq<(bool, bool)>, k: nat)
    requires Ok(p) && p.off.Turn? && p.off.i == 0 && |syncs| == |p.movers| && k < |p.movers|
    ensures p.movers[k].mem != []
    ensures var v := ViewOf(Poll(p.movers[k], p.off.final), syncs[k].0, syncs[k].1);
            p.bufs[k].offloadDone || Readable(p.bufs[k], BytesWritten(v, p.off.final), v.mem)
  {
    hide Ok, Readable, Poll, BytesWritten;
    AllCanBeRead(p, syncs);
  }

  /** The offload thread on its own, turn by turn, does to the buffers, the queue and the status what
      one single-threaded poll does, up to the mover whose ring was overwritten. */
  lemma {:induction false} PollIsTurnByTurn(p: Pipe, syncs: seq<(bool, bool)>, n: nat) returns (actions: seq<Action>)
    requires Ok(p) && p.off.Turn? && p.off.i == 0 && |syncs| == |p.movers| && n <= |p.movers|
    ensures forall i | 0 <= i < |actions| :: actions[i].OffloadThread?
    ensures PolledTo(p, syncs, n, Run(p, actions))
  {
    hide Ok, Run;
    if n == 0 {
      actions := [];
      RunNothing(p);
      AllCanBeRead(p, syncs);
      NoMoverYet(p.bufs, p.circular, Views(p, p.off.final, syncs), p.off.final);
      assert p.queue + [] == p.queue;
    } else {
      hide PolledTo;
      var before := PollIsTurnByTurn(p, syncs, n - 1);
      var turn := NextTurn(p, syncs, n - 1, Run(p, before));
      RunConcat(p, before, turn);
      actions := before + turn;
    }
  }

  lemma RunOneStep(p: Pipe, a: Action)
    requires Ok(p)
    ensures Run(p, [a]) == Step(p, a)
  {
    hide Ok, Step;
    assert [a][..0] == [];
    RunNothing(p);
  }
}
