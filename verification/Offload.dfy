/** The offloader's own methods, on one thread: polling the data movers into the queue, and draining
    the queue into the logger. How the threads interleave is in Pipeline.dfy. */
module Offload {
  import opened TraceTypes
  import opened Packets
  import opened LoggerSpec
  import opened Logger
  import opened OffloadSpec
  import opened ClockTraining

  datatype Status = IDLE | RUNNING | STOPPING | STOPPED

  /** stop_offload leaves a stopped offloader alone. */
  function Stopping(status: Status): Status {
    if status == STOPPED then STOPPED else STOPPING
  }

  ghost predicate AllReadable(bufs: seq<TraceBufferInfo>, views: seq<View>, final: bool) {
    && |bufs| == |views|
    && forall i | 0 <= i < |bufs| ::
         bufs[i].offloadDone || Readable(bufs[i], BytesWritten(views[i], final), views[i].mem)
  }

  datatype Reads = Reads(bufs: seq<TraceBufferInfo>, chunks: seq<seq<Byte>>, stopped: bool)

  /** The first n movers in turn, up to the one whose ring was overwritten. */
  ghost function ReadMovers(bufs: seq<TraceBufferInfo>, circular: bool, views: seq<View>, final: bool,
                            n: nat): (r: Reads)
    requires n <= |bufs| && AllReadable(bufs, views, final)
    ensures |r.bufs| == |bufs| && r.bufs[n..] == bufs[n..]
  {
    if n == 0 then Reads(bufs, [], false)
    else
      var r := ReadMovers(bufs, circular, views, final, n - 1);
      if r.stopped then r
      else
        var turn := ReadMover(bufs[n - 1], circular, views[n - 1], final);
        Reads(r.bufs[n - 1 := turn.bd], r.chunks + turn.chunks, turn.overwritten)
  }

  /** The packets of each chunk. */
  function PacketChunks(chunks: seq<seq<Byte>>): (r: seq<seq<Packet>>)
    ensures |r| == |chunks|
  {
    seq(|chunks|, i requires 0 <= i < |chunks| => PacketsOf(chunks[i]))
  }

  /** Until a window has been found, the search needs every chunk to be empty or long enough. */
  predicate Searchable(found: bool, chunks: seq<seq<Byte>>)
    decreases |chunks|
  {
    || found
    || chunks == []
    || ((|chunks[0]| == 0 || |chunks[0]| / 8 >= 8)
        && var ps := PacketsOf(chunks[0]);
           Searchable(SearchFrom(ps, 0) < |ps|, chunks[1..]))
  }

  lemma ProcessFinds(D: Design, s: State, ps: seq<Packet>)
    requires s.Fits(D)
    ensures Process(D, s, ps).phase.found == (s.phase.found || SearchFrom(ps, 0) < |ps|)
  {
    hide Fold;
    FoundStays(D, Sought(s, ps), Interpreted(s, ps));
  }

  const TS2MM_DEF_BUF_SIZE: nat := 0x10_0000
  const CIRC_BUF_MIN_RATE: nat := TS2MM_DEF_BUF_SIZE * 100

  class PLDeviceTraceOffload {
    const logger: PLDeviceTraceLogger
    const numTs2mm: nat
    const sleepIntervalMs: nat

    var buffers: seq<TraceBufferInfo>
    var useCircBuf: bool
    var dataQueue: seq<seq<Byte>>
    var sizeQueue: seq<nat>
    var status: Status

    /** The two queues run in step. */
    ghost predicate QueuesMatch()
      reads this
    {
      && |dataQueue| == |sizeQueue|
      && forall i | 0 <= i < |dataQueue| :: sizeQueue[i] == |dataQueue[i]|
    }

    constructor (logger: PLDeviceTraceLogger, numTs2mm: nat, sleepIntervalMs: nat)
      ensures this.logger == logger && this.numTs2mm == numTs2mm && this.sleepIntervalMs == sleepIntervalMs
      ensures buffers == [] && !useCircBuf && dataQueue == [] && QueuesMatch() && status == IDLE
    {
      this.logger, this.numTs2mm, this.sleepIntervalMs := logger, numTs2mm, sleepIntervalMs;
      buffers, useCircBuf, dataQueue, sizeQueue, status := [], false, [], [], IDLE;
    }

    /** Circular mode needs the hardware, the wish, and a rate the polling can keep up with. `granted`
        says which buffers the device could allocate. */
    method InitS2mm(supportsCircBuf: bool, circBuf: bool, bufSizes: seq<nat>, granted: seq<bool>) returns (ok: bool)
      requires |granted| == numTs2mm && (bufSizes == [] || |bufSizes| >= numTs2mm)
      modifies this`buffers, this`useCircBuf
      ensures ok <==> bufSizes != [] && (forall i | 0 <= i < numTs2mm :: granted[i])
      ensures ok ==>
                buffers ==
                seq(numTs2mm, i requires 0 <= i < numTs2mm => TraceBufferInfo(bufSizes[i], 0, 0, 0, false, false))
      ensures useCircBuf <==> old(useCircBuf) ||
                              (bufSizes != [] && supportsCircBuf && circBuf &&
                               (sleepIntervalMs != 0 ==> bufSizes[0] * (1000 / sleepIntervalMs) >= 104857600))
    {
      buffers := seq(numTs2mm, _ => TraceBufferInfo(0, 0, 0, 0, false, false));
      if bufSizes == [] {
        return false;
      }
      if supportsCircBuf && circBuf {
        if sleepIntervalMs != 0 {
          var rate := bufSizes[0] * (1000 / sleepIntervalMs);
          if rate >= CIRC_BUF_MIN_RATE {
            useCircBuf := true;
          }
        } else {
          useCircBuf := true;
        }
      }
      ghost var circular := useCircBuf;
      var i := 0;
      while i < numTs2mm
        invariant i <= numTs2mm == |buffers| && useCircBuf == circular
        invariant forall j | 0 <= j < i :: granted[j]
        invariant forall j | 0 <= j < i ::
                    buffers[j] == TraceBufferInfo(bufSizes[j], 0, 0, 0, false, false)
        invariant forall j | i <= j < numTs2mm :: buffers[j] == TraceBufferInfo(0, 0, 0, 0, false, false)
      {
        buffers := buffers[i := buffers[i].(allocSize := bufSizes[i])];
        if !granted[i] {
          return false;
        }
        i := i + 1;
      }
      return true;
    }

    method StopOffload()
      modifies this`status
      ensures status == Stopping(old(status))
    {
      if status == STOPPED {
        return;
      }
      status := STOPPING;
    }

    /** Sync the interval from offset to used size and queue a copy of it. */
    method SyncAndLog(index: nat, mem: seq<Byte>, syncOk: bool) returns (more: bool)
      requires index < |buffers| && buffers[index].usedSize <= |mem| && QueuesMatch()
      modifies this`buffers, this`dataQueue, this`sizeQueue
      ensures var (bd, chunks, go) := Sync(old(buffers)[index], useCircBuf, mem, syncOk);
              buffers == old(buffers)[index := bd] && dataQueue == old(dataQueue) + chunks && more == go
      ensures QueuesMatch()
    {
      var bd := buffers[index];
      if bd.offset >= bd.usedSize {
        return false;
      }
      var nBytes := bd.usedSize - bd.offset;
      if !syncOk {
        buffers := buffers[index := bd.(offloadDone := true)];
        return false;
      }
      dataQueue := dataQueue + [mem[bd.offset..bd.usedSize]];
      sizeQueue := sizeQueue + [nBytes];
      if bd.usedSize == bd.allocSize && !useCircBuf {
        buffers := buffers[index := bd.(full := true)];
      }
      return true;
    }

    /** One mover's turn. */
    method ReadTurn(i: nat, force: bool, v: View) returns (overwritten: bool)
      requires i < |buffers| && QueuesMatch()
      requires buffers[i].offloadDone || Readable(buffers[i], BytesWritten(v, force), v.mem)
      modifies this`buffers, this`dataQueue, this`sizeQueue
      ensures var r := ReadMover(old(buffers)[i], useCircBuf, v, force);
              && buffers == old(buffers)[i := r.bd] && dataQueue == old(dataQueue) + r.chunks
              && overwritten == r.overwritten
      ensures QueuesMatch()
    {
      hide Sync, Position;
      overwritten := false;
      var bd := buffers[i];
      if bd.offloadDone {
        return;
      }
      var bytesWritten := BytesWritten(v, force);
      var bytesRead := bd.BytesRead();
      if bytesWritten > bytesRead + bd.allocSize {
        buffers := buffers[i := bd.(offloadDone := true)];
        return true;
      }
      if bd.usedSize == bd.allocSize && !useCircBuf {
        buffers := buffers[i := bd.(offset := bd.usedSize, offloadDone := true)];
        return;
      }
      // Previous offset, rolled over if it is the end of the ring; the rest of a read that crosses it.
      var position, leftover := Reposition(bd, bytesWritten);
      RingArithmetic(bd, bytesWritten);
      buffers := buffers[i := position];
      var more := SyncAndLog(i, v.mem, v.firstSync);
      if !more {
        return;
      }
      if useCircBuf && leftover > 0 {
        bd := buffers[i];
        buffers := buffers[i := bd.(rolloverCount := (bd.rolloverCount + 1) % ROLLOVER_RANGE, offset := 0,
                                    usedSize := leftover)];
        var _ := SyncAndLog(i, v.mem, v.secondSync);
      }
    }

    method Reposition(bd: TraceBufferInfo, bytesWritten: nat) returns (position: TraceBufferInfo, leftover: nat)
      requires bd.allocSize > 0 && bd.usedSize <= bd.allocSize && bd.rolloverCount < ROLLOVER_RANGE
      requires bd.BytesRead() <= bytesWritten < ROLLOVER_RANGE * bd.allocSize
      ensures (position, leftover) == Position(bd, bytesWritten)
    {
      position := bd.(offset := bd.usedSize);
      if position.offset == bd.allocSize {
        NoWrap(bd, bytesWritten);
        position := position.(rolloverCount := (bd.rolloverCount + 1) % ROLLOVER_RANGE, offset := 0);
      }
      leftover := 0;
      position := position.(usedSize := bytesWritten - position.rolloverCount * bd.allocSize);
      if position.usedSize > bd.allocSize {
        leftover := position.usedSize - bd.allocSize;
        position := position.(usedSize := bd.allocSize);
      }
    }

    /** Poll every mover; an overwritten ring stops the offload and the polling. */
    method ReadTraceS2mm(force: bool, views: seq<View>)
      requires AllReadable(buffers, views, force) && QueuesMatch()
      modifies this`buffers, this`dataQueue, this`sizeQueue, this`status
      ensures var r := ReadMovers(old(buffers), useCircBuf, views, force, |views|);
              && buffers == r.bufs && dataQueue == old(dataQueue) + r.chunks
              && status == if r.stopped then Stopping(old(status)) else old(status)
      ensures QueuesMatch()
    {
      hide ReadMover, Readable, BytesWritten, ReadMovers;
      ghost var bufs, queue := buffers, dataQueue;
      ghost var queued := [];
      NoMoverYet(bufs, useCircBuf, views, force);
      var i := 0;
      while i < |buffers|
        invariant i <= |buffers| == |bufs|
        invariant ReadMovers(bufs, useCircBuf, views, force, i) == Reads(buffers, queued, false)
        invariant dataQueue == queue + queued && QueuesMatch()
        invariant status == old(status)
        decreases |views| - i
      {
        assert buffers[i..][0] == bufs[i..][0];
        ghost var turn := ReadMover(bufs[i], useCircBuf, views[i], force);
        NextMover(bufs, useCircBuf, views, force, i);
        var overwritten := ReadTurn(i, force, views[i]);
        queued := queued + turn.chunks;
        i := i + 1;
        if overwritten {
          StopOffload();
          StoppedForGood(bufs, useCircBuf, views, force, i, |views|);
          return;
        }
      }
    }

    /** Drain the queue, oldest chunk first. Until training is seen, which may be in a chunk of the
        queue, each chunk must be long enough for the search. */
    method ProcessTrace()
      requires QueuesMatch() && logger.Valid()
      requires Searchable(logger.found, dataQueue)
      modifies this`dataQueue, this`sizeQueue, logger, logger.db, logger.db.plDb
      ensures dataQueue == [] && QueuesMatch() && logger.Valid()
      ensures logger.State() == ProcessAll(logger.D, old(logger.State()), PacketChunks(old(dataQueue)))
    {
      hide ProcessAll, Process;
      var qEmpty := true;
      ghost var taken := 0;
      ghost var all := PacketChunks(dataQueue);
      NoneYet(logger.D, logger.State());
      assert all[..0] == [];
      while true
        invariant taken <= |all| == |old(dataQueue)|
        invariant dataQueue == old(dataQueue)[taken..] && QueuesMatch()
        invariant qEmpty ==> taken == 0
        invariant !qEmpty ==> dataQueue != []
        invariant logger.Valid()
        invariant logger.State() == ProcessAll(logger.D, old(logger.State()), all[..taken])
        invariant Searchable(logger.found, dataQueue)
        decreases |dataQueue|
      {
        var read := false;
        var buf: seq<Byte> := [];
        if dataQueue != [] {
          buf := dataQueue[0];
          var size := sizeQueue[0];
          assert buf[..size] == old(dataQueue)[taken];
          buf := buf[..size];
          dataQueue := dataQueue[1..];
          sizeQueue := sizeQueue[1..];
          read := true;
          qEmpty := dataQueue == [];
        }
        if read {
          ghost var before := logger.State();
          ProcessFinds(logger.D, before, PacketsOf(buf));
          OneMore(logger.D, old(logger.State()), all, taken);
          logger.ProcessTraceData(buf);
          taken := taken + 1;
        }
        if qEmpty {
          break;
        }
      }
      assert all[..taken] == all;
    }
  }

  lemma NoneYet(D: Design, s: State)
    requires s.Fits(D)
    ensures ProcessAll(D, s, []) == s
  {
  }

  lemma OneMore(D: Design, s: State, all: seq<seq<Packet>>, n: nat)
    requires s.Fits(D) && n < |all|
    ensures ProcessAll(D, s, all[..n + 1]) == Process(D, ProcessAll(D, s, all[..n]), all[n])
  {
    assert all[..n + 1][..n] == all[..n];
  }

  lemma NoMoverYet(bufs: seq<TraceBufferInfo>, circular: bool, views: seq<View>, final: bool)
    requires AllReadable(bufs, views, final)
    ensures ReadMovers(bufs, circular, views, final, 0) == Reads(bufs, [], false)
  {
  }

  lemma NextMover(bufs: seq<TraceBufferInfo>, circular: bool, views: seq<View>, final: bool, i: nat)
    requires i < |bufs| && AllReadable(bufs, views, final) && !ReadMovers(bufs, circular, views, final, i).stopped
    ensures var r, turn := ReadMovers(bufs, circular, views, final, i), ReadMover(bufs[i], circular, views[i], final);
            ReadMovers(bufs, circular, views, final, i + 1) ==
            Reads(r.bufs[i := turn.bd], r.chunks + turn.chunks, turn.overwritten)
  {
    hide ReadMover;
  }

  lemma {:induction false} StoppedForGood(bufs: seq<TraceBufferInfo>, circular: bool, views: seq<View>, final: bool,
                                          i: nat, n: nat)
    requires i <= n <= |bufs| && AllReadable(bufs, views, final) && ReadMovers(bufs, circular, views, final, i).stopped
    ensures ReadMovers(bufs, circular, views, final, n) == ReadMovers(bufs, circular, views, final, i)
    decreases n - i
  {
    hide ReadMover, Readable;
    if i < n {
      StoppedForGood(bufs, circular, views, final, i, n - 1);
    }
  }
}
