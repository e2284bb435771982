/** Reading a data mover's ring buffer: how much to read, from where, and what goes into the queue. */
module OffloadSpec {
  import opened Packets

  const BURST_WORDS: nat := 32
  const ROLLOVER_RANGE: nat := 0x1_0000_0000  // the rollover counter has 32 bits

  datatype TraceBufferInfo = TraceBufferInfo(
    allocSize: nat, usedSize: nat, offset: nat, rolloverCount: nat, full: bool, offloadDone: bool)
  {
    function BytesRead(): nat { rolloverCount * allocSize + usedSize }
  }

  /** What one poll of a data mover sees: its word counter (after the flush that a final poll asks a
      version 2 mover for), the ring memory, and whether the first and the second sync get an address. */
  datatype View = View(words: nat, version2: bool, mem: seq<Byte>, firstSync: bool, secondSync: bool)

  /** A version 2 mover writes whole bursts, except for the last one. */
  function WordCount(v: View, final: bool): nat {
    if !final && v.version2 then v.words - v.words % BURST_WORDS else v.words
  }

  function BytesWritten(v: View, final: bool): nat { WordCount(v, final) * TRACE_PACKET_SIZE }

  /** What reading relies on: the counter has not gone back, the ring is as big as it was allocated,
      and the 32-bit rollover counter does not wrap. */
  ghost predicate Readable(bd: TraceBufferInfo, written: nat, mem: seq<Byte>) {
    && bd.allocSize > 0
    && |mem| == bd.allocSize
    && bd.usedSize <= bd.allocSize
    && bd.BytesRead() <= written < ROLLOVER_RANGE * bd.allocSize
    && bd.rolloverCount < ROLLOVER_RANGE
  }

  /** Where the next read begins and ends, and how many bytes are left for a second one from 0.
      (Not reached when the buffer is full and not circular.) */
  function Position(bd: TraceBufferInfo, written: nat): (r: (TraceBufferInfo, nat))
    requires bd.allocSize > 0 && bd.usedSize <= bd.allocSize && bd.rolloverCount < ROLLOVER_RANGE
    requires bd.BytesRead() <= written < ROLLOVER_RANGE * bd.allocSize
    ensures r.0.usedSize <= bd.allocSize && r.0.allocSize == bd.allocSize
  {
    var rolled := bd.usedSize == bd.allocSize;
    var rollover := if rolled then (bd.rolloverCount + 1) % ROLLOVER_RANGE else bd.rolloverCount;
    NoWrap(bd, written);
    var used := written - rollover * bd.allocSize;
    var b := bd.(offset := if rolled then 0 else bd.usedSize, rolloverCount := rollover);
    if used > bd.allocSize then (b.(usedSize := bd.allocSize), used - bd.allocSize)
    else (b.(usedSize := used), 0)
  }

  lemma FewerTimes(r: nat, n: nat, size: nat)
    requires r * size < n * size
    ensures r < n
  {
  }

  /** A full ring rolls over without wrapping the counter and without passing what was written. */
  lemma NoWrap(bd: TraceBufferInfo, written: nat)
    requires bd.allocSize > 0 && bd.usedSize <= bd.allocSize && bd.rolloverCount < ROLLOVER_RANGE
    requires bd.BytesRead() <= written < ROLLOVER_RANGE * bd.allocSize
    ensures bd.usedSize == bd.allocSize ==>
              && bd.rolloverCount + 1 < ROLLOVER_RANGE
              && (bd.rolloverCount + 1) * bd.allocSize == bd.BytesRead()
  {
    if bd.usedSize == bd.allocSize {
      assert (bd.rolloverCount + 1) * bd.allocSize == bd.BytesRead();
      FewerTimes(bd.rolloverCount + 1, ROLLOVER_RANGE, bd.allocSize);
    }
  }

  /** One sync: the new buffer state, what was queued, and whether to go on. */
  function Sync(bd: TraceBufferInfo, circular: bool, mem: seq<Byte>, ok: bool): (TraceBufferInfo, seq<seq<Byte>>, bool)
    requires bd.usedSize <= |mem|
  {
    if bd.offset >= bd.usedSize then (bd, [], false)
    else if !ok then (bd.(offloadDone := true), [], false)
    else (bd.(full := bd.full || (bd.usedSize == bd.allocSize && !circular)), [mem[bd.offset..bd.usedSize]], true)
  }

  datatype ReadResult = ReadResult(bd: TraceBufferInfo, chunks: seq<seq<Byte>>, overwritten: bool)

  /** One data mover's turn. */
  function ReadMover(bd: TraceBufferInfo, circular: bool, v: View, final: bool): ReadResult
    requires bd.offloadDone || Readable(bd, BytesWritten(v, final), v.mem)
  {
    var written := BytesWritten(v, final);
    if bd.offloadDone then ReadResult(bd, [], false)
    else if written > bd.BytesRead() + bd.allocSize then ReadResult(bd.(offloadDone := true), [], true)
    else if bd.usedSize == bd.allocSize && !circular then
      ReadResult(bd.(offset := bd.usedSize, offloadDone := true), [], false)
    else
      var p := Position(bd, written);
      var r1 := Sync(p.0, circular, v.mem, v.firstSync);
      if !r1.2 || !circular || p.1 == 0 then ReadResult(r1.0, r1.1, false)
      else
        RingArithmetic(bd, written);
        var r2 := Sync(r1.0.(rolloverCount := (r1.0.rolloverCount + 1) % ROLLOVER_RANGE, offset := 0, usedSize := p.1),
                       circular, v.mem, v.secondSync);
        ReadResult(r2.0, r1.1 + r2.1, false)
  }

  /** The arithmetic of the ring. When the overwrite check passes, the first interval begins at the
      byte after the last one read, its length and the length of the second add up to what is new,
      and the second, which exists only if the first reaches the end of the ring, ends no later
      than where the first began: the two do not meet. No subtraction goes below zero, and the
      rollover counter does not wrap. */
  lemma RingArithmetic(bd: TraceBufferInfo, written: nat)
    requires bd.allocSize > 0 && bd.usedSize <= bd.allocSize && bd.rolloverCount < ROLLOVER_RANGE
    requires bd.BytesRead() <= written < ROLLOVER_RANGE * bd.allocSize
    requires written <= bd.BytesRead() + bd.allocSize
    ensures var (first, second) := Position(bd, written);
            && first.offset <= first.usedSize <= bd.allocSize && first.offset < bd.allocSize
            && first.rolloverCount * bd.allocSize + first.offset == bd.BytesRead()
            && (first.usedSize - first.offset) + second == written - bd.BytesRead()
            && second <= first.offset
            && (second > 0 ==> first.usedSize == bd.allocSize && first.rolloverCount + 1 < ROLLOVER_RANGE
                               && (first.rolloverCount + 1) * bd.allocSize + second == written)
            && (second == 0 ==> first.rolloverCount * bd.allocSize + first.usedSize == written)
            && first.rolloverCount < ROLLOVER_RANGE
  {
    NoWrap(bd, written);
    var (first, second) := Position(bd, written);
    if second > 0 {
      assert (first.rolloverCount + 1) * bd.allocSize == first.rolloverCount * bd.allocSize + bd.allocSize;
      FewerTimes(first.rolloverCount + 1, ROLLOVER_RANGE, bd.allocSize);
    }
  }
}
