/** Data movers write into rings while the host reads from them: what has been queued for a mover is
    its byte stream, every byte once and in order. */
module Ring {
  import opened Packets
  import opened OffloadSpec

  const BURST_BYTES: nat := 256  // BURST_WORDS words

  /** A data mover: the bytes it has put into memory since it was started, the words it still holds
      back (version 2 writes whole bursts), and the ring memory itself. */
  datatype Mover = Mover(written: seq<Byte>, pending: seq<Byte>, mem: seq<Byte>, version2: bool, flushed: bool)

  // ----- The device side -----

  function PutByte(m: Mover, b: Byte): Mover
    requires m.mem != []
  {
    m.(written := m.written + [b], mem := m.mem[|m.written| % |m.mem| := b])
  }

  function Put(m: Mover, bytes: seq<Byte>): (r: Mover)
    requires m.mem != []
    ensures |r.mem| == |m.mem| && r.pending == m.pending && r.version2 == m.version2 && r.flushed == m.flushed
  {
    if bytes == [] then m else PutByte(Put(m, bytes[..|bytes| - 1]), bytes[|bytes| - 1])
  }

  /** The mover accepts a word unless it was reset, is full and not circular, or would outrun the
      32-bit rollover counter. */
  predicate Accepts(m: Mover, circular: bool) {
    var total := |m.written| + |m.pending| + TRACE_PACKET_SIZE;
    !m.flushed && (if circular then total < ROLLOVER_RANGE * |m.mem| else total <= |m.mem|)
  }

  function WriteWord(m: Mover, circular: bool, word: seq<Byte>): Mover
    requires m.mem != []
  {
    if |word| != TRACE_PACKET_SIZE || !Accepts(m, circular) then m
    else if !m.version2 then Put(m, word)
    else if |m.pending + word| == BURST_BYTES then Put(m.(pending := []), m.pending + word)
    else m.(pending := m.pending + word)
  }

  /** A final poll resets a version 2 mover, which flushes what it holds back. */
  function Poll(m: Mover, final: bool): (r: Mover)
    requires m.mem != []
    ensures |r.mem| == |m.mem|
  {
    if final && m.version2 then Put(m.(pending := []), m.pending).(flushed := true) else m
  }

  function ViewOf(m: Mover, firstSync: bool, secondSync: bool): View {
    View((|m.written| + |m.pending|) / TRACE_PACKET_SIZE, m.version2, m.mem, firstSync, secondSync)
  }

  // ----- The ring holds the last bytes written -----

  ghost predicate Holds(mem: seq<Byte>, w: seq<Byte>)
    requires mem != []
  {
    forall j | 0 <= j < |w| && |w| <= j + |mem| :: mem[j % |mem|] == w[j]
  }

  lemma ModDiffers(i: nat, j: nat, size: nat)
    requires i < j < i + size
    ensures i % size != j % size
  {
    if i % size == j % size {
      var d := j / size - i / size;
      assert d * size == j - i by {
        assert (j / size) * size - (i / size) * size == d * size;
      }
      if d >= 1 {
        MulMono(1, d, size);
      } else {
        MulMono(d, 0, size);
      }
    }
  }

  lemma PutByteHolds(m: Mover, b: Byte)
    requires m.mem != [] && Holds(m.mem, m.written)
    ensures Holds(PutByte(m, b).mem, PutByte(m, b).written)
  {
    var m' := PutByte(m, b);
    forall j | 0 <= j < |m'.written| && |m'.written| <= j + |m'.mem|
      ensures m'.mem[j % |m'.mem|] == m'.written[j]
    {
      if j < |m.written| {
        ModDiffers(j, |m.written|, |m.mem|);
      }
    }
  }

  lemma {:induction false} PutHolds(m: Mover, bytes: seq<Byte>)
    requires m.mem != [] && Holds(m.mem, m.written)
    ensures Holds(Put(m, bytes).mem, Put(m, bytes).written)
    ensures Put(m, bytes).written == m.written + bytes
  {
    if bytes != [] {
      var n := |bytes| - 1;
      PutHolds(m, bytes[..n]);
      PutByteHolds(Put(m, bytes[..n]), bytes[n]);
      assert m.written + bytes == (m.written + bytes[..n]) + [bytes[n]];
    }
  }

  /** An interval of the ring that has not been overwritten is the matching stretch of the stream. */
  lemma Slice(mem: seq<Byte>, w: seq<Byte>, r: nat, begin: nat, end: nat)
    requires mem != [] && Holds(mem, w)
    requires begin <= end <= |mem| && r * |mem| + end <= |w| && |w| <= r * |mem| + begin + |mem|
    ensures mem[begin..end] == w[r * |mem| + begin..r * |mem| + end]
  {
    var base := r * |mem|;
    forall k | 0 <= k < end - begin
      ensures mem[begin..end][k] == w[base + begin..base + end][k]
    {
      var j := base + begin + k;
      DivIs(j, r, begin + k, |mem|);
      assert mem[j % |mem|] == w[j];
    }
  }

  // ----- One mover and its buffer -----

  ghost predicate MoverOk(m: Mover, circular: bool) {
    var total := |m.written| + |m.pending|;
    && m.mem != []
    && Holds(m.mem, m.written)
    && |m.written| % 8 == 0 && |m.pending| % 8 == 0
    && (!m.version2 || m.flushed ==> m.pending == [])
    && (m.version2 && !m.flushed ==> |m.written| % BURST_BYTES == 0 && |m.pending| < BURST_BYTES)
    && total < ROLLOVER_RANGE * |m.mem|
    && (!circular ==> total <= |m.mem|)
  }

  /** `got` is what has been queued for the mover so far: for a mover that is not done exactly its
      stream up to the bytes read, for a done one a prefix of it. */
  ghost predicate BufferOk(m: Mover, bd: TraceBufferInfo, got: seq<Byte>, circular: bool) {
    && bd.allocSize == |m.mem| > 0
    && bd.usedSize <= bd.allocSize && bd.rolloverCount < ROLLOVER_RANGE
    && got <= m.written
    && (!bd.offloadDone ==>
          && bd.BytesRead() <= |m.written|
          && got == m.written[..bd.BytesRead()]
          && bd.BytesRead() % 8 == 0
          && (m.version2 && !m.flushed ==> bd.BytesRead() % BURST_BYTES == 0)
          && (m.flushed ==> bd.BytesRead() == |m.written|))
  }

  lemma DirectWordOk(m: Mover, circular: bool, word: seq<Byte>)
    requires MoverOk(m, circular) && !m.version2 && |word| == TRACE_PACKET_SIZE && Accepts(m, circular)
    ensures MoverOk(Put(m, word), circular) && m.written <= Put(m, word).written
  {
    hide Holds, Put;
    PutHolds(m, word);
    assert (|m.written| + 8) % 8 == 0;
  }

  lemma BurstOk(m: Mover, circular: bool, word: seq<Byte>)
    requires MoverOk(m, circular) && m.version2 && |word| == TRACE_PACKET_SIZE && Accepts(m, circular)
    requires |m.pending + word| == BURST_BYTES
    ensures MoverOk(Put(m.(pending := []), m.pending + word), circular)
    ensures m.written <= Put(m.(pending := []), m.pending + word).written
  {
    hide Holds, Put;
    PutHolds(m.(pending := []), m.pending + word);
    assert (|m.written| + BURST_BYTES) % BURST_BYTES == 0;
  }

  lemma HeldWordOk(m: Mover, circular: bool, word: seq<Byte>)
    requires MoverOk(m, circular) && m.version2 && |word| == TRACE_PACKET_SIZE && Accepts(m, circular)
    requires |m.pending + word| != BURST_BYTES
    ensures MoverOk(m.(pending := m.pending + word), circular)
  {
    hide Holds;
    var n := |m.pending| / 8;
    assert |m.pending| == 8 * n && n < 32;
    assert |m.pending + word| == 8 * (n + 1);
  }

  lemma WriteWordOk(m: Mover, circular: bool, word: seq<Byte>)
    requires MoverOk(m, circular)
    ensures MoverOk(WriteWord(m, circular, word), circular)
    ensures m.written <= WriteWord(m, circular, word).written && |WriteWord(m, circular, word).mem| == |m.mem|
  {
    hide MoverOk, Put;
    NotEmpty(m, circular);
    if |word| == TRACE_PACKET_SIZE && Accepts(m, circular) {
      if !m.version2 {
        DirectWordOk(m, circular, word);
      } else if |m.pending + word| == BURST_BYTES {
        BurstOk(m, circular, word);
      } else {
        HeldWordOk(m, circular, word);
      }
    }
  }

  lemma NotEmpty(m: Mover, circular: bool)
    requires MoverOk(m, circular)
    ensures m.mem != []
  {
  }

  /** Cutting a word count back to whole bursts gives back the bytes that bursts have written. */
  lemma WholeBursts(written: nat, pending: nat)
    requires written % BURST_BYTES == 0 && pending < BURST_BYTES && pending % 8 == 0
    ensures ((written + pending) / 8 - (written + pending) / 8 % BURST_WORDS) * 8 == written
  {
    var words, bursts, extra := (written + pending) / 8, written / BURST_BYTES, pending / 8;
    assert words == bursts * 32 + extra && extra < 32;
    assert words % 32 == extra;
  }

  /** After the poll the byte count the host works with is exactly what is in memory. */
  lemma PollCounts(m: Mover, circular: bool, final: bool, firstSync: bool, secondSync: bool)
    requires MoverOk(m, circular) && (final || !m.flushed) && (final && m.version2 ==> m.pending == [])
    ensures BytesWritten(ViewOf(m, firstSync, secondSync), final) == |m.written|
  {
    hide Holds;
    if m.version2 && !final {
      WholeBursts(|m.written|, |m.pending|);
    }
  }

  lemma FlushOk(m: Mover, circular: bool)
    requires MoverOk(m, circular) && m.version2
    ensures MoverOk(Put(m.(pending := []), m.pending).(flushed := true), circular)
    ensures m.written <= Put(m.(pending := []), m.pending).written
  {
    hide Holds, Put;
    PutHolds(m.(pending := []), m.pending);
  }

  lemma PollOk(m: Mover, circular: bool, final: bool, firstSync: bool, secondSync: bool)
    requires MoverOk(m, circular) && (final || !m.flushed)
    ensures var m' := Poll(m, final);
            && MoverOk(m', circular)
            && m.written <= m'.written && m'.version2 == m.version2
            && (!final ==> m' == m)
            && BytesWritten(ViewOf(m', firstSync, secondSync), final) == |m'.written|
  {
    hide MoverOk, Put, BytesWritten;
    NotEmpty(m, circular);
    if final && m.version2 {
      FlushOk(m, circular);
    }
    NothingPending(m, circular);
    PollCounts(Poll(m, final), circular, final, firstSync, secondSync);
  }

  lemma NothingPending(m: Mover, circular: bool)
    requires MoverOk(m, circular)
    ensures !m.version2 || m.flushed ==> m.pending == []
  {
    hide Holds;
  }

  function Concat(chunks: seq<seq<Byte>>): seq<Byte> {
    if chunks == [] then [] else Concat(chunks[..|chunks| - 1]) + chunks[|chunks| - 1]
  }

  lemma ConcatShort(chunks: seq<seq<Byte>>)
    ensures |chunks| == 0 ==> Concat(chunks) == []
    ensures |chunks| == 1 ==> Concat(chunks) == chunks[0]
    ensures |chunks| == 2 ==> Concat(chunks) == chunks[0] + chunks[1]
  {
    if |chunks| == 2 {
      assert Concat(chunks) == Concat(chunks[..1]) + chunks[1];
      assert Concat(chunks[..1]) == Concat([]) + chunks[0];
    } else if |chunks| == 1 {
      assert Concat(chunks) == Concat([]) + chunks[0];
    }
  }

  /** What one sync gets: its interval of the stream, or nothing. */
  lemma SyncGets(bd: TraceBufferInfo, circular: bool, mem: seq<Byte>, w: seq<Byte>, ok: bool)
    requires mem != [] && Holds(mem, w) && bd.offset <= bd.usedSize <= |mem| && !bd.offloadDone
    requires bd.rolloverCount * |mem| + bd.usedSize <= |w| <= bd.rolloverCount * |mem| + bd.offset + |mem|
    ensures var (b, chunks, go) := Sync(bd, circular, mem, ok);
            var from := bd.rolloverCount * |mem| + bd.offset;
            && |chunks| <= 1 && (go <==> |chunks| == 1)
            && (go ==> chunks[0] == w[from..bd.rolloverCount * |mem| + bd.usedSize] && !b.offloadDone)
            && (!go ==> b.offloadDone || bd.offset == bd.usedSize)
            && (b.offloadDone ==> !ok)
            && b == bd.(full := b.full, offloadDone := b.offloadDone)
  {
    hide Holds;
    Slice(mem, w, bd.rolloverCount, bd.offset, bd.usedSize);
  }

  /** What one turn reads: the chunks are the stream from the bytes already read on; all of it unless
      the mover is done. A mover that was not done is done now only if the ring was overwritten, a
      sync failed, or it was full and not circular. */
  lemma ReadGetsStream(m: Mover, bd: TraceBufferInfo, circular: bool, v: View, final: bool)
    requires m.mem != [] && Holds(m.mem, m.written) && v.mem == m.mem && bd.allocSize == |m.mem|
    requires BytesWritten(v, final) == |m.written| && (!circular ==> |m.written| <= |m.mem|)
    requires !bd.offloadDone && Readable(bd, |m.written|, m.mem)
    ensures var r := ReadMover(bd, circular, v, final);
            && bd.BytesRead() + |Concat(r.chunks)| <= |m.written|
            && Concat(r.chunks) == m.written[bd.BytesRead()..bd.BytesRead() + |Concat(r.chunks)|]
            && (!r.bd.offloadDone ==> bd.BytesRead() + |Concat(r.chunks)| == |m.written| == r.bd.BytesRead())
            && r.bd.allocSize == bd.allocSize && r.bd.usedSize <= r.bd.allocSize && r.bd.rolloverCount < ROLLOVER_RANGE
            && (r.overwritten <==> |m.written| > bd.BytesRead() + bd.allocSize)
            && (r.bd.offloadDone ==>
                  r.overwritten || !v.firstSync || !v.secondSync || (!circular && bd.usedSize == bd.allocSize))
  {
    hide Holds, Position, Sync, BytesWritten, Concat;
    var w, read := m.written, bd.BytesRead();
    var r := ReadMover(bd, circular, v, final);
    if |w| > read + bd.allocSize || (bd.usedSize == bd.allocSize && !circular) {
      assert Concat(r.chunks) == [] by { ConcatShort(r.chunks); }
    } else {
      var (first, second) := Position(bd, |w|);
      RingArithmetic(bd, |w|);
      PositionNotDone(bd, |w|);
      SyncGets(first, circular, m.mem, w, v.firstSync);
      var (b1, chunks1, go) := Sync(first, circular, m.mem, v.firstSync);
      if !circular {
        NotCircularNoSecond(bd, |w|);
      }
      if go && circular && second > 0 {
        var b2 := b1.(rolloverCount := first.rolloverCount + 1, offset := 0, usedSize := second);
        assert (b1.rolloverCount + 1) % ROLLOVER_RANGE == first.rolloverCount + 1;
        var (b3, chunks2, _) := Sync(b2, circular, m.mem, v.secondSync);
        TwoSyncs(b2, circular, m.mem, w, v.secondSync, read, chunks1);
        assert r == ReadResult(b3, chunks1 + chunks2, false);
      } else {
        assert r == ReadResult(b1, chunks1, false);
        ConcatShort(chunks1);
      }
    }
  }

  /** The second sync continues where the first stopped, at the end of the ring. */
  lemma TwoSyncs(b: TraceBufferInfo, circular: bool, mem: seq<Byte>, w: seq<Byte>, ok: bool, read: nat,
                 chunks1: seq<seq<Byte>>)
    requires mem != [] && Holds(mem, w) && b.offset == 0 < b.usedSize <= |mem| == b.allocSize && !b.offloadDone
    requires b.rolloverCount * |mem| + b.usedSize == |w| && |w| <= read + |mem| && read <= b.rolloverCount * |mem|
    requires |chunks1| == 1 && chunks1[0] == w[read..b.rolloverCount * |mem|]
    ensures var (b', chunks2, _) := Sync(b, circular, mem, ok);
            var all := Concat(chunks1 + chunks2);
            && read + |all| <= |w| && all == w[read..read + |all|]
            && (!b'.offloadDone ==> read + |all| == |w|)
            && (b'.offloadDone ==> !ok)
            && b' == b.(full := b'.full, offloadDone := b'.offloadDone)
  {
    hide Holds, Sync;
    SyncGets(b, circular, mem, w, ok);
    var (_, chunks2, go) := Sync(b, circular, mem, ok);
    ConcatShort(chunks1 + chunks2);
    var mid := b.rolloverCount * |mem|;
    assert w[read..mid] + w[mid..|w|] == w[read..|w|];
  }

  lemma PositionNotDone(bd: TraceBufferInfo, written: nat)
    requires bd.allocSize > 0 && bd.usedSize <= bd.allocSize && bd.rolloverCount < ROLLOVER_RANGE
    requires bd.BytesRead() <= written < ROLLOVER_RANGE * bd.allocSize
    ensures Position(bd, written).0.offloadDone == bd.offloadDone && Position(bd, written).0.allocSize == bd.allocSize
  {
  }

  lemma NotCircularNoSecond(bd: TraceBufferInfo, written: nat)
    requires bd.allocSize > 0 && bd.usedSize < bd.allocSize && bd.rolloverCount < ROLLOVER_RANGE
    requires bd.BytesRead() <= written <= bd.allocSize
    requires written < ROLLOVER_RANGE * bd.allocSize
    ensures Position(bd, written).1 == 0
  {
  }

  /** The chunks of one turn, together with what was queued before, are again the mover's stream. */
  lemma ReadOk(m: Mover, bd: TraceBufferInfo, got: seq<Byte>, circular: bool, final: bool, firstSync: bool,
               secondSync: bool)
    requires MoverOk(m, circular) && BufferOk(m, bd, got, circular) && (final || !m.flushed)
    ensures var m' := Poll(m, final);
            var v := ViewOf(m', firstSync, secondSync);
            && (bd.offloadDone || Readable(bd, BytesWritten(v, final), v.mem))
            && BufferOk(m', ReadMover(bd, circular, v, final).bd,
                        got + Concat(ReadMover(bd, circular, v, final).chunks), circular)
  {
    hide Holds, ReadMover, Concat, Put;
    PollOk(m, circular, final, firstSync, secondSync);
    var m' := Poll(m, final);
    var v := ViewOf(m', firstSync, secondSync);
    if bd.offloadDone {
      DoneReadsNothing(bd, circular, v, final);
      assert got + [] == got;
    } else {
      ReadGetsStream(m', bd, circular, v, final);
      var r := ReadMover(bd, circular, v, final);
      var n := bd.BytesRead();
      assert got == m'.written[..n];
      assert m'.written[..n + |Concat(r.chunks)|] == got + Concat(r.chunks);
      assert m'.written[..|m'.written|] == m'.written;
    }
  }

  // ----- Sizes of chunks -----

  lemma Multiple(n: nat, unit: nat)
    requires unit > 0
    ensures n % unit == 0 <==> exists k: nat :: n == k * unit
  {
    if n % unit == 0 {
      assert n == (n / unit) * unit;
    }
    forall k: nat | n == k * unit ensures n % unit == 0 {
      DivIs(n, k, 0, unit);
    }
  }

  lemma MulMultiple(r: nat, n: nat, unit: nat)
    requires unit > 0 && n % unit == 0
    ensures (r * n) % unit == 0
  {
    Multiple(n, unit);
    var k: nat :| n == k * unit;
    assert r * n == (r * k) * unit;
    DivIs(r * n, r * k, 0, unit);
  }

  lemma SubMultiple(a: nat, b: nat, unit: nat)
    requires unit > 0 && a % unit == 0 && b % unit == 0 && b <= a
    ensures (a - b) % unit == 0
  {
    Multiple(a, unit);
    Multiple(b, unit);
    var i: nat :| a == i * unit;
    var j: nat :| b == j * unit;
    assert a - b == (i - j) * unit;
    if i < j {
      MulMono(i, j, unit);
      DivIs(0, 0, 0, unit);
    } else {
      DivIs(a - b, i - j, 0, unit);
    }
  }

  /** When the ring, the bytes read and the bytes written are whole numbers of some unit (packets, or
      bursts on a poll that is not the final one), so is every chunk, and none is empty. */
  lemma ChunksAreWhole(bd: TraceBufferInfo, circular: bool, v: View, final: bool, unit: nat, k: nat)
    requires unit > 0 && !bd.offloadDone && Readable(bd, BytesWritten(v, final), v.mem)
    requires bd.allocSize % unit == 0 && bd.BytesRead() % unit == 0 && BytesWritten(v, final) % unit == 0
    requires k < |ReadMover(bd, circular, v, final).chunks|
    ensures |ReadMover(bd, circular, v, final).chunks[k]| % unit == 0
            && |ReadMover(bd, circular, v, final).chunks[k]| > 0
  {
    hide Position, BytesWritten;
    var written := BytesWritten(v, final);
    RingArithmetic(bd, written);
    var (first, second) := Position(bd, written);
    OffsetsAreWhole(bd, written, unit);
    SubMultiple(first.usedSize, first.offset, unit);
  }

  lemma OffsetsAreWhole(bd: TraceBufferInfo, written: nat, unit: nat)
    requires bd.allocSize > 0 && bd.usedSize <= bd.allocSize && bd.rolloverCount < ROLLOVER_RANGE
    requires bd.BytesRead() <= written < ROLLOVER_RANGE * bd.allocSize && written <= bd.BytesRead() + bd.allocSize
    requires unit > 0 && bd.allocSize % unit == 0 && bd.BytesRead() % unit == 0 && written % unit == 0
    ensures var (first, second) := Position(bd, written);
            first.offset % unit == 0 && first.usedSize % unit == 0 && second % unit == 0
  {
    hide Position;
    RingArithmetic(bd, written);
    var (first, second) := Position(bd, written);
    var base := first.rolloverCount * bd.allocSize;
    MulMultiple(first.rolloverCount, bd.allocSize, unit);
    SubMultiple(bd.BytesRead(), base, unit);
    if second > 0 {
      MulMultiple(first.rolloverCount + 1, bd.allocSize, unit);
      SubMultiple(written, (first.rolloverCount + 1) * bd.allocSize, unit);
    } else {
      SubMultiple(written, base, unit);
      DivIs(0, 0, 0, unit);
    }
  }

  lemma DoneReadsNothing(bd: TraceBufferInfo, circular: bool, v: View, final: bool)
    requires bd.offloadDone
    ensures ReadMover(bd, circular, v, final) == ReadResult(bd, [], false)
    ensures Concat(ReadMover(bd, circular, v, final).chunks) == []
  {
  }
}
