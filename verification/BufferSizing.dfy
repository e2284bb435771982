/** How big the trace buffers are made. */
module BufferSizing {
  import Packets

  const TS2MM_MIN_BUF_SIZE: nat := 0x2000
  const PAGE: nat := 0x1000

  /** Masking with 0xfffffffffffff000 clears the twelve low bits. */
  function AlignedTraceBufSize(totalBytes: nat, numChunks: nat): nat {
    if numChunks == 0 then 0
    else
      var share := totalBytes / numChunks;
      var aligned := share - share % PAGE;
      if aligned < TS2MM_MIN_BUF_SIZE then TS2MM_MIN_BUF_SIZE else aligned
  }

  lemma Masked(share: nat)
    ensures var aligned := share - share % PAGE;
            aligned % PAGE == 0 && aligned % 256 == 0 && aligned % 8 == 0 && aligned <= share < aligned + PAGE
  {
    var pages := share / PAGE;
    assert share - share % PAGE == pages * PAGE;
    Packets.DivIs(pages * PAGE, pages, 0, PAGE);
    Packets.DivIs(pages * PAGE, pages * 16, 0, 256);
    Packets.DivIs(pages * PAGE, pages * 512, 0, 8);
  }

  lemma Aligned(totalBytes: nat, numChunks: nat)
    requires numChunks > 0
    ensures var size := AlignedTraceBufSize(totalBytes, numChunks);
            && size % PAGE == 0 && size % 256 == 0 && size % 8 == 0
            && size >= TS2MM_MIN_BUF_SIZE
            && (totalBytes / numChunks >= TS2MM_MIN_BUF_SIZE ==> size <= totalBytes / numChunks < size + PAGE)
            && (totalBytes / numChunks < TS2MM_MIN_BUF_SIZE ==> size == TS2MM_MIN_BUF_SIZE)
  {
    var share := totalBytes / numChunks;
    Masked(share);
    AlignedShare(share, AlignedTraceBufSize(totalBytes, numChunks));
  }

  lemma AlignedShare(share: nat, size: nat)
    requires var aligned := share - share % PAGE;
             && aligned <= share < aligned + PAGE
             && size == if aligned < TS2MM_MIN_BUF_SIZE then TS2MM_MIN_BUF_SIZE else aligned
    ensures share >= TS2MM_MIN_BUF_SIZE ==> size <= share < size + PAGE
    ensures share < TS2MM_MIN_BUF_SIZE ==> size == TS2MM_MIN_BUF_SIZE
  {
    if share >= TS2MM_MIN_BUF_SIZE {
      Masked(share - TS2MM_MIN_BUF_SIZE);
      Packets.DivIs(share, 2 + (share - TS2MM_MIN_BUF_SIZE) / PAGE, (share - TS2MM_MIN_BUF_SIZE) % PAGE, PAGE);
    }
  }

  lemma ShareIsEnough(totalBytes: nat, numChunks: nat, each: nat)
    requires numChunks > 0
    ensures totalBytes >= numChunks * each <==> totalBytes / numChunks >= each
  {
    var share := totalBytes / numChunks;
    assert totalBytes == numChunks * share + totalBytes % numChunks;
    assert numChunks * (share + 1) == numChunks * share + numChunks;
    if share < each {
      Packets.MulMono(share + 1, each, numChunks);
    } else {
      Packets.MulMono(each, share, numChunks);
    }
  }

  /** Every size is whole pages of 4096 bytes, so whole bursts and whole packets, and at least two pages.
      The chunks together stay within the request if and only if it grants each the minimum; then they
      leave less than a page per chunk unused, and otherwise each gets just the minimum. No chunks get
      no size. */
  lemma SizesFit(totalBytes: nat, numChunks: nat)
    ensures var size := AlignedTraceBufSize(totalBytes, numChunks);
            && (numChunks == 0 ==> size == 0)
            && (numChunks > 0 ==>
                  && size % 4096 == 0 && size % 256 == 0 && size % 8 == 0
                  && size >= 8192
                  && (numChunks * size <= totalBytes <==> totalBytes >= numChunks * 8192)
                  && (totalBytes >= numChunks * 8192 ==> totalBytes - numChunks * size < numChunks * 4096)
                  && (totalBytes < numChunks * 8192 ==> size == 8192))
  {
    if numChunks > 0 {
      SizesFitSome(totalBytes, numChunks);
    }
  }

  lemma SizesFitSome(totalBytes: nat, numChunks: nat)
    requires numChunks > 0
    ensures var size := AlignedTraceBufSize(totalBytes, numChunks);
            && size % PAGE == 0 && size % 256 == 0 && size % 8 == 0
            && size >= TS2MM_MIN_BUF_SIZE
            && (numChunks * size <= totalBytes <==> totalBytes >= numChunks * TS2MM_MIN_BUF_SIZE)
            && (totalBytes >= numChunks * TS2MM_MIN_BUF_SIZE ==> totalBytes - numChunks * size < numChunks * PAGE)
            && (totalBytes < numChunks * TS2MM_MIN_BUF_SIZE ==> size == TS2MM_MIN_BUF_SIZE)
  {
    hide AlignedTraceBufSize;
    var share, size := totalBytes / numChunks, AlignedTraceBufSize(totalBytes, numChunks);
    Aligned(totalBytes, numChunks);
    Packets.MulMono(TS2MM_MIN_BUF_SIZE, size, numChunks);
    ShareIsEnough(totalBytes, numChunks, TS2MM_MIN_BUF_SIZE);
    if totalBytes >= numChunks * TS2MM_MIN_BUF_SIZE {
      Unused(totalBytes, numChunks, share, size);
    }
  }

  lemma Unused(totalBytes: nat, numChunks: nat, share: nat, size: nat)
    requires numChunks > 0 && share == totalBytes / numChunks && size <= share < size + PAGE
    ensures numChunks * size <= totalBytes < numChunks * size + numChunks * PAGE
  {
    assert totalBytes == numChunks * share + totalBytes % numChunks;
    Packets.MulMono(size, share, numChunks);
    Packets.MulMono(share + 1, size + PAGE, numChunks);
    assert numChunks * (size + PAGE) == numChunks * size + numChunks * PAGE;
    assert numChunks * (share + 1) == numChunks * share + numChunks;
  }
}
