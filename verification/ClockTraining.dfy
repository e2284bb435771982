/** Clock training: the funnel's four words per host time come back as that time, two such times
    give the line from device to host time, and none of it depends on how the packets are cut into
    buffers. */
module ClockTraining {
  import opened TraceTypes
  import opened Packets
  import opened LoggerSpec

  type Uint64 = n: nat | n < 0x1_0000_0000_0000_0000

  /** The sixteen-bit words of a host time, low word first. */
  function FunnelWords(host: Uint64): seq<Word16> {
    [host % 0x1_0000, host / 0x1_0000 % 0x1_0000, host / 0x1_0000_0000 % 0x1_0000, host / 0x1_0000_0000_0000 % 0x1_0000]
  }

  /** The emitting side: every write to the trace register becomes a clock training packet. */
  class TraceFunnel {
    var written: seq<Word16>

    constructor ()
      ensures written == []
    {
      written := [];
    }

    /** The host time is sampled once per iteration; the samples are given. */
    method InitiateClockTraining(samples: seq<Uint64>)
      requires |samples| == 2
      modifies this
      ensures written == old(written) + FunnelWords(samples[0]) + FunnelWords(samples[1])
    {
      for i := 0 to 2
        invariant i == 0 ==> written == old(written)
        invariant i == 1 ==> written == old(written) + FunnelWords(samples[0])
        invariant i == 2 ==> written == old(written) + FunnelWords(samples[0]) + FunnelWords(samples[1])
      {
        var hostTimeStamp := samples[i];
        ghost var before := written;
        written := written + [hostTimeStamp % 0x1_0000];
        written := written + [hostTimeStamp / 0x1_0000 % 0x1_0000];
        written := written + [hostTimeStamp / 0x1_0000_0000 % 0x1_0000];
        written := written + [hostTimeStamp / 0x1_0000_0000_0000 % 0x1_0000];
        assert written == before + FunnelWords(hostTimeStamp);
      }
    }
  }

  /** A clock training packet that carries a word in bits 45 to 60, at a device time. */
  function TrainingPacket(word: Word16, dev: nat): Packet
    requires dev < TIMESTAMP_RANGE
  {
    0x8000_0000_0000_0000 + word * TIMESTAMP_RANGE + dev
  }

  lemma TrainingPacketFields(word: Word16, dev: nat)
    requires dev < TIMESTAMP_RANGE
    ensures var p := TrainingPacket(word, dev);
            IsClockTraining(p) && TrainingWord(p) == word && DeviceTimestamp(p) == dev
  {
    var p := TrainingPacket(word, dev);
    assert p == (0x4_0000 + word) * TIMESTAMP_RANGE + dev;
    assert p / TIMESTAMP_RANGE == 0x4_0000 + word;
  }

  // ----- The round trip -----

  /** The words the clock training packets of a stream carry, in order. */
  function TrainingWords(ps: seq<Packet>): seq<Word16> {
    if ps == [] then []
    else
      var p := ps[|ps| - 1];
      TrainingWords(ps[..|ps| - 1]) + if IsClockTraining(p) then [TrainingWord(p)] else []
  }

  /** Device time of the last clock training packet; 0 if there is none. */
  function LastTrainingTime(ps: seq<Packet>): nat {
    if ps == [] then 0
    else if IsClockTraining(ps[|ps| - 1]) then DeviceTimestamp(ps[|ps| - 1])
    else LastTrainingTime(ps[..|ps| - 1])
  }

  lemma EventKeepsTraining(D: Design, s: State, p: Packet)
    requires s.Fits(D) && !IsClockTraining(p)
    ensures Step(D, s, p).phase == s.phase && Step(D, s, p).cal == s.cal
  {
    hide StallEvents, CloseCUTransfers, DataTransfer, StreamTransfer, TakeStart, OpenEvent;
  }

  lemma Pow2Values()
    ensures Pow2(0) == 1 && Pow2(16) == 0x1_0000 && Pow2(32) == 0x1_0000_0000 && Pow2(48) == 0x1_0000_0000_0000
    ensures Pow2(64) == 0x1_0000_0000_0000_0000
  {
    assert Pow2(8) == 0x100;
    Pow2Adds(8, 8);
    Pow2Adds(16, 16);
    Pow2Adds(32, 16);
    Pow2Adds(32, 32);
  }

  lemma {:induction false} Pow2Adds(a: nat, b: nat)
    ensures Pow2(a + b) == Pow2(a) * Pow2(b)
  {
    if b > 0 {
      Pow2Adds(a, b - 1);
    }
  }

  /** The bits of a host time below a word, and the word itself, make the bits below the next. */
  lemma WordsAddUp(host: Uint64)
    ensures var w: seq<nat> := FunnelWords(host);
            && host % 0x1_0000 == w[0]
            && host % 0x1_0000 + w[1] * 0x1_0000 == host % 0x1_0000_0000
            && host % 0x1_0000_0000 + w[2] * 0x1_0000_0000 == host % 0x1_0000_0000_0000
            && host % 0x1_0000_0000_0000 + w[3] * 0x1_0000_0000_0000 == host
  {
    Carry32(host);
    Carry48(host);
  }

  lemma Carry32(h: nat)
    ensures h % 0x1_0000 + (h / 0x1_0000 % 0x1_0000) * 0x1_0000 == h % 0x1_0000_0000
  {
  }

  lemma Carry48(h: nat)
    ensures h % 0x1_0000_0000 + (h / 0x1_0000_0000 % 0x1_0000) * 0x1_0000_0000 == h % 0x1_0000_0000_0000
  {
  }

  /** The same, with the powers of two named by the phase counter. */
  lemma NextWord(host: Uint64, k: nat)
    requires k < 4
    ensures host % Pow2(16 * k) < Pow2(16 * k)
    ensures host % Pow2(16 * k) + FunnelWords(host)[k] * Pow2(16 * k) == host % Pow2(16 * (k + 1))
  {
    hide FunnelWords, Pow2;
    FourWords(host);
    WordsAddUp(host);
    Pow2Values();
    if k == 0 {
      assert 16 * k == 0 && 16 * (k + 1) == 16;
    } else if k == 1 {
      assert 16 * k == 16 && 16 * (k + 1) == 32;
    } else if k == 2 {
      assert 16 * k == 32 && 16 * (k + 1) == 48;
    } else {
      assert 16 * k == 48 && 16 * (k + 1) == 64;
    }
  }

  /** After the first k < 4 words, whatever comes between them, the accumulator holds the low bits of
      the host time and the calibration has not moved; the fourth completes the sample. */
  lemma {:induction false} TrainingProgress(D: Design, s: State, ps: seq<Packet>, host: Uint64, k: nat)
    requires s.Fits(D) && s.phase.modulus == 0 && s.phase.hostTimestamp == 0
    requires k <= 4 && TrainingWords(ps) == FunnelWords(host)[..k]
    ensures var r := Fold(D, s, ps);
            && (k < 4 ==> r.phase == Phase(s.phase.found, k, host % Pow2(16 * k)) && r.cal == s.cal)
            && (k == 4 ==> r.phase == s.phase && r.cal == Trained(D, s.cal, LastTrainingTime(ps), host))
  {
    hide Step, Trained, FunnelWords, BitOr;
    if ps == [] {
      assert k == 0 by { FourWords(host); }
      assert host % Pow2(16 * k) == 0;
    } else {
      var before, p := ps[..|ps| - 1], ps[|ps| - 1];
      var s1 := Fold(D, s, before);
      FourWords(host);
      if IsClockTraining(p) {
        var words := FunnelWords(host);
        assert TrainingWords(ps) == TrainingWords(before) + [TrainingWord(p)];
        assert k > 0 && words[..k] == words[..k - 1] + [words[k - 1]];
        assert TrainingWords(before) == words[..k - 1];
        TrainingProgress(D, s, before, host, k - 1);
        TrainOnce(D, s1, p, host, k - 1);
      } else {
        assert TrainingWords(ps) == TrainingWords(before);
        TrainingProgress(D, s, before, host, k);
        EventKeepsTraining(D, s1, p);
      }
    }
  }

  lemma FourWords(host: Uint64)
    ensures |FunnelWords(host)| == 4
  {
  }

  lemma WholeTime(host: Uint64, k: nat)
    requires k == 3
    ensures host % Pow2(16 * (k + 1)) == host
  {
    Pow2Values();
    assert 16 * (k + 1) == 64;
  }

  lemma TrainOnce(D: Design, s: State, p: Packet, host: Uint64, k: nat)
    requires s.Fits(D) && k < 4 && IsClockTraining(p) && TrainingWord(p) == FunnelWords(host)[k]
    requires s.phase.modulus == k && s.phase.hostTimestamp == host % Pow2(16 * k)
    ensures var r := Step(D, s, p);
            && (k < 3 ==> r.phase == Phase(s.phase.found, k + 1, host % Pow2(16 * (k + 1))) && r.cal == s.cal)
            && (k == 3 ==> r.phase == Phase(s.phase.found, 0, 0))
            && (k == 3 ==> r.cal == Trained(D, s.cal, DeviceTimestamp(p), host))
  {
    hide BitOr, Trained, FunnelWords, TrainingWord;
    FourWords(host);
    NextWord(host, k);
    BitOrDisjoint(host % Pow2(16 * k), FunnelWords(host)[k], 16 * k);
    if k == 3 {
      WholeTime(host, k);
    }
  }

  /** Round trip: the four words the funnel emits for a host time, interleaved with any event
      packets, make the logger train with exactly that time, at the device time of the fourth word,
      and leave it ready for the next sample. */
  lemma TrainingRoundTrip(D: Design, s: State, ps: seq<Packet>, host: Uint64)
    requires s.Fits(D) && s.phase.modulus == 0 && s.phase.hostTimestamp == 0
    requires TrainingWords(ps) == FunnelWords(host)
    ensures Fold(D, s, ps).phase == s.phase
    ensures Fold(D, s, ps).cal == Trained(D, s.cal, LastTrainingTime(ps), host)
  {
    hide Fold, Trained;
    assert FunnelWords(host)[..4] == FunnelWords(host);
    TrainingProgress(D, s, ps, host, 4);
  }

  /** The line two samples should give: defined, through the second and, with a nominal slope in a
      hardware flow, otherwise through both. The next sample is again a first one. */
  predicate Drawn(D: Design, cal: Calibration, d1: nat, h1: nat, d2: nat, h2: nat) {
    && cal.defined
    && ToHost(cal, d2) == (h2 as real) / 1000000.0
    && (if D.hwFlow then D.clockRateMHz > 0.0 && cal.slope == 1000.0 / D.clockRateMHz
        else ToHost(cal, d1) == (h1 as real) / 1000000.0)
    && cal.x1 == 0.0 && cal.y1 == 0.0
  }

  /** When they do: the first must not be the point (0, 0), which the logger takes for "no point yet",
      and outside a hardware flow they must not share a device time. */
  predicate Usable(D: Design, d1: nat, h1: nat, d2: nat) {
    (h1 != 0 || d1 != 0) && (D.hwFlow || d1 != d2)
  }

  /** Two samples in a row, in every case: they give their line if they are usable; if the first is
      (0, 0) the line stays as it was and the second sample counts as a first; otherwise they divide
      by zero and leave no line at all. */
  lemma TwoSamplesMakeALine(D: Design, s: State, first: seq<Packet>, second: seq<Packet>, h1: Uint64, h2: Uint64)
    requires s.Fits(D) && s.phase.modulus == 0 && s.phase.hostTimestamp == 0 && s.cal.x1 == 0.0 && s.cal.y1 == 0.0
    requires TrainingWords(first) == FunnelWords(h1) && TrainingWords(second) == FunnelWords(h2)
    ensures var d1, d2 := LastTrainingTime(first), LastTrainingTime(second);
            var cal := Fold(D, s, first + second).cal;
            && (Usable(D, d1, h1, d2) ==> Drawn(D, cal, d1, h1, d2, h2))
            && (h1 == 0 && d1 == 0 ==> cal == s.cal.(x1 := d2 as real, y1 := h2 as real))
            && ((h1 != 0 || d1 != 0) && !Usable(D, d1, h1, d2) ==> !cal.defined)
  {
    hide Fold, Trained, ToHost, FunnelWords, Drawn;
    var d1, d2 := LastTrainingTime(first), LastTrainingTime(second);
    TrainingRoundTrip(D, s, first, h1);
    var s1 := Fold(D, s, first);
    TrainingRoundTrip(D, s1, second, h2);
    FoldConcat(D, s, first, second);
    TrainedTwice(D, s.cal, d1, h1, d2, h2);
  }

  lemma TrainedTwice(D: Design, cal: Calibration, d1: nat, h1: nat, d2: nat, h2: nat)
    requires D.Valid() && cal.x1 == 0.0 && cal.y1 == 0.0
    ensures var r := Trained(D, Trained(D, cal, d1, h1), d2, h2);
            && (Usable(D, d1, h1, d2) ==> Drawn(D, r, d1, h1, d2, h2))
            && (h1 == 0 && d1 == 0 ==> r == cal.(x1 := d2 as real, y1 := h2 as real))
            && ((h1 != 0 || d1 != 0) && !Usable(D, d1, h1, d2) ==> !r.defined)
  {
    var r := Trained(D, Trained(D, cal, d1, h1), d2, h2);
    if (h1 != 0 || d1 != 0) && !D.hwFlow && d1 != d2 {
      LineThrough(d1 as real, h1 as real, d2 as real, h2 as real, r.slope);
    }
  }

  /** So two samples give their line, whatever line was there before, if and only if they are usable. */
  lemma SamplesGiveLineIff(D: Design, s: State, first: seq<Packet>, second: seq<Packet>, h1: Uint64, h2: Uint64)
    requires s.Fits(D) && s.phase.modulus == 0 && s.phase.hostTimestamp == 0
    requires TrainingWords(first) == FunnelWords(h1) && TrainingWords(second) == FunnelWords(h2)
    ensures var d1, d2 := LastTrainingTime(first), LastTrainingTime(second);
            (forall line: Calibration | line.defined && line.x1 == 0.0 && line.y1 == 0.0 ::
               Drawn(D, Fold(D, s.(cal := line), first + second).cal, d1, h1, d2, h2))
            <==> Usable(D, d1, h1, d2)
  {
    hide Fold, FunnelWords;
    var d1, d2 := LastTrainingTime(first), LastTrainingTime(second);
    if Usable(D, d1, h1, d2) {
      forall line: Calibration | line.defined && line.x1 == 0.0 && line.y1 == 0.0
        ensures Drawn(D, Fold(D, s.(cal := line), first + second).cal, d1, h1, d2, h2)
      {
        TwoSamplesMakeALine(D, s.(cal := line), first, second, h1, h2);
      }
    } else {
      var elsewhere := Calibration(0.0, (h2 as real) + 1.0, 0.0, 0.0, true);
      TwoSamplesMakeALine(D, s.(cal := elsewhere), first, second, h1, h2);
      assert !Drawn(D, Fold(D, s.(cal := elsewhere), first + second).cal, d1, h1, d2, h2);
    }
  }

  lemma LineThrough(x1: real, y1: real, x2: real, y2: real, slope: real)
    requires x1 != x2 && slope == (y2 - y1) / (x2 - x1)
    ensures slope * x1 + (y2 - slope * x2) == y1
  {
    assert slope * (x2 - x1) == y2 - y1;
    assert slope * (x2 - x1) == slope * x2 - slope * x1;
  }

  /** The four packets of one sample, all at one device time. */
  function Sample(host: Uint64, dev: nat): (ps: seq<Packet>)
    requires dev < TIMESTAMP_RANGE
    ensures |ps| == 4
  {
    var w := FunnelWords(host);
    [TrainingPacket(w[0], dev), TrainingPacket(w[1], dev), TrainingPacket(w[2], dev), TrainingPacket(w[3], dev)]
  }

  lemma SampleWords(host: Uint64, dev: nat)
    requires dev < TIMESTAMP_RANGE
    ensures TrainingWords(Sample(host, dev)) == FunnelWords(host)
    ensures LastTrainingTime(Sample(host, dev)) == dev
  {
    hide FunnelWords, TrainingPacket;
    FourWords(host);
    var w, ps := FunnelWords(host), Sample(host, dev);
    forall i | 0 <= i < 4
      ensures ps[i] == TrainingPacket(w[i], dev) && IsClockTraining(ps[i]) && TrainingWord(ps[i]) == w[i]
    {
      TrainingPacketFields(w[i], dev);
    }
    TrainingPacketFields(w[3], dev);
    assert ps[..4] == ps && ps[..4][..3] == ps[..3] && ps[..3][..2] == ps[..2] && ps[..2][..1] == ps[..1]
           && ps[..1][..0] == [];
    assert TrainingWords(ps[..1]) == [w[0]];
    assert TrainingWords(ps[..2]) == [w[0], w[1]];
    assert TrainingWords(ps[..3]) == [w[0], w[1], w[2]];
    assert w == [w[0], w[1], w[2], w[3]];
  }

  /** Eight packets are too few for the search to find a window in; they are interpreted all the same. */
  lemma EightPackets(D: Design, s: State, a: seq<Packet>, b: seq<Packet>)
    requires s.Fits(D) && |a| == |b| == 4
    ensures Process(D, s, a + b) == Fold(D, s, a + b)
  {
    hide Fold;
    assert SearchFrom(a + b, 0) == |a + b|;
    assert Sought(s, a + b) == s;
  }

  /** A first sample at (0, 0) is lost, and the line does not move. */
  lemma ZeroSampleIsLost(D: Design, h2: Uint64, d2: nat)
    requires D.Valid() && d2 < TIMESTAMP_RANGE
    ensures var cal := Process(D, Initial(D), Sample(0, 0) + Sample(h2, d2)).cal;
            cal.slope == 1000.0 / D.clockRateMHz && cal.offset == 0.0
    ensures h2 != 0 ==> !Drawn(D, Process(D, Initial(D), Sample(0, 0) + Sample(h2, d2)).cal, 0, 0, d2, h2)
  {
    hide Fold, Process, Sample;
    EightPackets(D, Initial(D), Sample(0, 0), Sample(h2, d2));
    SampleWords(0, 0);
    SampleWords(h2, d2);
    TwoSamplesMakeALine(D, Initial(D), Sample(0, 0), Sample(h2, d2), 0, h2);
  }

  /** Two samples at one device time divide by zero. */
  lemma EqualTimesLeaveNoLine(D: Design, h1: Uint64, h2: Uint64, dev: nat)
    requires D.Valid() && !D.hwFlow && dev < TIMESTAMP_RANGE && h1 != 0
    ensures !Process(D, Initial(D), Sample(h1, dev) + Sample(h2, dev)).cal.defined
  {
    hide Fold, Process, Sample;
    EightPackets(D, Initial(D), Sample(h1, dev), Sample(h2, dev));
    SampleWords(h1, dev);
    SampleWords(h2, dev);
    TwoSamplesMakeALine(D, Initial(D), Sample(h1, dev), Sample(h2, dev), h1, h2);
  }

  // ----- Buffers do not matter -----

  lemma {:induction false} FoldConcat(D: Design, s: State, a: seq<Packet>, b: seq<Packet>)
    requires s.Fits(D)
    ensures Fold(D, s, a + b) == Fold(D, Fold(D, s, a), b)
  {
    hide Step;
    if b == [] {
      assert a + b == a;
    } else {
      var n := |a + b| - 1;
      assert (a + b)[..n] == a + b[..|b| - 1];
      FoldConcat(D, s, a, b[..|b| - 1]);
    }
  }

  lemma {:induction false} FoundStays(D: Design, s: State, ps: seq<Packet>)
    requires s.Fits(D)
    ensures Fold(D, s, ps).phase.found == s.phase.found
  {
    hide AMEvent, AIMEvent, ASMEvent, Trained, BitOr;
    if ps != [] {
      FoundStays(D, s, ps[..|ps| - 1]);
      var s1, p := Fold(D, s, ps[..|ps| - 1]), ps[|ps| - 1];
      if !IsClockTraining(p) {
        EventKeepsTraining(D, s1, p);
      }
    }
  }

  lemma WindowPrefix(a: seq<Packet>, b: seq<Packet>, i: nat)
    requires i + 8 <= |a|
    ensures TrainingWindow(a + b, i) <==> TrainingWindow(a, i)
  {
    assert forall j | i <= j < i + 8 :: (a + b)[j] == a[j];
  }

  /** A window found in the first part is what the search finds in the whole. */
  lemma {:induction false} SearchPrefix(a: seq<Packet>, b: seq<Packet>, i: nat)
    requires i <= |a| && SearchFrom(a, i) < |a|
    ensures SearchFrom(a + b, i) == SearchFrom(a, i)
    decreases |a| - i
  {
    hide TrainingWindow;
    WindowPrefix(a, b, i);
    if !TrainingWindow(a, i) {
      SearchPrefix(a, b, i + 1);
    }
  }

  /** The training window has been seen, or lies in these packets where the search looks. */
  predicate WindowSeen(s: State, ps: seq<Packet>) {
    s.phase.found || SearchFrom(ps, 0) < |ps|
  }

  lemma ProcessConcat(D: Design, s: State, a: seq<Packet>, b: seq<Packet>)
    requires s.Fits(D) && WindowSeen(s, a)
    ensures Process(D, Process(D, s, a), b) == Process(D, s, a + b)
    ensures Process(D, s, a).phase.found
  {
    hide Fold;
    var first := SearchFrom(a, 0);
    if s.phase.found {
      FoundStays(D, s, a);
      FoldConcat(D, s, a, b);
    } else {
      SearchPrefix(a, b, 0);
      var s1 := s.(phase := s.phase.(found := true));
      FoundStays(D, s1, a[first..]);
      FoldConcat(D, s1, a[first..], b);
      assert (a + b)[first..] == a[first..] + b;
    }
  }

  predicate EightInARow(ps: seq<Packet>, k: nat) {
    k + 8 <= |ps| && forall p | p in ps[k..k + 8] :: IsClockTraining(p)
  }

  lemma WindowIsEight(ps: seq<Packet>, k: nat)
    ensures TrainingWindow(ps, k) <==> EightInARow(ps, k)
  {
    if k + 8 <= |ps| {
      if EightInARow(ps, k) {
        forall j | k <= j < k + 8 ensures IsClockTraining(ps[j]) {
          assert ps[k..k + 8][j - k] == ps[j];
        }
      }
      if TrainingWindow(ps, k) {
        forall p | p in ps[k..k + 8] ensures IsClockTraining(p) {
          var j :| 0 <= j < 8 && ps[k..k + 8][j] == p;
          assert ps[k + j] == p;
        }
      }
    }
  }

  /** Until a window has been seen, what comes before the first one in a buffer might as well not be
      there, whatever it is: no event, no start, no training comes of it. */
  lemma GarbageIsDropped(D: Design, s: State, garbage: seq<Packet>, rest: seq<Packet>)
    requires s.Fits(D) && !s.phase.found && |rest| > 8 && EightInARow(rest, 0)
    requires forall k | 0 <= k < |garbage| :: !EightInARow(garbage + rest, k)
    ensures Process(D, s, garbage + rest) == Process(D, s, rest)
    ensures Process(D, s, garbage + rest) == Fold(D, s.(phase := s.phase.(found := true)), rest)
  {
    hide Fold, EightInARow, TrainingWindow;
    var all, w := garbage + rest, |garbage|;
    assert all[w..w + 8] == rest[..8];
    assert EightInARow(all, w) by { SameEight(all, w, rest); }
    WindowIsEight(all, w);
    WindowIsEight(rest, 0);
    forall k | 0 <= k < w ensures !TrainingWindow(all, k) {
      WindowIsEight(all, k);
    }
    assert SearchFrom(all, 0) == w;
    assert all[w..] == rest;
  }

  lemma SameEight(all: seq<Packet>, w: nat, rest: seq<Packet>)
    requires w + 8 <= |all| && 8 <= |rest| && all[w..w + 8] == rest[..8] && EightInARow(rest, 0)
    ensures EightInARow(all, w)
  {
    assert rest[0..0 + 8] == rest[..8];
  }

  /** A buffer without a window at the positions tried is interpreted whole, and so is every buffer once
      a window has been seen. */
  lemma NothingElseIsDropped(D: Design, s: State, ps: seq<Packet>)
    requires s.Fits(D)
    requires s.phase.found || forall k | 0 <= k < |ps| - 8 :: !EightInARow(ps, k)
    ensures Process(D, s, ps) == Fold(D, s, ps)
  {
    hide Fold, EightInARow, TrainingWindow;
    if !s.phase.found {
      forall k | 0 <= k < |ps| - 8 ensures !TrainingWindow(ps, k) {
        WindowIsEight(ps, k);
      }
      assert SearchFrom(ps, 0) == |ps|;
    }
    assert Sought(s, ps) == s;
  }

  function Flatten(buffers: seq<seq<Packet>>): seq<Packet> {
    if buffers == [] then [] else Flatten(buffers[..|buffers| - 1]) + buffers[|buffers| - 1]
  }

  /** However a packet stream is cut into buffers, if the training window lies in the first one the
      outcome (log, logger state, clock training state) is that of one call on the whole stream. */
  lemma {:induction false} BuffersDoNotMatter(D: Design, s: State, buffers: seq<seq<Packet>>)
    requires s.Fits(D) && buffers != [] && WindowSeen(s, buffers[0])
    ensures ProcessAll(D, s, buffers) == Process(D, s, Flatten(buffers))
    ensures WindowSeen(s, Flatten(buffers))
  {
    hide Process, SearchFrom;
    var before, last := buffers[..|buffers| - 1], buffers[|buffers| - 1];
    if before == [] {
      assert ProcessAll(D, s, before) == s;
      assert Flatten(buffers) == last == buffers[0];
    } else {
      BuffersDoNotMatter(D, s, before);
      ProcessConcat(D, s, Flatten(before), last);
      WindowStaysSeen(s, Flatten(before), last);
    }
  }

  lemma WindowStaysSeen(s: State, a: seq<Packet>, b: seq<Packet>)
    requires WindowSeen(s, a)
    ensures WindowSeen(s, a + b)
  {
    if !s.phase.found {
      SearchPrefix(a, b, 0);
    }
  }

  /** Once a window has been seen, calls and buffers are only ways of cutting the stream. */
  lemma {:induction false} FoundMeansFold(D: Design, s: State, buffers: seq<seq<Packet>>)
    requires s.Fits(D) && s.phase.found
    ensures ProcessAll(D, s, buffers) == Fold(D, s, Flatten(buffers)) && ProcessAll(D, s, buffers).phase.found
  {
    if buffers != [] {
      hide Fold;
      var n := |buffers| - 1;
      FoundMeansFold(D, s, buffers[..n]);
      var s1 := ProcessAll(D, s, buffers[..n]);
      assert Sought(s1, buffers[n]) == s1;
      FoldConcat(D, s, Flatten(buffers[..n]), buffers[n]);
      FoundStays(D, s1, buffers[n]);
    }
  }

  /** The round trip over any chunk boundaries: the words come back as the host time wherever the
      packets that carry them, and the events between, are cut into buffers. */
  lemma TrainingRoundTripInBuffers(D: Design, s: State, buffers: seq<seq<Packet>>, host: Uint64)
    requires s.Fits(D) && s.phase == Phase(true, 0, 0)
    requires TrainingWords(Flatten(buffers)) == FunnelWords(host)
    ensures ProcessAll(D, s, buffers).phase == Phase(true, 0, 0)
    ensures ProcessAll(D, s, buffers).cal == Trained(D, s.cal, LastTrainingTime(Flatten(buffers)), host)
  {
    hide Fold, Trained, ProcessAll;
    FoundMeansFold(D, s, buffers);
    TrainingRoundTrip(D, s, Flatten(buffers), host);
  }
}
