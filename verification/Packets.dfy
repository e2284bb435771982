/** Bit layout of the 64-bit trace packets, and the byte stream that carries them.
    A shift right by k is a division by 2^k and a mask of m low bits a remainder by 2^m. */
module Packets {

  type Byte = b: nat | b < 0x100
  type Word16 = w: nat | w < 0x1_0000
  type Packet = p: nat | p < 0x1_0000_0000_0000_0000

  const TRACE_PACKET_SIZE: nat := 8
  const TIMESTAMP_RANGE: nat := 0x2000_0000_0000

  /** Bits 0..44. The logger subtracts a first timestamp that nothing ever sets, so it is 0. */
  function DeviceTimestamp(p: Packet): nat { p % TIMESTAMP_RANGE }

  /** Bits 49..60. */
  function TraceId(p: Packet): nat { p / 0x2_0000_0000_0000 % 0x1000 }

  /** Bit 63. */
  predicate IsClockTraining(p: Packet) { p / 0x8000_0000_0000_0000 % 2 == 1 }

  /** Bits 45..60, the sixteen bits of host time in a clock training packet. */
  function TrainingWord(p: Packet): Word16 { p / TIMESTAMP_RANGE % 0x1_0000 }

  /** The event flags: bits 45..48, and bit 61, which doubles as the "reserved" pulse bit. */
  function Flags(p: Packet): nat { p / TIMESTAMP_RANGE % 16 }

  predicate IsDeviceEventTypeStart(p: Packet) { Flags(p) == 0 }

  predicate Flag1(p: Packet) { Flags(p) % 2 == 1 }

  predicate Flag2(p: Packet) { Flags(p) / 2 % 2 == 1 }

  predicate Flag4(p: Packet) { Flags(p) / 4 % 2 == 1 }

  predicate Flag8(p: Packet) { Flags(p) / 8 % 2 == 1 }

  predicate Flag16(p: Packet) { p / 0x2000_0000_0000_0000 % 2 == 1 }

  /** An event packet from its fields: 45 bits of device time, four flag bits, twelve bits of trace id,
      the pulse bit and the overflow bit, in this order from the lowest. */
  function EventPacket(traceId: nat, flags: nat, pulse: bool, overflow: bool, dev: nat): Packet
    requires traceId < 0x1000 && flags < 16 && dev < 0x2000_0000_0000
  {
    (if overflow then 0x4000_0000_0000_0000 else 0) + (if pulse then 0x2000_0000_0000_0000 else 0)
    + traceId * 0x2_0000_0000_0000 + flags * 0x2000_0000_0000 + dev
  }

  lemma MulMono(a: int, b: int, size: nat)
    requires a <= b
    ensures a * size <= b * size
  {
  }

  lemma DivIs(p: nat, q: nat, r: nat, m: nat)
    requires p == q * m + r && r < m
    ensures p / m == q && p % m == r
  {
    var d := p / m - q;
    assert d * m == r - p % m by {
      assert (p / m) * m - q * m == d * m;
    }
    if d >= 1 {
      MulMono(1, d, m);
    } else if d <= -1 {
      MulMono(d, -1, m);
    }
  }

  /** Dividing twice is dividing by the product. */
  lemma DivDiv(p: nat, a: nat, b: nat)
    requires a > 0 && b > 0
    ensures a * b > 0 && p / (a * b) == p / a / b
  {
    MulMono(1, b, a);
    Remainders(p, a, p / a, p % a, b, p / a / b, p / a % b);
    DivIs(p, p / a / b, (p / a % b) * a + p % a, a * b);
  }

  lemma Remainders(p: nat, a: nat, x: nat, r1: nat, b: nat, y: nat, r2: nat)
    requires p == x * a + r1 && r1 < a && x == y * b + r2 && r2 < b
    ensures p == y * (a * b) + (r2 * a + r1) && r2 * a + r1 < a * b
  {
    MulMono(r2, b - 1, a);
    Distribute(b - 1, 1, a);
    Distribute(y * b, r2, a);
    Reorder(y, a, b);
  }

  lemma Distribute(x: nat, y: nat, a: nat)
    ensures (x + y) * a == x * a + y * a
  {
  }

  lemma Reorder(y: nat, a: nat, b: nat)
    ensures (y * b) * a == y * (a * b)
  {
  }

  /** The accessors give back the fields. */
  lemma EventPacketFields(traceId: nat, flags: nat, pulse: bool, overflow: bool, dev: nat)
    requires traceId < 0x1000 && flags < 16 && dev < 0x2000_0000_0000
    ensures var p := EventPacket(traceId, flags, pulse, overflow, dev);
            && !IsClockTraining(p) && TraceId(p) == traceId && DeviceTimestamp(p) == dev && Flag16(p) == pulse
            && (IsDeviceEventTypeStart(p) <==> flags == 0)
            && (Flag1(p) <==> flags in {1, 3, 5, 7, 9, 11, 13, 15})
            && (Flag2(p) <==> flags in {2, 3, 6, 7, 10, 11, 14, 15})
            && (Flag4(p) <==> flags in {4, 5, 6, 7, 12, 13, 14, 15})
            && (Flag8(p) <==> flags >= 8)
            && Flags(p) == flags
  {
    var p := EventPacket(traceId, flags, pulse, overflow, dev);
    var high := (if overflow then 2 else 0) + if pulse then 1 else 0;
    var q := (high * 0x1000 + traceId) * 16 + flags;
    DivIs(p, q, dev, 0x2000_0000_0000);
    DivIs(q, high * 0x1000 + traceId, flags, 16);
    DivIs(high * 0x1000 + traceId, high, traceId, 0x1000);
    DivDiv(p, 0x2000_0000_0000, 16);
    DivDiv(p, 0x2_0000_0000_0000, 0x1000);
    DivDiv(p, 0x2000_0000_0000_0000, 4);
    FlagBits(flags);
  }

  lemma FlagBits(flags: nat)
    requires flags < 16
    ensures flags % 2 == 1 <==> flags in {1, 3, 5, 7, 9, 11, 13, 15}
    ensures flags / 2 % 2 == 1 <==> flags in {2, 3, 6, 7, 10, 11, 14, 15}
    ensures flags / 4 % 2 == 1 <==> flags in {4, 5, 6, 7, 12, 13, 14, 15}
    ensures flags / 8 % 2 == 1 <==> flags >= 8
  {
  }

  /** Every packet that is not a clock training packet is made of such fields. */
  lemma EveryEventPacket(p: Packet)
    requires !IsClockTraining(p)
    ensures p == EventPacket(TraceId(p), Flags(p), Flag16(p), p / 0x4000_0000_0000_0000 % 2 == 1, DeviceTimestamp(p))
  {
    var q := p / 0x2000_0000_0000;
    DivDiv(p, 0x2000_0000_0000, 16);
    DivDiv(p, 0x2_0000_0000_0000, 0x1000);
    DivDiv(p, 0x2000_0000_0000_0000, 2);
    DivDiv(p, 0x4000_0000_0000_0000, 2);
    var high := p / 0x2000_0000_0000_0000;
    assert p == q * 0x2000_0000_0000 + DeviceTimestamp(p);
    assert q == (high * 0x1000 + TraceId(p)) * 16 + Flags(p);
    assert p / 0x8000_0000_0000_0000 < 2;
    assert high == 2 * (p / 0x4000_0000_0000_0000) + high % 2;
  }

  /** The low nibble of an AM trace id: which of a CU's four signals fired. Also the value of one
      entry of `traceIDs`, which only ever holds such nibbles. */
  datatype Nibble = Nibble(cu: bool, dataflow: bool, pipe: bool, ext: bool)

  /** The trace id of an AM packet: sixteen ids a slot, one bit a signal. */
  function AMTraceId(slot: nat, fired: Nibble): nat {
    64 + 16 * slot + (if fired.cu then 1 else 0) + (if fired.dataflow then 2 else 0)
    + (if fired.pipe then 4 else 0) + if fired.ext then 8 else 0
  }

  lemma AMTraceIdFields(slot: nat, fired: Nibble)
    ensures (AMTraceId(slot, fired) - 64) / 16 == slot && NibbleOf(AMTraceId(slot, fired)) == fired
  {
    var id, base := AMTraceId(slot, fired), slot + 4;
    var b0, b1 := if fired.cu then 1 else 0, if fired.dataflow then 1 else 0;
    var b2, b3 := if fired.pipe then 1 else 0, if fired.ext then 1 else 0;
    DivIs(id, 8 * base + 4 * b3 + 2 * b2 + b1, b0, 2);
    DivIs(8 * base + 4 * b3 + 2 * b2 + b1, 4 * base + 2 * b3 + b2, b1, 2);
    DivIs(4 * base + 2 * b3 + b2, 2 * base + b3, b2, 2);
    DivIs(2 * base + b3, base, b3, 2);
    DivIs(id - 64, slot, 8 * b3 + 4 * b2 + 2 * b1 + b0, 16);
    DivDiv(id, 2, 2);
    DivDiv(id, 4, 2);
  }

  const CLEAR: Nibble := Nibble(false, false, false, false)

  function NibbleOf(traceId: nat): Nibble {
    Nibble(traceId % 2 == 1, traceId / 2 % 2 == 1, traceId / 4 % 2 == 1, traceId / 8 % 2 == 1)
  }

  function Xor(a: Nibble, b: Nibble): Nibble {
    Nibble(a.cu != b.cu, a.dataflow != b.dataflow, a.pipe != b.pipe, a.ext != b.ext)
  }

  /** Bitwise or of two naturals. */
  function BitOr(a: nat, b: nat): nat {
    if a == 0 then b
    else if b == 0 then a
    else (if a % 2 == 1 || b % 2 == 1 then 1 else 0) + 2 * BitOr(a / 2, b / 2)
  }

  function Pow2(k: nat): (r: nat)
    ensures r > 0
  {
    if k == 0 then 1 else 2 * Pow2(k - 1)
  }

  /** Or-ing a value into bits that are still clear adds it. */
  lemma {:induction false} BitOrDisjoint(a: nat, w: nat, k: nat)
    requires a < Pow2(k)
    ensures BitOr(a, w * Pow2(k)) == a + w * Pow2(k)
  {
    if a != 0 && w != 0 {
      var b := w * Pow2(k - 1);
      assert w * Pow2(k) == 2 * b;
      BitOrDisjoint(a / 2, w, k - 1);
    }
  }

  // ----- Packets in the byte stream -----

  /** A packet is eight bytes, least significant first. */
  function PacketOf(b: seq<Byte>): Packet
    requires |b| == 8
  {
    (b[0] as int) + 0x100 * (b[1] as int) + 0x1_0000 * (b[2] as int) + 0x100_0000 * (b[3] as int)
    + 0x1_0000_0000 * (b[4] as int) + 0x100_0000_0000 * (b[5] as int)
    + 0x1_0000_0000_0000 * (b[6] as int) + 0x100_0000_0000_0000 * (b[7] as int)
  }

  /** Byte k of a packet in memory is its bits 8k to 8k + 7. */
  lemma PacketBytes(b: seq<Byte>)
    requires |b| == 8
    ensures var p := PacketOf(b);
            && p % 0x100 == b[0] && p / 0x100 % 0x100 == b[1]
            && p / 0x1_0000 % 0x100 == b[2] && p / 0x100_0000 % 0x100 == b[3]
            && p / 0x1_0000_0000 % 0x100 == b[4] && p / 0x100_0000_0000 % 0x100 == b[5]
            && p / 0x1_0000_0000_0000 % 0x100 == b[6] && p / 0x100_0000_0000_0000 == b[7]
  {
    var p := PacketOf(b);
    var p6 := (b[6] as int) + 0x100 * (b[7] as int);
    var p5 := (b[5] as int) + 0x100 * p6;
    var p4 := (b[4] as int) + 0x100 * p5;
    var p3 := (b[3] as int) + 0x100 * p4;
    var p2 := (b[2] as int) + 0x100 * p3;
    var p1 := (b[1] as int) + 0x100 * p2;
    DivIs(p, p1, b[0], 0x100);
    DivIs(p1, p2, b[1], 0x100);
    DivIs(p2, p3, b[2], 0x100);
    DivIs(p3, p4, b[3], 0x100);
    DivIs(p4, p5, b[4], 0x100);
    DivIs(p5, p6, b[5], 0x100);
    DivIs(p6, b[7], b[6], 0x100);
    Shifts(p);
  }

  /** Shifting right by whole bytes, one byte at a time. */
  lemma Shifts(p: nat)
    ensures p / 0x1_0000 == p / 0x100 / 0x100
    ensures p / 0x100_0000 == p / 0x1_0000 / 0x100
    ensures p / 0x1_0000_0000 == p / 0x100_0000 / 0x100
    ensures p / 0x100_0000_0000 == p / 0x1_0000_0000 / 0x100
    ensures p / 0x1_0000_0000_0000 == p / 0x100_0000_0000 / 0x100
    ensures p / 0x100_0000_0000_0000 == p / 0x1_0000_0000_0000 / 0x100
  {
    DivDiv(p, 0x100, 0x100);
    DivDiv(p, 0x1_0000, 0x100);
    DivDiv(p, 0x100_0000, 0x100);
    DivDiv(p, 0x1_0000_0000, 0x100);
    DivDiv(p, 0x100_0000_0000, 0x100);
    DivDiv(p, 0x1_0000_0000_0000, 0x100);
  }

  function PacketAt(data: seq<Byte>, i: nat): Packet
    requires 8 * i + 8 <= |data|
  {
    PacketOf(data[8 * i..8 * i + 8])
  }

  /** The whole packets of a buffer; trailing bytes that make no packet are not looked at. */
  function PacketsOf(data: seq<Byte>): (ps: seq<Packet>)
    ensures |ps| == |data| / 8
    ensures forall i | 0 <= i < |ps| :: ps[i] == PacketAt(data, i)
  {
    seq(|data| / 8, i requires 0 <= i < |data| / 8 => PacketAt(data, i))
  }

  /** Cutting a stream at a packet boundary cuts its packets there. */
  lemma PacketsOfConcat(a: seq<Byte>, b: seq<Byte>)
    requires |a| % 8 == 0
    ensures PacketsOf(a + b) == PacketsOf(a) + PacketsOf(b)
  {
    var n := |a| / 8;
    assert |a + b| / 8 == n + |b| / 8;
    forall i | 0 <= i < |a + b| / 8
      ensures PacketsOf(a + b)[i] == (PacketsOf(a) + PacketsOf(b))[i]
    {
      if i < n {
        assert (a + b)[8 * i..8 * i + 8] == a[8 * i..8 * i + 8];
      } else {
        assert (a + b)[8 * i..8 * i + 8] == b[8 * (i - n)..8 * (i - n) + 8];
      }
    }
  }
}
