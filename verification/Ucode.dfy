/**
 The CD2481 microcode: 8192 instructions of 18 bits, packed little-endian into a
 byte stream, unpacked by three copies of the same loop (driver, tool, extractor)
 and stored through AIRl/AIRm/AIRh one single step at a time.
 */
module Ucode {
  import opened Bytes

  const WIDTH := 18
  const INSNS := 8192
  const PAD := 0x1E000

  type Insn = x: int | 0 <= x < 0x40000 witness 0

  // ----- bit strings ----------------------------------------------------------------

  function Pow2(n: nat): (r: nat)
    ensures r >= 1
  {
    if n == 0 then 1 else 2 * Pow2(n - 1)
  }

  /** The number a little-endian bit string stands for. */
  function Value(b: seq<bool>): nat {
    if b == [] then 0 else (if b[0] then 1 else 0) + 2 * Value(b[1..])
  }

  /** The low `n` bits of a number, lowest first. */
  function Bits(x: nat, n: nat): (b: seq<bool>)
    ensures |b| == n
  {
    if n == 0 then [] else [x % 2 == 1] + Bits(x / 2, n - 1)
  }

  lemma {:induction false} ValueOfBits(x: nat, n: nat)
    requires x < Pow2(n)
    ensures Value(Bits(x, n)) == x
  {
    if n > 0 {
      ValueOfBits(x / 2, n - 1);
      assert Bits(x, n)[1..] == Bits(x / 2, n - 1);
    }
  }

  lemma {:induction false} BitsOfValue(b: seq<bool>)
    ensures Value(b) < Pow2(|b|) && Bits(Value(b), |b|) == b
  {
    if b != [] {
      BitsOfValue(b[1..]);
      assert b == [b[0]] + b[1..];
    }
  }

  /** Cutting a bit string cuts its value at a power of two. */
  lemma {:induction false} ValueSplit(b: seq<bool>, k: nat)
    requires k <= |b|
    ensures Value(b) == Value(b[..k]) + Pow2(k) * Value(b[k..])
    decreases k
  {
    if k == 0 {
      assert b[..0] == [] && b[0..] == b;
    } else {
      ValueSplit(b[1..], k - 1);
      assert b[1..][..k - 1] == b[..k][1..] && b[1..][k - 1..] == b[k..];
      Doubled(Pow2(k - 1), Pow2(k), Value(b[k..]));
    }
  }

  lemma Doubled(p: nat, q: nat, v: nat)
    requires q == 2 * p
    ensures q * v == 2 * (p * v)
  {
  }

  /** v >> k. */
  function Shr(v: nat, k: nat): nat { if k == 0 then v else Shr(v / 2, k - 1) }

  lemma {:induction false} ShiftDrops(b: seq<bool>, k: nat)
    requires k <= |b|
    ensures Shr(Value(b), k) == Value(b[k..])
    decreases k
  {
    if k == 0 {
      assert b[0..] == b;
    } else {
      assert Value(b) / 2 == Value(b[1..]);
      ShiftDrops(b[1..], k - 1);
      assert b[1..][k - 1..] == b[k..];
    }
  }

  /** Shifting right by `k` and masking to 18 bits selects bits k..k+18. */
  lemma ShiftAndMask(b: seq<bool>, k: nat)
    requires k + WIDTH <= |b|
    ensures Shr(Value(b), k) % 0x4_0000 == Value(b[k..k + WIDTH])
  {
    ShiftDrops(b, k);
    var c := b[k..];
    assert c[..WIDTH] == b[k..k + WIDTH];
    SmallPowers();
    ValueSplit(c, WIDTH);
    BitsOfValue(c[..WIDTH]);
    hide Value;
    hide Pow2;
    hide Shr;
    MaskIs(Value(c), Value(c[..WIDTH]), Value(c[WIDTH..]));
  }

  lemma MaskIs(v: nat, low: nat, high: nat)
    requires v == low + 0x4_0000 * high && low < 0x4_0000
    ensures v % 0x4_0000 == low
  {
  }

  lemma SmallPowers()
    ensures Pow2(8) == 256 && Pow2(16) == 0x1_0000 && Pow2(18) == 0x4_0000
  {
    assert Pow2(4) == 16;
    assert Pow2(8) == 256;
    assert Pow2(12) == 4096;
    assert Pow2(16) == 65536;
  }

  // ----- packing ----------------------------------------------------------------------

  /** Bit `p` of a byte stream, zero past its end. */
  function StreamBit(blob: seq<Byte>, p: nat): bool {
    p / 8 < |blob| && Bits(blob[p / 8], 8)[p % 8]
  }

  /** Bit `p` of the instructions laid end to end. */
  function InsnBit(insns: seq<Insn>, p: nat): bool {
    p / WIDTH < |insns| && Bits(insns[p / WIDTH], WIDTH)[p % WIDTH]
  }

  function InsnBits(insns: seq<Insn>, p: nat, n: nat): (w: seq<bool>)
    ensures |w| == n && forall j :: 0 <= j < n ==> w[j] == InsnBit(insns, p + j)
  {
    seq(n, j requires 0 <= j => InsnBit(insns, p + j))
  }

  function PackedByte(insns: seq<Insn>, k: nat): Byte {
    SmallPowers();
    BitsOfValue(InsnBits(insns, 8 * k, 8));
    Value(InsnBits(insns, 8 * k, 8))
  }

  function PackedSize(n: nat): nat { (n * WIDTH + 7) / 8 }

  /** Instructions packed little-endian, four to nine bytes; a last partial byte is filled with zeros. */
  function Pack(insns: seq<Insn>): (blob: seq<Byte>)
    ensures |blob| == PackedSize(|insns|)
  {
    seq(PackedSize(|insns|), k requires 0 <= k => PackedByte(insns, k))
  }

  function ByteOr0(blob: seq<Byte>, k: nat): Byte { if k < |blob| then blob[k] else 0 }

  /** The three-byte window, shifted and masked, as all three unpackers compute it. */
  function Unpack(blob: seq<Byte>, i: nat): Insn {
    var bit := i * WIDTH;
    var byte := bit / 8;
    var v := ByteOr0(blob, byte) + 0x100 * ByteOr0(blob, byte + 1) + 0x1_0000 * ByteOr0(blob, byte + 2);
    Shr(v, bit % 8) % 0x4_0000
  }

  // ----- unpacking inverts packing -------------------------------------------------------

  lemma ByteBits(blob: seq<Byte>, k: nat)
    ensures ByteOr0(blob, k) == Value(Window(blob, 8 * k, 8))
  {
    var w := Window(blob, 8 * k, 8);
    forall j | 0 <= j < 8
      ensures w[j] == Bits(ByteOr0(blob, k), 8)[j]
    {
      ZeroBits(8);
      assert (8 * k + j) / 8 == k && (8 * k + j) % 8 == j;
    }
    assert w == Bits(ByteOr0(blob, k), 8);
    SmallPowers();
    ValueOfBits(ByteOr0(blob, k), 8);
  }

  lemma {:induction false} ZeroBits(n: nat)
    ensures forall j :: 0 <= j < n ==> !Bits(0, n)[j]
  {
    if n > 0 {
      ZeroBits(n - 1);
      assert Bits(0, n) == [false] + Bits(0, n - 1);
    }
  }

  function Window(blob: seq<Byte>, p: nat, n: nat): (w: seq<bool>)
    ensures |w| == n && forall j :: 0 <= j < n ==> w[j] == StreamBit(blob, p + j)
  {
    seq(n, j requires 0 <= j => StreamBit(blob, p + j))
  }

  /** Three bytes from `byte` on are the 24 stream bits from there on. */
  lemma ThreeBytes(blob: seq<Byte>, byte: nat)
    ensures ByteOr0(blob, byte) + 0x100 * ByteOr0(blob, byte + 1) + 0x1_0000 * ByteOr0(blob, byte + 2)
            == Value(Window(blob, 8 * byte, 24))
  {
    hide StreamBit;
    hide Value;
    hide Pow2;
    var w := Window(blob, 8 * byte, 24);
    SmallPowers();
    ByteBits(blob, byte);
    ByteBits(blob, byte + 1);
    ByteBits(blob, byte + 2);
    ValueSplit(w, 8);
    ValueSplit(w[8..], 8);
    assert w[..8] == Window(blob, 8 * byte, 8);
    assert w[8..][..8] == Window(blob, 8 * byte + 8, 8);
    assert w[8..][8..] == Window(blob, 8 * byte + 16, 8);
  }

  /** The unpacker reads stream bits 18i to 18i+17: the window is wide enough because 18i mod 8 is at most 6. */
  lemma UnpackReads(blob: seq<Byte>, i: nat)
    ensures Unpack(blob, i) == Value(Window(blob, i * WIDTH, WIDTH))
  {
    hide StreamBit;
    hide Value;
    hide Pow2;
    hide Shr;
    hide ByteOr0;
    var byte, off := Aligned(i);
    ThreeBytes(blob, byte);
    var w := Window(blob, 8 * byte, 24);
    ShiftAndMask(w, off);
    assert w[off..off + WIDTH] == Window(blob, 8 * byte + off, WIDTH);
  }

  lemma Aligned(i: nat) returns (byte: nat, off: nat)
    ensures byte == i * WIDTH / 8 && off == i * WIDTH % 8
    ensures i * WIDTH == 8 * byte + off && off <= 6
  {
    byte, off := i * WIDTH / 8, i * WIDTH % 8;
    assert off == 2 * (9 * i) - 8 * byte;
    assert off % 2 == 0;
  }

  lemma PackedBit(insns: seq<Insn>, p: nat)
    requires p < 8 * PackedSize(|insns|)
    ensures StreamBit(Pack(insns), p) == InsnBit(insns, p)
  {
    hide InsnBit;
    var k := p / 8;
    var bits := InsnBits(insns, 8 * k, 8);
    BitsOfValue(bits);
    assert Pack(insns)[k] == Value(bits);
    assert bits[p % 8] == InsnBit(insns, 8 * k + p % 8);
  }

  lemma InsnWindow(insns: seq<Insn>, i: nat, j: nat)
    requires i < |insns| && j < WIDTH
    ensures InsnBit(insns, i * WIDTH + j) == Bits(insns[i], WIDTH)[j]
    ensures i * WIDTH + j < 8 * PackedSize(|insns|)
  {
    assert (i * WIDTH + j) / WIDTH == i && (i * WIDTH + j) % WIDTH == j;
  }

  /** Unpacking gives back every instruction that was packed. */
  lemma UnpackInvertsPack(insns: seq<Insn>, i: nat)
    requires i < |insns|
    ensures Unpack(Pack(insns), i) == insns[i]
  {
    hide Unpack;
    hide StreamBit;
    hide InsnBit;
    hide PackedSize;
    hide Value;
    hide Pow2;
    hide Bits;
    UnpackReads(Pack(insns), i);
    SmallPowers();
    ValueOfBits(insns[i], WIDTH);
    var w := Window(Pack(insns), i * WIDTH, WIDTH);
    forall j | 0 <= j < WIDTH
      ensures w[j] == Bits(insns[i], WIDTH)[j]
    {
      InsnWindow(insns, i, j);
      PackedBit(insns, i * WIDTH + j);
    }
    assert w == Bits(insns[i], WIDTH);
  }

  function UnpackAll(blob: seq<Byte>, n: nat): (insns: seq<Insn>)
    ensures |insns| == n && forall i :: 0 <= i < n ==> insns[i] == Unpack(blob, i)
  {
    seq(n, i requires 0 <= i => Unpack(blob, i))
  }

  lemma UnpackedBit(blob: seq<Byte>, n: nat, p: nat)
    requires p < n * WIDTH
    ensures InsnBit(UnpackAll(blob, n), p) == StreamBit(blob, p)
  {
    hide Unpack;
    hide StreamBit;
    hide Value;
    hide Bits;
    var i, j := p / WIDTH, p % WIDTH;
    assert i < n && i * WIDTH + j == p;
    UnpackReads(blob, i);
    var w := Window(blob, i * WIDTH, WIDTH);
    BitsOfValue(w);
    assert w[j] == StreamBit(blob, i * WIDTH + j);
  }

  /** And packing gives back every blob that holds a whole number of instructions. */
  lemma PackInvertsUnpack(blob: seq<Byte>, n: nat)
    requires n * WIDTH == 8 * |blob|
    ensures Pack(UnpackAll(blob, n)) == blob
  {
    hide InsnBit;
    hide StreamBit;
    hide Unpack;
    hide Value;
    var insns := UnpackAll(blob, n);
    forall k | 0 <= k < |blob|
      ensures PackedByte(insns, k) == blob[k]
    {
      ByteBits(blob, k);
      var a, b := InsnBits(insns, 8 * k, 8), Window(blob, 8 * k, 8);
      forall j | 0 <= j < 8
        ensures a[j] == b[j]
      {
        UnpackedBit(blob, n, 8 * k + j);
      }
      assert a == b;
    }
  }

  // ----- the loops ----------------------------------------------------------------------------

  /** ucode_insn, insn_at and unpack: the same loop three times over. */
  method InsnAt(blob: seq<Byte>, i: nat) returns (insn: Insn)
    ensures insn == Unpack(blob, i)
  {
    hide Shr;
    var bit := i * 18;
    var byte := bit / 8;
    var v: nat, unit: nat := 0, 1;
    for k := 0 to 3
      invariant unit == if k == 0 then 1 else if k == 1 then 0x100 else if k == 2 then 0x1_0000 else 0x100_0000
      invariant v == (if k > 0 then ByteOr0(blob, byte) else 0) + (if k > 1 then 0x100 * ByteOr0(blob, byte + 1) else 0)
                     + (if k > 2 then 0x1_0000 * ByteOr0(blob, byte + 2) else 0)
    {
      if byte + k < |blob| {
        v := v + blob[byte + k] * unit;    // the bits are disjoint, so |= is +
      }
      unit := unit * 0x100;
    }
    insn := Shr(v, bit % 8) % 0x4_0000;
  }
}
