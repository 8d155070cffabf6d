/**
 The microcode download: instructions go into the CD2481's 8K-word store through
 AIRl, AIRm and AIRh, one single step of the bus interface per word.
 */
module UcodeLoader {
  import opened Bytes
  import opened Ucode

  // MTCR and BTCR values
  const AUX: Byte := 0x01         // the MPU takes its instruction from AIR
  const DATA_WRITE: Byte := 0x02  // a single step stores AIR
  const RUN: Byte := 0x03         // the MPU executes from the store
  const CLOCK_OFF: Byte := 0x01
  const STEP: Byte := 0x03        // clock off, one step
  const CLOCK_ON: Byte := 0x00

  const JUMP_3FFF: Insn := 0x33FFF

  datatype DownloadReg = AirL | AirM | AirH | Mtcr | Btcr

  /**
   The download side of one chip. `store` is what has been stored since data-write
   mode was last entered, `stepped` every auxiliary instruction executed.
   */
  datatype Mpu = Mpu(airl: Byte, airm: Byte, airh: Byte, mtcr: Byte, btcr: Byte,
                     store: seq<Insn>, stepped: seq<Insn>)
  {
    /** The 18-bit auxiliary instruction register; AIRh keeps two bits. */
    function Air(): Insn { airl + 0x100 * airm + 0x1_0000 * (airh % 4) }

    predicate Running() { mtcr == RUN && btcr == CLOCK_ON }

    function Write(reg: DownloadReg, v: Byte): Mpu {
      match reg
      case AirL => this.(airl := v)
      case AirM => this.(airm := v)
      case AirH => this.(airh := v)
      case Mtcr => this.(mtcr := v, store := if v == DATA_WRITE then [] else store)
      case Btcr =>
        var m := this.(btcr := v);
        if v != STEP then m
        else if mtcr == DATA_WRITE then m.(store := store + [Air()])
        else if mtcr == AUX then m.(stepped := stepped + [Air()])
        else m
    }
  }

  /** How many instructions the tool takes from a file. */
  function Taken(size: nat): nat {
    if size * 8 / WIDTH > INSNS then INSNS else size * 8 / WIDTH
  }

  function Fill(n: nat): (f: seq<Insn>)
    ensures |f| == n && forall i :: 0 <= i < n ==> f[i] == PAD
  {
    seq(n, i => PAD)
  }

  /** What the store should hold for a program of any length: its first 8192 words, topped up with PAD. */
  function StoreImage(program: seq<Insn>): (s: seq<Insn>)
    ensures |s| == 8192
    ensures forall i :: 0 <= i < 8192 ==> s[i] == if i < |program| then program[i] else 0x1E000
  {
    if |program| >= INSNS then program[..INSNS] else program + Fill(INSNS - |program|)
  }

  class Chip {
    var mpu: Mpu

    constructor (m: Mpu)
      ensures mpu == m
    {
      mpu := m;
    }

    method Wr(reg: DownloadReg, v: Byte)
      modifies this
      ensures mpu == old(mpu).Write(reg, v)
    {
      mpu := mpu.Write(reg, v);
    }

    /** In data-write mode this stores exactly `insn`: the three-way split reassembles. */
    method Put(insn: Insn)
      requires mpu.mtcr == DATA_WRITE
      modifies this
      ensures mpu.store == old(mpu.store) + [insn] && mpu.mtcr == DATA_WRITE
      ensures mpu.stepped == old(mpu.stepped)
    {
      Wr(AirL, insn % 0x100);
      Wr(AirM, insn / 0x100 % 0x100);
      Wr(AirH, insn / 0x1_0000 % 4);
      assert mpu.Air() == insn;
      Wr(Btcr, STEP);
    }

    method Jump3fff()
      modifies this
      ensures mpu.Air() == 0x33FFF
      ensures mpu == old(mpu).(airl := 0xff, airm := 0x3f, airh := 0x03)
    {
      Wr(AirL, 0xff);
      Wr(AirM, 0x3f);
      Wr(AirH, 0x03);
    }

    /** Whatever state the chip was left in, setup stores nothing and leaves an empty store in data-write mode. */
    method DlSetup(datasheet: bool)
      modifies this
      ensures mpu.mtcr == DATA_WRITE && mpu.store == []
      ensures mpu.stepped == old(mpu.stepped) + if datasheet then [JUMP_3FFF, JUMP_3FFF] else []
      ensures mpu.btcr == if datasheet then STEP else CLOCK_OFF
    {
      if datasheet {
        Wr(Btcr, CLOCK_OFF);
        Jump3fff();
        Wr(Mtcr, AUX);
        Wr(Btcr, STEP);
        Wr(Btcr, STEP);
      } else {
        Jump3fff();
        Wr(Mtcr, AUX);
        Wr(Btcr, CLOCK_OFF);
      }
      Wr(Mtcr, DATA_WRITE);
    }

    /** The chip steps the jump twice and runs, with the store as it was. */
    method DlStart()
      modifies this
      ensures mpu.Running() && mpu.mtcr == 0x03 && mpu.btcr == 0x00 && mpu.store == old(mpu.store)
      ensures mpu.stepped == old(mpu.stepped) + [JUMP_3FFF, JUMP_3FFF]
    {
      Jump3fff();
      Wr(Mtcr, AUX);
      Wr(Btcr, STEP);
      Wr(Btcr, STEP);
      Wr(Mtcr, RUN);
      Wr(Btcr, CLOCK_ON);
    }

    /** The tool's download: the chip runs, from any earlier state, a store with every instruction of the file in place. */
    method Download(blob: seq<Byte>, datasheet: bool)
      modifies this
      ensures mpu.Running()
      ensures mpu.store == StoreImage(UnpackAll(blob, Taken(|blob|)))
    {
      hide Unpack;
      var ninsn := |blob| * 8 / 18;
      if ninsn > 8192 { ninsn := 8192; }
      DlSetup(datasheet);
      var n := 0;
      while n < ninsn
        invariant n <= ninsn && mpu.mtcr == DATA_WRITE
        invariant mpu.store == UnpackAll(blob, n)
      {
        var insn := InsnAt(blob, n);
        Put(insn);
        n := n + 1;
      }
      while n < 8192
        invariant ninsn <= n <= INSNS && mpu.mtcr == DATA_WRITE
        invariant mpu.store == UnpackAll(blob, ninsn) + Fill(n - ninsn)
      {
        Put(0x1E000);
        n := n + 1;
      }
      DlStart();
    }

    /** The driver's download: always 8192 instructions of the compiled-in image. */
    method DriverDownload(blob: seq<Byte>)
      modifies this
      ensures mpu.Running()
      ensures mpu.store == UnpackAll(blob, INSNS)
    {
      hide Unpack;
      DlSetup(false);
      for i := 0 to 8192
        invariant mpu.mtcr == DATA_WRITE
        invariant mpu.store == UnpackAll(blob, i)
      {
        var insn := InsnAt(blob, i);
        Put(insn);
      }
      DlStart();
    }
  }

  /** A packed program has exactly its own number of instructions, whatever the padding of its last byte. */
  lemma PackedCount(n: nat)
    ensures PackedSize(n) * 8 / WIDTH == n
  {
    var bits := PackedSize(n) * 8;
    Quotient(bits, WIDTH, n, bits - n * WIDTH);
  }

  /** Packing a program of any length and downloading it leaves the program in the store. */
  lemma DownloadDeliversProgram(program: seq<Insn>)
    ensures StoreImage(UnpackAll(Pack(program), Taken(|Pack(program)|))) == StoreImage(program)
  {
    hide Unpack;
    hide Pack;
    hide PackedSize;
    PackedCount(|program|);
    var n := Taken(|Pack(program)|);
    var got := UnpackAll(Pack(program), n);
    forall i | 0 <= i < n
      ensures got[i] == program[i]
    {
      UnpackInvertsPack(program, i);
    }
    assert got == program[..n];
  }

  /** Driver and tool fill the store alike exactly for full-size images, the only ones the header generator accepts. */
  lemma DriverAgreesWithTool(blob: seq<Byte>)
    ensures UnpackAll(blob, INSNS) == StoreImage(UnpackAll(blob, Taken(|blob|)))
       <==> |blob| * 8 >= INSNS * WIDTH
  {
    hide Unpack;
    var k := Taken(|blob|);
    var tool := StoreImage(UnpackAll(blob, k));
    if |blob| * 8 >= INSNS * WIDTH {
      assert k == INSNS;
      assert tool == UnpackAll(blob, INSNS);
    } else {
      assert k < INSNS;
      MissingTail(blob, INSNS - 1);
      assert tool[INSNS - 1] == PAD;
      assert UnpackAll(blob, INSNS)[INSNS - 1] != PAD;
    }
  }

  /** An instruction that is not wholly in the blob never unpacks as PAD: PAD's top bit, bit 16, lies in the missing part. */
  lemma MissingTail(blob: seq<Byte>, i: nat)
    requires |blob| * 8 < (i + 1) * WIDTH
    ensures Unpack(blob, i) != PAD
  {
    hide Unpack;
    hide Value;
    hide Pow2;
    hide Bits;
    hide Shr;
    UnpackReads(blob, i);
    var w := Window(blob, i * WIDTH, WIDTH);
    hide StreamBit;
    MissingBit(blob, i);
    assert !w[16];
    BitsOfValue(w);
    BitAt(Value(w), WIDTH, 16);
    PadBit();
  }

  lemma MissingBit(blob: seq<Byte>, i: nat)
    requires |blob| * 8 < (i + 1) * WIDTH
    ensures !StreamBit(blob, i * WIDTH + 16)
  {
    hide Bits;
    assert |blob| * 4 <= i * 9 + 8;
    assert i * WIDTH + 16 == 2 * (i * 9 + 8);
    assert (i * WIDTH + 16) / 8 >= |blob|;
  }

  lemma {:induction false} BitAt(x: nat, n: nat, j: nat)
    requires j < n
    ensures Bits(x, n)[j] == (Shr(x, j) % 2 == 1)
  {
    if j > 0 {
      BitAt(x / 2, n - 1, j - 1);
    }
  }

  lemma PadBit()
    ensures Shr(PAD, 16) == 1
  {
    assert Shr(PAD, 4) == 0x1E00;
    assert Shr(0x1E00, 12) == 1 by {
      assert Shr(0x1E0, 8) == 1;
    }
    ShrTwice(PAD, 4, 12);
  }

  lemma {:induction false} ShrTwice(x: nat, j: nat, k: nat)
    ensures Shr(Shr(x, j), k) == Shr(x, j + k)
  {
    if j > 0 {
      ShrTwice(x / 2, j - 1, k);
    }
  }
}
