/**
 The CompactFlash task file. The bus can only write registers in pairs, a halfword
 at a time, and every register of the 48-bit feature set keeps its previous value.
 */
module CompactFlash {
  import opened Bytes

  // halfword offsets of the register pairs
  const P_FEAT := 0x02        // high feature, low data byte
  const P_NSECT_LBAL := 0x06  // high lbal, low nsect
  const P_LBAM_LBAH := 0x0A   // high lbah, low lbam
  const P_DEV_CMD := 0x0E     // high command, low device
  const P_DEVCTL := 0x1E      // low device control

  type Half = x: int | 0 <= x < 0x1_0000 witness 0

  /** ((u16)hi << 8) | lo */
  function Pair(hi: Byte, lo: Byte): Half { 0x100 * hi + lo }

  function Low(w: Half): Byte { w % 0x100 }

  function High(w: Half): Byte { w / 0x100 }

  /** ctl | ATA_SRST */
  function WithReset(ctl: Byte): Byte { if Resets(ctl) then ctl else ctl + 4 }

  predicate Resets(ctl: Byte) { ctl / 4 % 2 == 1 }

  lemma PulseIs(ctl: Byte)
    ensures Resets(WithReset(ctl)) && Low(WithReset(ctl)) == WithReset(ctl) && Low(ctl) == ctl
  {
  }

  /** ATA_SRST is bit 2: setting it changes that bit and no other. */
  lemma ResetInBits(b7: bool, b6: bool, b5: bool, b4: bool, b3: bool, b2: bool, b1: bool, b0: bool)
    ensures var ctl := OfBits(b7, b6, b5, b4, b3, b2, b1, b0);
            && (Resets(ctl) <==> b2)
            && WithReset(ctl) == OfBits(b7, b6, b5, b4, b3, true, b1, b0)
  {
    var ctl := OfBits(b7, b6, b5, b4, b3, b2, b1, b0);
    assert ctl / 4 == 32 * Bit(b7) + 16 * Bit(b6) + 8 * Bit(b5) + 4 * Bit(b4) + 2 * Bit(b3) + Bit(b2);
  }

  // ----- the device -----------------------------------------------------------------

  /** A register two deep: a write moves the current value to the previous one. */
  datatype Latch = Latch(current: Byte, previous: Byte) {
    function Push(v: Byte): Latch { Latch(v, current) }
  }

  /** One value for each address register. */
  datatype Address = Address(feature: Byte, nsect: Byte, lbal: Byte, lbam: Byte, lbah: Byte)

  /** What the device sees when its command register is written. */
  datatype Order = Order(command: Byte, device: Byte, current: Address, previous: Address)

  datatype Drive = Drive(feature: Latch, nsect: Latch, lbal: Latch, lbam: Latch, lbah: Latch,
                         device: Byte, control: Byte, resets: nat, orders: seq<Order>)
  {
    function Current(): Address {
      Address(feature.current, nsect.current, lbal.current, lbam.current, lbah.current)
    }

    function Previous(): Address {
      Address(feature.previous, nsect.previous, lbal.previous, lbam.previous, lbah.previous)
    }

    /** A halfword write; an offset that selects no pair, and the data byte of the first, have no effect. */
    function Write(off: nat, v: Half): Drive {
      var hi: Byte, lo: Byte := High(v), Low(v);
      if off == P_FEAT then this.(feature := feature.Push(hi))
      else if off == P_NSECT_LBAL then this.(lbal := lbal.Push(hi), nsect := nsect.Push(lo))
      else if off == P_LBAM_LBAH then this.(lbah := lbah.Push(hi), lbam := lbam.Push(lo))
      else if off == P_DEV_CMD then
        this.(device := lo, orders := orders + [Order(hi, lo, Current(), Previous())])
      else if off == P_DEVCTL then
        this.(control := lo, resets := resets + if Resets(lo) && !Resets(control) then 1 else 0)
      else this
    }

    /** The device reports results in its own address registers. */
    function Report(current: Address, previous: Address): Drive {
      this.(feature := Latch(current.feature, previous.feature),
            nsect := Latch(current.nsect, previous.nsect),
            lbal := Latch(current.lbal, previous.lbal),
            lbam := Latch(current.lbam, previous.lbam),
            lbah := Latch(current.lbah, previous.lbah))
    }
  }

  // ----- what the driver is asked to do ------------------------------------------------

  datatype TaskFile = TaskFile(isAddr: bool, lba48: bool, ctl: Byte, address: Address, hob: Address,
                               device: Byte, command: Byte)

  datatype Op =
    | Load(tf: TaskFile)
    | Exec(tf: TaskFile)
    | SetDevctl(ctl: Byte)
    | SoftReset(ctl: Byte)
    | Report(current: Address, previous: Address)

  /** The address blocks an operation sends, oldest first. */
  function Blocks(op: Op): seq<Address> {
    match op
    case Load(tf) => if !tf.isAddr then [] else if tf.lba48 then [tf.hob, tf.address] else [tf.address]
    case Report(current, previous) => [previous, current]
    case _ => []
  }

  function AllBlocks(ops: seq<Op>): seq<Address> {
    if ops == [] then [] else AllBlocks(ops[..|ops| - 1]) + Blocks(ops[|ops| - 1])
  }

  /** The two youngest of a stream of blocks: what two-deep registers can remember. */
  function Youngest(stream: seq<Address>): (r: (Address, Address))
    requires |stream| >= 2
  {
    (stream[|stream| - 1], stream[|stream| - 2])
  }

  predicate Holds(d: Drive, stream: seq<Address>) {
    |stream| >= 2 && (d.Current(), d.Previous()) == Youngest(stream)
  }

  /** Feature, then LBA low over sector count, then LBA high over LBA mid: none of them touches the command register. */
  function AddressWrites(a: Address): (w: seq<(nat, Half)>)
    ensures |w| == 3 && w[0] == (0x02, 0x100 * (a.feature as int))
    ensures w[1] == (0x06, 0x100 * (a.lbal as int) + a.nsect) && w[2] == (0x0A, 0x100 * (a.lbah as int) + a.lbam)
  {
    [(P_FEAT, Pair(a.feature, 0)), (P_NSECT_LBAL, Pair(a.lbal, a.nsect)), (P_LBAM_LBAH, Pair(a.lbah, a.lbam))]
  }

  // ----- the driver -----------------------------------------------------------------------

  class Port {
    var drive: Drive
    var lastCtl: Byte
    ghost var bus: seq<(nat, Half)>   // every halfword written, with its offset

    constructor (d: Drive, ctl: Byte)
      ensures drive == d && lastCtl == ctl && bus == []
    {
      drive, lastCtl, bus := d, ctl, [];
    }

    method W16(off: nat, v: Half)
      modifies this`drive, this`bus
      ensures drive == old(drive).Write(off, v)
      ensures bus == old(bus) + [(off, v)]
    {
      drive := drive.Write(off, v);
      bus := bus + [(off, v)];
    }

    /** Three pair writes move one whole address block in, and nothing else changes. */
    method WriteAddress(a: Address)
      modifies this`drive, this`bus
      ensures drive.Current() == a && drive.Previous() == old(drive.Current())
      ensures bus == old(bus) + AddressWrites(a)
      ensures drive.orders == old(drive.orders) && drive.device == old(drive.device) && drive.control == old(drive.control)
      ensures drive.resets == old(drive.resets)
    {
      W16(P_FEAT, Pair(a.feature, 0));
      W16(P_NSECT_LBAL, Pair(a.lbal, a.nsect));
      W16(P_LBAM_LBAH, Pair(a.lbah, a.lbam));
    }

    /** c2811_tf_load: no command is started and the device byte is left alone. */
    method TfLoad(tf: TaskFile)
      modifies this
      ensures drive.orders == old(drive.orders) && drive.device == old(drive.device)
      ensures bus == old(bus) + (if tf.ctl != old(lastCtl) then [(0x1E, tf.ctl)] else [])
                     + (if tf.isAddr && tf.lba48 then AddressWrites(tf.hob) else [])
                     + (if tf.isAddr then AddressWrites(tf.address) else [])
      ensures lastCtl == tf.ctl
      ensures drive.control == ControlAfter(old(drive.control), old(lastCtl), tf.ctl)
      ensures !Resets(tf.ctl) ==> drive.resets == old(drive.resets)
      ensures !tf.isAddr ==> drive.Current() == old(drive.Current()) && drive.Previous() == old(drive.Previous())
      ensures tf.isAddr ==> drive.Current() == tf.address
      ensures tf.isAddr ==> drive.Previous() == if tf.lba48 then tf.hob else old(drive.Current())
      ensures forall stream :: Holds(old(drive), stream) ==> Holds(drive, stream + Blocks(Load(tf)))
    {
      if tf.ctl != lastCtl {
        W16(P_DEVCTL, tf.ctl);
        lastCtl := tf.ctl;
      }
      if tf.isAddr && tf.lba48 {
        WriteAddress(tf.hob);
      }
      if tf.isAddr {
        WriteAddress(tf.address);
      }
    }

    /** c2811_exec_command: device byte and opcode arrive together. */
    method ExecCommand(tf: TaskFile)
      modifies this`drive, this`bus
      ensures bus == old(bus) + [(0x0E, 0x100 * (tf.command as int) + tf.device)]
      ensures drive == old(drive).(device := tf.device,
                                   orders := old(drive.orders) + [Order(tf.command, tf.device, old(drive.Current()), old(drive.Previous()))])
    {
      W16(P_DEV_CMD, Pair(tf.command, tf.device));
    }

    method SetDevctl(ctl: Byte)
      modifies this`drive, this`bus
      ensures bus == old(bus) + [(0x1E, ctl)]
      ensures drive == old(drive).(control := ctl, resets := drive.resets)
      ensures drive.resets == old(drive.resets) + if Resets(ctl) && !Resets(old(drive.control)) then 1 else 0
    {
      W16(P_DEVCTL, ctl);
    }

    /** The register writes of c2811_softreset; `ctl` is ap->ctl. */
    method SoftReset(ctl: Byte)
      modifies this
      ensures bus == old(bus) + [(0x1E, WithReset(ctl)), (0x1E, ctl)]
      ensures drive == old(drive).(control := ctl, resets := drive.resets) && lastCtl == ctl
      ensures !Resets(old(drive.control)) ==> drive.resets == old(drive.resets) + 1
    {
      hide WithReset;
      hide Resets;
      hide Low;
      hide High;
      PulseIs(ctl);
      W16(P_DEVCTL, WithReset(ctl));
      W16(P_DEVCTL, ctl);
      lastCtl := ctl;
    }

    /** Any history of operations: commands are started by Exec alone, each with the two youngest address blocks. */
    method RunAll(ops: seq<Op>, ghost before: seq<Address>)
      requires |before| >= 2 && Holds(drive, before)
      modifies this
      ensures Holds(drive, before + AllBlocks(ops))
      ensures drive.orders == old(drive.orders) + Orders(before, ops)
      ensures Ctl(drive.control, lastCtl) == CtlRun(old(Ctl(drive.control, lastCtl)), ops)
      decreases |ops|
    {
      hide Holds;
      hide Blocks;
      hide Started;
      if ops == [] {
        assert before + AllBlocks(ops) == before;
      } else {
        var rest, last := ops[..|ops| - 1], ops[|ops| - 1];
        RunAll(rest, before);
        RunOne(last, before + AllBlocks(rest));
        assert before + AllBlocks(rest) + Blocks(last) == before + AllBlocks(ops);
      }
    }

    method RunOne(op: Op, ghost was: seq<Address>)
      requires |was| >= 2 && Holds(drive, was)
      modifies this
      ensures Holds(drive, was + Blocks(op))
      ensures drive.orders == old(drive.orders) + Started(was, op)
      ensures Ctl(drive.control, lastCtl) == CtlStep(old(Ctl(drive.control, lastCtl)), op)
    {
      match op {
        case Load(tf) => TfLoad(tf);
        case Exec(tf) => ExecCommand(tf); assert was + Blocks(op) == was;
        case SetDevctl(ctl) => SetDevctl(ctl); assert was + Blocks(op) == was;
        case SoftReset(ctl) => SoftReset(ctl); assert was + Blocks(op) == was;
        case Report(current, previous) => drive := drive.Report(current, previous);
      }
    }
  }

  // ----- what every command finds ----------------------------------------------------------

  /** The order an operation starts when the device holds the end of `stream`. */
  function Started(stream: seq<Address>, op: Op): seq<Order>
    requires |stream| >= 2
  {
    if op.Exec? then [Order(op.tf.command, op.tf.device, Youngest(stream).0, Youngest(stream).1)] else []
  }

  /** The orders a history starts, stated from the history alone. */
  function Orders(before: seq<Address>, ops: seq<Op>): seq<Order>
    requires |before| >= 2
  {
    if ops == [] then []
    else
      var rest := ops[..|ops| - 1];
      Orders(before, rest) + Started(before + AllBlocks(rest), ops[|ops| - 1])
  }

  /** Operations that may stand between a load and its command. */
  predicate Silent(ops: seq<Op>) {
    forall i :: 0 <= i < |ops| ==> Blocks(ops[i]) == [] && !ops[i].Exec?
  }

  lemma {:induction false} SilentAdds(ops: seq<Op>, quiet: seq<Op>)
    requires Silent(quiet)
    ensures AllBlocks(ops + quiet) == AllBlocks(ops)
  {
    if quiet == [] {
      assert ops + quiet == ops;
    } else {
      var all, last := ops + quiet, quiet[|quiet| - 1];
      assert all[..|all| - 1] == ops + quiet[..|quiet| - 1] && all[|all| - 1] == last;
      SilentAdds(ops, quiet[..|quiet| - 1]);
      assert AllBlocks(all) == AllBlocks(ops) + Blocks(last);
    }
  }

  /**
   After any history, a command finds the task file loaded for it: all of it for a
   48-bit one, the current registers for a 28-bit one.
   */
  lemma CommandFindsItsTaskFile(before: seq<Address>, history: seq<Op>, tf: TaskFile, quiet: seq<Op>, exec: TaskFile)
    requires |before| >= 2 && tf.isAddr && Silent(quiet)
    ensures var ops := history + [Load(tf)] + quiet + [Exec(exec)];
            |Orders(before, ops)| >= 1 &&
            var order := Orders(before, ops)[|Orders(before, ops)| - 1];
            order.command == exec.command && order.device == exec.device &&
            order.current == tf.address &&
            (tf.lba48 ==> order.previous == tf.hob)
  {
    var loaded := history + [Load(tf)];
    var ops := loaded + quiet + [Exec(exec)];
    assert ops[..|ops| - 1] == loaded + quiet;
    SilentAdds(loaded, quiet);
    assert loaded[..|loaded| - 1] == history;
    assert AllBlocks(loaded) == AllBlocks(history) + Blocks(Load(tf));
    var stream := before + AllBlocks(loaded);
    assert stream[|stream| - 1] == tf.address;
    assert tf.lba48 ==> stream[|stream| - 2] == tf.hob;
    assert Orders(before, ops) == Orders(before, loaded + quiet) + Started(stream, Exec(exec));
  }

  function Execs(ops: seq<Op>): nat {
    if ops == [] then 0 else Execs(ops[..|ops| - 1]) + if ops[|ops| - 1].Exec? then 1 else 0
  }

  /** One command for each Exec; no load, reset or control write ever starts one. */
  lemma {:induction false} OnlyExecStarts(before: seq<Address>, ops: seq<Op>)
    requires |before| >= 2
    ensures |Orders(before, ops)| == Execs(ops)
  {
    if ops != [] {
      OnlyExecStarts(before, ops[..|ops| - 1]);
    }
  }

  // ----- device control ------------------------------------------------------------------------

  /** What a load leaves in the device control register, given the cached value. */
  function ControlAfter(control: Byte, lastCtl: Byte, ctl: Byte): Byte {
    if ctl != lastCtl then ctl else control
  }

  /** The skipped write is harmless exactly when the cache is right. */
  lemma ControlWriteSkipped(control: Byte, lastCtl: Byte)
    ensures (forall ctl: Byte :: ControlAfter(control, lastCtl, ctl) == ctl) <==> control == lastCtl
  {
    if control != lastCtl {
      assert ControlAfter(control, lastCtl, lastCtl) != lastCtl;
    }
  }

  /** The device control register and its cached value. */
  datatype Ctl = Ctl(control: Byte, last: Byte)

  function CtlStep(c: Ctl, op: Op): Ctl {
    match op
    case Load(tf) => Ctl(ControlAfter(c.control, c.last, tf.ctl), tf.ctl)
    case SetDevctl(ctl) => c.(control := ctl)
    case SoftReset(ctl) => Ctl(ctl, ctl)
    case _ => c
  }

  function CtlRun(c: Ctl, ops: seq<Op>): Ctl {
    if ops == [] then c else CtlStep(CtlRun(c, ops[..|ops| - 1]), ops[|ops| - 1])
  }

  /** A bare control write that differs from the cached value. */
  ghost predicate Spoils(c: Ctl, ops: seq<Op>, i: int) {
    0 <= i < |ops| && ops[i].SetDevctl? && ops[i].ctl != CtlRun(c, ops[..i]).last
  }

  /** An operation that makes the cache right again: a reset, or anything that writes the value it caches. */
  predicate Mends(c: Ctl, op: Op) {
    match op
    case Load(tf) => tf.ctl != c.last
    case SetDevctl(ctl) => ctl == c.last
    case SoftReset(_) => true
    case _ => false
  }

  /** Operation `i` made the cache wrong, and nothing after it mended that. */
  ghost predicate SpoiltSince(c: Ctl, ops: seq<Op>, i: int) {
    Spoils(c, ops, i) && forall j :: i < j < |ops| ==> !Mends(CtlRun(c, ops[..j]), ops[j])
  }

  lemma SpoiltLonger(c: Ctl, ops: seq<Op>, i: nat)
    requires i < |ops| - 1
    ensures var rest := ops[..|ops| - 1];
            SpoiltSince(c, ops, i) <==> SpoiltSince(c, rest, i) && !Mends(CtlRun(c, rest), ops[|ops| - 1])
  {
    hide CtlRun;
    hide Mends;
    var rest := ops[..|ops| - 1];
    forall j | 0 <= j <= |rest|
      ensures rest[..j] == ops[..j]
    {
    }
  }

  lemma SpoiltNow(c: Ctl, ops: seq<Op>)
    requires ops != []
    ensures var n := |ops| - 1;
            SpoiltSince(c, ops, n) <==> ops[n].SetDevctl? && ops[n].ctl != CtlRun(c, ops[..n]).last
  {
    hide CtlRun;
  }

  /** One operation leaves a wrong cache wrong unless it mends, and makes a right one wrong only by spoiling it. */
  lemma WrongNext(c: Ctl, op: Op)
    ensures var d := CtlStep(c, op);
            d.control != d.last <==>
            (op.SetDevctl? && op.ctl != c.last) || (c.control != c.last && !Mends(c, op))
  {
  }

  /**
   Over any history from a right cache: the cache is wrong at the end exactly if
   some bare SetDevctl wrote another value and nothing since has mended it.
   */
  lemma {:induction false} CacheWrongExactly(c: Ctl, ops: seq<Op>)
    requires c.control == c.last
    ensures CtlRun(c, ops).control != CtlRun(c, ops).last <==> exists i: nat :: i < |ops| && SpoiltSince(c, ops, i)
  {
    hide SpoiltSince;
    hide Mends;
    hide CtlStep;
    if ops != [] {
      var n := |ops| - 1;
      var rest := ops[..n];
      CacheWrongExactly(c, rest);
      WrongNext(CtlRun(c, rest), ops[n]);
      SpoiltNow(c, ops);
      forall i: nat | i < n
        ensures SpoiltSince(c, ops, i) <==> SpoiltSince(c, rest, i) && !Mends(CtlRun(c, rest), ops[n])
      {
        SpoiltLonger(c, ops, i);
      }
    }
  }

  /** The shortest such history: after it, a load of the cached value leaves the other one in the register. */
  lemma StaleControlTrace(c: Ctl, other: Byte, tf: TaskFile)
    requires c.control == c.last && other != c.last && tf.ctl == c.last
    ensures CtlRun(c, [SetDevctl(other), Load(tf)]).control == other != tf.ctl
  {
    var ops := [SetDevctl(other), Load(tf)];
    assert ops[..1] == [SetDevctl(other)] && [SetDevctl(other)][..0] == [];
    assert CtlRun(c, [SetDevctl(other)]) == Ctl(other, c.last);
  }

  // ----- the data port -----------------------------------------------------------------------

  function Least(a: nat, b: nat): nat { if a <= b then a else b }

  /** What is still waiting after `n` reads. */
  function Rest(w: seq<Half>, n: nat): seq<Half> { w[Least(n, |w|)..] }

  lemma NothingTaken(w: seq<Half>)
    ensures Rest(w, 0) == w
  {
  }

  lemma RestNext(w: seq<Half>, i: nat)
    ensures Rest(Rest(w, i), 1) == Rest(w, i + 1)
    ensures i < |w| ==> Rest(w, i) != [] && Rest(w, i)[0] == w[i]
    ensures i < |w| ==> Medium(w)[2 * i] == Low(w[i]) && Medium(w)[2 * i + 1] == High(w[i])
  {
    if i < |w| {
      MediumAt(w, i);
    }
  }

  /** Byte `k` of a buffer, zero past its end. */
  function ByteOrPad(b: seq<Byte>, k: nat): Byte { if k < |b| then b[k] else 0 }

  /** The words a buffer goes out as; an odd last byte is padded with zero. */
  function Words(b: seq<Byte>): (w: seq<Half>)
    ensures |w| == (|b| + 1) / 2
  {
    seq((|b| + 1) / 2, i requires 0 <= i => Pair(ByteOrPad(b, 2 * i + 1), ByteOrPad(b, 2 * i)))
  }

  /** A medium that stores each word low byte first. */
  function Medium(w: seq<Half>): (b: seq<Byte>)
    ensures |b| == 2 * |w|
  {
    if w == [] then [] else [Low(w[0]), High(w[0])] + Medium(w[1..])
  }

  lemma {:induction false} MediumAt(w: seq<Half>, i: nat)
    requires i < |w|
    ensures Medium(w)[2 * i] == Low(w[i]) && Medium(w)[2 * i + 1] == High(w[i])
  {
    hide Low;
    hide High;
    if i > 0 {
      MediumAt(w[1..], i - 1);
    }
  }

  /** The even byte of a buffer is the low half of its word, the odd one the high half, out and in. */
  lemma HalvesInBytes(b: seq<Byte>, w: seq<Half>, i: nat)
    ensures 2 * i < |b| ==> Words(b)[i] % 0x100 == b[2 * i]
    ensures 2 * i < |b| ==> Words(b)[i] / 0x100 == if 2 * i + 1 < |b| then b[2 * i + 1] else 0
    ensures i < |w| ==> Medium(w)[2 * i] == w[i] % 0x100 && Medium(w)[2 * i + 1] == w[i] / 0x100
  {
    if i < |w| {
      MediumAt(w, i);
    }
    if 2 * i < |b| {
      PairSplits(ByteOrPad(b, 2 * i + 1), b[2 * i]);
    }
  }

  /** The bytes reach the medium in buffer order, whatever words follow. */
  lemma BufferOrder(b: seq<Byte>, rest: seq<Half>)
    ensures Medium(Words(b) + rest)[..|b|] == b
    ensures |b| % 2 == 1 ==> Medium(Words(b) + rest)[|b|] == 0
  {
    hide Medium;
    hide Low;
    hide High;
    hide Pair;
    var w := Words(b) + rest;
    forall k | 0 <= k < 2 * ((|b| + 1) / 2)
      ensures Medium(w)[k] == ByteOrPad(b, k)
    {
      MediumAt(w, k / 2);
      PairSplits(ByteOrPad(b, k / 2 * 2 + 1), ByteOrPad(b, k / 2 * 2));
    }
  }

  lemma PairSplits(hi: Byte, lo: Byte)
    ensures Low(Pair(hi, lo)) == lo && High(Pair(hi, lo)) == hi
  {
  }

  /** The words written are the only ones that lay the padded buffer on the medium. */
  lemma WordsUnique(b: seq<Byte>, w: seq<Half>)
    requires |w| == (|b| + 1) / 2
    requires forall k :: 0 <= k < 2 * |w| ==> Medium(w)[k] == ByteOrPad(b, k)
    ensures w == Words(b)
  {
    hide Medium;
    forall i | 0 <= i < |w|
      ensures w[i] == Words(b)[i]
    {
      MediumAt(w, i);
      assert w[i] == Pair(High(w[i]), Low(w[i]));
    }
  }

  class DataPort {
    var written: seq<Half>
    var waiting: seq<Half>

    constructor (toRead: seq<Half>)
      ensures written == [] && waiting == toRead
    {
      written, waiting := [], toRead;
    }

    method WriteW(w: Half)
      modifies this`written
      ensures written == old(written) + [w]
    {
      written := written + [w];
    }

    /** A device with nothing waiting leaves whatever is on the bus. */
    method ReadW() returns (w: Half)
      modifies this`waiting
      ensures old(waiting) != [] ==> w == old(waiting)[0]
      ensures waiting == Rest(old(waiting), 1)
    {
      if waiting == [] {
        w := *;
      } else {
        w := waiting[0];
        waiting := waiting[1..];
      }
    }

    /** c2811_data_xfer, writing. */
    method XferOut(buf: array<Byte>, buflen: nat) returns (n: nat)
      requires buflen <= buf.Length
      modifies this`written
      ensures n == buflen
      ensures written == old(written) + Words(buf[..buflen])
    {
      hide Pair;
      var words := buflen / 2;
      ghost var was, out := written, Words(buf[..buflen]);
      for i := 0 to words
        invariant written == was + out[..i]
      {
        WriteW(Pair(buf[i * 2 + 1], buf[i * 2]));
        assert out[..i + 1] == out[..i] + [out[i]];
      }
      if buflen % 2 == 1 {
        WriteW(Pair(0, buf[buflen - 1]));
        assert out == out[..words] + [out[words]];
      } else {
        assert out == out[..words];
      }
      n := buflen;
    }

    /**
     c2811_data_xfer, reading: fills the buffer in place and takes ceil(buflen / 2)
     words; bytes beyond what the device has waiting are not defined.
     */
    method XferIn(buf: array<Byte>, buflen: nat) returns (n: nat)
      requires buflen <= buf.Length
      modifies this`waiting, buf
      ensures n == buflen
      ensures var m := Least(buflen, 2 * |old(waiting)|); buf[..m] == Medium(old(waiting))[..m]
      ensures buf[buflen..] == old(buf[buflen..])
      ensures waiting == Rest(old(waiting), (buflen + 1) / 2)
    {
      hide Medium;
      hide Low;
      hide High;
      hide Rest;
      var words := buflen / 2;
      ghost var all := waiting;
      NothingTaken(all);
      for i := 0 to words
        invariant waiting == Rest(all, i)
        invariant forall k :: 0 <= k < 2 * i && k < 2 * |all| ==> buf[k] == Medium(all)[k]
        invariant forall k :: 2 * i <= k < buf.Length ==> buf[k] == old(buf[k])
      {
        var w := ReadW();
        RestNext(all, i);
        buf[i * 2] := Low(w);
        buf[i * 2 + 1] := High(w);
      }
      if buflen % 2 == 1 {
        var w := ReadW();
        RestNext(all, words);
        buf[buflen - 1] := Low(w);
      }
      n := buflen;
    }

    /** Out and back through the port: the same bytes for every length, and nothing beyond them. */
    method OutAndBack(src: array<Byte>, dst: array<Byte>, buflen: nat)
      requires buflen <= src.Length && buflen <= dst.Length && src != dst
      requires written == []
      modifies this, dst
      ensures dst[..buflen] == src[..buflen] && dst[buflen..] == old(dst[buflen..])
      ensures |written| == (buflen + 1) / 2 && waiting == []
    {
      hide Words;
      hide Medium;
      var _ := XferOut(src, buflen);
      waiting := written;
      BufferOrder(src[..buflen], []);
      assert Words(src[..buflen]) + [] == written;
      var _ := XferIn(dst, buflen);
    }
  }
}
