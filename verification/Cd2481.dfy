/**
 One CD2481 as its driver sees it: request registers, the interrupt-context
 stack, the channel select, and per channel a register image and a receive FIFO.

 Data registers exist only inside an interrupt context.  An access the datasheet
 forbids (a data register outside its context, reading an empty FIFO, an EOIR of
 the wrong type) sets `fault`, so "the driver never does that" is one invariant.
 */
module Cd2481 {
  import opened Bytes

  const CHANNELS := 4
  const FIFO_MAX := 31    // RFOC is a five-bit count
  const MAX_BALK := 100   // EOIR writes a chip may ignore before it takes one
  const NO_TRANS: Byte := 0x08

  datatype Kind = Rx | Tx

  /** What RIR (or TIR) reports: `Ren`/`Ract`, the vector and the channel; `risr` is the latched cause. */
  datatype Request =
    | Idle
    | Waiting(chan: nat, vct: nat, risr: Byte, act: bool)
    | Active(chan: nat, vct: nat, risr: Byte)

  datatype Context = Context(kind: Kind, chan: nat)

  /** Per-channel registers. */
  datatype Reg =
    | LIVR | TCOR | TBPR | RCOR | RBPR | CMR
    | COR1 | COR2 | COR3 | COR4 | COR5 | COR6 | COR7
    | STCR | CCR | MSVR_RTS | MSVR_DTR | IER

  /** `arrived`, `popped` and `sent` record what came off the line, out of RDR, and into TDR. */
  datatype Channel = Channel(
    regs: map<Reg, Byte>, tftc: Byte,
    fifo: seq<Byte>, arrived: seq<Byte>, popped: seq<Byte>, sent: seq<Byte>)

  /** One finished interrupt context. */
  datatype Ended = Ended(request: Request, kind: Kind, chan: nat, room: Byte, moved: nat, noTrans: bool)

  /** `balk` EOIR writes will still be ignored.  Of the open context, `room` is what RFOC or
   TFTC last answered and `moved` how many bytes went through its data register. */
  datatype Chip = Chip(
    car: nat,
    rx: Request, tx: Request, stack: seq<Context>, balk: nat, room: Byte, moved: nat,
    chans: seq<Channel>, fault: bool, eoirs: nat, ended: seq<Ended>)

  ghost predicate RequestOk(r: Request) {
    !r.Idle? ==> r.chan < CHANNELS && r.vct < 4
  }

  ghost predicate ChannelOk(ch: Channel) {
    && |ch.fifo| <= FIFO_MAX
    && ch.arrived == ch.popped + ch.fifo
    && IER in ch.regs
  }

  ghost predicate Valid(c: Chip) {
    && !c.fault
    && c.car < CHANNELS && c.balk <= MAX_BALK
    && |c.chans| == CHANNELS && (forall j :: 0 <= j < CHANNELS ==> ChannelOk(c.chans[j]))
    && RequestOk(c.rx) && RequestOk(c.tx)
    && (c.rx.Active? ==> c.stack == [Context(Rx, c.rx.chan)])
    && (c.tx.Active? ==> c.stack == [Context(Tx, c.tx.chan)])
    && (c.stack != [] ==> c.rx.Active? || c.tx.Active?)
  }

  // ----- register reads ----------------------------------------------------

  /** RIR and TIR: a waiting request reads 0x80 or 0xC0 in its top bits, an acknowledged one 0x40. */
  function RequestByte(r: Request): Byte
    requires RequestOk(r)
  {
    match r
    case Idle => 0
    case Waiting(chan, vct, _, act) => 0x80 + (if act then 0x40 else 0) + 4 * vct + chan
    case Active(chan, vct, _) => 0x40 + 4 * vct + chan
  }

  predicate Pending(v: Byte) { v >= 0x80 }              // v & 0x80
  predicate Granted(v: Byte) { v / 64 == 1 }            // (v & 0xC0) == 0x40
  function ChanOf(v: Byte): nat { v % 4 }               // v & 3
  predicate GoodData(v: Byte) { (v / 4) % 4 == 3 }      // (v & 0x0c) == 0x0c
  predicate TimedOut(risr: Byte) { risr >= 0x80 }       // risr & 0x80
  predicate LevelActive(stk: Byte) { stk >= 0x80 || stk % 2 == 1 }  // stk & 0x81

  /** The tests are those the driver's masks make: 0x80, 0xC0 against 0x40, 3, 0x0c, and 0x81. */
  lemma TestsInBits(b7: bool, b6: bool, b5: bool, b4: bool, b3: bool, b2: bool, b1: bool, b0: bool)
    ensures var v := OfBits(b7, b6, b5, b4, b3, b2, b1, b0);
            && (Pending(v) <==> b7)
            && (Granted(v) <==> !b7 && b6)
            && ChanOf(v) == 2 * Bit(b1) + Bit(b0)
            && (GoodData(v) <==> b3 && b2)
            && (TimedOut(v) <==> b7)
            && (LevelActive(v) <==> b7 || b0)
  {
    var v := OfBits(b7, b6, b5, b4, b3, b2, b1, b0);
    var high := 8 * Bit(b7) + 4 * Bit(b6) + 2 * Bit(b5) + Bit(b4);
    assert v / 4 == 4 * high + 2 * Bit(b3) + Bit(b2);
    assert v % 4 == 2 * Bit(b1) + Bit(b0);
    assert v / 64 == 2 * Bit(b7) + Bit(b6);
    assert v % 2 == Bit(b0);
  }

  /** STK: CLvl sits in bits 7 and 0 and is nonzero while a context is open. */
  function StkByte(c: Chip): Byte {
    if c.stack == [] then 0x00 else if c.stack[|c.stack| - 1].kind == Rx then 0x80 else 0x01
  }

  predicate In(c: Chip, kind: Kind) {
    c.stack != [] && c.stack[|c.stack| - 1].kind == kind && c.stack[|c.stack| - 1].chan < |c.chans|
  }

  function Top(c: Chip): Context
    requires c.stack != []
  {
    c.stack[|c.stack| - 1]
  }

  /** The channel a per-channel access reaches: the context's inside one, CAR's outside. */
  function Target(c: Chip): nat {
    if c.stack != [] then Top(c).chan else c.car
  }

  // ----- register accesses with an effect ----------------------------------

  /** The acknowledge grants one waiting service, receive before transmit. */
  function Acknowledge(c: Chip): Chip {
    if c.rx.Waiting? then
      c.(rx := Active(c.rx.chan, c.rx.vct, c.rx.risr), stack := c.stack + [Context(Rx, c.rx.chan)], moved := 0, room := 0)
    else if c.tx.Waiting? then
      c.(tx := Active(c.tx.chan, c.tx.vct, c.tx.risr), stack := c.stack + [Context(Tx, c.tx.chan)], moved := 0, room := 0)
    else c
  }

  function ReadRfoc(c: Chip): (Chip, Byte)
    requires Valid(c)
  {
    if In(c, Rx) then (c.(room := |c.chans[Top(c).chan].fifo|), |c.chans[Top(c).chan].fifo|) else (c.(fault := true), 0)
  }

  function ReadRisr(c: Chip): (Chip, Byte) {
    if In(c, Rx) && c.rx.Active? then (c, c.rx.risr) else (c.(fault := true), 0)
  }

  function ReadRdr(c: Chip): (Chip, Byte) {
    if In(c, Rx) && c.chans[Top(c).chan].fifo != [] then
      var j := Top(c).chan;
      var ch := c.chans[j];
      (c.(moved := c.moved + 1, chans := c.chans[j := ch.(fifo := ch.fifo[1..], popped := ch.popped + [ch.fifo[0]])]),
       ch.fifo[0])
    else (c.(fault := true), 0)
  }

  function ReadTftc(c: Chip): (Chip, Byte) {
    if In(c, Tx) then (c.(room := c.chans[Top(c).chan].tftc), c.chans[Top(c).chan].tftc)
    else (c.(fault := true), 0)
  }

  function WriteTdr(c: Chip, b: Byte): Chip {
    if In(c, Tx) then
      var j := Top(c).chan;
      c.(moved := c.moved + 1, chans := c.chans[j := c.chans[j].(sent := c.chans[j].sent + [b])])
    else c.(fault := true)
  }

  /** REOIR or TEOIR: ignored while the chip balks, else pops the context of its own type. */
  function WriteEoir(c: Chip, kind: Kind, v: Byte): Chip {
    var w := c.(eoirs := c.eoirs + 1);
    if !In(c, kind) then w.(fault := true)
    else if c.balk > 0 then w.(balk := c.balk - 1)
    else
      var r := if kind == Rx then c.rx else c.tx;
      var e := Ended(r, kind, Top(c).chan, c.room, c.moved, v == NO_TRANS);
      var popped := w.(stack := c.stack[..|c.stack| - 1], ended := c.ended + [e]);
      if kind == Rx then popped.(rx := Idle) else popped.(tx := Idle)
  }

  function WriteReg(c: Chip, reg: Reg, v: Byte): Chip {
    if Target(c) < |c.chans| then
      var j := Target(c);
      c.(chans := c.chans[j := c.chans[j].(regs := c.chans[j].regs[reg := v])])
    else c.(fault := true)
  }

  // ----- what the chip does on its own -------------------------------------

  datatype Event =
    | Arrive(chan: nat, b: Byte)
    | RaiseRx(chan: nat, vct: nat, risr: Byte, act: bool)
    | RaiseTx(chan: nat, vct: nat, act: bool)
    | WithdrawRx
    | WithdrawTx
    | Room(chan: nat, room: Byte)
    | Balk(n: nat)

  function Happen(c: Chip, e: Event): Chip
    requires Valid(c)
  {
    match e
    case Arrive(j, b) =>
      if j < CHANNELS && |c.chans[j].fifo| < FIFO_MAX then
        c.(chans := c.chans[j := c.chans[j].(fifo := c.chans[j].fifo + [b], arrived := c.chans[j].arrived + [b])])
      else c
    case RaiseRx(j, vct, risr, act) =>
      if c.rx.Idle? && j < CHANNELS && vct < 4 then c.(rx := Waiting(j, vct, risr, act)) else c
    case RaiseTx(j, vct, act) =>
      if c.tx.Idle? && j < CHANNELS && vct < 4 then c.(tx := Waiting(j, vct, 0, act)) else c
    case WithdrawRx => if c.rx.Waiting? then c.(rx := Idle) else c
    case WithdrawTx => if c.tx.Waiting? then c.(tx := Idle) else c
    case Room(j, room) =>
      if j < CHANNELS then c.(chans := c.chans[j := c.chans[j].(tftc := room)]) else c
    case Balk(n) =>
      if c.stack == [] && n <= MAX_BALK then c.(balk := n) else c
  }

  /** Nothing the driver relies on about a channel is changed by the chip: it only fills the FIFO. */
  ghost predicate ChannelKept(a: Channel, b: Channel) {
    && b.regs == a.regs && b.popped == a.popped && b.sent == a.sent
    && a.fifo <= b.fifo && a.arrived <= b.arrived
  }

  ghost predicate Kept(a: Chip, b: Chip) {
    && b.car == a.car && b.stack == a.stack
    && b.eoirs == a.eoirs && b.ended == a.ended && b.room == a.room && b.moved == a.moved
    && (a.stack != [] ==> b.balk == a.balk)
    && (a.rx.Active? ==> b.rx == a.rx)
    && (a.tx.Active? ==> b.tx == a.tx)
    && |a.chans| == |b.chans|
    && (forall j :: 0 <= j < |a.chans| ==> ChannelKept(a.chans[j], b.chans[j]))
  }

  lemma HappenKeeps(c: Chip, e: Event)
    requires Valid(c)
    ensures Valid(Happen(c, e)) && Kept(c, Happen(c, e))
  {
    if e.Arrive? && e.chan < CHANNELS {
      var ch := c.chans[e.chan];
      assert ch.popped + (ch.fifo + [e.b]) == ch.arrived + [e.b];
    }
  }

  ghost function HappenAll(c: Chip, events: seq<Event>): (r: Chip)
    requires Valid(c)
    ensures Valid(r) && Kept(c, r)
    decreases |events|
  {
    if events == [] then c
    else
      HappenKeeps(c, events[0]);
      HappenAll(Happen(c, events[0]), events[1..])
  }

  // ----- which service was granted -----------------------------------------

  /** The post-acknowledge reads name the granted service and its channel outright, whatever was pending before. */
  lemma GrantIsReadable(c: Chip)
    requires Valid(c) && c.stack == []
    ensures var g := Acknowledge(c);
            && Valid(g)
            && (Granted(RequestByte(g.rx)) <==> In(g, Rx))
            && (Granted(RequestByte(g.tx)) <==> In(g, Tx))
            && (In(g, Rx) ==> g.stack == [Context(Rx, ChanOf(RequestByte(g.rx)))])
            && (In(g, Tx) ==> g.stack == [Context(Tx, ChanOf(RequestByte(g.tx)))])
            && (In(g, Rx) || In(g, Tx) <==> c.rx.Waiting? || c.tx.Waiting?)
  {
  }

  /** The superseded driver: pick the branch from the read BEFORE the acknowledge, move data, end that type. */
  function ServeAsExpected(g: Chip, rxExpected: bool, b: Byte): Chip
    requires Valid(g)
  {
    if rxExpected then WriteEoir(ReadRfoc(g).0, Rx, 0) else WriteEoir(WriteTdr(g, b), Tx, 0)
  }

  /**
   Deciding before the acknowledge is wrong exactly when, between that read and
   the acknowledge, a receive request rises that was not there (or the expected
   one disappears).
   */
  lemma PreAcknowledgeDecisionRaces(c: Chip, between: seq<Event>, b: Byte)
    requires Valid(c) && c.stack == []
    requires var m := HappenAll(c, between); m.rx.Waiting? || m.tx.Waiting?
    ensures var m := HappenAll(c, between);
            var end := ServeAsExpected(Acknowledge(m), c.rx.Waiting?, b);
            end.fault <==> c.rx.Waiting? != m.rx.Waiting?
  {
    var m := HappenAll(c, between);
    GrantIsReadable(m);
    var g := Acknowledge(m);
    assert In(g, Rx) <==> m.rx.Waiting?;
    assert In(g, Tx) <==> !m.rx.Waiting?;
  }

  function QuietChannel(): Channel { Channel(map[IER := 0x29], 16, [], [], [], []) }

  /** The trace that deafened a port: transmit pending, a byte lands, receive is granted and never ended. */
  lemma DeafPortTrace() returns (c: Chip, between: seq<Event>)
    ensures Valid(c) && c.stack == [] && c.tx.Waiting? && !c.rx.Waiting?
    ensures between == [Arrive(0, 0x41), RaiseRx(0, 3, 0, true)]
    ensures var end := ServeAsExpected(Acknowledge(HappenAll(c, between)), false, 0x78);
            end.fault && end.stack == [Context(Rx, 0)]
  {
    var ch := QuietChannel();
    c := Chip(0, Idle, Waiting(0, 2, 0, true), [], 0, 0, 0, [ch, ch, ch, ch], false, 0, []);
    between := [Arrive(0, 0x41), RaiseRx(0, 3, 0, true)];
    HappenKeeps(c, between[0]);
    var c1 := Happen(c, between[0]);
    assert between[1..] == [between[1]] && between[1..][1..] == [];
    HappenKeeps(c1, between[1]);
    assert HappenAll(c, between) == HappenAll(c1, between[1..]) == HappenAll(Happen(c1, between[1]), []);
  }

  // ----- ending a context ----------------------------------------------------

  /** nm32a_eoi on a chip left to itself: re-issue the EOIR while STK shows a level, at most `tries` times. */
  function Retry(c: Chip, kind: Kind, v: Byte, tries: nat): Chip
    decreases tries
  {
    if tries == 0 || !LevelActive(StkByte(c)) then c else Retry(WriteEoir(c, kind, v), kind, v, tries - 1)
  }

  lemma {:induction false} RetryEnds(c: Chip, kind: Kind, j: nat, v: Byte, tries: nat)
    requires c.stack == [Context(kind, j)] && j < |c.chans|
    ensures var r := Retry(c, kind, v, tries);
            && r.fault == c.fault
            && (r.stack == [] <==> c.balk < tries)
            && (r.stack != [] ==> r.stack == c.stack)
            && r.eoirs == c.eoirs + (if c.balk < tries then c.balk + 1 else tries)
    decreases tries
  {
    if tries > 0 && c.balk > 0 {
      RetryEnds(WriteEoir(c, kind, v), kind, j, v, tries - 1);
    } else if tries > 0 {
      assert WriteEoir(c, kind, v).stack == [];
      assert Retry(c, kind, v, tries) == Retry(WriteEoir(c, kind, v), kind, v, tries - 1);
    }
  }

  /**
   The end-of-interrupt handshake pops its one context exactly if the chip ignores
   no more than 100 writes; it never writes the EOIR of a context that is gone, and
   never more than 101 times.
   */
  lemma EoiExact(c: Chip, kind: Kind, j: nat, v: Byte)
    requires c.stack == [Context(kind, j)] && j < |c.chans| && !c.fault
    ensures var r := Retry(WriteEoir(c, kind, v), kind, v, 100);
            && !r.fault
            && (r.stack == [] <==> c.balk <= 100)
            && r.eoirs == c.eoirs + (if c.balk <= 100 then c.balk + 1 else 101)
  {
    RetryEnds(c, kind, j, v, 101);
  }
}
