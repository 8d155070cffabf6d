/**
 Concrete runs of the NM-32A driver, from power-on, that show three things its
 comments rule out: a muted receiver that listens again, a channel that stops asking
 for transmit service with bytes still queued, and a break that goes out as data.

 Everything happens on channel 0 of chip 0, at time 0, and each step is the
 composition of register accesses that the driver's code makes there.
 */
module Nm32aTraces {
  import opened Bytes
  import opened Cd2481
  import opened Nm32a
  import T = TxStream
  import S = Storm

  /** Chip 0 and the port on its channel 0. */
  datatype Bench = Bench(chip: Chip, port: Port)

  function Blank(): Chip {
    var ch := QuietChannel();
    Chip(0, Idle, Idle, [], 0, 0, 0, [ch, ch, ch, ch], false, 0, [])
  }

  /** The whole card around the bench, as it powers on. */
  function Around(b: Bench): World {
    var c, p := Blank(), NewPort();
    World([b.chip, c, c, c, c, c, c, c], [b.port] + seq(PORTS - 1, _ => p), 0)
  }

  ghost predicate BenchOk(b: Bench) {
    && Valid(b.chip) && PortOk(b.port, b.chip.chans[0], 0)
    && (forall q :: 1 <= q < CHANNELS ==> b.chip.chans[q] == QuietChannel())
  }

  lemma AroundOk(b: Bench)
    requires BenchOk(b)
    ensures Inv(Around(b))
  {
    hide PortOk;
    NewPortOk();
    var w := Around(b);
    assert forall q :: 0 <= q < CHIPS ==> Valid(w.chips[q]) && |w.chips[q].chans| == CHANNELS;
    hide Valid;
    forall i | 0 <= i < PORTS
      ensures PortOk(w.ports[i], w.chips[i / 4].chans[i % 4], w.now)
    {
      PortAround(b, i);
    }
  }

  lemma PortAround(b: Bench, i: nat)
    requires BenchOk(b) && i < PORTS
    ensures var w := Around(b);
            |w.chips[i / 4].chans| == CHANNELS && PortOk(w.ports[i], w.chips[i / 4].chans[i % 4], 0)
  {
    NewPortOk();
    hide PortOk;
    var w := Around(b);
    if i >= CHANNELS {
      assert w.chips[i / 4] == Blank();
      assert Blank().chans[i % 4] == QuietChannel();
    }
  }

  lemma NewPortOk()
    ensures PortOk(NewPort(), QuietChannel(), 0) && Valid(Blank())
  {
  }

  // ----- a storm -----------------------------------------------------------------

  /** The port has just been opened. */
  function Opening(r: Rate): Bench {
    var ch := QuietChannel().(regs := Written(QuietChannel().regs, InitWrites(r)));
    Bench(Blank().(chans := Blank().chans[0 := ch]), Activated(NewPort(), ch, 0))
  }

  /** One service for a framing error with nothing in the FIFO: acknowledge, RFOC, REOIR, count, mute at the limit. */
  function ErrorService(b: Bench): Bench
    requires Valid(b.chip) && b.chip.stack == []
  {
    HappenKeeps(b.chip, RaiseRx(0, 0, 0x02, true));
    var waiting := Happen(b.chip, RaiseRx(0, 0, 0x02, true));
    GrantIsReadable(waiting);
    var g := Acknowledge(waiting);
    var (c, count) := ReadRfoc(g);
    var e := WriteEoir(c, Rx, 0x00);
    var p := Counted(b.port, g.rx, count, 0);
    Bench(if p.det.off && !b.port.det.off then WriteReg(e.(car := 0), IER, 0x01) else e, p)
  }

  /** The bench after `n` exceptions at time 0: muted from the 200th on. */
  ghost predicate Stormed(b: Bench, n: nat) {
    && BenchOk(b) && b.chip.car == 0 && b.chip.stack == [] && b.chip.balk == 0
    && b.chip.rx == Idle && b.chip.tx == Idle && b.chip.chans[0].fifo == []
    && b.chip.chans[0].regs[IER] == (if n < S.ERR_LIMIT then 0x29 else 0x01)
    && b.port.open && b.port.rxbuf == [] && b.port.line == T.FRESH
    && b.port.base == 0 && b.chip.chans[0].sent == []
    && b.port.det == S.Detector(0, n, n >= S.ERR_LIMIT)
  }

  function Storming(r: Rate, n: nat): (b: Bench)
    requires n <= S.ERR_LIMIT
    ensures Stormed(b, n)
  {
    if n == 0 then
      OpeningOk(r);
      Opening(r)
    else
      ErrorServiceOk(Storming(r, n - 1), n - 1);
      ErrorService(Storming(r, n - 1))
  }

  lemma OpeningOk(r: Rate)
    ensures Stormed(Opening(r), 0)
  {
    hide Written;
    InitImage(QuietChannel().regs, r);
  }

  /** The chip's part of an error service leaves it idle as before. */
  lemma ErrorServiceChip(c: Chip)
    requires Valid(c) && c.car == 0 && c.stack == [] && c.balk == 0 && c.rx == Idle && c.tx == Idle
    requires c.chans[0].fifo == []
    ensures var g := Acknowledge(Happen(c, RaiseRx(0, 0, 0x02, true)));
            && g.rx == Active(0, 0, 0x02) && Valid(g) && ReadRfoc(g).1 == 0
            && var d := WriteEoir(ReadRfoc(g).0, Rx, 0x00);
            && Valid(d) && d.chans == c.chans && d.car == 0 && d.stack == [] && d.balk == 0
            && d.rx == Idle && d.tx == Idle
  {
  }

  lemma ErrorServiceOk(b: Bench, n: nat)
    requires Stormed(b, n) && n < S.ERR_LIMIT
    ensures Stormed(ErrorService(b), n + 1)
  {
    hide PortOk;
    hide Acknowledge;
    hide Happen;
    hide ReadRfoc;
    hide WriteEoir;
    ErrorServiceChip(b.chip);
    CountedOk(b.port, b.chip.chans[0], 0, Active(0, 0, 0x02), 0);
    var p := Counted(b.port, Active(0, 0, 0x02), 0, 0);
    if p.det.off {
      WriteFits(p, b.chip.chans[0], IER, 0x01, 0);
      RegistersApart(p, b.chip.chans[0], b.chip.chans[0].regs[IER := 0x01], 0);
    }
  }

  // ----- up to a transmit grant -------------------------------------------------------------

  /** Writers have made the ring `line`; the channel is armed, transmit service is requested and acknowledged. */
  function UpToGrant(b: Bench, line: T.Line, room: Byte): Bench
    requires Valid(b.chip) && b.chip.stack == []
  {
    var p := b.port.(line := line);
    Bench(TxGrant(WriteReg(b.chip.(car := 0), IER, ArmValue(p)), room), p)
  }

  function TxGrant(c: Chip, room: Byte): Chip
    requires Valid(c) && c.stack == []
  {
    HappenKeeps(c, Room(0, room));
    var roomy := Happen(c, Room(0, room));
    Acknowledge(Happen(roomy, RaiseTx(0, 2, true)))
  }

  /** A transmit context on channel 0 that has moved nothing yet. */
  ghost predicate Granted(b: Bench) {
    && BenchOk(b) && b.chip.stack == [Context(Tx, 0)] && b.chip.tx.Active? && b.chip.tx.chan == 0
    && b.chip.balk == 0 && b.chip.moved == 0
  }

  lemma GrantedOk(b: Bench, n: nat, line: T.Line, room: Byte)
    requires Stormed(b, n) && T.Conserved(line) && line.sent == []
    ensures var g := UpToGrant(b, line, room);
            && Granted(g) && g.port == b.port.(line := line)
            && g.chip.chans[0] == b.chip.chans[0].(regs := b.chip.chans[0].regs[IER := ArmValue(b.port)], tftc := room)
  {
    var g := UpToGrant(b, line, room);
    var ch := b.chip.chans[0];
    PortStaysOk(b.port, ch, 0, g.port, ch, 0);
    WriteFits(g.port, ch, IER, ArmValue(b.port), 0);
    RegistersApart(g.port, ch, ch.regs[IER := ArmValue(b.port)], 0);
    hide T.Conserved;
    assert PortOk(g.port, g.chip.chans[0], 0);
  }

  /** From power-on through `n` exceptions to a grant of `room` slots for the ring `line`. */
  function RunTo(r: Rate, n: nat, line: T.Line, room: Byte): Bench
    requires n <= S.ERR_LIMIT
  {
    UpToGrant(Storming(r, n), line, room)
  }

  /** One transmit service took the card from `before` to `after`. */
  ghost predicate OneService(before: Bench, after: Bench) {
    && Inv(Around(before)) && Inv(Around(after))
    && Transmitted(Around(before), Around(after), 0, 0, before.port.line)
  }

  function Ier(b: Bench): Byte {
    if |b.chip.chans| > 0 && IER in b.chip.chans[0].regs then b.chip.chans[0].regs[IER] else 0
  }

  // ----- a service that moves nothing ---------------------------------------------------------

  /** TFTC, no TDR write, IER = 0x28, TEOIR with NoTrans. */
  function IdleEnd(b: Bench): Bench
    requires Valid(b.chip)
  {
    b.(chip := WriteEoir(WriteReg(ReadTftc(b.chip).0, IER, 0x28), Tx, NO_TRANS))
  }

  lemma IdleEndOk(b: Bench)
    requires Granted(b)
    ensures var e := IdleEnd(b);
            && BenchOk(e) && e.chip.stack == []
            && e.chip.chans[0] == b.chip.chans[0].(regs := b.chip.chans[0].regs[IER := 0x28])
            && e.chip.ended == b.chip.ended + [Ended(b.chip.tx, Tx, 0, b.chip.chans[0].tftc, 0, true)]
  {
    var ch := b.chip.chans[0];
    var e := IdleEnd(b);
    WriteFits(b.port, ch, IER, 0x28, 0);
    RegistersApart(b.port, ch, ch.regs[IER := 0x28], 0);
    hide PortOk;
    assert e.chip.chans[0] == ch.(regs := ch.regs[IER := 0x28]);
  }

  /** Such a service is one that Transmitted describes, and the card's invariant holds before and after it. */
  lemma IdleEndTransmits(b: Bench)
    requires Granted(b) && T.Burst(b.port.line.queue, b.chip.chans[0].tftc) == 0
    ensures OneService(b, IdleEnd(b))
    ensures BenchOk(IdleEnd(b)) && IdleEnd(b).chip.chans[0].regs == b.chip.chans[0].regs[IER := 0x28]
  {
    IdleEndOk(b);
    hide PortOk;
    hide WriteReg;
    hide WriteEoir;
    hide ReadTftc;
    AroundOk(b);
    AroundOk(IdleEnd(b));
    hide Inv;
    hide Valid;
    var line, sent := b.port.line, b.chip.chans[0].sent;
    assert line.queue[0..] == line.queue && line.queue[..0] == [] && line.sent + [] == line.sent;
    assert sent + [] == sent;
  }

  /** What such a service does to IER, after any number of exceptions. */
  lemma IdleServiceOf(r: Rate, n: nat, line: T.Line, room: Byte) returns (before: Bench, after: Bench)
    requires n <= S.ERR_LIMIT && T.Conserved(line) && line.sent == []
    requires T.Burst(line.queue, room) == 0
    ensures before == RunTo(r, n, line, room) && OneService(before, after)
    ensures before.port.open && before.port.line == line && (before.port.det.off <==> n == S.ERR_LIMIT)
    ensures Ier(before) == if n == S.ERR_LIMIT then 0x01 else 0x29
    ensures after.port == before.port && Ier(after) == 0x28
  {
    var b := Storming(r, n);
    before := RunTo(r, n, line, room);
    GrantedOk(b, n, line, room);
    IdleEndTransmits(before);
    after := IdleEnd(before);
  }

  /** A muted port with nothing to send: after one transmit service its channel asks for receive service again. */
  lemma MutedPortListensAgain(r: Rate) returns (before: Bench, after: Bench)
    ensures before == RunTo(r, S.ERR_LIMIT, T.FRESH, 16) && OneService(before, after)
    ensures before.port.det.off && !Listening(Ier(before))
    ensures after.port.det.off && Listening(Ier(after))
  {
    hide OneService;
    hide RunTo;
    FreshConserved();
    before, after := IdleServiceOf(r, S.ERR_LIMIT, T.FRESH, 16);
  }

  /** A port just opened, with a byte queued and no room in the FIFO: after one transmit service it no longer asks. */
  lemma QueuedPortStopsAsking(r: Rate) returns (before: Bench, after: Bench)
    ensures before == RunTo(r, 0, T.WriteStep(T.FRESH, [0x78]), 0) && OneService(before, after)
    ensures before.port.open && !before.port.det.off
    ensures Asking(Ier(before)) && before.port.line.queue == [0x78]
    ensures !Asking(Ier(after)) && after.port.line.queue == [0x78]
  {
    hide OneService;
    hide RunTo;
    OneByte();
    FreshConserved();
    T.WriteConserves(T.FRESH, [0x78]);
    before, after := IdleServiceOf(r, 0, T.WriteStep(T.FRESH, [0x78]), 0);
  }

  lemma FreshConserved()
    ensures T.Conserved(T.FRESH)
  {
  }

  lemma OneByte()
    ensures T.WriteStep(T.FRESH, [0x78]).queue == [0x78]
  {
    var buf: seq<Byte> := [0x78];
    assert buf[1..] == [];
    assert T.AcceptedCount(T.CAPACITY, buf) == 1 + T.AcceptedCount(T.CAPACITY - 1, []);
    assert buf[..1] == buf;
    assert T.Chars(buf) == [T.Char(0x78)];
    T.EncodeOne(T.Char(0x78));
  }

  // ----- a break ------------------------------------------------------------------------------

  /** TFTC, two TDR writes, TEOIR. */
  function SendTwo(b: Bench, first: Byte, second: Byte): Bench
    requires Valid(b.chip)
  {
    var c := WriteTdr(WriteTdr(ReadTftc(b.chip).0, first), second);
    Bench(WriteEoir(c, Tx, 0x00), b.port.(line := T.ServiceStep(b.port.line, 16)))
  }

  const BREAKING := T.BreakStep(T.FRESH, true)

  lemma BreakingOk()
    ensures BREAKING == T.Line([0x00, 0x81], [], [T.BreakOn]) && T.Conserved(BREAKING)
    ensures T.ServiceStep(BREAKING, 16) == T.Line([], [0x00, 0x81], [T.BreakOn])
    ensures T.Conserved(T.ServiceStep(BREAKING, 16))
  {
    FreshConserved();
    T.BreakConserves(T.FRESH, true);
    T.StepConserves(BREAKING, T.Service(16));
    var q := BREAKING.queue;
    assert [] + T.Token(T.BreakOn) == T.Token(T.BreakOn);
    assert q[..2] == q && q[2..] == [] && [] + q == q;
  }

  lemma SendTwoOk(b: Bench)
    requires Granted(b) && b.port.line == BREAKING && b.chip.chans[0].tftc == 16
    requires b.chip.chans[0].sent == [] && b.port.base == 0
    ensures var e := SendTwo(b, 0x00, 0x81);
            && BenchOk(e) && e.chip.stack == []
            && e.chip.chans[0] == b.chip.chans[0].(sent := [0x00, 0x81])
            && e.chip.ended == b.chip.ended + [Ended(b.chip.tx, Tx, 0, 16, 2, false)]
  {
    hide PortOk;
    hide T.ServiceStep;
    var ch := b.chip.chans[0];
    var e := SendTwo(b, 0x00, 0x81);
    assert e.chip.chans[0] == ch.(sent := [0x00, 0x81]);
    BreakSentOk(b.port, ch);
  }

  lemma BreakSentOk(p: Port, ch: Channel)
    requires PortOk(p, ch, 0) && p.line == BREAKING && ch.sent == [] && p.base == 0
    ensures PortOk(p.(line := T.ServiceStep(p.line, 16)), ch.(sent := [0x00, 0x81]), 0)
  {
    BreakingOk();
    hide T.Conserved;
    hide T.ServiceStep;
    hide StormOk;
    hide RxOk;
    hide RegsOk;
    var q := p.(line := T.ServiceStep(p.line, 16));
    assert TxOk(q, ch.(sent := [0x00, 0x81]));
    OtherHalves(p, q, ch, ch.(sent := [0x00, 0x81]));
  }

  lemma OtherHalves(p: Port, q: Port, ch: Channel, dh: Channel)
    requires StormOk(p, 0) && RxOk(p, ch) && RegsOk(p, ch.regs)
    requires q == p.(line := q.line) && dh == ch.(sent := dh.sent)
    ensures StormOk(q, 0) && RxOk(q, dh) && RegsOk(q, dh.regs)
  {
  }

  lemma SendTwoTransmits(b: Bench)
    requires Granted(b) && b.port.line == BREAKING && b.chip.chans[0].tftc == 16
    requires b.chip.chans[0].sent == [] && b.port.base == 0
    ensures OneService(b, SendTwo(b, 0x00, 0x81))
    ensures SendTwo(b, 0x00, 0x81).chip.chans[0] == b.chip.chans[0].(sent := [0x00, 0x81])
  {
    BreakingOk();
    SendTwoOk(b);
    hide PortOk;
    hide T.ServiceStep;
    hide WriteTdr;
    hide WriteEoir;
    hide ReadTftc;
    var e := SendTwo(b, 0x00, 0x81);
    AroundOk(b);
    AroundOk(e);
    hide Inv;
    hide Valid;
    assert BREAKING.queue[..2] == [0x00, 0x81] && b.chip.chans[0].sent + [0x00, 0x81] == [0x00, 0x81];
  }

  /** A break on a port just opened: it is accepted, both its bytes go out, and they are sent as two characters. */
  lemma BreakGoesOutAsData(r: Rate) returns (before: Bench, after: Bench)
    ensures before == RunTo(r, 0, BREAKING, 16) && OneService(before, after)
    ensures after.port.open && after.port.line.accepted == [T.BreakOn] && after.port.line.queue == []
    ensures |after.chip.chans| == CHANNELS && !EtcOn(after.chip.chans[0])
    ensures after.port.base == 0 && T.Literal(after.chip.chans[0].sent) == [T.Char(0x00), T.Char(0x81)]
  {
    var b := Storming(r, 0);
    BreakingOk();
    before := RunTo(r, 0, BREAKING, 16);
    GrantedOk(b, 0, BREAKING, 16);
    SendTwoTransmits(before);
    after := SendTwo(before, 0x00, 0x81);
    RunGuarantee(Around(after), 0);
  }
}
