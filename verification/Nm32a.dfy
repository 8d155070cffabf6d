/**
 The NM-32A driver over eight CD2481s and thirty-two ports.

 Chips, tty writers and the clock run between any two register accesses: every
 access first calls Tick, which applies an arbitrary list of outside events.
 `hw_lock` keeps other register users out of a service, and a port's own lock
 keeps its writers out of a transmit drain.
 */
module Nm32a {
  import opened Bytes
  import opened Cd2481
  import T = TxStream
  import S = Storm

  const CHIPS := 8
  const PORTS := 32
  const HZ := 250

  /**
   One receive service as the port saw it: why it ran, what RFOC answered, what it
   popped, whether the port was open at the hand-over, whether the tty got the bytes.
   */
  datatype RxEntry = RxEntry(request: Request, count: nat, bytes: seq<Byte>, open: bool, delivered: bool)

  /**
   `line` is the transmit ring with its history since activation, which began when
   the channel had sent `base` bytes and `mark` receive services were recorded;
   `times` are the exceptions counted since then; `opens` numbers the activations.
   `rxbuf` holds what the current service has read but not yet disposed of.
   */
  datatype Port = Port(
    open: bool, opens: nat, line: T.Line, base: nat,
    det: S.Detector, since: nat, times: seq<nat>, mark: nat,
    rxbuf: seq<Byte>, log: seq<RxEntry>, flip: seq<Byte>)

  datatype World = World(chips: seq<Chip>, ports: seq<Port>, now: nat)

  function AllBytes(log: seq<RxEntry>): seq<Byte> {
    if log == [] then [] else AllBytes(log[..|log| - 1]) + log[|log| - 1].bytes
  }

  function DeliveredBytes(log: seq<RxEntry>): seq<Byte> {
    if log == [] then []
    else DeliveredBytes(log[..|log| - 1]) + (if log[|log| - 1].delivered then log[|log| - 1].bytes else [])
  }

  /** A receive service that is neither good data nor a timeout. */
  predicate Erroneous(r: Request) {
    r.Active? && r.vct != 3 && !TimedOut(r.risr)
  }

  /** That is: RIR bits 3 and 2 are not both set (good data), and RISR bit 7 (timeout) is clear. */
  lemma ErroneousInBits(r: Request, b7: bool, b6: bool, b5: bool, b4: bool, b3: bool, b2: bool, b1: bool, b0: bool,
                        e7: bool, e6: bool, e5: bool, e4: bool, e3: bool, e2: bool, e1: bool, e0: bool)
    requires r.Active? && RequestOk(r)
    requires RequestByte(r) == OfBits(b7, b6, b5, b4, b3, b2, b1, b0)
    requires r.risr == OfBits(e7, e6, e5, e4, e3, e2, e1, e0)
    ensures Erroneous(r) <==> !(b3 && b2) && !e7
  {
    hide OfBits;
    TestsInBits(b7, b6, b5, b4, b3, b2, b1, b0);
    TestsInBits(e7, e6, e5, e4, e3, e2, e1, e0);
    RequestFields(r);
  }

  /** IER bit 3 asks for receive service and bit 0 for transmit; COR2 bit 5 turns embedded commands on. */
  lemma RegistersInBits(ch: Channel, b7: bool, b6: bool, b5: bool, b4: bool, b3: bool, b2: bool, b1: bool, b0: bool)
    ensures var v := OfBits(b7, b6, b5, b4, b3, b2, b1, b0);
            && (Listening(v) <==> b3) && (Asking(v) <==> b0)
            && (EtcOn(ch.(regs := ch.regs[COR2 := v])) <==> b5)
  {
    var v := OfBits(b7, b6, b5, b4, b3, b2, b1, b0);
    assert v / 8 == 16 * Bit(b7) + 8 * Bit(b6) + 4 * Bit(b5) + 2 * Bit(b4) + Bit(b3);
    assert v / 32 == 4 * Bit(b7) + 2 * Bit(b6) + Bit(b5);
    assert v % 2 == Bit(b0);
  }

  /**
   An error service drops exactly one character if the FIFO held any; every other
   service takes all of them and delivers them exactly if the port is open.
   */
  ghost predicate EntryOk(e: RxEntry) {
    if Erroneous(e.request) then |e.bytes| == (if e.count == 0 then 0 else 1) && !e.delivered
    else |e.bytes| == e.count && (e.delivered <==> e.bytes != [] && e.open)
  }

  /** The error services recorded from `mark` on. */
  function Errors(log: seq<RxEntry>, mark: nat): nat {
    if |log| <= mark then 0
    else Errors(log[..|log| - 1], mark) + if Erroneous(log[|log| - 1].request) then 1 else 0
  }

  /** The transmit half of a port agrees with its channel. */
  ghost predicate TxOk(p: Port, ch: Channel) {
    T.Conserved(p.line) && p.base <= |ch.sent| && ch.sent[p.base..] == p.line.sent
  }

  /** The detector is what the counted exceptions make it. */
  ghost predicate StormOk(p: Port, now: nat) {
    && p.det == S.After(p.since, p.times, HZ) && S.Chronological(p.since, p.times)
    && p.since <= now && (forall t :: 0 <= t < |p.times| ==> p.times[t] <= now)
  }

  /** The receive record accounts for every character popped. */
  ghost predicate RxOk(p: Port, ch: Channel) {
    && AllBytes(p.log) + p.rxbuf == ch.popped
    && p.flip == DeliveredBytes(p.log)
    && (forall t :: 0 <= t < |p.log| ==> EntryOk(p.log[t]))
  }

  /** IER bit 3: the channel asks for receive service. */
  predicate Listening(ier: Byte) { ier / 8 % 2 == 1 }

  /** An open port has embedded transmit commands off, and asks for receive service unless it is muted. */
  ghost predicate RegsOk(p: Port, regs: map<Reg, Byte>) {
    p.open ==>
      && COR2 in regs && regs[COR2] == 0x00
      && IER in regs && (!p.det.off ==> Listening(regs[IER]))
  }

  /** A register write that keeps it so. */
  predicate Fits(p: Port, reg: Reg, v: Byte) {
    p.open ==> (reg == COR2 ==> v == 0x00) && (reg == IER ==> p.det.off || Listening(v))
  }

  predicate AllFit(p: Port, writes: seq<(Reg, Byte)>) {
    forall n :: 0 <= n < |writes| ==> Fits(p, writes[n].0, writes[n].1)
  }

  ghost predicate PortOk(p: Port, ch: Channel, now: nat) {
    && TxOk(p, ch) && StormOk(p, now) && RxOk(p, ch) && RegsOk(p, ch.regs)
    && p.mark <= |p.log| && |p.times| == Errors(p.log, p.mark)
  }

  /** Holds in every reachable state, also in the middle of a service. */
  ghost predicate Inv(w: World) {
    && |w.chips| == CHIPS && |w.ports| == PORTS
    && (forall k :: 0 <= k < CHIPS ==> Valid(w.chips[k]))
    && (forall i :: 0 <= i < PORTS ==> PortOk(w.ports[i], w.chips[i / 4].chans[i % 4], w.now))
  }

  /** No interrupt context is open on any chip but `k`. */
  ghost predicate QuietExcept(w: World, k: int)
    requires |w.chips| == CHIPS
  {
    forall q :: 0 <= q < CHIPS && q != k ==> w.chips[q].stack == []
  }

  ghost predicate Quiet(w: World)
    requires |w.chips| == CHIPS
  {
    QuietExcept(w, -1)
  }

  // ----- interference -------------------------------------------------------

  datatype Outside =
    | OnChip(k: nat, event: Cd2481.Event)
    | OnWrite(i: nat, buf: seq<Byte>)
    | OnBreak(i: nat, on: bool)
    | OnClock(d: nat)

  /** One outside event; writers of the port whose lock is held cannot run. */
  function Perturb(w: World, e: Outside, locked: int): World
    requires Inv(w)
  {
    match e
    case OnChip(k, event) =>
      if k < CHIPS then w.(chips := w.chips[k := Happen(w.chips[k], event)]) else w
    case OnWrite(i, buf) =>
      if i < PORTS && i != locked then
        w.(ports := w.ports[i := w.ports[i].(line := T.WriteStep(w.ports[i].line, buf))])
      else w
    case OnBreak(i, on) =>
      if i < PORTS && i != locked then
        w.(ports := w.ports[i := w.ports[i].(line := T.BreakStep(w.ports[i].line, on))])
      else w
    case OnClock(d) => w.(now := w.now + d)
  }

  /** Outside a service of its own, all that happens to a port is that writers append to its ring. */
  ghost predicate PortKept(a: Port, b: Port) {
    && b == a.(line := b.line)
    && b.line.sent == a.line.sent && a.line.queue <= b.line.queue && a.line.accepted <= b.line.accepted
  }

  ghost predicate WorldKept(a: World, b: World, locked: int) {
    && |b.chips| == |a.chips| && |b.ports| == |a.ports| && a.now <= b.now
    && (forall k :: 0 <= k < |a.chips| ==> Kept(a.chips[k], b.chips[k]))
    && (forall i :: 0 <= i < |a.ports| ==> PortKept(a.ports[i], b.ports[i]))
    && (0 <= locked < |a.ports| ==> b.ports[locked] == a.ports[locked])
  }

  /** A port still agrees with its channel after outside events on either. */
  lemma PortStaysOk(p: Port, ch: Channel, now: nat, q: Port, dh: Channel, later: nat)
    requires PortOk(p, ch, now)
    requires PortKept(p, q) && T.Conserved(q.line) && ChannelKept(ch, dh) && now <= later
    ensures PortOk(q, dh, later)
  {
  }

  lemma ChipMoves(w: World, k: nat, event: Cd2481.Event)
    requires Inv(w) && k < CHIPS
    ensures var v := w.(chips := w.chips[k := Happen(w.chips[k], event)]);
            Inv(v) && WorldKept(w, v, -1)
  {
    HappenKeeps(w.chips[k], event);
    var v := w.(chips := w.chips[k := Happen(w.chips[k], event)]);
    hide PortOk;
    hide Happen;
    forall i | 0 <= i < PORTS
      ensures PortOk(v.ports[i], v.chips[i / 4].chans[i % 4], v.now)
    {
      var c, d := w.chips[i / 4].chans[i % 4], v.chips[i / 4].chans[i % 4];
      assert PortOk(w.ports[i], c, w.now) && ChannelKept(c, d);
      LineConserved(w, i);
      PortStaysOk(w.ports[i], c, w.now, v.ports[i], d, v.now);
    }
  }

  lemma LineConserved(w: World, i: nat)
    requires Inv(w) && i < PORTS
    ensures T.Conserved(w.ports[i].line)
  {
    assert PortOk(w.ports[i], w.chips[i / 4].chans[i % 4], w.now);
  }

  lemma OneRingGrew(w: World, v: World, i: nat, locked: int)
    requires i < |w.ports| == |v.ports| && v == w.(ports := w.ports[i := v.ports[i]])
    requires PortKept(w.ports[i], v.ports[i]) && locked != i
    ensures WorldKept(w, v, locked)
  {
  }

  lemma RingGrows(w: World, i: nat, line: T.Line)
    requires Inv(w) && i < PORTS && T.Conserved(line)
    requires PortKept(w.ports[i], w.ports[i].(line := line))
    ensures var v := w.(ports := w.ports[i := w.ports[i].(line := line)]);
            Inv(v) && forall locked :: locked != i ==> WorldKept(w, v, locked)
  {
    var v := w.(ports := w.ports[i := w.ports[i].(line := line)]);
    hide PortOk;
    hide WorldKept;
    var c := w.chips[i / 4].chans[i % 4];
    assert PortOk(w.ports[i], c, w.now);
    PortStaysOk(w.ports[i], c, w.now, v.ports[i], c, v.now);
    forall locked | locked != i
      ensures WorldKept(w, v, locked)
    {
      OneRingGrew(w, v, i, locked);
    }
  }

  lemma TimePasses(w: World, d: nat)
    requires Inv(w)
    ensures Inv(w.(now := w.now + d))
  {
    var v := w.(now := w.now + d);
    hide PortOk;
    forall i | 0 <= i < PORTS
      ensures PortOk(v.ports[i], v.chips[i / 4].chans[i % 4], v.now)
    {
      var c := w.chips[i / 4].chans[i % 4];
      assert PortOk(w.ports[i], c, w.now);
      LineConserved(w, i);
      PortStaysOk(w.ports[i], c, w.now, w.ports[i], c, v.now);
    }
  }

  lemma WriterMoves(w: World, i: nat, buf: seq<Byte>)
    requires Inv(w) && i < PORTS
    ensures var v := w.(ports := w.ports[i := w.ports[i].(line := T.WriteStep(w.ports[i].line, buf))]);
            Inv(v) && forall locked :: locked != i ==> WorldKept(w, v, locked)
  {
    var p := w.ports[i];
    assert PortOk(p, w.chips[i / 4].chans[i % 4], w.now);
    T.WriteConserves(p.line, buf);
    RingGrows(w, i, T.WriteStep(p.line, buf));
  }

  lemma BreakMoves(w: World, i: nat, on: bool)
    requires Inv(w) && i < PORTS
    ensures var v := w.(ports := w.ports[i := w.ports[i].(line := T.BreakStep(w.ports[i].line, on))]);
            Inv(v) && forall locked :: locked != i ==> WorldKept(w, v, locked)
  {
    var p := w.ports[i];
    assert PortOk(p, w.chips[i / 4].chans[i % 4], w.now);
    T.BreakConserves(p.line, on);
    RingGrows(w, i, T.BreakStep(p.line, on));
  }

  lemma PerturbKeeps(w: World, e: Outside, locked: int)
    requires Inv(w)
    ensures Inv(Perturb(w, e, locked)) && WorldKept(w, Perturb(w, e, locked), locked)
  {
    hide PortOk;
    match e
    case OnChip(k, event) => if k < CHIPS { ChipMoves(w, k, event); }
    case OnWrite(i, buf) => if i < PORTS && i != locked { WriterMoves(w, i, buf); }
    case OnBreak(i, on) => if i < PORTS && i != locked { BreakMoves(w, i, on); }
    case OnClock(d) => TimePasses(w, d);
  }

  lemma KeptRefl(a: World, locked: int)
    ensures WorldKept(a, a, locked)
  {
  }

  lemma KeptTrans(a: World, b: World, c: World, locked: int)
    requires WorldKept(a, b, locked) && WorldKept(b, c, locked)
    ensures WorldKept(a, c, locked)
  {
    forall k | 0 <= k < |a.chips|
      ensures Kept(a.chips[k], c.chips[k])
    {
      assert Kept(a.chips[k], b.chips[k]) && Kept(b.chips[k], c.chips[k]);
      forall j | 0 <= j < |a.chips[k].chans|
        ensures ChannelKept(a.chips[k].chans[j], c.chips[k].chans[j])
      {
        assert ChannelKept(a.chips[k].chans[j], b.chips[k].chans[j]);
        assert ChannelKept(b.chips[k].chans[j], c.chips[k].chans[j]);
      }
    }
    forall i | 0 <= i < |a.ports|
      ensures PortKept(a.ports[i], c.ports[i])
    {
      assert PortKept(a.ports[i], b.ports[i]) && PortKept(b.ports[i], c.ports[i]);
    }
  }

  // ----- one driver access ---------------------------------------------------

  /** An access that touches chip `k`, and at most channel `j` of it, keeps the invariant if that channel's port does. */
  lemma PutBack(w: World, k: nat, j: nat, c: Chip, p: Port)
    requires Inv(w) && k < CHIPS && j < CHANNELS && Valid(c)
    requires forall q :: 0 <= q < CHANNELS && q != j ==> c.chans[q] == w.chips[k].chans[q]
    requires PortOk(p, c.chans[j], w.now)
    ensures Inv(World(w.chips[k := c], w.ports[4 * k + j := p], w.now))
  {
    var v := World(w.chips[k := c], w.ports[4 * k + j := p], w.now);
    forall i | 0 <= i < PORTS
      ensures PortOk(v.ports[i], v.chips[i / 4].chans[i % 4], v.now)
    {
      if i / 4 == k && i % 4 == j {
        assert i == 4 * k + j;
      }
    }
  }

  lemma AppendEntry(log: seq<RxEntry>, e: RxEntry, mark: nat)
    requires mark <= |log|
    ensures Errors(log + [e], mark) == Errors(log, mark) + if Erroneous(e.request) then 1 else 0
    ensures AllBytes(log + [e]) == AllBytes(log) + e.bytes
    ensures DeliveredBytes(log + [e]) == DeliveredBytes(log) + (if e.delivered then e.bytes else [])
  {
    assert (log + [e])[..|log|] == log;
  }

  // ----- what one stretch of driver code leaves alone -------------------------

  function ChanAt(w: World, i: nat): Channel
    requires Inv(w) && i < PORTS
  {
    w.chips[i / 4].chans[i % 4]
  }

  /** Port `i` and its channel saw nothing but outside events. */
  ghost predicate Same(a: World, b: World, i: nat)
    requires Inv(a) && Inv(b) && i < PORTS
  {
    PortKept(a.ports[i], b.ports[i]) && ChannelKept(ChanAt(a, i), ChanAt(b, i))
  }

  /** The chip's interrupt state: contexts, their requests, and the record of finished services. */
  ghost predicate CtlKept(c: Chip, d: Chip) {
    && d.car == c.car && d.stack == c.stack && d.ended == c.ended && d.eoirs == c.eoirs
    && (c.stack != [] ==> d.balk == c.balk && d.room == c.room && d.moved == c.moved)
    && (c.rx.Active? ==> d.rx == c.rx) && (c.tx.Active? ==> d.tx == c.tx)
  }

  /** Between `a` and `b` the driver drove at most chip `k` and moved data of at most port `i`. */
  ghost predicate Frame(a: World, b: World, k: int, i: int)
    requires Inv(a) && Inv(b)
  {
    && a.now <= b.now
    && (forall q :: 0 <= q < CHIPS && q != k ==> CtlKept(a.chips[q], b.chips[q]))
    && (forall q :: 0 <= q < PORTS && q != i ==> Same(a, b, q))
  }

  lemma KeptIsFrame(a: World, b: World, locked: int)
    requires Inv(a) && Inv(b) && WorldKept(a, b, locked)
    ensures Frame(a, b, -1, -1)
  {
    hide PortOk;
    forall q | 0 <= q < PORTS
      ensures Same(a, b, q)
    {
      assert Kept(a.chips[q / 4], b.chips[q / 4]);
    }
  }

  lemma FrameTrans(a: World, b: World, c: World, k: int, i: int)
    requires Inv(a) && Inv(b) && Inv(c) && Frame(a, b, k, i) && Frame(b, c, k, i)
    ensures Frame(a, c, k, i)
  {
    hide Inv;
    forall q | 0 <= q < PORTS && q != i
      ensures Same(a, c, q)
    {
      assert Same(a, b, q) && Same(b, c, q);
    }
  }

  lemma FrameRefl(a: World, k: int, i: int)
    requires Inv(a)
    ensures Frame(a, a, k, i)
  {
    hide PortOk;
  }

  /** What interference alone leaves alone on chip `k`, channel `j`. */
  lemma FrameAt(a: World, b: World, k: nat, j: nat)
    requires Inv(a) && Inv(b) && Frame(a, b, -1, -1) && k < CHIPS && j < CHANNELS
    ensures CtlKept(a.chips[k], b.chips[k])
    ensures PortKept(a.ports[4 * k + j], b.ports[4 * k + j])
    ensures ChannelKept(a.chips[k].chans[j], b.chips[k].chans[j])
  {
    hide PortOk;
    assert Same(a, b, 4 * k + j);
  }

  lemma FrameCtl(a: World, b: World, k: nat, i: int)
    requires Inv(a) && Inv(b) && Frame(a, b, -1, i) && k < CHIPS
    ensures CtlKept(a.chips[k], b.chips[k])
  {
    hide PortOk;
  }

  /** Replacing channel `j` of chip `k` and its port is a frame for every other port. */
  lemma PutBackFrame(w: World, v: World, k: nat, j: nat)
    requires Inv(w) && Inv(v) && k < CHIPS && j < CHANNELS
    requires v.chips == w.chips[k := v.chips[k]] && v.now == w.now
    requires v.ports == w.ports[4 * k + j := v.ports[4 * k + j]]
    requires forall q :: 0 <= q < CHANNELS && q != j ==> v.chips[k].chans[q] == w.chips[k].chans[q]
    ensures Frame(w, v, k, 4 * k + j)
  {
    hide PortOk;
    forall q | 0 <= q < PORTS && q != 4 * k + j
      ensures Same(w, v, q)
    {
      if q / 4 == k {
        assert q % 4 != j;
      }
    }
  }

  /** A valid chip stays valid when the open receive context pops a character. */
  lemma PopValid(c: Chip)
    requires Valid(c) && c.rx.Active? && c.chans[c.rx.chan].fifo != []
    ensures Valid(ReadRdr(c).0)
  {
    var ch := c.chans[c.rx.chan];
    assert ch.popped + ch.fifo == (ch.popped + [ch.fifo[0]]) + ch.fifo[1..];
  }

  function Take(w: World, k: nat, j: nat): World
    requires Inv(w) && k < CHIPS && j < CHANNELS
  {
    var (c, v) := ReadRdr(w.chips[k]);
    var i := 4 * k + j;
    w.(chips := w.chips[k := c], ports := w.ports[i := w.ports[i].(rxbuf := w.ports[i].rxbuf + [v])])
  }

  lemma TakeKeeps(w: World, k: nat, j: nat)
    requires Inv(w) && k < CHIPS
    requires w.chips[k].rx.Active? && w.chips[k].rx.chan == j && w.chips[k].chans[j].fifo != []
    ensures Inv(Take(w, k, j)) && Frame(w, Take(w, k, j), k, 4 * k + j)
  {
    var v := Take(w, k, j);
    var i := 4 * k + j;
    PopValid(w.chips[k]);
    assert PortOk(w.ports[i], ChanAt(w, i), w.now);
    var b := w.chips[k].chans[j].fifo[0];
    assert AllBytes(v.ports[i].log) + v.ports[i].rxbuf == (AllBytes(w.ports[i].log) + w.ports[i].rxbuf) + [b];
    PutBack(w, k, j, v.chips[k], v.ports[i]);
    PutBackFrame(w, v, k, j);
  }

  /** Outside events followed by one access of the driver. */
  lemma FrameStep(a: World, b: World, c: World, k: int, i: int)
    requires Inv(a) && Inv(b) && Inv(c) && Frame(a, b, -1, -1) && Frame(b, c, k, i)
    ensures Frame(a, c, k, i)
  {
    hide PortOk;
    hide Valid;
    FrameTrans(a, b, c, k, i);
  }

  /** A chip access that moves no channel data and touches no port. */
  lemma ControlWrite(w: World, k: nat, c: Chip)
    requires Inv(w) && k < CHIPS && Valid(c) && c.chans == w.chips[k].chans
    ensures var v := w.(chips := w.chips[k := c]); Inv(v) && Frame(w, v, k, -1)
  {
    hide PortOk;
    hide Frame;
    var v := w.(chips := w.chips[k := c]);
    assert PortOk(w.ports[4 * k], w.chips[4 * k / 4].chans[4 * k % 4], w.now);
    PutBack(w, k, 0, c, w.ports[4 * k]);
    assert v.ports == w.ports[4 * k := w.ports[4 * k]];
    ControlFrame(w, v, k);
  }

  lemma ControlFrame(w: World, v: World, k: nat)
    requires Inv(w) && Inv(v) && k < CHIPS
    requires v.chips == w.chips[k := v.chips[k]] && v.chips[k].chans == w.chips[k].chans
    requires v.ports == w.ports && v.now == w.now
    ensures Frame(w, v, k, -1)
  {
    hide PortOk;
    hide Valid;
    forall q | 0 <= q < PORTS
      ensures Same(w, v, q)
    {
      assert ChanAt(v, q) == ChanAt(w, q);
    }
  }

  lemma FrameWiden(a: World, b: World, c: World, k: int, i: int)
    requires Inv(a) && Inv(b) && Inv(c) && Frame(a, b, k, i) && Frame(b, c, -1, -1)
    ensures Frame(a, c, k, i)
  {
    hide PortOk;
    hide Valid;
    FrameTrans(a, b, c, k, i);
  }

  /** The record left by ending the context that is open on `c`. */
  function Closing(c: Chip, kind: Kind, v: Byte): Ended
    requires c.stack != []
  {
    Ended(if kind == Rx then c.rx else c.tx, kind, Top(c).chan, c.room, c.moved, v == NO_TRANS)
  }

  /** The context is as it was, after `n` ignored EOIR writes. */
  ghost predicate StillOpen(c: Chip, d: Chip, n: nat) {
    && c.stack != [] && d.stack == c.stack && d.ended == c.ended
    && d.balk == c.balk - n && d.room == c.room && d.moved == c.moved
    && (c.rx.Active? ==> d.rx == c.rx) && (c.tx.Active? ==> d.tx == c.tx)
  }

  /** The receive context is as it was, but for what RFOC answered. */
  ghost predicate StillIn(c: Chip, d: Chip) {
    && d.rx == c.rx && d.stack == c.stack && d.car == c.car && d.ended == c.ended
    && d.eoirs == c.eoirs && d.balk == c.balk && d.moved == c.moved
  }

  lemma FrameSelect(a: World, b: World, c: World, k: int, i: int)
    requires Inv(a) && Inv(b) && Inv(c)
    requires Frame(a, b, -1, i) || Frame(a, b, k, -1) || Frame(a, b, k, i)
    requires Frame(b, c, -1, i) || Frame(b, c, k, -1) || Frame(b, c, k, i)
    ensures Frame(a, c, k, i)
  {
    hide PortOk;
    hide Valid;
    FrameTrans(a, b, c, k, i);
  }

  lemma FrameLoosen(a: World, b: World, k: int, i: int)
    requires Inv(a) && Inv(b) && Frame(a, b, -1, i)
    ensures Frame(a, b, k, i)
  {
    hide PortOk;
    hide Valid;
  }

  /** Channel `j` of chip `k` has register image `regs`; nothing else about it or its port was driven. */
  ghost predicate Programmed(a: World, b: World, k: nat, j: nat, regs: map<Reg, Byte>)
    requires Inv(a) && Inv(b) && k < CHIPS && j < CHANNELS
  {
    var c, d := a.chips[k].chans[j], b.chips[k].chans[j];
    && d.regs == regs && ChannelKept(c, d.(regs := c.regs))
    && PortKept(a.ports[4 * k + j], b.ports[4 * k + j])
  }

  /** Of its channel's registers, a port depends on no more than RegsOk. */
  lemma RegistersApart(p: Port, ch: Channel, regs: map<Reg, Byte>, now: nat)
    requires PortOk(p, ch, now) && RegsOk(p, regs)
    ensures PortOk(p, ch.(regs := regs), now)
  {
  }

  lemma WriteFits(p: Port, ch: Channel, reg: Reg, v: Byte, now: nat)
    requires PortOk(p, ch, now) && Fits(p, reg, v)
    ensures RegsOk(p, ch.regs[reg := v])
  {
  }

  lemma RegisterWrite(w: World, k: nat, j: nat, reg: Reg, v: Byte)
    requires Inv(w) && k < CHIPS && j < CHANNELS && Target(w.chips[k]) == j && Fits(w.ports[4 * k + j], reg, v)
    ensures var u := w.(chips := w.chips[k := WriteReg(w.chips[k], reg, v)]);
            Inv(u) && Frame(w, u, -1, 4 * k + j)
  {
    hide PortOk;
    var c := WriteReg(w.chips[k], reg, v);
    var u := w.(chips := w.chips[k := c]);
    var i := 4 * k + j;
    assert i / 4 == k && i % 4 == j;
    assert PortOk(w.ports[i], w.chips[i / 4].chans[i % 4], w.now);
    WriteFits(w.ports[i], w.chips[k].chans[j], reg, v, w.now);
    RegistersApart(w.ports[i], w.chips[k].chans[j], c.chans[j].regs, w.now);
    PutBack(w, k, j, c, w.ports[i]);
    assert u.ports == w.ports[i := w.ports[i]];
    PutBackFrame(w, u, k, j);
  }

  /** The port after a service that was not an error: the tty gets the buffer if `deliver`. */
  function Disposed(p: Port, request: Request, count: nat, deliver: bool): Port {
    p.(log := p.log + [RxEntry(request, count, p.rxbuf, p.open, deliver)], rxbuf := [],
       flip := if deliver then p.flip + p.rxbuf else p.flip)
  }

  /** Only port `4k+j` changes, and it still agrees with its channel. */
  lemma PortChange(w: World, k: nat, j: nat, p: Port)
    requires Inv(w) && k < CHIPS && j < CHANNELS
    requires PortOk(p, w.chips[k].chans[j], w.now)
    ensures var v := w.(ports := w.ports[4 * k + j := p]); Inv(v) && Frame(w, v, -1, 4 * k + j)
  {
    var v := w.(ports := w.ports[4 * k + j := p]);
    PutBack(w, k, j, w.chips[k], p);
    assert v.chips == w.chips[k := w.chips[k]];
    PutBackFrame(w, v, k, j);
  }

  /** Recording the buffered characters as one service keeps the record complete. */
  lemma RecordAppends(p: Port, ch: Channel, request: Request, count: nat, deliver: bool)
    requires RxOk(p, ch) && EntryOk(RxEntry(request, count, p.rxbuf, p.open, deliver)) && p.mark <= |p.log|
    ensures var q := Disposed(p, request, count, deliver);
            && RxOk(q, ch)
            && Errors(q.log, p.mark) == Errors(p.log, p.mark) + if Erroneous(request) then 1 else 0
  {
    hide EntryOk;
    AppendEntry(p.log, RxEntry(request, count, p.rxbuf, p.open, deliver), p.mark);
    hide AllBytes;
    hide DeliveredBytes;
    hide Errors;
  }

  lemma DisposedOk(p: Port, ch: Channel, now: nat, request: Request, count: nat, deliver: bool)
    requires PortOk(p, ch, now) && !Erroneous(request)
    requires EntryOk(RxEntry(request, count, p.rxbuf, p.open, deliver))
    ensures PortOk(Disposed(p, request, count, deliver), ch, now)
  {
    hide RxOk;
    hide Errors;
    RecordAppends(p, ch, request, count, deliver);
  }

  lemma DisposeKeeps(w: World, k: nat, j: nat, request: Request, count: nat, deliver: bool)
    requires Inv(w) && k < CHIPS && j < CHANNELS && !Erroneous(request)
    requires var p := w.ports[4 * k + j]; EntryOk(RxEntry(request, count, p.rxbuf, p.open, deliver))
    ensures var v := w.(ports := w.ports[4 * k + j := Disposed(w.ports[4 * k + j], request, count, deliver)]);
            Inv(v) && Frame(w, v, -1, 4 * k + j)
  {
    hide PortOk;
    var i := 4 * k + j;
    assert i / 4 == k && i % 4 == j;
    assert PortOk(w.ports[i], w.chips[i / 4].chans[i % 4], w.now);
    DisposedOk(w.ports[i], w.chips[k].chans[j], w.now, request, count, deliver);
    PortChange(w, k, j, Disposed(w.ports[i], request, count, deliver));
  }

  /** The port after an error service: one more exception at `now`, the character dropped. */
  function Counted(p: Port, request: Request, count: nat, now: nat): Port {
    Disposed(p, request, count, false).(det := S.Count(p.det, now, HZ), times := p.times + [now])
  }

  lemma StormCounts(p: Port, request: Request, count: nat, now: nat)
    requires StormOk(p, now)
    ensures StormOk(Counted(p, request, count, now), now)
    ensures p.det.off ==> Counted(p, request, count, now).det.off
  {
    hide S.After;
    hide S.Count;
    S.CountNext(p.since, p.times, now, HZ);
  }

  lemma CountedHalves(p: Port, ch: Channel, now: nat, request: Request, count: nat)
    requires TxOk(p, ch) && RegsOk(p, ch.regs)
    requires p.det.off ==> Counted(p, request, count, now).det.off
    ensures var q := Counted(p, request, count, now); TxOk(q, ch) && RegsOk(q, ch.regs)
  {
    hide S.Count;
  }

  lemma CountedOk(p: Port, ch: Channel, now: nat, request: Request, count: nat)
    requires PortOk(p, ch, now) && Erroneous(request) && |p.rxbuf| == (if count == 0 then 0 else 1)
    ensures PortOk(Counted(p, request, count, now), ch, now)
  {
    assert EntryOk(RxEntry(request, count, p.rxbuf, p.open, false));
    hide Errors;
    hide EntryOk;
    hide StormOk;
    hide AllBytes;
    hide DeliveredBytes;
    hide S.Count;
    hide RegsOk;
    hide TxOk;
    StormCounts(p, request, count, now);
    CountedHalves(p, ch, now, request, count);
    RecordAppends(p, ch, request, count, false);
  }

  lemma CountKeeps(w: World, k: nat, j: nat, request: Request, count: nat)
    requires Inv(w) && k < CHIPS && j < CHANNELS
    requires Erroneous(request) && |w.ports[4 * k + j].rxbuf| == (if count == 0 then 0 else 1)
    ensures var v := w.(ports := w.ports[4 * k + j := Counted(w.ports[4 * k + j], request, count, w.now)]);
            Inv(v) && Frame(w, v, -1, 4 * k + j)
  {
    hide PortOk;
    var i := 4 * k + j;
    assert i / 4 == k && i % 4 == j;
    assert PortOk(w.ports[i], w.chips[i / 4].chans[i % 4], w.now);
    CountedOk(w.ports[i], w.chips[k].chans[j], w.now, request, count);
    PortChange(w, k, j, Counted(w.ports[i], request, count, w.now));
  }

  /**
   One exception was counted on channel `j` and its service recorded, the buffered
   character dropped; the receiver was switched off exactly if this one crossed the limit.
   */
  ghost predicate Excepted(a: World, b: World, k: nat, j: nat, request: Request, count: nat)
    requires Inv(a) && Inv(b) && k < CHIPS && j < CHANNELS
  {
    var i := 4 * k + j;
    var p, q := a.ports[i], b.ports[i];
    var c, d := a.chips[k].chans[j], b.chips[k].chans[j];
    && |q.times| == |p.times| + 1
    && PortKept(Counted(p, request, count, q.times[|p.times|]), q)
    && ChannelKept(c, d.(regs := c.regs))
    && d.regs == (if q.det.off && !p.det.off then c.regs[IER := 0x01] else c.regs)
    && IdleKept(a.chips[k], b.chips[k])
  }

  /** No context was opened or ended. */
  ghost predicate IdleKept(c: Chip, d: Chip) {
    d.stack == c.stack == [] && d.ended == c.ended && d.eoirs == c.eoirs
  }

  function PopFront(l: T.Line): T.Line
    requires l.queue != []
  {
    l.(queue := l.queue[1..], sent := l.sent + [l.queue[0]])
  }

  function Popped(l: T.Line, n: nat): T.Line
    requires n <= |l.queue|
  {
    l.(queue := l.queue[n..], sent := l.sent + l.queue[..n])
  }

  lemma PopNext(l: T.Line, n: nat)
    requires n < |l.queue|
    ensures Popped(l, n).queue[0] == l.queue[n]
    ensures PopFront(Popped(l, n)) == Popped(l, n + 1)
    ensures forall s: seq<Byte> :: s + l.queue[..n] + [l.queue[n]] == s + l.queue[..n + 1]
  {
    assert l.queue[..n] + [l.queue[n]] == l.queue[..n + 1];
    assert l.queue[n..][1..] == l.queue[n + 1..];
  }

  /** Within a transmit context on channel `j`, only what was sent and the port's ring moved. */
  ghost predicate InTx(a: World, b: World, k: nat, j: nat)
    requires Inv(a) && Inv(b) && k < CHIPS && j < CHANNELS
  {
    var c, d := a.chips[k], b.chips[k];
    && c.tx.Active? && c.tx.chan == j && d.tx == c.tx
    && d.car == c.car && d.ended == c.ended && d.eoirs == c.eoirs && d.balk == c.balk
    && ChannelKept(c.chans[j], d.chans[j].(sent := c.chans[j].sent))
    && b.ports[4 * k + j] == a.ports[4 * k + j].(line := b.ports[4 * k + j].line)
  }

  lemma InTxFacts(a: World, b: World, k: nat, j: nat)
    requires Inv(a) && Inv(b) && k < CHIPS && j < CHANNELS && InTx(a, b, k, j)
    ensures b.chips[k].tx.Active? && b.chips[k].tx.chan == j
  {
    hide PortOk;
  }

  lemma InTxTrans(a: World, b: World, c: World, k: nat, j: nat)
    requires Inv(a) && Inv(b) && Inv(c) && k < CHIPS && j < CHANNELS && InTx(a, b, k, j) && InTx(b, c, k, j)
    ensures InTx(a, c, k, j)
  {
    hide PortOk;
  }

  /** A transmit service put together: the lock taken at `lock`, `n` bytes moved by `full`, the context ended at `b`. */
  lemma TransmitResult(a: World, lock: World, full: World, b: World, k: nat, j: nat, room: nat, n: nat)
    requires Inv(a) && Inv(lock) && Inv(full) && Inv(b) && k < CHIPS && j < CHANNELS
    requires CtlKept(a.chips[k], lock.chips[k]) && PortKept(a.ports[4 * k + j], lock.ports[4 * k + j])
    requires ChannelKept(a.chips[k].chans[j], lock.chips[k].chans[j])
    requires a.chips[k].tx.Active? && a.chips[k].tx.chan == j && InTx(lock, full, k, j)
    requires var line := lock.ports[4 * k + j].line;
             && n == T.Burst(line.queue, room) && full.chips[k].room == room && full.chips[k].moved == n
             && full.chips[k].chans[j].sent == lock.chips[k].chans[j].sent + line.queue[..n]
             && full.ports[4 * k + j].line == Popped(line, n)
    requires b.ports[4 * k + j] == full.ports[4 * k + j] && b.chips[k].stack == []
    requires b.chips[k].ended == full.chips[k].ended + [Ended(full.chips[k].tx, Tx, j, room, n, n == 0)]
    requires var c, d := full.chips[k].chans[j], b.chips[k].chans[j];
             && ChannelKept(c, d.(regs := c.regs))
             && d.regs == if n == 0 then c.regs[IER := 0x28] else c.regs
    ensures Transmitted(a, b, k, j, lock.ports[4 * k + j].line)
  {
    hide PortOk;
    hide Valid;
  }

  lemma SentOk(p: Port, ch: Channel, now: nat)
    requires PortOk(p, ch, now) && p.line.queue != []
    ensures PortOk(p.(line := PopFront(p.line)), ch.(sent := ch.sent + [p.line.queue[0]]), now)
  {
    var l := p.line;
    assert l.sent + l.queue == (l.sent + [l.queue[0]]) + l.queue[1..];
    assert (ch.sent + [l.queue[0]])[p.base..] == ch.sent[p.base..] + [l.queue[0]];
  }

  lemma SendKeeps(w: World, k: nat, j: nat)
    requires Inv(w) && k < CHIPS
    requires w.chips[k].tx.Active? && w.chips[k].tx.chan == j && w.ports[4 * k + j].line.queue != []
    ensures var i := 4 * k + j;
            var c := WriteTdr(w.chips[k], w.ports[i].line.queue[0]);
            var v := w.(chips := w.chips[k := c], ports := w.ports[i := w.ports[i].(line := PopFront(w.ports[i].line))]);
            Inv(v) && Frame(w, v, k, i)
  {
    hide PortOk;
    var i := 4 * k + j;
    assert i / 4 == k && i % 4 == j;
    var c := WriteTdr(w.chips[k], w.ports[i].line.queue[0]);
    var p := w.ports[i].(line := PopFront(w.ports[i].line));
    assert PortOk(w.ports[i], w.chips[i / 4].chans[i % 4], w.now);
    SentOk(w.ports[i], w.chips[k].chans[j], w.now);
    PutBack(w, k, j, c, p);
    PutBackFrame(w, World(w.chips[k := c], w.ports[i := p], w.now), k, j);
  }

  /**
   One transmit service of channel `j`, `line` being the ring when its lock was
   taken: the context is ended once, with NoTrans exactly if nothing moved; the
   bytes moved are the oldest in the ring; the idle path drops TxD.
   */
  ghost predicate Transmitted(a: World, b: World, k: nat, j: nat, line: T.Line)
    requires Inv(a) && Inv(b) && k < CHIPS && j < CHANNELS
  {
    var i := 4 * k + j;
    var c, d := a.chips[k].chans[j], b.chips[k].chans[j];
    && |b.chips[k].ended| == |a.chips[k].ended| + 1
    && var e := b.chips[k].ended[|a.chips[k].ended|];
    var n := T.Burst(line.queue, e.room);
    && PortKept(a.ports[i], a.ports[i].(line := line))
    && b.chips[k].stack == [] && b.chips[k].ended == a.chips[k].ended + [e]
    && e == Ended(a.chips[k].tx, Tx, j, e.room, n, n == 0)
    && b.ports[i] == a.ports[i].(line := T.ServiceStep(line, e.room))
    && d.sent == c.sent + line.queue[..n]
    && d.regs == (if n == 0 then c.regs[IER := 0x28] else c.regs)
    && d.popped == c.popped && c.fifo <= d.fifo
  }

  /** FrameAt for a stretch that drove the interrupt state of chip `k` itself. */
  lemma FrameAt'(a: World, b: World, k: nat, j: nat)
    requires Inv(a) && Inv(b) && Frame(a, b, k, -1) && k < CHIPS && j < CHANNELS
    ensures PortKept(a.ports[4 * k + j], b.ports[4 * k + j])
    ensures ChannelKept(a.chips[k].chans[j], b.chips[k].chans[j])
  {
    hide PortOk;
    assert Same(a, b, 4 * k + j);
  }

  /** A receive service on channel `j` was ended once, by REOIR; what it read is in the port's buffer. */
  ghost predicate Emptied(a: World, b: World, k: nat, j: nat, count: nat)
    requires Inv(a) && Inv(b) && k < CHIPS && j < CHANNELS
  {
    var c, d := a.chips[k], b.chips[k];
    var p, q := a.ports[4 * k + j], b.ports[4 * k + j];
    && d.stack == [] && |d.ended| == |c.ended| + 1
    && var e := d.ended[|c.ended|];
    && d.ended == c.ended + [e] && e == Ended(c.rx, Rx, j, e.room, e.moved, false)
    && e.room == count && e.moved == |q.rxbuf|
    && d.chans[j].sent == c.chans[j].sent && d.chans[j].regs == c.chans[j].regs
    && PortKept(p.(rxbuf := q.rxbuf), q)
  }

  /** The register image after a list of writes. */
  function Written(regs: map<Reg, Byte>, writes: seq<(Reg, Byte)>): map<Reg, Byte> {
    if writes == [] then regs
    else
      var n := |writes| - 1;
      Written(regs, writes[..n])[writes[n].0 := writes[n].1]
  }

  lemma {:induction false} WrittenConcat(regs: map<Reg, Byte>, a: seq<(Reg, Byte)>, b: seq<(Reg, Byte)>)
    ensures Written(regs, a + b) == Written(Written(regs, a), b)
    decreases |b|
  {
    if b == [] {
      assert a + b == a;
    } else {
      var n := |b| - 1;
      WrittenConcat(regs, a, b[..n]);
      assert (a + b)[..|a| + n] == a + b[..n];
    }
  }

  lemma {:induction false} LastWriteWins(regs: map<Reg, Byte>, writes: seq<(Reg, Byte)>, n: nat)
    requires n < |writes| && forall m :: n < m < |writes| ==> writes[m].0 != writes[n].0
    ensures writes[n].0 in Written(regs, writes) && Written(regs, writes)[writes[n].0] == writes[n].1
    decreases |writes|
  {
    if n < |writes| - 1 {
      LastWriteWins(regs, writes[..|writes| - 1], n);
    }
  }

  const ENODEV: int := -19

  /** The four bit-rate registers nm32a_set_rate picks for a speed. */
  datatype Rate = Rate(tcor: Byte, tbpr: Byte, rcor: Byte, rbpr: Byte)

  function RateWrites(r: Rate): seq<(Reg, Byte)> {
    [(TCOR, r.tcor), (TBPR, r.tbpr), (RCOR, r.rcor), (RBPR, r.rbpr)]
  }

  /** nm32a_chan_init, with the default receive threshold of one. */
  function InitWrites(r: Rate): seq<(Reg, Byte)> {
    [(LIVR, 0x40)] + RateWrites(r)
    + [(CMR, 0x02), (COR1, 0x17), (COR2, 0x00), (COR3, 0x02), (COR4, 0x01), (COR5, 0x00),
       (COR6, 0x00), (COR7, 0x00), (STCR, 0x00), (CCR, 0x20), (CCR, 0x0a),
       (MSVR_RTS, 0x01), (MSVR_DTR, 0x02), (IER, 0x29)]
  }

  function ModemWrites(active: bool): seq<(Reg, Byte)> {
    [(MSVR_DTR, if active then 0x02 else 0x00), (MSVR_RTS, if active then 0x01 else 0x00)]
  }

  function TermiosWrites(r: Rate): seq<(Reg, Byte)> {
    RateWrites(r) + [(CCR, 0x20), (CCR, 0x0a), (IER, 0x09)]
  }

  /** Apart from `but`, the registers are what they were. */
  ghost predicate OthersKept(regs: map<Reg, Byte>, image: map<Reg, Byte>, but: set<Reg>) {
    forall reg: Reg :: reg !in but ==> (reg in image <==> reg in regs) && (reg in regs ==> image[reg] == regs[reg])
  }

  /** A list of writes leaves every register alone that it does not name. */
  lemma {:induction false} UnnamedKept(regs: map<Reg, Byte>, writes: seq<(Reg, Byte)>, but: set<Reg>)
    requires forall n :: 0 <= n < |writes| ==> writes[n].0 in but
    ensures OthersKept(regs, Written(regs, writes), but)
  {
    if writes != [] {
      UnnamedKept(regs, writes[..|writes| - 1], but);
    }
  }

  /** DTR is bit 1 of MSVR-DTR and RTS bit 0 of MSVR-RTS: both up for `active`, both down otherwise, nothing else touched. */
  ghost predicate ModemAre(regs: map<Reg, Byte>, image: map<Reg, Byte>, active: bool, but: set<Reg>) {
    && MSVR_DTR in image && MSVR_RTS in image
    && image[MSVR_DTR] == (if active then 0x02 else 0x00) && image[MSVR_RTS] == (if active then 0x01 else 0x00)
    && OthersKept(regs, image, but)
  }

  lemma ModemImage(regs: map<Reg, Byte>, active: bool)
    ensures ModemAre(regs, Written(regs, ModemWrites(active)), active, {MSVR_DTR, MSVR_RTS})
  {
    hide Written;
    LastWriteWins(regs, ModemWrites(active), 0);
    LastWriteWins(regs, ModemWrites(active), 1);
    UnnamedKept(regs, ModemWrites(active), {MSVR_DTR, MSVR_RTS});
  }

  lemma ShutdownImage(regs: map<Reg, Byte>)
    ensures var image := Written(regs, [(IER, 0x00)] + ModemWrites(false));
            IER in image && image[IER] == 0x00 && ModemAre(regs, image, false, {IER, MSVR_DTR, MSVR_RTS})
  {
    hide Written;
    var writes := [(IER, 0x00)] + ModemWrites(false);
    LastWriteWins(regs, writes, 0);
    LastWriteWins(regs, writes, 1);
    LastWriteWins(regs, writes, 2);
    UnnamedKept(regs, writes, {IER, MSVR_DTR, MSVR_RTS});
  }

  /** The four bit-rate registers hold what the rate asks for. */
  ghost predicate RateIs(image: map<Reg, Byte>, r: Rate) {
    && TCOR in image && image[TCOR] == r.tcor && TBPR in image && image[TBPR] == r.tbpr
    && RCOR in image && image[RCOR] == r.rcor && RBPR in image && image[RBPR] == r.rbpr
  }

  /** A speed change sets the rate, enables both directions (CCR = 0x0a) and asks for service; nothing else changes. */
  lemma SpeedImage(regs: map<Reg, Byte>, r: Rate)
    ensures var image := Written(regs, TermiosWrites(r));
            && RateIs(image, r) && CCR in image && image[CCR] == 0x0a && IER in image && image[IER] == 0x09
            && OthersKept(regs, image, {TCOR, TBPR, RCOR, RBPR, CCR, IER})
  {
    hide Written;
    var writes := TermiosWrites(r);
    LastWriteWins(regs, writes, 0);
    LastWriteWins(regs, writes, 1);
    LastWriteWins(regs, writes, 2);
    LastWriteWins(regs, writes, 3);
    LastWriteWins(regs, writes, 5);
    LastWriteWins(regs, writes, 6);
    UnnamedKept(regs, writes, {TCOR, TBPR, RCOR, RBPR, CCR, IER});
  }

  /**
   An opened channel runs asynchronous, interrupt-driven, eight bits, no parity, one
   stop bit, at the rate asked for; no translation or stripping; both directions
   enabled and both modem lines up.
   */
  lemma OpenImage(regs: map<Reg, Byte>, r: Rate)
    ensures var image := Written(regs, InitWrites(r));
            && RateIs(image, r)
            && (forall reg :: reg in {LIVR, CMR, COR1, COR2, COR3, COR4, COR5, COR6, COR7, STCR, CCR, MSVR_RTS, MSVR_DTR, IER} ==> reg in image)
            && image[LIVR] == 0x40 && image[CMR] == 0x02 && image[COR1] == 0x17 && image[COR2] == 0x00
            && image[COR3] == 0x02 && image[COR4] == 0x01 && image[COR5] == 0x00 && image[COR6] == 0x00
            && image[COR7] == 0x00 && image[STCR] == 0x00 && image[CCR] == 0x0a
            && image[MSVR_RTS] == 0x01 && image[MSVR_DTR] == 0x02 && image[IER] == 0x29
  {
    hide Written;
    var writes := InitWrites(r);
    forall n | 0 <= n < 19 && n != 14
      ensures writes[n].0 in Written(regs, writes) && Written(regs, writes)[writes[n].0] == writes[n].1
    {
      LastWriteWins(regs, writes, n);
    }
    assert writes[0] == (LIVR, 0x40) && writes[5] == (CMR, 0x02) && writes[6] == (COR1, 0x17) && writes[7] == (COR2, 0x00);
    assert writes[8] == (COR3, 0x02) && writes[9] == (COR4, 0x01) && writes[10] == (COR5, 0x00);
    assert writes[11] == (COR6, 0x00) && writes[12] == (COR7, 0x00) && writes[13] == (STCR, 0x00);
    assert writes[15] == (CCR, 0x0a) && writes[16] == (MSVR_RTS, 0x01) && writes[17] == (MSVR_DTR, 0x02);
    assert writes[18] == (IER, 0x29);
    assert writes[1] == (TCOR, r.tcor) && writes[2] == (TBPR, r.tbpr);
    assert writes[3] == (RCOR, r.rcor) && writes[4] == (RBPR, r.rbpr);
  }

  lemma OpenRate(regs: map<Reg, Byte>, r: Rate)
    ensures RateIs(Written(regs, InitWrites(r)), r)
  {
    hide Written;
    OpenImage(regs, r);
  }

  lemma SpeedRate(regs: map<Reg, Byte>, r: Rate)
    ensures RateIs(Written(regs, TermiosWrites(r)), r)
  {
    hide Written;
    SpeedImage(regs, r);
  }

  /** Every list of writes the driver makes suits an open port. */
  lemma InitFits(p: Port, r: Rate)
    ensures AllFit(p, InitWrites(r)) && AllFit(p, TermiosWrites(r))
    ensures AllFit(p, ModemWrites(true)) && AllFit(p, ModemWrites(false))
  {
  }

  /** An opened channel asks for receive, timeout and transmit service, and has embedded transmit commands off. */
  lemma InitImage(regs: map<Reg, Byte>, r: Rate)
    ensures var image := Written(regs, InitWrites(r));
            IER in image && image[IER] == 0x29 && COR2 in image && image[COR2] == 0x00
  {
    hide Written;
    LastWriteWins(regs, InitWrites(r), 18);
    LastWriteWins(regs, InitWrites(r), 7);
  }

  /** The port was activated anew, or its writers did no more than append to its ring. */
  ghost predicate RingKept(p: Port, q: Port) {
    && p.opens <= q.opens
    && (p.opens == q.opens ==>
          q.line.sent == p.line.sent && p.line.queue <= q.line.queue)
  }

  /** Neither the data of port `i` nor its receive record moved. */
  ghost predicate DataSame(a: World, b: World, i: nat)
    requires Inv(a) && Inv(b) && i < PORTS
  {
    && ChanAt(b, i).sent == ChanAt(a, i).sent && ChanAt(b, i).popped == ChanAt(a, i).popped
    && b.ports[i].log == a.ports[i].log && b.ports[i].rxbuf == a.ports[i].rxbuf
    && (b.ports[i].times == a.ports[i].times || b.ports[i].times == [])
    && RingKept(a.ports[i], b.ports[i])
  }

  function Activated(p: Port, ch: Channel, now: nat): Port {
    p.(open := true, opens := p.opens + 1, line := T.FRESH, base := |ch.sent|,
       det := S.Activated(now), since := now, times := [], mark := |p.log|)
  }

  ghost predicate Opened(p: Port, now: nat) {
    p.open && p.line == T.FRESH && p.det == S.Activated(p.since) && p.times == [] && p.since <= now
  }

  lemma DataSameRefl(a: World, i: nat)
    requires Inv(a) && i < PORTS
    ensures DataSame(a, a, i)
  {
    hide PortOk;
  }

  lemma ActivatedOk(p: Port, ch: Channel, now: nat)
    requires PortOk(p, ch, now) && RegsOk(Activated(p, ch, now), ch.regs)
    ensures PortOk(Activated(p, ch, now), ch, now)
  {
    hide RegsOk;
  }

  /** Register writes on one channel move no data. */
  lemma ProgramResult(a: World, b: World, k: nat, j: nat, regs: map<Reg, Byte>)
    requires Inv(a) && Inv(b) && k < CHIPS && j < CHANNELS && Programmed(a, b, k, j, regs)
    ensures ChanAt(b, 4 * k + j).regs == regs && DataSame(a, b, 4 * k + j)
  {
    hide PortOk;
    var i := 4 * k + j;
    assert i / 4 == k && i % 4 == j;
  }

  lemma ClosedOk(p: Port, ch: Channel, now: nat)
    requires PortOk(p, ch, now)
    ensures PortOk(p.(open := false), ch, now)
  {
  }

  lemma ActivateKeeps(w: World, k: nat, j: nat)
    requires Inv(w) && k < CHIPS && j < CHANNELS
    requires RegsOk(Activated(w.ports[4 * k + j], w.chips[k].chans[j], w.now), w.chips[k].chans[j].regs)
    ensures var p := Activated(w.ports[4 * k + j], w.chips[k].chans[j], w.now);
            var v := w.(ports := w.ports[4 * k + j := p]); Inv(v) && Frame(w, v, -1, 4 * k + j)
  {
    hide PortOk;
    hide RegsOk;
    var i := 4 * k + j;
    assert i / 4 == k && i % 4 == j;
    assert PortOk(w.ports[i], w.chips[i / 4].chans[i % 4], w.now);
    ActivatedOk(w.ports[i], w.chips[k].chans[j], w.now);
    PortChange(w, k, j, Activated(w.ports[i], w.chips[k].chans[j], w.now));
  }

  lemma ActivateResult(a: World, w: World, k: nat, j: nat, regs: map<Reg, Byte>)
    requires Inv(a) && Inv(w) && k < CHIPS && j < CHANNELS
    requires Programmed(a, w, k, j, regs) && IdleKept(a.chips[k], w.chips[k]) && IER in regs
    ensures var i := 4 * k + j;
            var p := Activated(w.ports[i], w.chips[k].chans[j], w.now);
            var b := w.(ports := w.ports[i := p]);
            && Opened(p, w.now) && p.base == |w.chips[k].chans[j].sent| && b.chips[k].stack == []
            && w.chips[k].chans[j].regs == regs
            && (Inv(b) ==> DataSame(a, b, i) && GateAt(b, i) == Gate(S.Activated(w.now), regs[IER]))
  {
    hide PortOk;
    var i := 4 * k + j;
    assert i / 4 == k && i % 4 == j;
  }

  lemma CloseKeeps(w: World, k: nat, j: nat)
    requires Inv(w) && k < CHIPS && j < CHANNELS
    ensures var v := w.(ports := w.ports[4 * k + j := w.ports[4 * k + j].(open := false)]);
            Inv(v) && Frame(w, v, -1, 4 * k + j)
  {
    hide PortOk;
    var i := 4 * k + j;
    assert i / 4 == k && i % 4 == j;
    assert PortOk(w.ports[i], w.chips[i / 4].chans[i % 4], w.now);
    ClosedOk(w.ports[i], w.chips[k].chans[j], w.now);
    PortChange(w, k, j, w.ports[i].(open := false));
  }

  /** The two steps of a shutdown, from the closed port `w` through the IER write `m` to the modem writes. */
  lemma ShutdownResult(a: World, w: World, m: World, b: World, k: nat, j: nat)
    requires Inv(a) && Inv(w) && Inv(m) && Inv(b) && k < CHIPS && j < CHANNELS
    requires w == a.(ports := a.ports[4 * k + j := a.ports[4 * k + j].(open := false)])
    requires Programmed(w, m, k, j, Written(w.chips[k].chans[j].regs, [(IER, 0x00)]))
    requires Programmed(m, b, k, j, Written(m.chips[k].chans[j].regs, ModemWrites(false)))
    requires IdleKept(w.chips[k], m.chips[k]) && IdleKept(m.chips[k], b.chips[k])
    ensures var i := 4 * k + j;
            var image := Written(ChanAt(a, i).regs, [(IER, 0x00)] + ModemWrites(false));
            && !b.ports[i].open && ChanAt(b, i).regs == image && IER in image && image[IER] == 0x00
            && b.ports[i].det == a.ports[i].det
            && DataSame(a, b, i) && IdleKept(a.chips[k], b.chips[k])
  {
    hide PortOk;
    hide Written;
    var i := 4 * k + j;
    assert i / 4 == k && i % 4 == j;
    var regs := a.chips[k].chans[j].regs;
    WrittenConcat(regs, [(IER, 0x00)], ModemWrites(false));
    LastWriteWins(regs, [(IER, 0x00)] + ModemWrites(false), 0);
  }

  /** A call into the driver by another thread. */
  datatype Call =
    | Open(i: nat, gfrcr: Byte, rate: Rate)
    | Close(i: nat)
    | Modem(i: nat, active: bool)
    | Speed(i: nat, rate: Rate)

  /** No data moved on any port and no context was opened or ended on any chip. */
  ghost predicate Untouched(a: World, b: World)
    requires Inv(a) && Inv(b)
  {
    && a.now <= b.now
    && (forall q :: 0 <= q < CHIPS ==> IdleKept(a.chips[q], b.chips[q]))
    && (forall i :: 0 <= i < PORTS ==> DataSame(a, b, i))
  }

  lemma UntouchedTrans(a: World, b: World, c: World)
    requires Inv(a) && Inv(b) && Inv(c) && Untouched(a, b) && Untouched(b, c)
    ensures Untouched(a, c)
  {
    hide PortOk;
    forall i | 0 <= i < PORTS
      ensures DataSame(a, c, i)
    {
      assert DataSame(a, b, i) && DataSame(b, c, i);
    }
  }

  lemma OneCall(a: World, b: World, i: nat)
    requires Inv(a) && Inv(b) && i < PORTS && Frame(a, b, i / 4, i) && Quiet(a)
    requires DataSame(a, b, i) && IdleKept(a.chips[i / 4], b.chips[i / 4])
    ensures Untouched(a, b)
  {
    hide PortOk;
    forall q | 0 <= q < PORTS
      ensures DataSame(a, b, q)
    {
      assert q != i ==> Same(a, b, q);
    }
  }

  /** Every port saw at most writers appending to its ring. */
  ghost predicate PortsKept(a: World, b: World)
    requires Inv(a) && Inv(b)
  {
    forall i :: 0 <= i < PORTS ==> PortKept(a.ports[i], b.ports[i])
  }

  lemma PortsKeptTrans(a: World, b: World, c: World)
    requires Inv(a) && Inv(b) && Inv(c) && PortsKept(a, b) && PortsKept(b, c)
    ensures PortsKept(a, c)
  {
    forall i | 0 <= i < PORTS
      ensures PortKept(a.ports[i], c.ports[i])
    {
      assert PortKept(a.ports[i], b.ports[i]) && PortKept(b.ports[i], c.ports[i]);
    }
  }

  /** The port is open and has bytes to send. */
  predicate Wants(p: Port) { p.open && p.line.queue != [] }

  lemma UntouchedRefl(a: World)
    requires Inv(a) && Quiet(a)
    ensures Untouched(a, a) && PortsKept(a, a)
  {
    hide PortOk;
  }

  /** What arm_tx writes to IER: transmit service, and receive service too unless the receiver is muted. */
  function ArmValue(p: Port): Byte { if p.det.off then 0x01 else 0x29 }

  /**
   A channel was armed if its port wanted to be, and its other registers are as they
   were; one that did not may have been, but only if a writer made it want to since.
   */
  ghost predicate ArmedRegs(p: Port, regs: map<Reg, Byte>, q: Port, now: map<Reg, Byte>) {
    if Wants(p) then now == regs[IER := ArmValue(p)]
    else now == regs || (now == regs[IER := ArmValue(p)] && Wants(q))
  }

  ghost predicate ArmedFrom(a: World, b: World, k: nat, j: nat)
    requires Inv(a) && Inv(b) && k < CHIPS && j < CHANNELS
  {
    ArmedRegs(a.ports[4 * k + j], a.chips[k].chans[j].regs, b.ports[4 * k + j], b.chips[k].chans[j].regs)
  }

  ghost predicate RegsSame(a: World, b: World, i: nat)
    requires Inv(a) && Inv(b) && i < PORTS
  {
    ChanAt(b, i).regs == ChanAt(a, i).regs
  }

  /** What was armed at `w` is still so at `b`, and what was not armed before `w` can be armed at `b`. */
  lemma ArmedThrough(a: World, w: World, b: World, k: nat, j: nat)
    requires Inv(a) && Inv(w) && Inv(b) && k < CHIPS && j < CHANNELS
    requires PortsKept(a, w) && PortsKept(w, b)
    requires (ArmedFrom(a, w, k, j) && RegsSame(w, b, 4 * k + j)) || (RegsSame(a, w, 4 * k + j) && ArmedFrom(w, b, k, j))
    ensures ArmedFrom(a, b, k, j)
  {
    hide PortOk;
    hide Valid;
    hide PortKept;
    hide ArmedRegs;
    var i := 4 * k + j;
    assert i / 4 == k && i % 4 == j;
    assert PortKept(a.ports[i], w.ports[i]) && PortKept(w.ports[i], b.ports[i]);
    ArmedLater(a.ports[i], ChanAt(a, i).regs, w.ports[i], ChanAt(w, i).regs, b.ports[i], ChanAt(b, i).regs);
  }

  lemma ArmedLater(p: Port, r: map<Reg, Byte>, q: Port, s: map<Reg, Byte>, u: Port, t: map<Reg, Byte>)
    requires PortKept(p, q) && PortKept(q, u)
    requires (ArmedRegs(p, r, q, s) && t == s) || (s == r && ArmedRegs(q, s, u, t))
    ensures ArmedRegs(p, r, u, t)
  {
  }

  lemma ArmedFrame(a: World, b: World, k: nat, j: nat)
    requires Inv(a) && Inv(b) && k < CHIPS && j < CHANNELS && Quiet(a)
    requires Frame(a, b, k, 4 * k + j) && IdleKept(a.chips[k], b.chips[k])
    requires PortKept(a.ports[4 * k + j], b.ports[4 * k + j]) && DataSame(a, b, 4 * k + j)
    ensures Quiet(b) && Untouched(a, b) && PortsKept(a, b)
    ensures forall i :: 0 <= i < PORTS && i != 4 * k + j ==> RegsSame(a, b, i)
  {
    hide PortOk;
    hide Valid;
    hide Frame;
    hide PortKept;
    OneCall(a, b, 4 * k + j);
    forall i | 0 <= i < PORTS
      ensures PortKept(a.ports[i], b.ports[i]) && (i != 4 * k + j ==> RegsSame(a, b, i))
    {
      if i != 4 * k + j {
        FrameSame(a, b, k, 4 * k + j, i);
      }
    }
  }

  lemma FrameSame(a: World, b: World, k: int, i: int, q: nat)
    requires Inv(a) && Inv(b) && Frame(a, b, k, i) && q < PORTS && q != i
    ensures Same(a, b, q)
  {
    hide PortOk;
    hide Valid;
    hide Same;
  }

  /** Between services: no context is open and no character is in a service's buffer. */
  ghost predicate Rest(w: World)
    requires Inv(w)
  {
    Quiet(w) && forall i :: 0 <= i < PORTS ==> w.ports[i].rxbuf == []
  }

  /** The data of every port but `i` is as it was, and so are the services of every chip but `k`. */
  ghost predicate Elsewhere(a: World, b: World, k: nat, i: nat)
    requires Inv(a) && Inv(b)
  {
    && a.now <= b.now
    && (forall q :: 0 <= q < CHIPS && q != k ==> IdleKept(a.chips[q], b.chips[q]))
    && (forall q :: 0 <= q < PORTS && q != i ==> DataSame(a, b, q))
  }

  lemma FrameElsewhere(a: World, b: World, k: nat, i: nat)
    requires Inv(a) && Inv(b) && QuietExcept(a, k) && Frame(a, b, k, i)
    ensures Elsewhere(a, b, k, i)
  {
    hide PortOk;
    forall q | 0 <= q < PORTS && q != i
      ensures DataSame(a, b, q)
    {
      assert Same(a, b, q);
    }
  }

  /**
   One receive service of channel `j`: the context is ended once, as a receive,
   and the port's record gains one entry holding exactly what was popped.
   */
  ghost predicate Received(a: World, b: World, k: nat, j: nat)
    requires Inv(a) && Inv(b) && k < CHIPS && j < CHANNELS
  {
    var i := 4 * k + j;
    var c, d := a.chips[k], b.chips[k];
    var p, q := a.ports[i], b.ports[i];
    && Elsewhere(a, b, k, i)
    && |d.ended| == |c.ended| + 1 && d.stack == [] && |q.log| == |p.log| + 1
    && var e, entry := d.ended[|c.ended|], q.log[|p.log|];
    && d.ended == c.ended + [e] && e.kind == Rx && e.chan == j && !e.noTrans
    && q.log == p.log + [entry] && entry.request == e.request && q.rxbuf == []
    && entry.count == e.room && |entry.bytes| == e.moved
    && d.chans[j].popped == c.chans[j].popped + entry.bytes
    && d.chans[j].sent == c.chans[j].sent && RingKept(p, q)
    && (if Erroneous(e.request) then DroppedOne(c.chans[j], p, q, entry) else TookAll(c.chans[j], p, q, entry))
  }

  /** An error service drops one character exactly if RFOC reported any, delivers nothing, and counts. */
  ghost predicate DroppedOne(ch: Channel, p: Port, q: Port, entry: RxEntry) {
    && !entry.delivered && |entry.bytes| == (if entry.count == 0 then 0 else 1)
    && (ch.fifo != [] ==> entry.count > 0)
    && |q.times| == |p.times| + 1 && p.times <= q.times
  }

  /**
   Good data and timeouts take everything the FIFO held, deliver it exactly if the
   port is open, and never count as exceptions.
   */
  ghost predicate TookAll(ch: Channel, p: Port, q: Port, entry: RxEntry) {
    && ch.fifo <= entry.bytes && |entry.bytes| == entry.count
    && entry.open == q.open && (entry.delivered <==> entry.bytes != [] && q.open)
    && (q.times == p.times || (entry.request.Active? && entry.request.vct == 3 && q.times == []))
  }

  /** Assembles the facts about the served port into the outcome of the service. */
  lemma PoppedGrows(a: World, b: World, i: nat, entry: RxEntry)
    requires Inv(a) && Inv(b) && i < PORTS
    requires b.ports[i].log == a.ports[i].log + [entry] && a.ports[i].rxbuf == b.ports[i].rxbuf == []
    ensures ChanAt(b, i).popped == ChanAt(a, i).popped + entry.bytes
  {
    assert PortOk(a.ports[i], ChanAt(a, i), a.now) && PortOk(b.ports[i], ChanAt(b, i), b.now);
    AppendEntry(a.ports[i].log, entry, a.ports[i].mark);
  }

  lemma ReceivedFrame(a: World, b: World, k: nat, j: nat)
    requires Inv(a) && Inv(b) && k < CHIPS && j < CHANNELS && QuietExcept(a, k)
    requires Frame(a, b, k, 4 * k + j) && b.chips[k].stack == []
    requires a.ports[4 * k + j].rxbuf == b.ports[4 * k + j].rxbuf == []
    requires |b.ports[4 * k + j].log| == |a.ports[4 * k + j].log| + 1
    requires var e := b.ports[4 * k + j].log[|a.ports[4 * k + j].log|];
             b.ports[4 * k + j].log == a.ports[4 * k + j].log + [e]
    ensures Quiet(b) && Elsewhere(a, b, k, 4 * k + j)
    ensures var i := 4 * k + j;
            var e := b.ports[i].log[|a.ports[i].log|];
            b.chips[k].chans[j].popped == a.chips[k].chans[j].popped + e.bytes
  {
    hide PortOk;
    var i := 4 * k + j;
    assert i / 4 == k && i % 4 == j;
    FrameElsewhere(a, b, k, i);
    PoppedGrows(a, b, i, b.ports[i].log[|a.ports[i].log|]);
  }

  /** Good data: the context `a` to `m`, other threads `m` to `w`, the hand-over `w` to `b`. */
  lemma GoodIsReceived(a: World, m: World, w: World, b: World, k: nat, j: nat, count: nat)
    requires Inv(a) && Inv(m) && Inv(w) && Inv(b) && k < CHIPS && j < CHANNELS && QuietExcept(a, k)
    requires a.chips[k].rx.Active? && a.chips[k].rx.vct == 3 && a.ports[4 * k + j].rxbuf == []
    requires Frame(a, m, k, 4 * k + j) && Emptied(a, m, k, j, count) && |m.ports[4 * k + j].rxbuf| == count
    requires a.chips[k].chans[j].fifo <= m.ports[4 * k + j].rxbuf
    requires Untouched(m, w) && Quiet(w) && Frame(w, b, -1, 4 * k + j)
    requires var p := w.ports[4 * k + j];
             b.ports == w.ports[4 * k + j := Disposed(p, a.chips[k].rx, count, |p.rxbuf| > 0 && p.open)] && b.chips == w.chips
    ensures Received(a, b, k, j) && Quiet(b)
  {
    hide PortOk;
    hide Elsewhere;
    hide Frame;
    var i := 4 * k + j;
    assert i / 4 == k && i % 4 == j;
    FrameElsewhere(a, m, k, i);
    assert IdleKept(m.chips[k], w.chips[k]) && DataSame(m, w, i);
    ElsewhereTrans(a, m, w, b, k, i);
    PoppedGrows(a, b, i, b.ports[i].log[|a.ports[i].log|]);
  }

  lemma StillHeld(a: World, b: World, i: nat)
    requires Inv(a) && Inv(b) && Untouched(a, b) && i < PORTS
    ensures b.ports[i].rxbuf == a.ports[i].rxbuf
  {
    hide PortOk;
    assert DataSame(a, b, i);
  }

  lemma QuietNow(a: World, b: World, k: nat, i: int)
    requires Inv(a) && Inv(b) && QuietExcept(a, k) && Frame(a, b, k, i) && k < CHIPS && b.chips[k].stack == []
    ensures Quiet(b)
  {
    hide PortOk;
  }

  lemma ElsewhereTrans(a: World, b: World, c: World, d: World, k: nat, i: nat)
    requires Inv(a) && Inv(b) && Inv(c) && Inv(d) && Quiet(c)
    requires Elsewhere(a, b, k, i) && Untouched(b, c) && Frame(c, d, -1, i)
    ensures Elsewhere(a, d, k, i)
  {
    hide PortOk;
    FrameElsewhere'(c, d, i);
    forall q | 0 <= q < PORTS && q != i
      ensures DataSame(a, d, q)
    {
      assert DataSame(a, b, q) && DataSame(b, c, q) && DataSame(c, d, q);
    }
  }

  lemma FrameElsewhere'(a: World, b: World, i: nat)
    requires Inv(a) && Inv(b) && Quiet(a) && Frame(a, b, -1, i)
    ensures forall q :: 0 <= q < CHIPS ==> IdleKept(a.chips[q], b.chips[q])
    ensures forall q :: 0 <= q < PORTS && q != i ==> DataSame(a, b, q)
  {
    hide PortOk;
    forall q | 0 <= q < PORTS && q != i
      ensures DataSame(a, b, q)
    {
      assert Same(a, b, q);
    }
  }

  lemma QuietStill(a: World, b: World, k: int)
    requires Inv(a) && Inv(b) && QuietExcept(a, k) && Frame(a, b, -1, -1)
    ensures QuietExcept(b, k)
  {
    hide PortOk;
  }

  /** A receive service seen from an earlier state that it only shares interference with. */
  lemma ReceivedLater(a: World, m: World, b: World, k: nat, j: nat)
    requires Inv(a) && Inv(m) && Inv(b) && k < CHIPS && j < CHANNELS && QuietExcept(a, k)
    requires Frame(a, m, k, -1) || Frame(a, m, -1, -1)
    requires m.chips[k].ended == a.chips[k].ended && Received(m, b, k, j)
    ensures Received(a, b, k, j)
  {
    hide PortOk;
    hide Valid;
    var i := 4 * k + j;
    if Frame(a, m, -1, -1) {
      FrameLoosen(a, m, k, -1);
    }
    FrameAt'(a, m, k, j);
    FrameLoose(a, m, k, i);
    FrameElsewhere(a, m, k, i);
    ElsewhereTrans'(a, m, b, k, i);
  }

  lemma FrameLoose(a: World, b: World, k: int, i: int)
    requires Inv(a) && Inv(b) && Frame(a, b, k, -1)
    ensures Frame(a, b, k, i)
  {
    hide PortOk;
    hide Valid;
  }

  lemma ElsewhereTrans'(a: World, b: World, c: World, k: nat, i: nat)
    requires Inv(a) && Inv(b) && Inv(c) && Elsewhere(a, b, k, i) && Elsewhere(b, c, k, i)
    ensures Elsewhere(a, c, k, i)
  {
    hide PortOk;
    hide Valid;
    forall q | 0 <= q < PORTS && q != i
      ensures DataSame(a, c, q)
    {
      assert DataSame(a, b, q) && DataSame(b, c, q);
    }
  }

  lemma FrameUntouched(a: World, b: World)
    requires Inv(a) && Inv(b) && Rest(a) && Frame(a, b, -1, -1)
    ensures Untouched(a, b) && Rest(b)
  {
    hide PortOk;
    forall i | 0 <= i < PORTS
      ensures DataSame(a, b, i) && b.ports[i].rxbuf == []
    {
      assert Same(a, b, i);
    }
  }

  lemma NothingGranted(a: World, b: World, k: nat)
    requires Inv(a) && Inv(b) && Rest(a) && k < CHIPS && Frame(a, b, k, -1)
    requires b.chips[k].ended == a.chips[k].ended && b.chips[k].eoirs == a.chips[k].eoirs
    requires !b.chips[k].rx.Active? && !b.chips[k].tx.Active?
    ensures Untouched(a, b) && Rest(b)
  {
    hide PortOk;
    forall i | 0 <= i < PORTS
      ensures DataSame(a, b, i) && b.ports[i].rxbuf == []
    {
      assert Same(a, b, i);
    }
  }

  lemma RequestFields(r: Request)
    requires RequestOk(r) && r.Active?
    ensures ChanOf(RequestByte(r)) == r.chan && (GoodData(RequestByte(r)) <==> r.vct == 3)
  {
  }

  lemma GrantedAt(a: World, b: World, k: nat, j: nat)
    requires Inv(a) && Inv(b) && Rest(a) && k < CHIPS && j < CHANNELS && Frame(a, b, k, -1)
    ensures b.ports[4 * k + j].rxbuf == []
  {
    hide PortOk;
    assert Same(a, b, 4 * k + j);
  }

  /** One transmit service of channel `j`, as seen from the start of the call. */
  ghost predicate Sent(a: World, b: World, k: nat, j: nat)
    requires Inv(a) && Inv(b) && k < CHIPS && j < CHANNELS
  {
    var i := 4 * k + j;
    var c, d := a.chips[k], b.chips[k];
    var p, q := a.ports[i], b.ports[i];
    && Elsewhere(a, b, k, i)
    && |d.ended| == |c.ended| + 1 && d.stack == []
    && var e := d.ended[|c.ended|];
    && d.ended == c.ended + [e] && e.kind == Tx && e.chan == j
    && (e.noTrans <==> e.moved == 0) && T.Burst(p.line.queue, e.room) <= e.moved <= T.FIFO_ROOM && e.moved <= e.room
    && |d.chans[j].sent| == |c.chans[j].sent| + e.moved
    && var out := d.chans[j].sent[|c.chans[j].sent|..];
    && d.chans[j].sent == c.chans[j].sent + out && q.line.sent == p.line.sent + out
    && (out <= p.line.queue || p.line.queue <= out)
    && p.line.sent + p.line.queue <= q.line.sent + q.line.queue
    && d.chans[j].regs == (if e.moved == 0 then c.chans[j].regs[IER := 0x28] else c.chans[j].regs)
    && d.chans[j].popped == c.chans[j].popped && q == p.(line := q.line)
  }

  /** IER bit 0: the channel asks for transmit service. */
  predicate Asking(ier: Byte) { ier % 2 == 1 }

  /**
   What a transmit service does to the two requests, for any channel.  `line` is the
   ring when its lock was taken and `room` what TFTC answered: the channel listens
   afterwards if it did before or had nothing to send or nowhere to put it, and it
   still asks for transmit service only if it had both bytes and room.
   */
  lemma TransmitGates(a: World, b: World, k: nat, j: nat, line: T.Line)
    requires Inv(a) && Inv(b) && k < CHIPS && j < CHANNELS && Transmitted(a, b, k, j, line)
    ensures var was, now := a.chips[k].chans[j].regs, b.chips[k].chans[j].regs;
            var room := b.chips[k].ended[|a.chips[k].ended|].room;
            && IER in was && IER in now
            && (Listening(now[IER]) <==> Listening(was[IER]) || line.queue == [] || room == 0)
            && (Asking(now[IER]) <==> Asking(was[IER]) && line.queue != [] && room > 0)
            && (room == 0 ==> b.ports[4 * k + j].line == line)
            && b.ports[4 * k + j].det == a.ports[4 * k + j].det
  {
    hide PortOk;
    var room := b.chips[k].ended[|a.chips[k].ended|].room;
    if room == 0 {
      assert line.queue[0..] == line.queue && line.sent + line.queue[..0] == line.sent;
    }
  }

  /** So a muted channel armed for transmit (IER = 0x01) listens again exactly if there was nothing to send or no room. */
  lemma IdleUnmutes(a: World, b: World, k: nat, j: nat, line: T.Line)
    requires Inv(a) && Inv(b) && k < CHIPS && j < CHANNELS && Transmitted(a, b, k, j, line)
    requires a.ports[4 * k + j].det.off && a.chips[k].chans[j].regs[IER] == 0x01
    ensures b.ports[4 * k + j].det.off && IER in b.chips[k].chans[j].regs
    ensures Listening(b.chips[k].chans[j].regs[IER]) <==>
            line.queue == [] || b.chips[k].ended[|a.chips[k].ended|].room == 0
  {
    hide PortOk;
    hide Transmitted;
    TransmitGates(a, b, k, j, line);
  }

  /** A speed change leaves any channel asking for receive and transmit service, muted or not. */
  lemma SpeedUnmutes(regs: map<Reg, Byte>, r: Rate)
    ensures var image := Written(regs, TermiosWrites(r));
            IER in image && image[IER] == 0x09 && Listening(image[IER])
  {
    hide Written;
    LastWriteWins(regs, TermiosWrites(r), 6);
  }

  /** Only outside events between `a`, the three states in `looks`, and `b`. */
  ghost predicate Successive(a: World, looks: (World, World, World), b: World) {
    && Inv(a) && Inv(looks.0) && Inv(looks.1) && Inv(looks.2) && Inv(b)
    && Frame(a, looks.0, -1, -1) && Frame(looks.0, looks.1, -1, -1)
    && Frame(looks.1, looks.2, -1, -1) && Frame(looks.2, b, -1, -1)
  }

  /** TIR or RIR showed a request at the first look, and again at the second. */
  ghost predicate SeenTwice(looks: (World, World, World), last: World, k: nat)
    requires Inv(looks.0) && Inv(looks.1) && Inv(looks.2) && Inv(last) && k < CHIPS
  {
    && (looks.0.chips[k].tx.Waiting? || looks.1.chips[k].rx.Waiting?)
    && (looks.2.chips[k].tx.Waiting? || last.chips[k].rx.Waiting?)
  }

  /** Exactly one service was performed on chip `k`: the one the chip granted. */
  ghost predicate Served(a: World, b: World, k: nat)
    requires Inv(a) && Inv(b) && k < CHIPS
  {
    && |b.chips[k].ended| == |a.chips[k].ended| + 1
    && var e := b.chips[k].ended[|a.chips[k].ended|];
    && e.chan < CHANNELS
    && (e.kind == Rx ==> Received(a, b, k, e.chan))
    && (e.kind == Tx ==> Sent(a, b, k, e.chan))
  }

  lemma BothLooks(a: World, looks: (World, World, World), last: World, k: nat)
    requires Successive(a, looks, last) && k < CHIPS
    ensures SeenTwice(looks, last, k) <==>
            (looks.0.chips[k].tx.Waiting? || looks.1.chips[k].rx.Waiting?)
            && (looks.2.chips[k].tx.Waiting? || last.chips[k].rx.Waiting?)
  {
    hide PortOk;
    hide Frame;
  }

  /** The type of the first service on chip `k` after `a`. */
  ghost function KindServed(a: World, b: World, k: nat): Kind
    requires Inv(a) && Inv(b) && k < CHIPS
  {
    if |b.chips[k].ended| > |a.chips[k].ended| then b.chips[k].ended[|a.chips[k].ended|].kind else Rx
  }

  lemma RestAfter(a: World, b: World, k: nat, i: nat)
    requires Inv(a) && Inv(b) && Rest(a) && k < CHIPS && i < PORTS
    requires Elsewhere(a, b, k, i) && b.chips[k].stack == [] && b.ports[i].rxbuf == []
    ensures Rest(b)
  {
    hide PortOk;
    forall q | 0 <= q < PORTS
      ensures b.ports[q].rxbuf == []
    {
      assert q != i ==> DataSame(a, b, q);
    }
    forall q | 0 <= q < CHIPS && q != -1
      ensures b.chips[q].stack == []
    {
      assert q != k ==> IdleKept(a.chips[q], b.chips[q]);
    }
  }

  lemma ReceivedIsServed(a: World, b: World, k: nat, j: nat)
    requires Inv(a) && Inv(b) && Rest(a) && k < CHIPS && j < CHANNELS && Received(a, b, k, j)
    ensures Served(a, b, k) && Rest(b) && KindServed(a, b, k) == Rx
  {
    hide PortOk;
    RestAfter(a, b, k, 4 * k + j);
  }

  lemma TransmittedIsServed(a: World, m: World, b: World, k: nat, j: nat, line: T.Line)
    requires Inv(a) && Inv(m) && Inv(b) && Rest(a) && k < CHIPS && j < CHANNELS
    requires Frame(a, m, k, -1) && m.chips[k].ended == a.chips[k].ended
    requires Frame(m, b, k, 4 * k + j) && Transmitted(m, b, k, j, line)
    ensures Served(a, b, k) && Rest(b) && KindServed(a, b, k) == Tx
  {
    hide PortOk;
    hide Valid;
    var i := 4 * k + j;
    FrameAt'(a, m, k, j);
    FrameSelect(a, m, b, k, i);
    FrameElsewhere(a, b, k, i);
    SentFacts(a, m, b, k, j, line);
    RestAfter(a, b, k, i);
  }

  lemma SentFacts(a: World, m: World, b: World, k: nat, j: nat, line: T.Line)
    requires Inv(a) && Inv(m) && Inv(b) && k < CHIPS && j < CHANNELS
    requires PortKept(a.ports[4 * k + j], m.ports[4 * k + j])
    requires ChannelKept(a.chips[k].chans[j], m.chips[k].chans[j])
    requires m.chips[k].ended == a.chips[k].ended
    requires Elsewhere(a, b, k, 4 * k + j) && Transmitted(m, b, k, j, line)
    ensures Sent(a, b, k, j)
  {
    hide PortOk;
    hide Elsewhere;
    var c, d := a.chips[k].chans[j], b.chips[k].chans[j];
    var e := b.chips[k].ended[|a.chips[k].ended|];
    var n := T.Burst(line.queue, e.room);
    assert d.sent[|c.sent|..] == line.queue[..n];
    assert line.queue[..n] + line.queue[n..] == line.queue;
    T.Regroup(line.sent, line.queue[..n], line.queue[n..]);
  }

  lemma StillResting(a: World, b: World)
    requires Inv(a) && Inv(b) && Rest(a) && Quiet(b) && Untouched(a, b)
    ensures Rest(b)
  {
    hide PortOk;
    forall i | 0 <= i < PORTS
      ensures b.ports[i].rxbuf == []
    {
      assert DataSame(a, b, i);
    }
  }

  /** A port as the driver allocates it. */
  function NewPort(): Port {
    Port(false, 0, T.FRESH, 0, S.Activated(0), 0, [], 0, [], [], [])
  }

  /** Nothing has been read from or written to the chip's data registers yet. */
  ghost predicate Unused(c: Chip) {
    c.ended == [] && forall j :: 0 <= j < |c.chans| ==> c.chans[j].sent == [] && c.chans[j].popped == []
  }

  /** Within a receive context on channel `j`, only that channel's FIFO and the port's buffer moved. */
  ghost predicate InRx(a: World, b: World, k: nat, j: nat)
    requires Inv(a) && Inv(b) && k < CHIPS && j < CHANNELS
  {
    var c, d := a.chips[k], b.chips[k];
    var p, q := a.ports[4 * k + j], b.ports[4 * k + j];
    && c.rx.Active? && c.rx.chan == j && d.rx == c.rx
    && d.car == c.car && d.ended == c.ended && d.eoirs == c.eoirs && d.balk == c.balk
    && d.chans[j].sent == c.chans[j].sent && d.chans[j].regs == c.chans[j].regs
    && PortKept(p.(rxbuf := q.rxbuf), q) && d.room == c.room
  }

  /** COR2 bit 5: the channel takes embedded transmit commands. */
  predicate EtcOn(ch: Channel) { COR2 in ch.regs && ch.regs[COR2] / 32 % 2 == 1 }

  /**
   What the line means: with embedded commands on, `bytes` decode to the accepted
   writes and breaks; off, they are literal, which is right exactly for plain text.
   */
  ghost predicate LineMeans(etc: bool, bytes: seq<Byte>, line: T.Line) {
    if etc then
      var d := T.Decode(T.IDLE, bytes);
      && !d.bad && d.items <= line.accepted
      && (line.queue == [] ==> d.items == line.accepted)
    else
      && (T.Plain(line.accepted) ==> T.Literal(bytes) <= line.accepted)
      && (line.queue == [] ==> (T.Literal(bytes) == line.accepted <==> T.Plain(line.accepted)))
  }

  /** The characters of every service that was no error and found the port open. */
  function OpenBytes(log: seq<RxEntry>): seq<Byte> {
    if log == [] then []
    else
      var e := log[|log| - 1];
      OpenBytes(log[..|log| - 1]) + if !Erroneous(e.request) && e.open then e.bytes else []
  }

  lemma {:induction false} DeliveredWhileOpen(log: seq<RxEntry>)
    requires forall t :: 0 <= t < |log| ==> EntryOk(log[t])
    ensures DeliveredBytes(log) == OpenBytes(log)
  {
    if log != [] {
      assert EntryOk(log[|log| - 1]);
      DeliveredWhileOpen(log[..|log| - 1]);
    }
  }

  lemma PortKeptRefl(p: Port)
    ensures PortKept(p, p)
  {
  }

  lemma InRxTrans(a: World, b: World, c: World, k: nat, j: nat)
    requires Inv(a) && Inv(b) && Inv(c) && k < CHIPS && j < CHANNELS && InRx(a, b, k, j) && InRx(b, c, k, j)
    ensures InRx(a, c, k, j)
  {
    hide PortOk;
  }

  /**
   What the invariant gives for every port in every reachable state.  The chip was
   never accessed illegally.  The bytes sent since activation and those in the ring
   encode exactly the accepted writes and breaks, and mean them as COR2 allows.
   For an open port that is always the literal meaning, and the channel asks for
   receive service unless the port is muted.
   Every character that arrived is in the FIFO, in a service's hands, or in the
   record of one service, where it was delivered unless the service was an error or
   the port was closed.  Only error services count as exceptions; a muted receiver
   saw a storm, and a storm always mutes.
   */
  lemma RunGuarantee(w: World, i: nat)
    requires Inv(w) && i < PORTS
    ensures !w.chips[i / 4].fault
    ensures var p, ch := w.ports[i], ChanAt(w, i);
            && ch.sent[p.base..] + p.line.queue == T.Encode(p.line.accepted)
            && LineMeans(EtcOn(ch), ch.sent[p.base..], p.line)
            && (p.open ==> !EtcOn(ch) && IER in ch.regs && (p.det.off || Listening(ch.regs[IER])))
            && ch.arrived == AllBytes(p.log) + p.rxbuf + ch.fifo
            && p.flip == OpenBytes(p.log)
            && (forall t :: 0 <= t < |p.log| ==> EntryOk(p.log[t]))
            && |p.times| == Errors(p.log, p.mark)
            && (p.det.off ==> exists t: nat :: S.Crowded(p.times, t, 200, HZ))
            && (forall t: nat :: S.Crowded(p.times, t, 399, HZ) ==> p.det.off)
  {
    var p, ch := w.ports[i], ChanAt(w, i);
    assert PortOk(p, ch, w.now);
    assert ChannelOk(ch);
    T.ConservedDecodes(p.line);
    T.ConservedLiteral(p.line);
    DeliveredWhileOpen(p.log);
    if p.det.off {
      S.MutedOnlyByStorm(p.since, p.times, HZ);
    }
    forall t: nat | S.Crowded(p.times, t, 399, HZ)
      ensures p.det.off
    {
      S.StormIsMuted(p.since, p.times, t, HZ);
    }
  }

  // ----- what a stretch of the run did -----------------------------------------

  /** The transmit contexts that ended on channel `j` and offered at least one slot. */
  function Slots(ended: seq<Ended>, j: nat): nat {
    if ended == [] then 0
    else
      var e := ended[|ended| - 1];
      Slots(ended[..|ended| - 1], j) + if e.kind == Tx && e.chan == j && e.room > 0 then 1 else 0
  }

  lemma SlotsNext(ended: seq<Ended>, e: Ended, j: nat)
    ensures Slots(ended + [e], j) == Slots(ended, j) + if e.kind == Tx && e.chan == j && e.room > 0 then 1 else 0
  {
    assert (ended + [e])[..|ended|] == ended;
  }

  /**
   After `n` grants that offered a slot, within one activation: the line only grew,
   and of what was queued at least a byte for each such grant has gone out, or all of it.
   */
  ghost predicate Drained(p: Port, q: Port, n: int) {
    && p.opens <= q.opens && 0 <= n
    && (p.opens == q.opens ==>
          && p.line.sent <= q.line.sent
          && p.line.sent + p.line.queue <= q.line.sent + q.line.queue
          && (n <= |q.line.sent| - |p.line.sent| || |p.line.queue| <= |q.line.sent| - |p.line.sent|))
  }

  lemma DrainedTrans(p: Port, q: Port, u: Port, n: nat, m: nat)
    requires Drained(p, q, n) && Drained(q, u, m)
    ensures Drained(p, u, n + m)
  {
    if p.opens == u.opens {
      assert |p.line.sent + p.line.queue| <= |q.line.sent + q.line.queue|;
    }
  }

  /** Nothing recorded, sent or popped is ever taken back, and every slot offered is used while bytes are queued. */
  ghost predicate Extends(a: World, b: World)
    requires Inv(a) && Inv(b)
  {
    forall i :: 0 <= i < PORTS ==> PortExtends(a, b, i)
  }

  ghost predicate PortExtends(a: World, b: World, i: nat)
    requires Inv(a) && Inv(b) && i < PORTS
  {
    && a.ports[i].log <= b.ports[i].log
    && ChanAt(a, i).sent <= ChanAt(b, i).sent && ChanAt(a, i).popped <= ChanAt(b, i).popped
    && Drained(a.ports[i], b.ports[i], SlotsBetween(a, b, i))
  }

  function SlotsBetween(a: World, b: World, i: nat): int
    requires Inv(a) && Inv(b) && i < PORTS
  {
    Slots(b.chips[i / 4].ended, i % 4) - Slots(a.chips[i / 4].ended, i % 4)
  }

  lemma ExtendsTrans(a: World, b: World, c: World)
    requires Inv(a) && Inv(b) && Inv(c) && Extends(a, b) && Extends(b, c)
    ensures Extends(a, c)
  {
    hide PortOk;
    hide Valid;
    hide Drained;
    hide Slots;
    forall i | 0 <= i < PORTS
      ensures PortExtends(a, c, i)
    {
      assert PortExtends(a, b, i) && PortExtends(b, c, i);
      DrainCounts(a.ports[i], b.ports[i], SlotsBetween(a, b, i));
      DrainCounts(b.ports[i], c.ports[i], SlotsBetween(b, c, i));
      DrainedTrans(a.ports[i], b.ports[i], c.ports[i], SlotsBetween(a, b, i), SlotsBetween(b, c, i));
    }
  }

  lemma DrainCounts(p: Port, q: Port, n: int)
    requires Drained(p, q, n)
    ensures 0 <= n
  {
  }

  lemma RingKeptDrains(p: Port, q: Port)
    requires RingKept(p, q)
    ensures Drained(p, q, 0)
  {
  }

  lemma UntouchedExtends(a: World, b: World)
    requires Inv(a) && Inv(b) && Untouched(a, b)
    ensures Extends(a, b)
  {
    hide PortOk;
    hide Valid;
    hide Slots;
    hide Drained;
    forall i | 0 <= i < PORTS
      ensures PortExtends(a, b, i)
    {
      assert DataSame(a, b, i) && IdleKept(a.chips[i / 4], b.chips[i / 4]);
      RingKeptDrains(a.ports[i], b.ports[i]);
    }
  }

  /** A port whose data did not move, and whose channel ended no context. */
  lemma OtherExtends(a: World, b: World, i: nat)
    requires Inv(a) && Inv(b) && i < PORTS && DataSame(a, b, i) && SlotsBetween(a, b, i) == 0
    ensures PortExtends(a, b, i)
  {
    hide PortOk;
    hide Valid;
    hide Slots;
    hide Drained;
    RingKeptDrains(a.ports[i], b.ports[i]);
  }

  lemma OwnExtends(a: World, b: World, k: nat, j: nat)
    requires Inv(a) && Inv(b) && k < CHIPS && j < CHANNELS
    requires Received(a, b, k, j) || Sent(a, b, k, j)
    ensures PortExtends(a, b, 4 * k + j)
  {
    hide PortOk;
    hide Valid;
    hide Elsewhere;
    hide Slots;
    hide Drained;
    hide DroppedOne;
    hide TookAll;
    var i := 4 * k + j;
    assert i / 4 == k && i % 4 == j;
    SlotsNext(a.chips[k].ended, b.chips[k].ended[|a.chips[k].ended|], j);
    if Received(a, b, k, j) {
      RingKeptDrains(a.ports[i], b.ports[i]);
    } else {
      SentDrains(a, b, k, j);
    }
  }

  /** What Served says of the rest of the card. */
  lemma ServedElsewhere(a: World, b: World, k: nat)
    requires Inv(a) && Inv(b) && k < CHIPS && Served(a, b, k)
    ensures |b.chips[k].ended| == |a.chips[k].ended| + 1
    ensures var e := b.chips[k].ended[|a.chips[k].ended|];
            && e.chan < CHANNELS && b.chips[k].ended == a.chips[k].ended + [e]
            && Elsewhere(a, b, k, 4 * k + e.chan)
            && (e.kind == Rx ==> Received(a, b, k, e.chan)) && (e.kind == Tx ==> Sent(a, b, k, e.chan))
  {
    hide PortOk;
    hide Valid;
    hide Elsewhere;
  }

  lemma ServedExtends(a: World, b: World, k: nat)
    requires Inv(a) && Inv(b) && k < CHIPS && Served(a, b, k)
    ensures Extends(a, b)
  {
    hide PortOk;
    hide Valid;
    hide Slots;
    hide Served;
    hide Received;
    hide Sent;
    hide PortExtends;
    hide DataSame;
    ServedElsewhere(a, b, k);
    var e := b.chips[k].ended[|a.chips[k].ended|];
    OwnExtends(a, b, k, e.chan);
    forall i | 0 <= i < PORTS
      ensures PortExtends(a, b, i)
    {
      SlotsNext(a.chips[k].ended, e, i % 4);
      if i != 4 * k + e.chan {
        assert i / 4 != k ==> IdleKept(a.chips[i / 4], b.chips[i / 4]);
        OtherExtends(a, b, i);
      }
    }
  }

  lemma SentDrains(a: World, b: World, k: nat, j: nat)
    requires Inv(a) && Inv(b) && k < CHIPS && j < CHANNELS && Sent(a, b, k, j)
    ensures var e := b.chips[k].ended[|a.chips[k].ended|];
            Drained(a.ports[4 * k + j], b.ports[4 * k + j], if e.room > 0 then 1 else 0)
  {
    hide PortOk;
    hide Valid;
    hide Elsewhere;
  }

  /**
   What was queued on a port has all gone out, in order, once as many transmit grants
   as it had bytes have offered a slot, if the port was not activated anew meanwhile;
   writers may have queued more.
   */
  lemma StretchDrains(a: World, b: World, i: nat)
    requires Inv(a) && Inv(b) && i < PORTS && PortExtends(a, b, i)
    requires a.ports[i].opens == b.ports[i].opens
    requires |a.ports[i].line.queue| <= SlotsBetween(a, b, i)
    ensures a.ports[i].line.sent + a.ports[i].line.queue <= b.ports[i].line.sent
  {
    hide PortOk;
    hide Valid;
    hide Slots;
    var p, q := a.ports[i].line, b.ports[i].line;
    assert |p.sent + p.queue| <= |q.sent|;
    assert q.sent == (q.sent + q.queue)[..|q.sent|];
  }

  lemma ServiceExtends(a: World, b: World, k: nat, did: bool)
    requires Inv(a) && Inv(b) && k < CHIPS && if did then Served(a, b, k) else Untouched(a, b)
    ensures Extends(a, b)
  {
    hide Extends;
    if did {
      ServedExtends(a, b, k);
    } else {
      UntouchedExtends(a, b);
    }
  }

  lemma ExtendsRefl(a: World)
    requires Inv(a)
    ensures Extends(a, a)
  {
    hide PortOk;
  }

  /**
   Between two states at rest, what a port's tty was given and what left its
   channel's FIFO are accounted for by the services recorded in between.
   */
  lemma StretchAccounts(a: World, b: World, i: nat)
    requires Inv(a) && Inv(b) && Rest(a) && Rest(b) && i < PORTS && PortExtends(a, b, i)
    ensures var more := b.ports[i].log[|a.ports[i].log|..];
            && b.ports[i].flip == a.ports[i].flip + OpenBytes(more)
            && ChanAt(b, i).popped == ChanAt(a, i).popped + AllBytes(more)
            && forall t :: 0 <= t < |more| ==> EntryOk(more[t])
  {
    var p, q := a.ports[i], b.ports[i];
    var more := q.log[|p.log|..];
    assert PortOk(p, ChanAt(a, i), a.now) && PortOk(q, ChanAt(b, i), b.now);
    hide Inv;
    hide PortOk;
    hide EntryOk;
    hide AllBytes;
    hide OpenBytes;
    hide DeliveredBytes;
    assert q.log == p.log + more;
    DeliveredWhileOpen(p.log);
    DeliveredWhileOpen(q.log);
    RecordConcat(p.log, more);
    assert AllBytes(p.log) + [] == AllBytes(p.log) && AllBytes(q.log) + [] == AllBytes(q.log);
  }

  lemma {:induction false} RecordConcat(log: seq<RxEntry>, more: seq<RxEntry>)
    ensures AllBytes(log + more) == AllBytes(log) + AllBytes(more)
    ensures OpenBytes(log + more) == OpenBytes(log) + OpenBytes(more)
    decreases |more|
  {
    if more == [] {
      assert log + more == log;
    } else {
      var n := |more| - 1;
      var e := more[n];
      RecordConcat(log, more[..n]);
      assert (log + more)[..|log| + n] == log + more[..n] && (log + more)[|log| + n] == e;
      T.Regroup(AllBytes(log), AllBytes(more[..n]), e.bytes);
      T.Regroup(OpenBytes(log), OpenBytes(more[..n]), if !Erroneous(e.request) && e.open then e.bytes else []);
    }
  }

  // ----- the port's record against the chip's --------------------------------------

  /** The receive contexts that ended on channel `j`, as the chip saw them. */
  function RxEnded(ended: seq<Ended>, j: nat): seq<Ended> {
    if ended == [] then []
    else
      var e := ended[|ended| - 1];
      RxEnded(ended[..|ended| - 1], j) + if e.kind == Rx && e.chan == j then [e] else []
  }

  /** Cause, RFOC's answer and the number of RDR reads are what the chip saw. */
  ghost predicate Tallies(entry: RxEntry, e: Ended) {
    entry.request == e.request && entry.count == e.room && |entry.bytes| == e.moved
  }

  ghost predicate Matches(log: seq<RxEntry>, ended: seq<Ended>) {
    |log| == |ended| && forall t :: 0 <= t < |log| ==> Tallies(log[t], ended[t])
  }

  /** The bytes the chip saw written in the transmit contexts that ended on channel `j`. */
  function TxMoved(ended: seq<Ended>, j: nat): nat {
    if ended == [] then 0
    else
      var e := ended[|ended| - 1];
      TxMoved(ended[..|ended| - 1], j) + if e.kind == Tx && e.chan == j then e.moved else 0
  }

  lemma TxMovedNext(ended: seq<Ended>, e: Ended, j: nat)
    ensures TxMoved(ended + [e], j) == TxMoved(ended, j) + if e.kind == Tx && e.chan == j then e.moved else 0
  {
    assert (ended + [e])[..|ended|] == ended;
  }

  /**
   Between services, every port's record is the chip's own list of finished receive
   contexts, one entry each, and every byte sent was moved in a finished transmit context.
   */
  ghost predicate Recorded(w: World)
    requires Inv(w)
  {
    forall i :: 0 <= i < PORTS ==> PortRecorded(w, i)
  }

  ghost predicate PortRecorded(w: World, i: nat)
    requires Inv(w) && i < PORTS
  {
    && Matches(w.ports[i].log, RxEnded(w.chips[i / 4].ended, i % 4))
    && |ChanAt(w, i).sent| == TxMoved(w.chips[i / 4].ended, i % 4)
  }

  lemma RxEndedNext(ended: seq<Ended>, e: Ended, j: nat)
    ensures RxEnded(ended + [e], j) == RxEnded(ended, j) + if e.kind == Rx && e.chan == j then [e] else []
  {
    assert (ended + [e])[..|ended|] == ended;
  }

  lemma UntouchedRecords(a: World, b: World)
    requires Inv(a) && Inv(b) && Untouched(a, b) && Recorded(a)
    ensures Recorded(b)
  {
    hide PortOk;
    hide Valid;
    hide Matches;
    hide RxEnded;
    hide TxMoved;
    forall i | 0 <= i < PORTS
      ensures PortRecorded(b, i)
    {
      assert PortRecorded(a, i) && DataSame(a, b, i) && IdleKept(a.chips[i / 4], b.chips[i / 4]);
    }
  }

  lemma OwnRecorded(a: World, b: World, k: nat, j: nat)
    requires Inv(a) && Inv(b) && k < CHIPS && j < CHANNELS && PortRecorded(a, 4 * k + j)
    requires Received(a, b, k, j) || Sent(a, b, k, j)
    ensures PortRecorded(b, 4 * k + j)
  {
    hide PortOk;
    hide Valid;
    hide Elsewhere;
    hide RxEnded;
    hide TxMoved;
    hide DroppedOne;
    hide TookAll;
    var i := 4 * k + j;
    assert i / 4 == k && i % 4 == j;
    var e := b.chips[k].ended[|a.chips[k].ended|];
    RxEndedNext(a.chips[k].ended, e, j);
    TxMovedNext(a.chips[k].ended, e, j);
  }

  lemma OtherRecorded(a: World, b: World, i: nat)
    requires Inv(a) && Inv(b) && i < PORTS && DataSame(a, b, i) && PortRecorded(a, i)
    requires RxEnded(b.chips[i / 4].ended, i % 4) == RxEnded(a.chips[i / 4].ended, i % 4)
    requires TxMoved(b.chips[i / 4].ended, i % 4) == TxMoved(a.chips[i / 4].ended, i % 4)
    ensures PortRecorded(b, i)
  {
    hide PortOk;
    hide Valid;
    hide RxEnded;
    hide TxMoved;
  }

  lemma ServedRecords(a: World, b: World, k: nat)
    requires Inv(a) && Inv(b) && k < CHIPS && Served(a, b, k) && Recorded(a)
    ensures Recorded(b)
  {
    hide PortOk;
    hide Valid;
    hide RxEnded;
    hide TxMoved;
    hide Served;
    hide Received;
    hide Sent;
    hide PortRecorded;
    hide DataSame;
    ServedElsewhere(a, b, k);
    var e := b.chips[k].ended[|a.chips[k].ended|];
    OwnRecorded(a, b, k, e.chan);
    forall i | 0 <= i < PORTS
      ensures PortRecorded(b, i)
    {
      RxEndedNext(a.chips[k].ended, e, i % 4);
      TxMovedNext(a.chips[k].ended, e, i % 4);
      if i != 4 * k + e.chan {
        assert i / 4 != k ==> IdleKept(a.chips[i / 4], b.chips[i / 4]);
        OtherRecorded(a, b, i);
      }
    }
  }

  lemma ServiceRecords(a: World, b: World, k: nat, did: bool)
    requires Inv(a) && Inv(b) && k < CHIPS && (if did then Served(a, b, k) else Untouched(a, b)) && Recorded(a)
    ensures Recorded(b)
  {
    hide Recorded;
    if did {
      ServedRecords(a, b, k);
    } else {
      UntouchedRecords(a, b);
    }
  }

  // ----- who decides whether a channel listens ------------------------------------------

  /** A port's exception detector and its channel's IER. */
  datatype Gate = Gate(det: S.Detector, ier: Byte)

  /** What the driver does to them: open, close, arm, end an idle transmit service, change speed, count an exception. */
  datatype GateOp = Opens(now: nat) | Closes | Arms | IdleEnds | Respeeds | Excepts(now: nat)

  function GateStep(g: Gate, op: GateOp): Gate {
    match op
    case Opens(now) => Gate(S.Activated(now), 0x29)
    case Closes => g.(ier := 0x00)
    case Arms => g.(ier := if g.det.off then 0x01 else 0x29)
    case IdleEnds => g.(ier := 0x28)
    case Respeeds => g.(ier := 0x09)
    case Excepts(now) =>
      var d := S.Count(g.det, now, HZ);
      Gate(d, if d.off && !g.det.off then 0x01 else g.ier)
  }

  function GateRun(g: Gate, ops: seq<GateOp>): Gate {
    if ops == [] then g else GateStep(GateRun(g, ops[..|ops| - 1]), ops[|ops| - 1])
  }

  /** Only the exception that crosses the limit writes IER; every other operation does. */
  predicate WritesIer(g: Gate, op: GateOp) {
    op.Excepts? ==> !g.det.off && S.Count(g.det, op.now, HZ).off
  }

  predicate Lifts(op: GateOp) { op.IdleEnds? || op.Respeeds? }

  /** Operation `i` was the last to write IER, and lifted the mute. */
  ghost predicate LiftedSince(g: Gate, ops: seq<GateOp>, i: nat) {
    i < |ops| && Lifts(ops[i]) && forall j :: i < j < |ops| ==> !WritesIer(GateRun(g, ops[..j]), ops[j])
  }

  lemma LiftedLonger(g: Gate, ops: seq<GateOp>, i: nat)
    requires i < |ops| - 1
    ensures var rest := ops[..|ops| - 1];
            LiftedSince(g, ops, i) <==> LiftedSince(g, rest, i) && !WritesIer(GateRun(g, rest), ops[|ops| - 1])
  {
    hide GateRun;
    hide WritesIer;
    var rest := ops[..|ops| - 1];
    forall j | 0 <= j <= |rest|
      ensures rest[..j] == ops[..j]
    {
    }
  }

  lemma GateNext(g: Gate, op: GateOp)
    requires GateStep(g, op).det.off
    ensures Listening(GateStep(g, op).ier) <==> Lifts(op) || (g.det.off && !WritesIer(g, op) && Listening(g.ier))
    ensures !WritesIer(g, op) ==> g.det.off
  {
  }

  /**
   Over any history that starts unmuted: a port that ends muted listens all the same
   exactly if the last operation to write IER was an idle transmit end or a speed change.
   */
  lemma {:induction false} MutedListensExactly(g: Gate, ops: seq<GateOp>)
    requires !g.det.off && GateRun(g, ops).det.off
    ensures Listening(GateRun(g, ops).ier) <==> exists i: nat :: LiftedSince(g, ops, i)
  {
    var n := |ops| - 1;
    var rest := ops[..n];
    var m := GateRun(g, rest);
    GateNext(m, ops[n]);
    if m.det.off {
      MutedListensExactly(g, rest);
    }
    hide GateRun;
    hide GateStep;
    hide WritesIer;
    assert LiftedSince(g, ops, n) <==> Lifts(ops[n]);
    forall i: nat | i < n
      ensures LiftedSince(g, ops, i) <==> LiftedSince(g, rest, i) && !WritesIer(m, ops[n])
    {
      LiftedLonger(g, ops, i);
    }
  }

  /** Once muted, exceptions never write IER again: a lifted mute is not restored by any storm. */
  lemma {:induction false} StormsDoNotRestore(g: Gate, ops: seq<GateOp>)
    requires g.det.off && forall i :: 0 <= i < |ops| ==> ops[i].Excepts?
    ensures GateRun(g, ops).ier == g.ier && GateRun(g, ops).det.off
  {
    if ops != [] {
      StormsDoNotRestore(g, ops[..|ops| - 1]);
    }
  }

  /** The gate of port `i`. */
  ghost function GateAt(w: World, i: nat): Gate
    requires Inv(w) && i < PORTS
  {
    ChannelHasIer(w, i);
    Gate(w.ports[i].det, ChanAt(w, i).regs[IER])
  }

  lemma GateDet(w: World, i: nat)
    requires Inv(w) && i < PORTS
    ensures GateAt(w, i).det == w.ports[i].det
  {
  }

  lemma ChannelHasIer(w: World, i: nat)
    requires Inv(w) && i < PORTS
    ensures IER in ChanAt(w, i).regs
  {
    hide PortOk;
    assert ChannelOk(ChanAt(w, i));
  }

  /** The code's own steps are these: a counted exception, */
  lemma ExceptionGate(a: World, b: World, k: nat, j: nat, request: Request, count: nat)
    requires Inv(a) && Inv(b) && k < CHIPS && j < CHANNELS && Excepted(a, b, k, j, request, count)
    ensures var i := 4 * k + j;
            |b.ports[i].times| > 0 &&
            GateAt(b, i) == GateStep(GateAt(a, i), Excepts(b.ports[i].times[|a.ports[i].times|]))
  {
    hide PortOk;
    hide S.Count;
    var i := 4 * k + j;
    assert i / 4 == k && i % 4 == j;
  }

  /** a transmit service, */
  lemma TransmitGate(a: World, b: World, k: nat, j: nat, line: T.Line)
    requires Inv(a) && Inv(b) && k < CHIPS && j < CHANNELS && Transmitted(a, b, k, j, line)
    ensures var i := 4 * k + j;
            var room := b.chips[k].ended[|a.chips[k].ended|].room;
            GateAt(b, i) == if line.queue == [] || room == 0 then GateStep(GateAt(a, i), IdleEnds) else GateAt(a, i)
  {
    hide PortOk;
    var i := 4 * k + j;
    assert i / 4 == k && i % 4 == j;
  }

  /** arming, */
  lemma ArmGate(a: World, b: World, k: nat, j: nat)
    requires Inv(a) && Inv(b) && k < CHIPS && j < CHANNELS && ArmedFrom(a, b, k, j) && PortsKept(a, b)
    requires Wants(a.ports[4 * k + j])
    ensures GateAt(b, 4 * k + j) == GateStep(GateAt(a, 4 * k + j), Arms)
  {
    hide PortOk;
    var i := 4 * k + j;
    assert i / 4 == k && i % 4 == j;
    assert PortKept(a.ports[i], b.ports[i]);
  }

  lemma ArmedNow(a: World, b: World, k: nat, j: nat)
    requires Inv(a) && Inv(b) && k < CHIPS && j < CHANNELS && ArmedFrom(a, b, k, j) && PortsKept(a, b)
    requires a.ports[4 * k + j].open && a.ports[4 * k + j].line.queue != []
    ensures GateAt(b, 4 * k + j).ier == if b.ports[4 * k + j].det.off then 0x01 else 0x29
  {
    hide PortOk;
    ArmGate(a, b, k, j);
    var i := 4 * k + j;
    assert PortKept(a.ports[i], b.ports[i]);
  }

  /** and a list of writes that ends by writing `v` to IER. */
  lemma ProgramGate(a: World, b: World, k: nat, j: nat, writes: seq<(Reg, Byte)>, n: nat)
    requires Inv(a) && Inv(b) && k < CHIPS && j < CHANNELS
    requires Programmed(a, b, k, j, Written(a.chips[k].chans[j].regs, writes))
    requires n < |writes| && writes[n].0 == IER && forall m :: n < m < |writes| ==> writes[m].0 != IER
    ensures GateAt(b, 4 * k + j) == Gate(a.ports[4 * k + j].det, writes[n].1)
  {
    hide PortOk;
    hide Written;
    var i := 4 * k + j;
    assert i / 4 == k && i % 4 == j;
    LastWriteWins(a.chips[k].chans[j].regs, writes, n);
  }

  // ----- what the poll thread did ------------------------------------------------------

  /** One call of nm32a_service: the states around it, at its four request reads, and at its acknowledge. */
  datatype Attempt = Attempt(before: World, looks: (World, World, World), seen: World, acked: World, after: World, did: bool)

  /**
   It served exactly what the chip granted, receive before transmit; or it saw no
   request twice, or no request was left at the acknowledge, and nothing moved.
   */
  ghost predicate AttemptOk(t: Attempt, k: nat) {
    && k < CHIPS && Inv(t.before) && Inv(t.after) && Inv(t.acked)
    && Successive(t.before, t.looks, t.seen) && Frame(t.seen, t.acked, -1, -1)
    && (if t.did then
          && Served(t.before, t.after, k) && SeenTwice(t.looks, t.seen, k)
          && KindServed(t.before, t.after, k) == (if t.acked.chips[k].rx.Waiting? then Rx else Tx)
        else
          && Untouched(t.before, t.after)
          && (!SeenTwice(t.looks, t.seen, k)
              || (!t.acked.chips[k].rx.Waiting? && !t.acked.chips[k].tx.Waiting?)))
  }

  lemma AttemptIs(t: Attempt, k: nat)
    requires k < CHIPS && Inv(t.before) && Inv(t.after) && Inv(t.acked)
    requires Successive(t.before, t.looks, t.seen) && Frame(t.seen, t.acked, -1, -1)
    requires if t.did then Served(t.before, t.after, k) else Untouched(t.before, t.after)
    requires t.did ==> SeenTwice(t.looks, t.seen, k)
    requires SeenTwice(t.looks, t.seen, k) ==> (t.did <==> t.acked.chips[k].rx.Waiting? || t.acked.chips[k].tx.Waiting?)
    requires t.did ==> KindServed(t.before, t.after, k) == if t.acked.chips[k].rx.Waiting? then Rx else Tx
    ensures AttemptOk(t, k)
  {
    hide Inv;
    hide Successive;
    hide Frame;
    hide Served;
    hide SeenTwice;
    hide Untouched;
    hide KindServed;
  }

  /** A run of attempts from `armed` to `now`, others running before each; all but the last performed a service. */
  ghost predicate Attempted(ts: seq<Attempt>, armed: World, now: World, k: nat) {
    && Inv(armed)
    && (forall n :: 0 <= n < |ts| ==> AttemptOk(ts[n], k) && Inv(ts[n].before) && Inv(ts[n].after))
    && (forall n :: 0 <= n < |ts| - 1 ==> ts[n].did)
    && (forall n :: 0 <= n < |ts| ==> OthersRan(LeftBy(ts, n, armed), ts[n].before))
    && now == LeftBy(ts, |ts|, armed)
  }

  /** The state the first `n` attempts left. */
  function LeftBy(ts: seq<Attempt>, n: nat, armed: World): World
    requires n <= |ts|
  {
    if n == 0 then armed else ts[n - 1].after
  }

  /** Only other threads ran in between. */
  ghost predicate OthersRan(a: World, b: World) { Inv(a) && Inv(b) && Untouched(a, b) }

  lemma NoAttempts(armed: World, k: nat)
    requires Inv(armed)
    ensures Attempted([], armed, armed, k)
  {
    hide Inv;
  }

  lemma OneMoreAttempt(ts: seq<Attempt>, armed: World, w: World, t: Attempt, k: nat)
    requires Attempted(ts, armed, w, k) && (ts == [] || ts[|ts| - 1].did)
    requires AttemptOk(t, k) && OthersRan(w, t.before) && Inv(t.after)
    ensures Attempted(ts + [t], armed, t.after, k)
  {
    hide Inv;
    hide AttemptOk;
    hide OthersRan;
    var all := ts + [t];
    assert Inv(t.before) by { OthersRanInv(w, t.before); }
    forall n | 0 <= n < |all|
      ensures AttemptOk(all[n], k) && Inv(all[n].before) && Inv(all[n].after)
      ensures OthersRan(LeftBy(all, n, armed), all[n].before)
    {
      if n < |ts| {
        assert all[n] == ts[n] && LeftBy(all, n, armed) == LeftBy(ts, n, armed);
      } else {
        assert LeftBy(all, n, armed) == LeftBy(ts, |ts|, armed);
      }
    }
  }

  lemma OthersRanInv(a: World, b: World)
    requires OthersRan(a, b)
    ensures Inv(b)
  {
  }

  /** One chip's turn: the state it was found in, after arming, the attempts made, and the state it was left in. */
  datatype Sweep = Sweep(at: World, armed: World, attempts: seq<Attempt>, after: World)

  ghost predicate ArmedAll(a: World, b: World, k: nat)
    requires Inv(a) && Inv(b) && k < CHIPS
  {
    forall j :: 0 <= j < CHANNELS ==> ArmedFrom(a, b, k, j)
  }

  lemma SweepIs(s: Sweep, k: nat, burst: nat)
    requires k < CHIPS && Inv(s.at) && Inv(s.armed) && Untouched(s.at, s.armed) && ArmedAll(s.at, s.armed, k)
    requires Attempted(s.attempts, s.armed, s.after, k) && |s.attempts| <= burst
    requires |s.attempts| == burst || (s.attempts != [] && !s.attempts[|s.attempts| - 1].did)
    ensures SweepOk(s, k, burst)
  {
    hide Inv;
    hide Untouched;
    hide ArmedAll;
    hide Attempted;
  }

  /** Every wanting channel was armed; then services went on until one found nothing or the burst was used up. */
  ghost predicate SweepOk(s: Sweep, k: nat, burst: nat) {
    && k < CHIPS && Inv(s.at) && Inv(s.armed) && Untouched(s.at, s.armed)
    && ArmedAll(s.at, s.armed, k) && Attempted(s.attempts, s.armed, s.after, k) && |s.attempts| <= burst
    && (|s.attempts| == burst || (s.attempts != [] && !s.attempts[|s.attempts| - 1].did))
  }

  /** What the poll thread did about chip `k`: `busy` if it found a port of it open. */
  datatype Look = Look(k: nat, at: World, busy: bool, sweep: Sweep, after: World)

  /** One of the first `c` ports of chip `k` is open. */
  ghost predicate HasOpen(ports: seq<Port>, k: nat, c: nat) {
    exists i: nat :: 4 * k <= i < 4 * k + c && i < |ports| && ports[i].open
  }

  /** A chip with an open port was swept from the state it was found in; any other was not driven at all. */
  ghost predicate LookOk(l: Look, burst: nat) {
    && l.k < CHIPS && Inv(l.at) && Inv(l.after)
    && (l.busy <==> HasOpen(l.at.ports, l.k, 4))
    && (l.busy ==> l.sweep.at == l.at && l.sweep.after == l.after && SweepOk(l.sweep, l.k, burst))
    && (!l.busy ==> l.after == l.at)
  }

  lemma LookIs(l: Look, burst: nat)
    requires l.k < CHIPS && Inv(l.at) && Inv(l.after)
    requires l.busy <==> HasOpen(l.at.ports, l.k, 4)
    requires l.busy ==> l.sweep.at == l.at && l.sweep.after == l.after && SweepOk(l.sweep, l.k, burst)
    requires !l.busy ==> l.after == l.at
    ensures LookOk(l, burst)
  {
    hide Inv;
    hide SweepOk;
    hide HasOpen;
  }

  /** The looks lead from `a` to `b`, only other threads running in between. */
  ghost predicate Patrols(a: World, log: seq<Look>, b: World, burst: nat) {
    && Inv(a)
    && (forall n :: 0 <= n < |log| ==> LookOk(log[n], burst) && Inv(log[n].at) && Inv(log[n].after))
    && (forall n :: 0 <= n < |log| ==> OthersRan(LeftAfter(log, n, a), log[n].at))
    && b == LeftAfter(log, |log|, a)
  }

  /** The state the first `n` looks left. */
  function LeftAfter(log: seq<Look>, n: nat, a: World): World
    requires n <= |log|
  {
    if n == 0 then a else log[n - 1].after
  }

  lemma NoLooks(a: World, burst: nat)
    requires Inv(a)
    ensures Patrols(a, [], a, burst)
  {
    hide Inv;
  }

  lemma OneMoreLook(a: World, log: seq<Look>, w: World, l: Look, burst: nat)
    requires Patrols(a, log, w, burst) && LookOk(l, burst)
    requires OthersRan(w, l.at) && Inv(l.after)
    ensures Patrols(a, log + [l], l.after, burst)
  {
    hide Inv;
    hide LookOk;
    hide OthersRan;
    var all := log + [l];
    OthersRanInv(w, l.at);
    forall n | 0 <= n < |all|
      ensures LookOk(all[n], burst) && Inv(all[n].at) && Inv(all[n].after)
      ensures OthersRan(LeftAfter(all, n, a), all[n].at)
    {
      if n < |log| {
        assert all[n] == log[n] && LeftAfter(all, n, a) == LeftAfter(log, n, a);
      } else {
        assert LeftAfter(all, n, a) == LeftAfter(log, |log|, a);
      }
    }
  }

  class Card {
    var chips: seq<Chip>
    var ports: seq<Port>
    var now: nat
    var stNogrant: nat
    var stMisgrant: nat

    ghost function State(): World
      reads this
    {
      World(chips, ports, now)
    }

    /** Everything else that runs between two register accesses. */
    method Tick(locked: int)
      requires Inv(State())
      modifies this`chips, this`ports, this`now
      ensures Inv(State()) && WorldKept(old(State()), State(), locked) && Frame(old(State()), State(), -1, -1)
    {
      hide PortOk;
      hide Valid;
      hide Kept;
      hide PortKept;
      var outside: seq<Outside> := *;
      KeptRefl(State(), locked);
      for i := 0 to |outside|
        invariant Inv(State()) && WorldKept(old(State()), State(), locked)
      {
        var e := outside[i];
        ghost var before := State();
        PerturbKeeps(State(), e, locked);
        var w := Perturb(World(chips, ports, now), e, locked);
        chips, ports, now := w.chips, w.ports, w.now;
        KeptTrans(old(State()), before, State(), locked);
      }
      KeptIsFrame(old(State()), State(), locked);
    }

    // ----- register reads ------------------------------------------------------

    method ReadRir(k: nat) returns (v: Byte)
      requires k < CHIPS && Inv(State())
      modifies this`chips, this`ports, this`now
      ensures Inv(State()) && Frame(old(State()), State(), -1, -1)
      ensures v == RequestByte(chips[k].rx)
    {
      hide PortOk;
      Tick(-1);
      v := RequestByte(chips[k].rx);
    }

    method ReadTir(k: nat) returns (v: Byte)
      requires k < CHIPS && Inv(State())
      modifies this`chips, this`ports, this`now
      ensures Inv(State()) && Frame(old(State()), State(), -1, -1)
      ensures v == RequestByte(chips[k].tx)
    {
      hide PortOk;
      Tick(-1);
      v := RequestByte(chips[k].tx);
    }

    method ReadCause(k: nat) returns (v: Byte)
      requires k < CHIPS && Inv(State()) && chips[k].rx.Active?
      modifies this`chips, this`ports, this`now
      ensures Inv(State()) && Frame(old(State()), State(), -1, -1)
      ensures v == chips[k].rx.risr
    {
      hide PortOk;
      Tick(-1);
      v := ReadRisr(chips[k]).1;
    }

    /** RFOC & 0x1f: the characters the FIFO holds now, all of which the next reads may take. */
    method ReadFifoCount(k: nat) returns (n: nat)
      requires k < CHIPS && Inv(State()) && chips[k].rx.Active?
      modifies this`chips, this`ports, this`now
      ensures Inv(State()) && Frame(old(State()), State(), k, -1) && StillIn(old(chips[k]), chips[k])
      ensures n == |chips[k].chans[chips[k].rx.chan].fifo| && chips[k].room == n
    {
      hide PortOk;
      Tick(-1);
      ghost var w := State();
      var (c, v) := ReadRfoc(chips[k]);
      n := v % 32;
      ControlWrite(w, k, c);
      chips := chips[k := c];
      FrameStep(old(State()), w, State(), k, -1);
    }

    /** One RDR read; the character joins the service's buffer. */
    method ReadData(k: nat, j: nat)
      requires k < CHIPS && Inv(State())
      requires chips[k].rx.Active? && chips[k].rx.chan == j
      requires chips[k].chans[j].fifo != []
      modifies this`chips, this`ports, this`now
      ensures Inv(State()) && Frame(old(State()), State(), k, 4 * k + j)
      ensures InRx(old(State()), State(), k, j)
      ensures chips[k].moved == old(chips[k].moved) + 1
      ensures ports[4 * k + j].rxbuf == old(ports[4 * k + j].rxbuf) + [old(chips[k].chans[j].fifo[0])]
      ensures old(chips[k].chans[j].fifo[1..]) <= chips[k].chans[j].fifo
    {
      hide PortOk;
      Tick(-1);
      ghost var w := State();
      var i := 4 * k + j;
      FrameAt(old(State()), w, k, j);
      hide Frame;
      TakeKeeps(w, k, j);
      var (c, v) := ReadRdr(chips[k]);
      chips, ports := chips[k := c], ports[i := ports[i].(rxbuf := ports[i].rxbuf + [v])];
      assert State() == Take(w, k, j);
      FrameStep(old(State()), w, State(), k, i);
    }

    /** Read exactly the count that was latched. */
    method ReadAll(k: nat, j: nat, n: nat)
      requires k < CHIPS && Inv(State())
      requires chips[k].rx.Active? && chips[k].rx.chan == j
      requires n <= |chips[k].chans[j].fifo| && ports[4 * k + j].rxbuf == []
      modifies this`chips, this`ports, this`now
      ensures Inv(State()) && Frame(old(State()), State(), k, 4 * k + j)
      ensures InRx(old(State()), State(), k, j)
      ensures ports[4 * k + j].rxbuf == old(chips[k].chans[j].fifo)[..n]
      ensures chips[k].moved == old(chips[k].moved) + n
    {
      hide PortOk;
      hide Frame;
      hide PortKept;
      ghost var was := State();
      ghost var fifo := chips[k].chans[j].fifo;
      FrameRefl(was, k, 4 * k + j);
      PortKeptRefl(ports[4 * k + j]);
      var i := 0;
      while i < n
        invariant i <= n && Inv(State())
        invariant Frame(was, State(), k, 4 * k + j) && InRx(was, State(), k, j)
        invariant ports[4 * k + j].rxbuf == fifo[..i] && fifo[i..] <= chips[k].chans[j].fifo
        invariant chips[k].moved == was.chips[k].moved + i
      {
        ghost var before := State();
        assert fifo[i..][0] == fifo[i] && chips[k].chans[j].fifo[0] == fifo[i];
        ReadData(k, j);
        InRxTrans(was, before, State(), k, j);
        FrameTrans(was, before, State(), k, 4 * k + j);
        assert fifo[i + 1..] == fifo[i..][1..];
        i := i + 1;
      }
    }

    /** nm32a_eoi: write the EOIR, then confirm on STK and re-issue at most 100 times. */
    method Eoi(k: nat, kind: Kind, v: Byte, locked: int)
      requires k < CHIPS && Inv(State()) && In(chips[k], kind)
      modifies this`chips, this`ports, this`now
      ensures Inv(State()) && Frame(old(State()), State(), k, -1)
      ensures 0 <= locked < PORTS ==> ports[locked] == old(ports[locked])
      ensures chips[k].stack == [] && chips[k].car == old(chips[k].car)
      ensures chips[k].ended == old(chips[k].ended) + [Closing(old(chips[k]), kind, v)]
      ensures chips[k].eoirs == old(chips[k].eoirs) + old(chips[k].balk) + 1
    {
      hide PortOk;
      ghost var was := State();
      WriteEnd(k, kind, v, locked);
      for i := 0 to 100
        invariant Inv(State()) && Frame(was, State(), k, -1) && i <= was.chips[k].balk
        invariant 0 <= locked < PORTS ==> ports[locked] == was.ports[locked]
        invariant chips[k].car == was.chips[k].car
        invariant chips[k].eoirs == was.chips[k].eoirs + i + 1
        invariant if i < was.chips[k].balk then StillOpen(was.chips[k], chips[k], i + 1)
                  else chips[k].stack == [] && chips[k].ended == was.chips[k].ended + [Closing(was.chips[k], kind, v)]
      {
        ghost var before := State();
        Tick(locked);
        FrameWiden(was, before, State(), k, -1);
        if !LevelActive(StkByte(chips[k])) {
          return;
        }
        before := State();
        WriteEnd(k, kind, v, locked);
        FrameTrans(was, before, State(), k, -1);
      }
    }

    method WriteEnd(k: nat, kind: Kind, v: Byte, locked: int)
      requires k < CHIPS && Inv(State()) && In(chips[k], kind)
      modifies this`chips, this`ports, this`now
      ensures Inv(State()) && Frame(old(State()), State(), k, -1)
      ensures 0 <= locked < PORTS ==> ports[locked] == old(ports[locked])
      ensures chips[k].car == old(chips[k].car) && chips[k].eoirs == old(chips[k].eoirs) + 1
      ensures if old(chips[k].balk) > 0 then StillOpen(old(chips[k]), chips[k], 1)
              else chips[k].stack == [] && chips[k].ended == old(chips[k].ended) + [Closing(old(chips[k]), kind, v)]
    {
      hide PortOk;
      Tick(locked);
      ghost var w := State();
      ControlWrite(w, k, WriteEoir(chips[k], kind, v));
      chips := chips[k := WriteEoir(chips[k], kind, v)];
      FrameStep(old(State()), w, State(), k, -1);
    }

    // ----- register writes -----------------------------------------------------

    /** Channel select, which only counts outside a context. */
    method WriteCar(k: nat, j: nat)
      requires k < CHIPS && j < CHANNELS && Inv(State()) && chips[k].stack == []
      modifies this`chips, this`ports, this`now
      ensures Inv(State()) && Frame(old(State()), State(), k, -1)
      ensures chips[k].car == j && chips[k].stack == []
      ensures chips[k].ended == old(chips[k].ended) && chips[k].eoirs == old(chips[k].eoirs)
    {
      hide PortOk;
      Tick(-1);
      ghost var w := State();
      ControlWrite(w, k, chips[k].(car := j));
      chips := chips[k := chips[k].(car := j)];
      FrameStep(old(State()), w, State(), k, -1);
    }

    /** A per-channel register write.  `j` is the channel meant; the precondition is that the chip will aim it there. */
    method WriteChannel(k: nat, j: nat, reg: Reg, v: Byte, locked: int)
      requires k < CHIPS && j < CHANNELS && Inv(State()) && Target(chips[k]) == j && Fits(ports[4 * k + j], reg, v)
      modifies this`chips, this`ports, this`now
      ensures Inv(State()) && Frame(old(State()), State(), -1, 4 * k + j)
      ensures Programmed(old(State()), State(), k, j, old(chips[k].chans[j].regs)[reg := v])
      ensures 0 <= locked < PORTS ==> ports[locked] == old(ports[locked])
    {
      hide PortOk;
      Tick(locked);
      ghost var w := State();
      assert Same(old(State()), w, 4 * k + j);
      RegisterWrite(w, k, j, reg, v);
      chips := chips[k := WriteReg(chips[k], reg, v)];
      FrameStep(old(State()), w, State(), -1, 4 * k + j);
    }

    // ----- receive -------------------------------------------------------------

    /** Hand the buffered characters to the tty, or drop them, and record the service. */
    method Dispose(k: nat, j: nat, request: Request, count: nat, deliver: bool)
      requires k < CHIPS && j < CHANNELS && Inv(State()) && !Erroneous(request)
      requires EntryOk(RxEntry(request, count, ports[4 * k + j].rxbuf, ports[4 * k + j].open, deliver))
      modifies this`ports
      ensures Inv(State()) && Frame(old(State()), State(), -1, 4 * k + j)
      ensures ports == old(ports)[4 * k + j := Disposed(old(ports[4 * k + j]), request, count, deliver)]
    {
      ghost var w := State();
      DisposeKeeps(w, k, j, request, count, deliver);
      hide PortOk;
      hide Valid;
      var i := 4 * k + j;
      ports := ports[i := Disposed(ports[i], request, count, deliver)];
    }

    /** Select channel `j` and write one of its registers, outside any context. */
    method SelectAndWrite(k: nat, j: nat, reg: Reg, v: Byte)
      requires k < CHIPS && j < CHANNELS && Inv(State()) && chips[k].stack == [] && Fits(ports[4 * k + j], reg, v)
      modifies this`chips, this`ports, this`now
      ensures Inv(State()) && Frame(old(State()), State(), k, 4 * k + j)
      ensures Programmed(old(State()), State(), k, j, old(chips[k].chans[j].regs)[reg := v])
      ensures IdleKept(old(chips[k]), chips[k])
    {
      hide PortOk;
      ghost var was := State();
      WriteCar(k, j);
      ghost var w := State();
      assert Same(was, w, 4 * k + j);
      WriteChannel(k, j, reg, v, -1);
      FrameSelect(was, w, State(), k, 4 * k + j);
    }

    /** nm32a_rx_exception: count the exception and record its service; at the limit, mute the receiver. */
    method RxException(k: nat, j: nat, request: Request, count: nat)
      requires k < CHIPS && j < CHANNELS && Inv(State()) && chips[k].stack == []
      requires Erroneous(request) && |ports[4 * k + j].rxbuf| == (if count == 0 then 0 else 1)
      modifies this`chips, this`ports, this`now
      ensures Inv(State()) && Frame(old(State()), State(), k, 4 * k + j)
      ensures Excepted(old(State()), State(), k, j, request, count)
    {
      hide PortOk;
      hide S.Count;
      hide WorldKept;
      hide Frame;
      ghost var was := State();
      Tick(-1);
      ghost var w := State();
      var i := 4 * k + j;
      FrameAt(was, w, k, j);
      CountKeeps(w, k, j, request, count);
      var muted := ports[i].det.off;
      ports := ports[i := Counted(ports[i], request, count, now)];
      FrameStep(was, w, State(), -1, i);
      if !muted && ports[i].det.off {
        w := State();
        SelectAndWrite(k, j, IER, 0x01);
        FrameSelect(was, w, State(), k, i);
      } else {
        FrameLoosen(was, State(), k, i);
      }
    }

    // ----- transmit ------------------------------------------------------------

    /** Move one byte from the ring to TDR; the port's lock is held. */
    method SendByte(k: nat, j: nat)
      requires k < CHIPS && Inv(State())
      requires chips[k].tx.Active? && chips[k].tx.chan == j
      requires ports[4 * k + j].line.queue != []
      modifies this`chips, this`ports, this`now
      ensures Inv(State()) && Frame(old(State()), State(), k, 4 * k + j)
      ensures InTx(old(State()), State(), k, j)
      ensures chips[k].moved == old(chips[k].moved) + 1 && chips[k].room == old(chips[k].room)
      ensures chips[k].chans[j].sent == old(chips[k].chans[j].sent) + [old(ports[4 * k + j].line.queue[0])]
      ensures ports[4 * k + j].line == PopFront(old(ports[4 * k + j].line))
    {
      hide PortOk;
      var i := 4 * k + j;
      Tick(i);
      ghost var w := State();
      assert Same(old(State()), w, i);
      SendKeeps(w, k, j);
      var c := WriteTdr(chips[k], ports[i].line.queue[0]);
      chips, ports := chips[k := c], ports[i := ports[i].(line := PopFront(ports[i].line))];
      FrameStep(old(State()), w, State(), k, i);
    }

    method ReadRoom(k: nat, j: nat) returns (tftc: Byte)
      requires k < CHIPS && Inv(State())
      requires chips[k].tx.Active? && chips[k].tx.chan == j
      modifies this`chips, this`ports, this`now
      ensures Inv(State()) && Frame(old(State()), State(), k, 4 * k + j)
      ensures InTx(old(State()), State(), k, j)
      ensures chips[k].moved == old(chips[k].moved) && chips[k].room == tftc
      ensures chips[k].chans[j].sent == old(chips[k].chans[j].sent)
      ensures ports[4 * k + j] == old(ports[4 * k + j])
    {
      hide PortOk;
      Tick(4 * k + j);
      ghost var w := State();
      assert Same(old(State()), w, 4 * k + j);
      var (c, v) := ReadTftc(chips[k]);
      tftc := v;
      ControlWrite(w, k, c);
      chips := chips[k := c];
      FrameSelect(old(State()), w, State(), k, 4 * k + j);
    }

    /** Move bytes while there is room and the ring has some. */
    method SendBytes(k: nat, j: nat, room: nat) returns (n: nat)
      requires k < CHIPS && Inv(State())
      requires chips[k].tx.Active? && chips[k].tx.chan == j && chips[k].moved == 0
      modifies this`chips, this`ports, this`now
      ensures Inv(State()) && Frame(old(State()), State(), k, 4 * k + j)
      ensures InTx(old(State()), State(), k, j)
      ensures n <= |old(ports[4 * k + j].line.queue)|
      ensures n == if room < |old(ports[4 * k + j].line.queue)| then room else |old(ports[4 * k + j].line.queue)|
      ensures n == chips[k].moved && chips[k].room == old(chips[k].room)
      ensures chips[k].chans[j].sent == old(chips[k].chans[j].sent) + old(ports[4 * k + j].line.queue)[..n]
      ensures ports[4 * k + j].line == Popped(old(ports[4 * k + j].line), n)
    {
      hide PortOk;
      hide Frame;
      var i := 4 * k + j;
      ghost var was := State();
      FrameRefl(was, k, i);
      ghost var q := ports[i].line;
      n := 0;
      assert was.chips[k].chans[j].sent + q.queue[..0] == was.chips[k].chans[j].sent;
      while n < room && ports[i].line.queue != []
        invariant n <= room && n <= |q.queue| && Inv(State())
        invariant Frame(was, State(), k, i) && InTx(was, State(), k, j)
        invariant chips[k].room == was.chips[k].room && chips[k].moved == n
        invariant chips[k].chans[j].sent == was.chips[k].chans[j].sent + q.queue[..n]
        invariant ports[i].line == Popped(q, n)
      {
        ghost var w := State();
        SendByte(k, j);
        FrameTrans(was, w, State(), k, i);
        PopNext(q, n);
        n := n + 1;
      }
    }

    /** End a transmit context: drop TxD if nothing was sent, then TEOIR. */
    method EndTransmit(k: nat, j: nat, n: nat)
      requires k < CHIPS && Inv(State())
      requires chips[k].tx.Active? && chips[k].tx.chan == j
      modifies this`chips, this`ports, this`now
      ensures Inv(State()) && Frame(old(State()), State(), k, 4 * k + j)
      ensures ports[4 * k + j] == old(ports[4 * k + j])
      ensures chips[k].stack == []
      ensures chips[k].ended == old(chips[k].ended)
                + [Ended(old(chips[k].tx), Tx, j, old(chips[k].room), old(chips[k].moved), n == 0)]
      ensures var c, d := old(chips[k].chans[j]), chips[k].chans[j];
              && ChannelKept(c, d.(regs := c.regs))
              && d.regs == if n == 0 then c.regs[IER := 0x28] else c.regs
    {
      hide PortOk;
      hide WorldKept;
      ghost var was := State();
      var i := 4 * k + j;
      hide Frame;
      if n == 0 {
        WriteChannel(k, j, IER, 0x28, i);
      } else {
        FrameRefl(was, -1, i);
      }
      ghost var w := State();
      FrameCtl(was, w, k, i);
      Eoi(k, Tx, if n != 0 then 0x00 else 0x08, i);
      FrameSelect(was, w, State(), k, i);
      FrameAt'(w, State(), k, j);
    }

    /** The transmit half of nm32a_service. */
    method Transmit(k: nat, j: nat) returns (ghost line: T.Line)
      requires k < CHIPS && Inv(State())
      requires chips[k].tx.Active? && chips[k].tx.chan == j && chips[k].moved == 0
      modifies this`chips, this`ports, this`now
      ensures Inv(State()) && Frame(old(State()), State(), k, 4 * k + j)
      ensures Transmitted(old(State()), State(), k, j, line)
    {
      hide PortOk;
      hide WorldKept;
      hide Frame;
      hide PortKept;
      hide InTx;
      ghost var was := State();
      var i := 4 * k + j;
      Tick(-1);                         // until the port's lock is taken
      ghost var lock := State();
      FrameAt(was, lock, k, j);
      line := ports[i].line;
      var room := ReadRoom(k, j);
      FrameStep(was, lock, State(), k, i);
      ghost var w := State();
      InTxFacts(lock, w, k, j);
      var n := SendBytes(k, j, if room > 16 then 16 else room);
      FrameTrans(was, w, State(), k, i);
      ghost var full := State();
      InTxTrans(lock, w, full, k, j);
      InTxFacts(w, full, k, j);
      EndTransmit(k, j, n);
      FrameTrans(was, full, State(), k, i);
      TransmitResult(was, lock, full, State(), k, j, room, n);
    }

    // ----- receive services ------------------------------------------------------

    /** Latch the FIFO count, read that many characters, end the service. */
    method Collect(k: nat, j: nat) returns (n: nat)
      requires k < CHIPS && Inv(State())
      requires chips[k].rx.Active? && chips[k].rx.chan == j && ports[4 * k + j].rxbuf == [] && chips[k].moved == 0
      modifies this`chips, this`ports, this`now
      ensures Inv(State()) && Frame(old(State()), State(), k, 4 * k + j)
      ensures Emptied(old(State()), State(), k, j, n) && |ports[4 * k + j].rxbuf| == n
      ensures old(chips[k].chans[j].fifo) <= ports[4 * k + j].rxbuf
    {
      hide PortOk;
      hide WorldKept;
      hide Frame;
      ghost var was := State();
      var cnt: int := ReadFifoCount(k);
      ghost var w := State();
      FrameAt'(was, w, k, j);
      if cnt > 32 {
        cnt := 32;                      // the size of rxbuf; never taken
      }
      TakeAndEnd(k, j, cnt);
      n := cnt;
      FrameSelect(was, w, State(), k, 4 * k + j);
    }

    /** An error service: the offending character, if the FIFO has one, is read and dropped. */
    method DropBad(k: nat, j: nat) returns (n: nat)
      requires k < CHIPS && Inv(State())
      requires chips[k].rx.Active? && chips[k].rx.chan == j && ports[4 * k + j].rxbuf == [] && chips[k].moved == 0
      modifies this`chips, this`ports, this`now
      ensures Inv(State()) && Frame(old(State()), State(), k, 4 * k + j)
      ensures Emptied(old(State()), State(), k, j, n)
      ensures |ports[4 * k + j].rxbuf| == (if n == 0 then 0 else 1)
      ensures old(chips[k].chans[j].fifo) != [] ==> n > 0
    {
      hide PortOk;
      hide WorldKept;
      hide Frame;
      ghost var was := State();
      n := ReadFifoCount(k);
      ghost var w := State();
      FrameAt'(was, w, k, j);
      TakeAndEnd(k, j, if n != 0 then 1 else 0);
      FrameSelect(was, w, State(), k, 4 * k + j);
    }

    /** Read `n` characters of those RFOC reported, and end the service. */
    method TakeAndEnd(k: nat, j: nat, n: nat)
      requires k < CHIPS && Inv(State())
      requires chips[k].rx.Active? && chips[k].rx.chan == j && ports[4 * k + j].rxbuf == [] && chips[k].moved == 0
      requires n <= |chips[k].chans[j].fifo|
      modifies this`chips, this`ports, this`now
      ensures Inv(State()) && Frame(old(State()), State(), k, 4 * k + j)
      ensures Emptied(old(State()), State(), k, j, old(chips[k].room))
      ensures ports[4 * k + j].rxbuf == old(chips[k].chans[j].fifo)[..n]
    {
      hide PortOk;
      hide WorldKept;
      hide Frame;
      ghost var was := State();
      ReadAll(k, j, n);
      ghost var w := State();
      Eoi(k, Rx, 0x00, -1);
      FrameAt'(w, State(), k, j);
      FrameSelect(was, w, State(), k, 4 * k + j);
    }

    // ----- register users outside a service ---------------------------------------

    /** An ordered list of writes to the registers of one selected channel. */
    method Program(k: nat, j: nat, writes: seq<(Reg, Byte)>)
      requires k < CHIPS && j < CHANNELS && Inv(State()) && chips[k].stack == [] && chips[k].car == j
      requires AllFit(ports[4 * k + j], writes)
      modifies this`chips, this`ports, this`now
      ensures Inv(State()) && Frame(old(State()), State(), -1, 4 * k + j)
      ensures Programmed(old(State()), State(), k, j, Written(old(chips[k].chans[j].regs), writes))
      ensures CtlKept(old(chips[k]), chips[k])
    {
      hide PortOk;
      hide Frame;
      ghost var was := State();
      FrameRefl(was, -1, 4 * k + j);
      for n := 0 to |writes|
        invariant Inv(State()) && Frame(was, State(), -1, 4 * k + j) && CtlKept(was.chips[k], chips[k])
        invariant Programmed(was, State(), k, j, Written(was.chips[k].chans[j].regs, writes[..n]))
      {
        ghost var w := State();
        WriteChannel(k, j, writes[n].0, writes[n].1, -1);
        FrameTrans(was, w, State(), -1, 4 * k + j);
        FrameCtl(was, State(), k, 4 * k + j);
        assert writes[..n + 1][..n] == writes[..n];
      }
      assert writes[..|writes|] == writes;
    }

    method SetMctrl(k: nat, j: nat, active: bool)
      requires k < CHIPS && j < CHANNELS && Inv(State()) && chips[k].stack == []
      modifies this`chips, this`ports, this`now
      ensures Inv(State()) && Frame(old(State()), State(), k, 4 * k + j)
      ensures Programmed(old(State()), State(), k, j, Written(old(chips[k].chans[j].regs), ModemWrites(active)))
      ensures IdleKept(old(chips[k]), chips[k])
    {
      hide PortOk;
      hide WorldKept;
      hide Frame;
      InitFits(ports[4 * k + j], Rate(0, 0, 0, 0));
      SelectAndProgram(k, j, ModemWrites(active));
    }

    method SelectAndProgram(k: nat, j: nat, writes: seq<(Reg, Byte)>)
      requires k < CHIPS && j < CHANNELS && Inv(State()) && chips[k].stack == [] && AllFit(ports[4 * k + j], writes)
      modifies this`chips, this`ports, this`now
      ensures Inv(State()) && Frame(old(State()), State(), k, 4 * k + j)
      ensures Programmed(old(State()), State(), k, j, Written(old(chips[k].chans[j].regs), writes))
      ensures IdleKept(old(chips[k]), chips[k])
    {
      hide PortOk;
      hide Frame;
      hide Written;
      ghost var was := State();
      WriteCar(k, j);
      ghost var w := State();
      FrameAt'(was, w, k, j);
      Program(k, j, writes);
      FrameSelect(was, w, State(), k, 4 * k + j);
    }

    /** nm32a_port_activate; `gfrcr` is what the chip's firmware revision register reads. */
    method Activate(i: nat, gfrcr: Byte, rate: Rate) returns (rc: int)
      requires i < PORTS && Inv(State()) && Quiet(State())
      modifies this`chips, this`ports, this`now
      ensures Inv(State()) && Frame(old(State()), State(), i / 4, i) && Quiet(State())
      ensures rc == if gfrcr == 0xE0 then ENODEV else 0
      ensures rc != 0 ==> State() == old(State())
      ensures rc == 0 ==> Opened(ports[i], now) && ports[i].base == |ChanAt(State(), i).sent|
      ensures rc == 0 ==> ChanAt(State(), i).regs == Written(ChanAt(old(State()), i).regs, InitWrites(rate))
      ensures rc == 0 ==> RateIs(ChanAt(State(), i).regs, rate)
      ensures rc == 0 ==> GateAt(State(), i) == GateStep(GateAt(old(State()), i), Opens(ports[i].since))
      ensures DataSame(old(State()), State(), i) && IdleKept(old(chips[i / 4]), chips[i / 4])
    {
      hide PortOk;
      hide Written;
      hide Frame;
      hide RateIs;
      hide Opened;
      hide DataSame;
      hide GateAt;
      if gfrcr == 0xE0 {
        FrameRefl(State(), i / 4, i);
        DataSameRefl(State(), i);
        return ENODEV;
      }
      InitChannel(i, rate);
      rc := 0;
    }

    method InitChannel(i: nat, rate: Rate)
      requires i < PORTS && Inv(State()) && Quiet(State())
      modifies this`chips, this`ports, this`now
      ensures Inv(State()) && Frame(old(State()), State(), i / 4, i) && Quiet(State())
      ensures Opened(ports[i], now) && ports[i].base == |ChanAt(State(), i).sent|
      ensures ChanAt(State(), i).regs == Written(ChanAt(old(State()), i).regs, InitWrites(rate))
      ensures RateIs(ChanAt(State(), i).regs, rate)
      ensures GateAt(State(), i) == GateStep(GateAt(old(State()), i), Opens(ports[i].since))
      ensures DataSame(old(State()), State(), i) && IdleKept(old(chips[i / 4]), chips[i / 4])
    {
      hide PortOk;
      hide Written;
      hide WorldKept;
      hide Frame;
      hide RateIs;
      hide DataSame;
      hide Opened;
      hide Programmed;
      hide IdleKept;
      hide GateAt;
      var k, j := i / 4, i % 4;
      ghost var was := State();
      InitFits(ports[i], rate);
      SelectAndProgram(k, j, InitWrites(rate));
      ghost var w := State();
      OpenRate(was.chips[k].chans[j].regs, rate);
      InitImage(was.chips[k].chans[j].regs, rate);
      ActivateResult(was, w, k, j, Written(was.chips[k].chans[j].regs, InitWrites(rate)));
      ActivateKeeps(w, k, j);
      ports := ports[i := Activated(ports[i], chips[k].chans[j], now)];
      FrameSelect(was, w, State(), k, i);
      QuietNow(was, State(), k, i);
    }

    /** nm32a_port_shutdown: stop asking for service and hang the line up. */
    method Shutdown(i: nat)
      requires i < PORTS && Inv(State()) && Quiet(State())
      modifies this`chips, this`ports, this`now
      ensures Inv(State()) && Frame(old(State()), State(), i / 4, i) && Quiet(State())
      ensures !ports[i].open
      ensures ChanAt(State(), i).regs
              == Written(ChanAt(old(State()), i).regs, [(IER, 0x00)] + ModemWrites(false))
      ensures ModemAre(ChanAt(old(State()), i).regs, ChanAt(State(), i).regs, false, {IER, MSVR_DTR, MSVR_RTS})
      ensures ChanAt(State(), i).regs[IER] == 0x00
      ensures GateAt(State(), i) == GateStep(GateAt(old(State()), i), Closes)
      ensures DataSame(old(State()), State(), i) && IdleKept(old(chips[i / 4]), chips[i / 4])
    {
      hide PortOk;
      hide WorldKept;
      hide Written;
      hide Frame;
      hide Programmed;
      hide DataSame;
      var k, j := i / 4, i % 4;
      ghost var was := State();
      CloseKeeps(was, k, j);
      ports := ports[i := ports[i].(open := false)];
      ghost var w := State();
      SelectAndProgram(k, j, [(IER, 0x00)]);
      FrameSelect(was, w, State(), k, i);
      ghost var m := State();
      SetMctrl(k, j, false);
      FrameSelect(was, m, State(), k, i);
      ShutdownImage(ChanAt(was, i).regs);
      hide ModemAre;
      ShutdownResult(was, w, m, State(), k, j);
      QuietNow(was, State(), k, i);
    }

    method DtrRts(i: nat, active: bool)
      requires i < PORTS && Inv(State()) && Quiet(State())
      modifies this`chips, this`ports, this`now
      ensures Inv(State()) && Frame(old(State()), State(), i / 4, i) && Quiet(State())
      ensures ChanAt(State(), i).regs == Written(ChanAt(old(State()), i).regs, ModemWrites(active))
      ensures ModemAre(ChanAt(old(State()), i).regs, ChanAt(State(), i).regs, active, {MSVR_DTR, MSVR_RTS})
      ensures DataSame(old(State()), State(), i) && IdleKept(old(chips[i / 4]), chips[i / 4])
    {
      hide PortOk;
      hide Written;
      hide Programmed;
      hide DataSame;
      ghost var was := State();
      SetMctrl(i / 4, i % 4, active);
      hide ModemAre;
      ModemImage(ChanAt(was, i).regs, active);
      ProgramResult(was, State(), i / 4, i % 4, Written(ChanAt(was, i).regs, ModemWrites(active)));
    }

    method SetTermios(i: nat, rate: Rate)
      requires i < PORTS && Inv(State()) && Quiet(State())
      modifies this`chips, this`ports, this`now
      ensures Inv(State()) && Frame(old(State()), State(), i / 4, i) && Quiet(State())
      ensures ChanAt(State(), i).regs == Written(ChanAt(old(State()), i).regs, TermiosWrites(rate))
      ensures RateIs(ChanAt(State(), i).regs, rate)
      ensures GateAt(State(), i) == GateStep(GateAt(old(State()), i), Respeeds)
      ensures DataSame(old(State()), State(), i) && IdleKept(old(chips[i / 4]), chips[i / 4])
    {
      hide PortOk;
      hide Written;
      hide RateIs;
      hide Programmed;
      hide DataSame;
      hide GateAt;
      InitFits(ports[i], rate);
      ghost var was := State();
      SelectAndProgram(i / 4, i % 4, TermiosWrites(rate));
      SpeedRate(ChanAt(was, i).regs, rate);
      ProgramResult(was, State(), i / 4, i % 4, Written(ChanAt(was, i).regs, TermiosWrites(rate)));
      GateDet(was, i);
      ProgramGate(was, State(), i / 4, i % 4, TermiosWrites(rate), 6);
    }

    /** Whatever other threads do while `hw_lock` is free: opens, closes, modem control, speed changes. */
    method Others()
      requires Inv(State()) && Quiet(State())
      modifies this`chips, this`ports, this`now
      ensures Inv(State()) && Quiet(State()) && Untouched(old(State()), State())
    {
      hide PortOk;
      hide WorldKept;
      hide Written;
      hide Valid;
      ghost var was := State();
      var calls: seq<Call> := *;
      for n := 0 to |calls|
        invariant Inv(State()) && Quiet(State()) && Untouched(was, State())
      {
        ghost var w := State();
        var call := calls[n];
        if call.i < PORTS {
          match call {
            case Open(i, gfrcr, rate) => var _ := Activate(i, gfrcr, rate);
            case Close(i) => Shutdown(i);
            case Modem(i, active) => DtrRts(i, active);
            case Speed(i, rate) => SetTermios(i, rate);
          }
          OneCall(w, State(), call.i);
          UntouchedTrans(was, w, State());
        }
      }
    }

    /** nm32a_arm_tx: ask for transmit service on every open channel that has bytes queued. */
    method ArmTx(k: nat)
      requires k < CHIPS && Inv(State()) && Quiet(State())
      modifies this`chips, this`ports, this`now
      ensures Inv(State()) && Quiet(State())
      ensures Untouched(old(State()), State()) && PortsKept(old(State()), State())
      ensures forall j :: 0 <= j < CHANNELS ==> ArmedFrom(old(State()), State(), k, j)
      ensures forall i: nat :: 4 * k <= i < 4 * k + 4 && old(ports[i].open && ports[i].line.queue != []) ==>
                GateAt(State(), i).ier == if ports[i].det.off then 0x01 else 0x29
      ensures forall i :: 0 <= i < PORTS && i / 4 != k ==> RegsSame(old(State()), State(), i)
    {
      hide PortOk;
      hide Valid;
      hide PortKept;
      hide PortsKept;
      hide Untouched;
      hide ArmedFrom;
      hide IdleKept;
      ghost var was := State();
      UntouchedRefl(was);
      for j := 0 to CHANNELS
        invariant Inv(State()) && Quiet(State())
        invariant Untouched(was, State()) && PortsKept(was, State())
        invariant forall q :: 0 <= q < j ==> ArmedFrom(was, State(), k, q)
        invariant forall i :: 0 <= i < PORTS && (i / 4 != k || j <= i % 4) ==> RegsSame(was, State(), i)
      {
        ghost var w := State();
        ArmOne(k, j);
        UntouchedTrans(was, w, State());
        PortsKeptTrans(was, w, State());
        forall i | 0 <= i < PORTS && (i / 4 != k || j < i % 4)
          ensures RegsSame(was, State(), i)
        {
          assert RegsSame(was, w, i) && RegsSame(w, State(), i);
        }
        forall q | 0 <= q <= j
          ensures ArmedFrom(was, State(), k, q)
        {
          assert (4 * k + q) / 4 == k && (4 * k + q) % 4 == q;
          ArmedThrough(was, w, State(), k, q);
        }
      }
      forall i: nat | 4 * k <= i < 4 * k + 4 && was.ports[i].open && was.ports[i].line.queue != []
        ensures GateAt(State(), i).ier == if ports[i].det.off then 0x01 else 0x29
      {
        ArmedNow(was, State(), k, i - 4 * k);
      }
    }

    method ArmOne(k: nat, j: nat)
      requires k < CHIPS && j < CHANNELS && Inv(State()) && Quiet(State())
      modifies this`chips, this`ports, this`now
      ensures Inv(State()) && Quiet(State())
      ensures Untouched(old(State()), State()) && PortsKept(old(State()), State())
      ensures ArmedFrom(old(State()), State(), k, j)
      ensures forall i :: 0 <= i < PORTS && i != 4 * k + j ==> RegsSame(old(State()), State(), i)
    {
      hide PortOk;
      hide WorldKept;
      hide Frame;
      hide Valid;
      ghost var was := State();
      Tick(-1);
      ghost var w := State();
      var i := 4 * k + j;
      FrameAt(was, w, k, j);
      var pending := ports[i].open && ports[i].line.queue != [];
      if pending {
        SelectAndWrite(k, j, IER, if ports[i].det.off then 0x01 else 0x29);
      } else {
        FrameRefl(w, k, i);
      }
      FrameStep(was, w, State(), k, i);
      ArmedFrame(was, State(), k, j);
    }

    // ----- the service -------------------------------------------------------------

    /** The acknowledge cycle; what it grants is up to the chip. */
    method Acknowledge(k: nat) returns (ghost at: World)
      requires k < CHIPS && Inv(State()) && chips[k].stack == []
      modifies this`chips, this`ports, this`now
      ensures Inv(State()) && Frame(old(State()), State(), k, -1)
      ensures chips[k].ended == old(chips[k].ended) && chips[k].eoirs == old(chips[k].eoirs)
      ensures chips[k].stack != [] ==> chips[k].moved == 0
      ensures Inv(at) && Frame(old(State()), at, -1, -1)
      ensures chips[k].rx.Active? <==> at.chips[k].rx.Waiting?
      ensures chips[k].tx.Active? <==> !at.chips[k].rx.Waiting? && at.chips[k].tx.Waiting?
    {
      hide PortOk;
      Tick(-1);
      ghost var w := State();
      at := w;
      GrantIsReadable(chips[k]);
      ControlWrite(w, k, Cd2481.Acknowledge(chips[k]));
      chips := chips[k := Cd2481.Acknowledge(chips[k])];
      FrameStep(old(State()), w, State(), k, -1);
    }

    method ReceiveError(k: nat, j: nat)
      requires k < CHIPS && Inv(State()) && QuietExcept(State(), k)
      requires chips[k].rx.Active? && chips[k].rx.chan == j && ports[4 * k + j].rxbuf == [] && chips[k].moved == 0
      requires Erroneous(chips[k].rx)
      modifies this`chips, this`ports, this`now
      ensures Inv(State()) && Received(old(State()), State(), k, j) && Quiet(State())
    {
      hide PortOk;
      hide WorldKept;
      hide Frame;
      hide S.Count;
      ghost var was := State();
      var i, request := 4 * k + j, chips[k].rx;
      var n := DropBad(k, j);
      ghost var m := State();
      RxException(k, j, request, n);
      FrameSelect(was, m, State(), k, i);
      ReceivedFrame(was, State(), k, j);
    }

    method ReceiveTimeout(k: nat, j: nat)
      requires k < CHIPS && Inv(State()) && QuietExcept(State(), k)
      requires chips[k].rx.Active? && chips[k].rx.chan == j && ports[4 * k + j].rxbuf == [] && chips[k].moved == 0
      requires !Erroneous(chips[k].rx)
      modifies this`chips, this`ports, this`now
      ensures Inv(State()) && Received(old(State()), State(), k, j) && Quiet(State())
    {
      hide PortOk;
      hide WorldKept;
      hide Frame;
      ghost var was := State();
      var i, request := 4 * k + j, chips[k].rx;
      var n := Collect(k, j);
      ghost var m := State();
      Dispose(k, j, request, n, |ports[i].rxbuf| > 0 && ports[i].open);
      FrameSelect(was, m, State(), k, i);
      ReceivedFrame(was, State(), k, j);
    }

    /** Good data; the tty gets it only after `hw_lock` is released, if the port is still open then. */
    method ReceiveGood(k: nat, j: nat)
      requires k < CHIPS && Inv(State()) && QuietExcept(State(), k)
      requires chips[k].rx.Active? && chips[k].rx.chan == j && ports[4 * k + j].rxbuf == [] && chips[k].moved == 0
      requires chips[k].rx.vct == 3
      modifies this`chips, this`ports, this`now
      ensures Inv(State()) && Received(old(State()), State(), k, j) && Quiet(State())
    {
      hide PortOk;
      hide Received;
      hide Untouched;
      hide WorldKept;
      hide Frame;
      ghost var was := State();
      var i, request := 4 * k + j, chips[k].rx;
      var n := Collect(k, j);
      ghost var m := State();
      QuietNow(was, m, k, i);
      Others();
      ghost var w := State();
      StillHeld(m, State(), i);
      Dispose(k, j, request, n, |ports[i].rxbuf| > 0 && ports[i].open);
      GoodIsReceived(was, m, w, State(), k, j, n);
    }

    /** The receive half of nm32a_service. */
    method Receive(k: nat, j: nat, good: bool)
      requires k < CHIPS && Inv(State()) && QuietExcept(State(), k)
      requires chips[k].rx.Active? && chips[k].rx.chan == j && ports[4 * k + j].rxbuf == [] && chips[k].moved == 0
      requires good <==> chips[k].rx.vct == 3
      modifies this`chips, this`ports, this`now
      ensures Inv(State()) && Received(old(State()), State(), k, j) && Quiet(State())
    {
      hide PortOk;
      hide WorldKept;
      hide Frame;
      hide Received;
      if good {
        ReceiveGood(k, j);
        return;
      }
      ghost var was := State();
      var erisr := ReadCause(k);
      ghost var m := State();
      FrameAt(was, m, k, j);
      QuietStill(was, m, k);
      if TimedOut(erisr) {
        ReceiveTimeout(k, j);
      } else {
        ReceiveError(k, j);
      }
      ReceivedLater(was, m, State(), k, j);
    }

    /** Look for a request twice; only one seen both times is acknowledged. `looks` are the states at the four reads. */
    method Confirm(k: nat) returns (pending: bool, rxExpected: bool, ghost looks: (World, World, World))
      requires k < CHIPS && Inv(State())
      modifies this`chips, this`ports, this`now
      ensures Inv(State()) && Frame(old(State()), State(), -1, -1)
      ensures Successive(old(State()), looks, State())
      ensures pending <==> SeenTwice(looks, State(), k)
      ensures rxExpected <==> pending && chips[k].rx.Waiting?
    {
      hide PortOk;
      hide WorldKept;
      hide Frame;
      ghost var was := State();
      pending, rxExpected := false, false;
      var tir0 := ReadTir(k);
      ghost var w := State();
      var rir0 := ReadRir(k);
      looks := (w, State(), State());
      FrameTrans(was, w, State(), -1, -1);
      FrameRefl(State(), -1, -1);
      if !(Pending(tir0) || Pending(rir0)) {
        return;
      }
      w := State();
      var tirc := ReadTir(k);
      looks := (looks.0, w, State());
      FrameTrans(was, w, State(), -1, -1);
      w := State();
      var rirc := ReadRir(k);
      FrameTrans(was, w, State(), -1, -1);
      pending := Pending(tirc) || Pending(rirc);
      rxExpected := Pending(rirc);
    }

    /** Acknowledge once and read back what was granted. */
    method Grant(k: nat) returns (tir1: Byte, rir1: Byte, ghost at: World)
      requires k < CHIPS && Inv(State()) && Quiet(State())
      modifies this`chips, this`ports, this`now
      ensures Inv(State()) && Frame(old(State()), State(), k, -1) && QuietExcept(State(), k)
      ensures chips[k].ended == old(chips[k].ended) && chips[k].eoirs == old(chips[k].eoirs)
      ensures chips[k].stack != [] ==> chips[k].moved == 0
      ensures Granted(rir1) <==> chips[k].rx.Active?
      ensures Granted(rir1) ==> rir1 == RequestByte(chips[k].rx)
      ensures Granted(tir1) <==> chips[k].tx.Active?
      ensures Granted(tir1) ==> tir1 == RequestByte(chips[k].tx)
      ensures Inv(at) && Frame(old(State()), at, -1, -1)
      ensures chips[k].rx.Active? <==> at.chips[k].rx.Waiting?
      ensures chips[k].tx.Active? <==> !at.chips[k].rx.Waiting? && at.chips[k].tx.Waiting?
    {
      hide PortOk;
      hide WorldKept;
      ghost var was := State();
      at := Acknowledge(k);
      ghost var g := State();
      tir1 := ReadTir(k);
      ghost var w := State();
      rir1 := ReadRir(k);
      FrameTrans(g, w, State(), -1, -1);
      FrameWiden(was, g, State(), k, -1);
    }

    /**
     nm32a_service: one acknowledge, and whatever the chip grants is what gets served.
     `looks` and `seen` are the states at the four reads that decide whether to
     acknowledge, `acked` that at the acknowledge.
     */
    method Service(k: nat) returns (did: bool, ghost looks: (World, World, World), ghost seen: World, ghost acked: World)
      requires k < CHIPS && Inv(State()) && Rest(State())
      modifies this
      ensures Inv(State()) && Rest(State()) && Successive(old(State()), looks, seen)
      ensures if did then Served(old(State()), State(), k) else Untouched(old(State()), State())
      ensures did ==> SeenTwice(looks, seen, k)
      ensures Inv(acked) && Frame(seen, acked, -1, -1)
      ensures SeenTwice(looks, seen, k) ==>
                (did <==> acked.chips[k].rx.Waiting? || acked.chips[k].tx.Waiting?)
      ensures did <==> (looks.0.chips[k].tx.Waiting? || looks.1.chips[k].rx.Waiting?)
                       && (looks.2.chips[k].tx.Waiting? || seen.chips[k].rx.Waiting?)
                       && (acked.chips[k].rx.Waiting? || acked.chips[k].tx.Waiting?)
      ensures did ==> KindServed(old(State()), State(), k) == if acked.chips[k].rx.Waiting? then Rx else Tx
      ensures stNogrant == old(stNogrant) + if SeenTwice(looks, seen, k) && !did then 1 else 0
      ensures stMisgrant == old(stMisgrant)
                + if did && (KindServed(old(State()), State(), k) == Rx) != seen.chips[k].rx.Waiting? then 1 else 0
    {
      hide PortOk;
      hide WorldKept;
      hide Frame;
      hide Served;
      hide Successive;
      hide SeenTwice;
      ghost var was := State();
      did := false;
      var pending, rxExpected;
      pending, rxExpected, looks := Confirm(k);
      seen, acked := State(), State();
      FrameRefl(seen, -1, -1);
      FrameUntouched(was, seen);
      BothLooks(was, looks, seen, k);
      if !pending {
        return;
      }
      var tir1, rir1;
      tir1, rir1, acked := Grant(k);
      FrameStep(was, seen, State(), k, -1);
      var rxGranted := Granted(rir1);
      var txGranted := !rxGranted && Granted(tir1);
      if !rxGranted && !txGranted {
        stNogrant := stNogrant + 1;
        NothingGranted(was, State(), k);
        return;
      }
      if rxGranted != rxExpected {
        stMisgrant := stMisgrant + 1;
      }
      did := true;
      if rxGranted {
        ServeReceive(k, rir1, was);
      } else {
        ServeTransmit(k, tir1, was);
      }
    }

    /** Receive was granted; `rir1` names the channel and the vector. */
    method ServeReceive(k: nat, rir1: Byte, ghost was: World)
      requires k < CHIPS && Inv(State()) && Inv(was) && Rest(was) && Frame(was, State(), k, -1)
      requires chips[k].ended == was.chips[k].ended && chips[k].moved == 0
      requires chips[k].rx.Active? && rir1 == RequestByte(chips[k].rx)
      modifies this`chips, this`ports, this`now
      ensures Inv(State()) && Rest(State()) && Served(was, State(), k) && KindServed(was, State(), k) == Rx
    {
      hide PortOk;
      hide WorldKept;
      hide Received;
      hide Served;
      ghost var m := State();
      var j := ChanOf(rir1);
      RequestFields(m.chips[k].rx);
      GrantedAt(was, m, k, j);
      hide Frame;
      Receive(k, j, GoodData(rir1));
      ReceivedLater(was, m, State(), k, j);
      ReceivedIsServed(was, State(), k, j);
    }

    /** Transmit was granted; `tir1` names the channel. */
    method ServeTransmit(k: nat, tir1: Byte, ghost was: World)
      requires k < CHIPS && Inv(State()) && Inv(was) && Rest(was) && Frame(was, State(), k, -1)
      requires chips[k].ended == was.chips[k].ended && chips[k].moved == 0
      requires chips[k].tx.Active? && tir1 == RequestByte(chips[k].tx)
      modifies this`chips, this`ports, this`now
      ensures Inv(State()) && Rest(State()) && Served(was, State(), k) && KindServed(was, State(), k) == Tx
    {
      hide PortOk;
      hide WorldKept;
      hide Transmitted;
      hide Served;
      hide Frame;
      ghost var m := State();
      var j := ChanOf(tir1);
      RequestFields(m.chips[k].tx);
      ghost var line := Transmit(k, j);
      TransmittedIsServed(was, m, State(), k, j, line);
    }

    /** Power-on: the chips as they come up, no port open. */
    constructor (boot: seq<Chip>)
      requires |boot| == CHIPS
      requires forall k :: 0 <= k < CHIPS ==> Valid(boot[k]) && boot[k].stack == [] && Unused(boot[k])
      ensures Inv(State()) && Rest(State()) && Recorded(State())
    {
      chips, now, stNogrant, stMisgrant := boot, 0, 0, 0;
      ports := seq(PORTS, _ => NewPort());
      new;
      forall i | 0 <= i < PORTS
        ensures PortOk(ports[i], chips[i / 4].chans[i % 4], now)
      {
        assert Unused(chips[i / 4]);
      }
    }

    /**
     nm32a_poll_thread for any number of sweeps, other threads running freely in
     between.  `log` records what it did about each chip in turn; StretchAccounts
     says what was delivered.
     */
    method PollThread(sweeps: nat, burst: nat) returns (ghost log: seq<Look>)
      requires Inv(State()) && Rest(State()) && Recorded(State())
      modifies this
      ensures Inv(State()) && Rest(State()) && Recorded(State()) && Extends(old(State()), State())
      ensures |log| == sweeps * 8 && forall n :: 0 <= n < |log| ==> log[n].k == n % 8
      ensures Patrols(old(State()), log, State(), burst)
    {
      hide PortOk;
      hide Valid;
      hide Rest;
      hide Extends;
      hide Recorded;
      hide LookOk;
      hide OthersRan;
      hide Patrols;
      ghost var was := State();
      ExtendsRefl(was);
      log := [];
      NoLooks(was, burst);
      for s := 0 to sweeps
        invariant Inv(State()) && Rest(State()) && Recorded(State()) && Extends(was, State())
        invariant |log| == s * 8 && forall n :: 0 <= n < |log| ==> log[n].k == n % 8
        invariant Patrols(was, log, State(), burst)
      {
        for k := 0 to CHIPS
          invariant Inv(State()) && Rest(State()) && Recorded(State()) && Extends(was, State())
          invariant |log| == s * 8 + k && forall n :: 0 <= n < |log| ==> log[n].k == n % 8
          invariant Patrols(was, log, State(), burst)
        {
          ghost var w := State();
          ghost var look := LookAt(k, burst);
          ExtendsTrans(was, w, State());
          OneMoreLook(was, log, w, look, burst);
          log := log + [look];
        }
      }
    }

    /** One chip's turn. */
    method LookAt(k: nat, burst: nat) returns (ghost look: Look)
      requires k < CHIPS && Inv(State()) && Rest(State()) && Recorded(State())
      modifies this
      ensures Inv(State()) && Rest(State()) && Recorded(State()) && Extends(old(State()), State())
      ensures look.k == k && look.after == State() && LookOk(look, burst) && OthersRan(old(State()), look.at)
    {
      hide PortOk;
      hide Valid;
      hide Rest;
      hide Extends;
      hide Recorded;
      hide LookOk;
      hide SweepOk;
      hide Untouched;
      ghost var was := State();
      OthersRest();
      ghost var at := State();
      var busy := false;
      for c := 0 to CHANNELS
        invariant State() == at
        invariant busy <==> HasOpen(ports, k, c)
      {
        if ports[k * 4 + c].open {
          busy := true;
        }
      }
      ghost var sweep := Sweep(at, at, [], at);
      if busy {
        sweep := SweepChip(k, burst);
        ExtendsTrans(was, at, State());
      }
      look := Look(k, at, busy, sweep, State());
      LookIs(look, burst);
    }

    method OthersRest()
      requires Inv(State()) && Rest(State()) && Recorded(State())
      modifies this`chips, this`ports, this`now
      ensures Inv(State()) && Rest(State()) && Recorded(State()) && Extends(old(State()), State())
      ensures Untouched(old(State()), State())
    {
      hide PortOk;
      hide Recorded;
      ghost var was := State();
      Others();
      StillResting(was, State());
      UntouchedExtends(was, State());
      UntouchedRecords(was, State());
    }

    /** Arm transmit, then serve until the chip has nothing to grant or the burst is used up. */
    method SweepChip(k: nat, burst: nat) returns (ghost sweep: Sweep)
      requires k < CHIPS && Inv(State()) && Rest(State()) && Recorded(State())
      modifies this
      ensures Inv(State()) && Rest(State()) && Recorded(State()) && Extends(old(State()), State())
      ensures sweep.at == old(State()) && sweep.after == State() && SweepOk(sweep, k, burst)
    {
      hide PortOk;
      hide Valid;
      hide Extends;
      hide Recorded;
      hide Rest;
      hide Untouched;
      hide Attempted;
      hide ArmedAll;
      hide SweepOk;
      ghost var was := State();
      ArmFirst(k);
      ghost var armed := State();
      ghost var attempts := ServeBurst(k, burst);
      ExtendsTrans(was, armed, State());
      sweep := Sweep(was, armed, attempts, State());
      SweepIs(sweep, k, burst);
    }

    method ArmFirst(k: nat)
      requires k < CHIPS && Inv(State()) && Rest(State()) && Recorded(State())
      modifies this`chips, this`ports, this`now
      ensures Inv(State()) && Rest(State()) && Recorded(State()) && Extends(old(State()), State())
      ensures Untouched(old(State()), State()) && ArmedAll(old(State()), State(), k)
    {
      hide PortOk;
      hide Valid;
      hide Extends;
      hide Recorded;
      hide ArmedFrom;
      hide Untouched;
      ghost var was := State();
      ArmTx(k);
      StillResting(was, State());
      UntouchedExtends(was, State());
      UntouchedRecords(was, State());
    }

    /** Services until one finds nothing or the burst is used up. */
    method ServeBurst(k: nat, burst: nat) returns (ghost attempts: seq<Attempt>)
      requires k < CHIPS && Inv(State()) && Rest(State()) && Recorded(State())
      modifies this
      ensures Inv(State()) && Rest(State()) && Recorded(State()) && Extends(old(State()), State())
      ensures Attempted(attempts, old(State()), State(), k) && |attempts| <= burst
      ensures |attempts| == burst || (attempts != [] && !attempts[|attempts| - 1].did)
    {
      hide PortOk;
      hide Valid;
      hide Extends;
      hide Recorded;
      hide Rest;
      hide AttemptOk;
      hide OthersRan;
      hide Attempted;
      ghost var was := State();
      attempts := [];
      NoAttempts(was, k);
      ExtendsRefl(was);
      for svc := 0 to burst
        invariant |attempts| == svc && forall n :: 0 <= n < svc ==> attempts[n].did
        invariant Inv(State()) && Rest(State()) && Recorded(State()) && Extends(was, State())
        invariant Attempted(attempts, was, State(), k)
      {
        ghost var w := State();
        var did, t := TryService(k);
        ExtendsTrans(was, w, State());
        OneMoreAttempt(attempts, was, w, t, k);
        attempts := attempts + [t];
        if !did {
          break;
        }
      }
    }

    /** Other threads, then one service. */
    method TryService(k: nat) returns (did: bool, ghost t: Attempt)
      requires k < CHIPS && Inv(State()) && Rest(State()) && Recorded(State())
      modifies this
      ensures Inv(State()) && Rest(State()) && Recorded(State()) && Extends(old(State()), State())
      ensures t.did == did && t.after == State() && AttemptOk(t, k) && OthersRan(old(State()), t.before)
    {
      hide PortOk;
      hide Valid;
      hide Served;
      hide Extends;
      hide Recorded;
      hide Rest;
      hide Untouched;
      hide Successive;
      hide SeenTwice;
      hide AttemptOk;
      ghost var was := State();
      OthersRest();
      ghost var before := State();
      ghost var looks, seen, acked;
      did, looks, seen, acked := Service(k);
      ServiceExtends(before, State(), k, did);
      ServiceRecords(before, State(), k, did);
      ExtendsTrans(was, before, State());
      t := Attempt(before, looks, seen, acked, State(), did);
      AttemptIs(t, k);
    }
  }
}
