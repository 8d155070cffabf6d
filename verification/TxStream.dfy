/**
 The transmit stream of one NM-32A port: what writers and breaks put into the
 ring, what transmit services take out of it, and what a CD2481 whose embedded
 transmit commands (ETC) are on or off makes of the bytes.
 */
module TxStream {
  import opened Bytes

  /** What a user asked the line to do. */
  datatype Item = Char(b: Byte) | BreakOn | BreakOff

  const ETC: Byte := 0x00
  const ETC_BREAK_ON: Byte := 0x81
  const ETC_BREAK_OFF: Byte := 0x83

  /** Ring capacity: 1024 slots, one kept free. */
  const CAPACITY := 1023

  /** At most sixteen characters move per transmit service. */
  const FIFO_ROOM := 16

  function Token(i: Item): seq<Byte> {
    match i
    case Char(b) => if b == 0 then [ETC, 0] else [b]
    case BreakOn => [ETC, ETC_BREAK_ON]
    case BreakOff => [ETC, ETC_BREAK_OFF]
  }

  function Encode(items: seq<Item>): seq<Byte> {
    if items == [] then [] else Token(items[0]) + Encode(items[1..])
  }

  function Chars(buf: seq<Byte>): (items: seq<Item>)
    ensures |items| == |buf|
    ensures forall i :: 0 <= i < |buf| ==> items[i] == Char(buf[i])
  {
    seq(|buf|, i requires 0 <= i < |buf| => Char(buf[i]))
  }

  lemma {:induction false} EncodeConcat(a: seq<Item>, b: seq<Item>)
    ensures Encode(a + b) == Encode(a) + Encode(b)
  {
    hide Token;
    if a == [] {
      assert a + b == b;
    } else {
      EncodeConcat(a[1..], b);
      assert (a + b)[1..] == a[1..] + b && (a + b)[0] == a[0];
      Regroup(Token(a[0]), Encode(a[1..]), Encode(b));
    }
  }

  lemma Regroup(a: seq<Byte>, b: seq<Byte>, c: seq<Byte>)
    ensures a + (b + c) == a + b + c
  {
  }

  lemma EncodeOne(i: Item)
    ensures Encode([i]) == Token(i)
  {
    hide Token;
    assert [i][1..] == [];
  }

  /** The escapes, byte for byte: NUL doubled, break on 00 81, break off 00 83, and anything else itself. */
  lemma WireForm(b: Byte)
    ensures Encode([Char(b)]) == if b == 0x00 then [0x00, 0x00] else [b]
    ensures Encode([BreakOn]) == [0x00, 0x81] && Encode([BreakOff]) == [0x00, 0x83]
  {
    EncodeOne(Char(b));
    EncodeOne(BreakOn);
    EncodeOne(BreakOff);
  }

  // ----- writers ---------------------------------------------------------

  /** How many characters of `buf` a write takes when `free` ring slots are left. */
  function AcceptedCount(free: nat, buf: seq<Byte>): (n: nat)
    ensures n <= |buf|
  {
    if buf == [] || free < |Token(Char(buf[0]))| then 0
    else 1 + AcceptedCount(free - |Token(Char(buf[0]))|, buf[1..])
  }

  /** A write takes the longest prefix whose encoding fits: never half an escape, never less than it could. */
  lemma {:induction false} AcceptedIsLongestFit(free: nat, buf: seq<Byte>)
    ensures var n := AcceptedCount(free, buf);
            && |Encode(Chars(buf[..n]))| <= free
            && (n < |buf| ==> |Encode(Chars(buf[..n + 1]))| > free)
  {
    var n := AcceptedCount(free, buf);
    if buf != [] {
      var head := Token(Char(buf[0]));
      forall k | 1 <= k <= |buf|
        ensures Encode(Chars(buf[..k])) == head + Encode(Chars(buf[1..][..k - 1]))
      {
        assert Chars(buf[..k])[1..] == Chars(buf[1..][..k - 1]);
      }
      if n == 0 {
        assert buf[..0] == [];
        assert |Encode(Chars(buf[..1]))| >= |head|;
      } else {
        AcceptedIsLongestFit(free - |head|, buf[1..]);
      }
    }
  }

  // ----- the line as a state machine --------------------------------------

  /**
   `queue` is the ring's contents, `sent` what reached TDR, `accepted` what was taken:
   all that a write reports, but only those breaks that found room.
   */
  datatype Line = Line(queue: seq<Byte>, sent: seq<Byte>, accepted: seq<Item>)

  datatype Event = Write(buf: seq<Byte>) | Break(on: bool) | Service(room: nat)

  const FRESH := Line([], [], [])

  function WriteStep(l: Line, buf: seq<Byte>): Line
    requires |l.queue| <= CAPACITY
  {
    var n := AcceptedCount(CAPACITY - |l.queue|, buf);
    l.(queue := l.queue + Encode(Chars(buf[..n])), accepted := l.accepted + Chars(buf[..n]))
  }

  function BreakItem(on: bool): Item { if on then BreakOn else BreakOff }

  /** A break that finds fewer than two free slots is silently not queued. */
  function BreakStep(l: Line, on: bool): Line
    requires |l.queue| <= CAPACITY
  {
    if CAPACITY - |l.queue| < 2 then l
    else l.(queue := l.queue + Token(BreakItem(on)), accepted := l.accepted + [BreakItem(on)])
  }

  /** A break is taken exactly if write_room is at least two; its caller cannot tell. */
  lemma BreakTakenExactly(l: Line, on: bool)
    requires |l.queue| <= CAPACITY
    ensures BreakStep(l, on).accepted == l.accepted + [BreakItem(on)] <==> CAPACITY - |l.queue| >= 2
    ensures BreakStep(l, on) == l <==> CAPACITY - |l.queue| < 2
  {
    assert |l.accepted + [BreakItem(on)]| != |l.accepted|;
  }

  /** Whether a stream of writes and breaks leaves the line in break. */
  function InBreak(items: seq<Item>): bool {
    if items == [] then false
    else match items[|items| - 1]
      case BreakOn => true
      case BreakOff => false
      case Char(_) => InBreak(items[..|items| - 1])
  }

  /** A break-off that finds the ring full leaves the line in break, however long the ring takes to drain. */
  lemma LostBreakOff(l: Line)
    requires |l.queue| <= CAPACITY
    ensures InBreak(BreakStep(l, false).accepted) <==> InBreak(l.accepted) && CAPACITY - |l.queue| < 2
  {
  }

  function Burst(queue: seq<Byte>, room: nat): (k: nat)
    ensures k <= |queue| && k <= room && k <= FIFO_ROOM
    ensures k == |queue| || k == room || k == 16
  {
    var r := if room > FIFO_ROOM then FIFO_ROOM else room;
    if r < |queue| then r else |queue|
  }

  function ServiceStep(l: Line, room: nat): Line {
    var k := Burst(l.queue, room);
    l.(queue := l.queue[k..], sent := l.sent + l.queue[..k])
  }

  ghost predicate Conserved(l: Line) {
    && |l.queue| <= CAPACITY
    && l.sent + l.queue == Encode(l.accepted)
  }

  function Step(l: Line, e: Event): Line
    requires |l.queue| <= CAPACITY
  {
    match e
    case Write(buf) => WriteStep(l, buf)
    case Break(on) => BreakStep(l, on)
    case Service(room) => ServiceStep(l, room)
  }

  lemma WriteConserves(l: Line, buf: seq<Byte>)
    requires Conserved(l)
    ensures Conserved(WriteStep(l, buf))
  {
    var n := AcceptedCount(CAPACITY - |l.queue|, buf);
    hide Encode;
    hide Chars;
    hide AcceptedCount;
    var more := Encode(Chars(buf[..n]));
    AcceptedIsLongestFit(CAPACITY - |l.queue|, buf);
    EncodeConcat(l.accepted, Chars(buf[..n]));
    Regroup(l.sent, l.queue, more);
  }

  lemma BreakConserves(l: Line, on: bool)
    requires Conserved(l)
    ensures Conserved(BreakStep(l, on))
  {
    var token := Token(BreakItem(on));
    EncodeConcat(l.accepted, [BreakItem(on)]);
    EncodeOne(BreakItem(on));
    assert l.sent + (l.queue + token) == (l.sent + l.queue) + token;
  }

  lemma StepConserves(l: Line, e: Event)
    requires Conserved(l)
    ensures Conserved(Step(l, e))
  {
    match e
    case Write(buf) => WriteConserves(l, buf);
    case Break(on) => BreakConserves(l, on);
    case Service(room) =>
      var k := Burst(l.queue, room);
      assert l.queue[..k] + l.queue[k..] == l.queue;
      assert (l.sent + l.queue[..k]) + l.queue[k..] == l.sent + l.queue;
  }

  /** Every interleaving of writers, breaks and transmit services, applied from `l`. */
  ghost function Run(l: Line, events: seq<Event>): (r: Line)
    requires Conserved(l)
    ensures Conserved(r)
    decreases |events|
  {
    if events == [] then l
    else
      StepConserves(l, events[0]);
      Run(Step(l, events[0]), events[1..])
  }

  // ----- the chip's side ---------------------------------------------------

  /** The CD2481's transmitter with ETC on: one byte at a time, `escape` after a lone 0x00. */
  datatype Decoder = Decoder(escape: bool, bad: bool, items: seq<Item>)

  const IDLE := Decoder(false, false, [])

  function Feed(d: Decoder, b: Byte): Decoder {
    if d.bad then d
    else if !d.escape then
      if b == ETC then d.(escape := true) else d.(items := d.items + [Char(b)])
    else if b == 0 then Decoder(false, false, d.items + [Char(0)])
    else if b == ETC_BREAK_ON then Decoder(false, false, d.items + [BreakOn])
    else if b == ETC_BREAK_OFF then Decoder(false, false, d.items + [BreakOff])
    else d.(bad := true)
  }

  function Decode(d: Decoder, bytes: seq<Byte>): Decoder
    decreases |bytes|
  {
    if bytes == [] then d else Decode(Feed(d, bytes[0]), bytes[1..])
  }

  lemma {:induction false} DecodeConcat(d: Decoder, a: seq<Byte>, b: seq<Byte>)
    ensures Decode(d, a + b) == Decode(Decode(d, a), b)
    decreases |a|
  {
    if a == [] {
      assert a + b == b;
    } else {
      DecodeConcat(Feed(d, a[0]), a[1..], b);
      assert (a + b)[1..] == a[1..] + b;
    }
  }

  lemma DecodeToken(d: Decoder, i: Item)
    requires !d.escape && !d.bad
    ensures Decode(d, Token(i)) == d.(items := d.items + [i])
  {
    var t := Token(i);
    if |t| == 2 {
      assert t[1..] == [t[1]] && t[1..][1..] == [];
      assert Decode(d, t) == Decode(Feed(Feed(d, t[0]), t[1]), []);
    } else {
      assert t[1..] == [];
    }
  }

  /** Decoding inverts encoding, and the decoder is left between tokens. */
  lemma {:induction false} DecodeEncode(d: Decoder, items: seq<Item>)
    requires !d.escape && !d.bad
    ensures Decode(d, Encode(items)) == d.(items := d.items + items)
    decreases |items|
  {
    if items == [] {
      assert d.items + items == d.items;
    } else {
      DecodeToken(d, items[0]);
      DecodeConcat(d, Token(items[0]), Encode(items[1..]));
      DecodeEncode(d.(items := d.items + [items[0]]), items[1..]);
      assert d.items + [items[0]] + items[1..] == d.items + items;
    }
  }

  /** The byte the decoder has taken but not acted on. */
  function Pending(d: Decoder): seq<Byte> { if d.escape then [ETC] else [] }

  lemma {:induction false} StaysBad(d: Decoder, bytes: seq<Byte>)
    ensures d.bad ==> Decode(d, bytes) == d
    decreases |bytes|
  {
    if bytes != [] {
      StaysBad(Feed(d, bytes[0]), bytes[1..]);
    }
  }

  /** Whatever items the decoder makes of a stream, they encode to just the bytes it took. */
  lemma {:induction false} DecodeFaithful(d: Decoder, bytes: seq<Byte>)
    requires !Decode(d, bytes).bad
    ensures var r := Decode(d, bytes);
            && d.items <= r.items
            && Pending(d) + bytes == Encode(r.items[|d.items|..]) + Pending(r)
    decreases |bytes|
  {
    hide Encode;
    hide Pending;
    hide Feed;
    var r := Decode(d, bytes);
    if bytes == [] {
      assert d.items[|d.items|..] == [];
      EncodeNone([]);
      assert Pending(d) + bytes == Pending(d) && [] + Pending(d) == Pending(d);
    } else {
      var n, rest := Feed(d, bytes[0]), bytes[1..];
      assert r == Decode(n, rest);
      hide Decode;
      StaysBad(n, rest);
      FeedFaithful(d, bytes[0]);
      DecodeFaithful(n, rest);
      var first, more := n.items[|d.items|..], r.items[|n.items|..];
      assert r.items[|d.items|..] == first + more;
      EncodeConcat(first, more);
      assert bytes == [bytes[0]] + rest;
      Linked(Pending(d), [bytes[0]], rest, Encode(first), Pending(n), Encode(more), Pending(r));
    }
  }

  lemma Linked(p: seq<Byte>, b: seq<Byte>, rest: seq<Byte>, e: seq<Byte>, q: seq<Byte>, f: seq<Byte>, r: seq<Byte>)
    requires p + b == e + q && q + rest == f + r
    ensures p + (b + rest) == (e + f) + r
  {
    Regroup(p, b, rest);
    Regroup(e, q, rest);
    Regroup(e, f, r);
  }

  lemma FeedFaithful(d: Decoder, b: Byte)
    requires !Feed(d, b).bad
    ensures var n := Feed(d, b);
            d.items <= n.items && Pending(d) + [b] == Encode(n.items[|d.items|..]) + Pending(n)
  {
    var n := Feed(d, b);
    if |n.items| == |d.items| {
      assert n.items[|d.items|..] == [];
    } else {
      var i := n.items[|d.items|];
      assert n.items[|d.items|..] == [i];
      EncodeOne(i);
    }
  }

  /**
   Activation empties the ring, perhaps between the bytes of an escape.  If the
   transmitter is not reset then, what is accepted next comes out right exactly if
   no escape was open.
   */
  lemma OpenEscapeSpoilsNext(left: Decoder, items: seq<Item>)
    requires !left.bad
    ensures Decode(left, Encode(items)) == Decoder(false, false, left.items + items) <==> !left.escape
  {
    var r := Decode(left, Encode(items));
    if !left.escape {
      DecodeEncode(left, items);
    } else if !r.bad {
      hide Decode;
      hide Encode;
      DecodeFaithful(left, Encode(items));
      var more := r.items[|left.items|..];
      assert |Pending(left) + Encode(items)| == |Encode(more) + Pending(r)|;
      assert (left.items + items)[|left.items|..] == items;
    }
  }

  /**
   A cut anywhere in the stream, also inside an escape: the decoder has produced
   the first items, in order and unaltered, and at most a lone escape is pending.
   */
  lemma {:induction false} DecodeCut(items: seq<Item>, cut: nat)
    requires cut <= |Encode(items)|
    ensures var d := Decode(IDLE, Encode(items)[..cut]);
            && !d.bad
            && d.items <= items
            && Encode(items)[..cut] == Encode(d.items) + (if d.escape then [ETC] else [])
    decreases |items|
  {
    hide Encode;
    hide Decode;
    hide Token;
    var whole := Encode(items);
    if cut == |whole| {
      assert whole[..cut] == whole;
      DecodeEncode(IDLE, items);
      assert IDLE.items + items == items && whole + [] == whole;
    } else if items == [] {
      EncodeNone(items);
    } else {
      var n := |items| - 1;
      var init := Encode(items[..n]);
      LastToken(items);
      if cut <= |init| {
        DecodeCut(items[..n], cut);
        assert whole[..cut] == init[..cut];
      } else {
        CutInEscape(items[..n]);
        assert whole[..cut] == init + [ETC];
      }
    }
  }

  lemma LastToken(items: seq<Item>)
    requires items != []
    ensures var n := |items| - 1;
            var t := Token(items[n]);
            Encode(items) == Encode(items[..n]) + t && 1 <= |t| <= 2 && (|t| == 2 ==> t[0] == ETC)
  {
    hide Token;
    hide Encode;
    var n := |items| - 1;
    assert items == items[..n] + [items[n]];
    EncodeConcat(items[..n], [items[n]]);
    EncodeOne(items[n]);
    TokenShape(items[n]);
  }

  lemma EncodeNone(items: seq<Item>)
    requires items == []
    ensures Encode(items) == []
  {
  }

  lemma TokenShape(i: Item)
    ensures 1 <= |Token(i)| <= 2 && (|Token(i)| == 2 ==> Token(i)[0] == ETC)
  {
  }

  /** The first byte of an escape leaves the decoder waiting, with every earlier item out. */
  lemma CutInEscape(items: seq<Item>)
    ensures Decode(IDLE, Encode(items) + [ETC]) == Decoder(true, false, items)
  {
    DecodeEncode(IDLE, items);
    assert IDLE.items + items == items;
    DecodeConcat(IDLE, Encode(items), [ETC]);
    assert [ETC][1..] == [];
  }

  /** What the chip decodes is a prefix of exactly what was accepted, and all of it once the ring is empty. */
  lemma ConservedDecodes(l: Line)
    requires Conserved(l)
    ensures var d := Decode(IDLE, l.sent);
            && !d.bad
            && d.items <= l.accepted
            && (l.queue == [] ==> d.items == l.accepted && !d.escape)
  {
    assert l.sent == Encode(l.accepted)[..|l.sent|];
    DecodeCut(l.accepted, |l.sent|);
    if l.queue == [] {
      assert l.sent == Encode(l.accepted);
      DecodeEncode(IDLE, l.accepted);
      assert IDLE.items + l.accepted == l.accepted;
    }
  }

  /** The same over every interleaving of writers, breaks and services, however service room cuts the stream. */
  lemma WireCarriesAccepted(events: seq<Event>)
    ensures var l := Run(FRESH, events);
            var d := Decode(IDLE, l.sent);
            && !d.bad
            && d.items <= l.accepted
            && (l.queue == [] ==> d.items == l.accepted && !d.escape)
  {
    ConservedDecodes(Run(FRESH, events));
  }

  /** The transmitter with ETC off sends every byte as it is. */
  function Literal(bytes: seq<Byte>): seq<Item> { Chars(bytes) }

  /** No NUL and no break. */
  ghost predicate Plain(items: seq<Item>) {
    forall i :: 0 <= i < |items| ==> items[i].Char? && items[i].b != 0
  }

  /** The line with ETC off: right for plain text however it is cut, and once the ring is empty for nothing else. */
  lemma ConservedLiteral(l: Line)
    requires Conserved(l)
    ensures Plain(l.accepted) ==> Literal(l.sent) <= l.accepted
    ensures l.queue == [] ==> (Literal(l.sent) == l.accepted <==> Plain(l.accepted))
  {
    EtcOffExactlyPlainText(l.accepted);
    if Plain(l.accepted) {
      assert Literal(l.sent + l.queue)[..|l.sent|] == Literal(l.sent);
    }
    if l.queue == [] {
      assert l.sent == Encode(l.accepted);
    }
  }

  lemma {:induction false} EncodeLength(items: seq<Item>)
    ensures |Encode(items)| >= |items|
    ensures |Encode(items)| == |items| <==> forall i :: 0 <= i < |items| ==> |Token(items[i])| == 1
  {
    if items != [] {
      EncodeLength(items[1..]);
      assert forall i :: 0 < i < |items| ==> items[i] == items[1..][i - 1];
      assert forall i :: 0 <= i < |items[1..]| ==> items[1..][i] == items[i + 1];
    }
  }

  /** With ETC off (COR2 = 0x00, as channel init leaves it) the line is right exactly for streams with no NUL and no break. */
  lemma {:induction false} EtcOffExactlyPlainText(items: seq<Item>)
    ensures Literal(Encode(items)) == items <==> Plain(items)
  {
    EncodeLength(items);
    if Plain(items) {
      PlainText(items);
    }
  }

  lemma {:induction false} PlainText(items: seq<Item>)
    requires Plain(items)
    ensures Literal(Encode(items)) == items
  {
    if items != [] {
      PlainText(items[1..]);
      var rest := Encode(items[1..]);
      assert Encode(items) == [items[0].b] + rest;
      assert Literal([items[0].b] + rest) == [Char(items[0].b)] + Literal(rest);
    }
  }

  // ----- draining ----------------------------------------------------------

  /** With nothing more queued, grants that each offer a slot empty the ring in at most one service per byte. */
  lemma {:induction false} DrainsWithinLength(l: Line, rooms: seq<nat>)
    requires Conserved(l)
    requires forall i :: 0 <= i < |rooms| ==> rooms[i] >= 1
    requires |rooms| >= |l.queue|
    ensures Run(l, Services(rooms)).queue == []
    decreases |rooms|
  {
    if rooms != [] {
      var next := ServiceStep(l, rooms[0]);
      StepConserves(l, Service(rooms[0]));
      assert Services(rooms)[1..] == Services(rooms[1..]);
      DrainsWithinLength(next, rooms[1..]);
    }
  }

  function Services(rooms: seq<nat>): (events: seq<Event>)
    ensures |events| == |rooms|
    ensures forall i :: 0 <= i < |rooms| ==> events[i] == Service(rooms[i])
  {
    seq(|rooms|, i requires 0 <= i < |rooms| => Service(rooms[i]))
  }
}
