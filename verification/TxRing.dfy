/**
 The transmit ring of one NM-32A port, `tx[1024]` with `head` and `tail`.  Each
 method is proved against the queue operations of TxStream, so the ring is a FIFO
 of capacity 1023 whatever the indices are.
 */
module TxRing {
  import opened Bytes
  import opened TxStream

  const TXBUF := 1024

  class Ring {
    const tx: array<Byte>
    var head: nat
    var tail: nat

    ghost predicate Valid()
      reads this
    {
      tx.Length == TXBUF && head < TXBUF && tail < TXBUF
    }

    ghost function Contents(): (q: seq<Byte>)
      reads this, tx
      requires Valid()
      ensures |q| <= CAPACITY
    {
      Span(tx[..], tail, head)
    }

    /** The bytes of a ring buffer `t` from `tail` on to `head`, wrapping at the end. */
    static ghost function Span(t: seq<Byte>, tail: nat, head: nat): (q: seq<Byte>)
      requires |t| == TXBUF && head < TXBUF && tail < TXBUF
      ensures |q| <= CAPACITY
      ensures head == tail <==> q == []
    {
      if tail <= head then t[tail..head] else t[tail..] + t[..head]
    }

    static lemma SpanLength(t: seq<Byte>, tail: nat, head: nat)
      requires |t| == TXBUF && head < TXBUF && tail < TXBUF
      ensures |Span(t, tail, head)| == if tail <= head then head - tail else TXBUF + head - tail
    {
    }

    static lemma WrapsTo(head: nat, tail: nat)
      requires head < TXBUF && tail < TXBUF
      ensures U32(U32(head - tail) + TXBUF) % TXBUF == if tail <= head then head - tail else TXBUF + head - tail
    {
      if tail <= head {
        assert U32(head - tail) == head - tail;
      } else {
        assert U32(head - tail) == TWO32 + head - tail;
        assert U32(TWO32 + head - tail + TXBUF) == TXBUF + head - tail;
      }
    }

    static lemma SpanPop(t: seq<Byte>, tail: nat, next: nat, head: nat)
      requires |t| == TXBUF && head < TXBUF && tail < TXBUF && head != tail
      requires next == if tail + 1 == TXBUF then 0 else tail + 1
      ensures Span(t, tail, head) == [t[tail]] + Span(t, next, head)
    {
      var a, b := Span(t, tail, head), Span(t, next, head);
      assert |a| == |b| + 1 && a[0] == t[tail];
      forall i | 0 <= i < |b|
        ensures a[i + 1] == b[i]
      {
      }
    }

    static lemma SpanPush(t: seq<Byte>, tail: nat, head: nat, c: Byte)
      requires |t| == TXBUF && head < TXBUF && tail < TXBUF && |Span(t, tail, head)| < CAPACITY
      ensures Span(t[head := c], tail, (head + 1) % TXBUF) == Span(t, tail, head) + [c]
    {
    }

    constructor ()
      ensures Valid() && Contents() == [] && fresh(tx)
    {
      tx := new Byte[TXBUF](_ => 0);
      head, tail := 0, 0;
    }

    /** Activation empties the ring by resetting both indices. */
    method Reset()
      requires Valid()
      modifies this
      ensures Valid() && Contents() == []
    {
      head, tail := 0, 0;
    }

    /** `head - tail` may wrap below zero as a C unsigned; 1024 divides 2^32, so the remainder is still the fill. */
    method Space() returns (free: nat)
      requires Valid()
      ensures free == 1023 - |Contents()|
    {
      hide Span;
      SpanLength(tx[..], tail, head);
      var used := U32(U32(head - tail) + TXBUF) % TXBUF;
      WrapsTo(head, tail);
      free := TXBUF - 1 - used;
    }

    method Put(c: Byte)
      requires Valid()
      requires |Contents()| < CAPACITY
      modifies this`head, tx
      ensures Valid() && Contents() == old(Contents()) + [c]
    {
      hide Span;
      SpanPush(tx[..], tail, head, c);
      ghost var was := tx[..];
      tx[head] := c;
      assert tx[..] == was[head := c];
      head := (head + 1) % TXBUF;
    }

    /** One character of a write: a literal NUL goes out as the two-byte escape. */
    method PutChar(c: Byte)
      requires Valid()
      requires |Contents()| + |Token(Char(c))| <= CAPACITY
      modifies this`head, tx
      ensures Valid() && Contents() == old(Contents()) + Token(Char(c))
    {
      ghost var before := Contents();
      Put(c);
      if c == 0 {
        Put(0x00);
        assert before + [c] + [0] == before + [c, 0];
      }
    }

    /** nm32a_tty_write: queue the longest prefix that fits, escaping NUL, and say how much was taken. */
    method TtyWrite(buf: seq<Byte>) returns (n: nat)
      requires Valid()
      modifies this`head, tx
      ensures Valid()
      ensures n == AcceptedCount(1023 - |old(Contents())|, buf)
      ensures Contents() == old(Contents()) + Encode(Chars(buf[..n]))
    {
      hide Encode;
      hide Chars;
      hide AcceptedCount;
      hide Contents;
      n := 0;
      ghost var was := Contents();
      assert Encode(Chars(buf[..0])) == [] by { NothingEncodes(buf[..0]); }
      assert was == was + Encode(Chars(buf[..0]));
      assert buf[0..] == buf;
      while n < |buf|
        invariant n <= |buf| && Valid()
        invariant Contents() == was + Encode(Chars(buf[..n]))
        invariant AcceptedCount(CAPACITY - |was|, buf) == n + AcceptedCount(CAPACITY - |Contents()|, buf[n..])
      {
        var need := if buf[n] != 0 then 1 else 2;
        var space := Space();
        AcceptNext(space, buf[n..]);
        if space < need {
          break;
        }
        AppendChar(was, buf, n);
        PutChar(buf[n]);
        n := n + 1;
      }
    }

    static lemma NothingEncodes(buf: seq<Byte>)
      requires buf == []
      ensures Encode(Chars(buf)) == []
    {
    }

    static lemma AcceptNext(free: nat, buf: seq<Byte>)
      requires buf != []
      ensures |Token(Char(buf[0]))| == if buf[0] != 0 then 1 else 2
      ensures AcceptedCount(free, buf)
           == if free < |Token(Char(buf[0]))| then 0 else 1 + AcceptedCount(free - |Token(Char(buf[0]))|, buf[1..])
      ensures AcceptedCount(free, []) == 0
    {
    }

    static lemma AppendChar(was: seq<Byte>, buf: seq<Byte>, n: nat)
      requires n < |buf|
      ensures was + Encode(Chars(buf[..n])) + Token(Char(buf[n])) == was + Encode(Chars(buf[..n + 1]))
      ensures buf[n..][1..] == buf[n + 1..]
    {
      assert Chars(buf[..n + 1]) == Chars(buf[..n]) + [Char(buf[n])];
      EncodeConcat(Chars(buf[..n]), [Char(buf[n])]);
      EncodeOne(Char(buf[n]));
    }

    /** nm32a_break_ctl: both bytes of the escape, or neither; success is reported either way. */
    method BreakCtl(on: bool) returns (rc: int)
      requires Valid()
      modifies this`head, tx
      ensures Valid()
      ensures Contents() == BreakStep(Line(old(Contents()), [], []), on).queue
      ensures Contents() == old(Contents()) + if |old(Contents())| > 1021 then [] else if on then [0x00, 0x81] else [0x00, 0x83]
      ensures rc == 0
    {
      var space := Space();
      if space >= 2 {
        Put(0x00);
        Put(if on then 0x81 else 0x83);
        assert Contents() == old(Contents()) + [0x00, if on then 0x81 else 0x83];
      }
      rc := 0;
    }

    method Get() returns (c: Byte)
      requires Valid()
      requires head != tail
      modifies this`tail
      ensures Valid() && old(Contents()) == [c] + Contents()
    {
      hide Span;
      SpanPop(tx[..], tail, (tail + 1) % TXBUF, head);
      c := tx[tail];
      tail := (tail + 1) % TXBUF;
    }

    /** The drain loop of a transmit service: the bytes written to TDR, oldest first. */
    method Drain(tftc: Byte) returns (out: seq<Byte>)
      requires Valid()
      modifies this`tail
      ensures Valid()
      ensures var k := Burst(old(Contents()), tftc);
              out == old(Contents())[..k] && Contents() == old(Contents())[k..]
    {
      var room := if tftc > 16 then 16 else tftc;
      ghost var was := Contents();
      out := [];
      var i := 0;
      while i < room && head != tail
        invariant i <= room && i <= |was| && Valid()
        invariant out == was[..i] && Contents() == was[i..]
      {
        var c := Get();
        assert was[i..] == [c] + Contents();
        assert was[i + 1..] == was[i..][1..];
        out := out + [c];
        i := i + 1;
      }
    }
  }
}
