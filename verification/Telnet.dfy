/**
 nmconsole's telnet layer (RFC 854 commands, RFC 855 subnegotiation): the in-place
 filter on what the client sends and the chunked escaper on what the console says.
 */
module Telnet {
  import opened Bytes

  const IAC: Byte := 255
  const DONT: Byte := 254
  const DO: Byte := 253
  const WONT: Byte := 252
  const WILL: Byte := 251
  const SB: Byte := 250
  const IP: Byte := 244
  const BRK: Byte := 243
  const SE: Byte := 240

  // ----- the grammar --------------------------------------------------------------

  /** What a client's stream is made of. */
  datatype Token =
    | Text(b: Byte)                     // any byte but IAC
    | Quoted                            // IAC IAC, a literal 0xFF
    | Negotiate(verb: Byte, opt: Byte)  // IAC DO/DONT/WILL/WONT option
    | Break(cmd: Byte)                  // IAC BRK or IAC IP
    | Sub(body: seq<Byte>)              // IAC SB ... IAC SE
    | Command(cmd: Byte)                // any other two-byte command

  predicate IsVerb(b: Byte) { b == DO || b == DONT || b == WILL || b == WONT }

  /** IAC SE occurs in `s` at `i`. */
  predicate EndsAt(s: seq<Byte>, i: nat) {
    i + 1 < |s| && s[i] == IAC && s[i + 1] == SE
  }

  ghost predicate Legal(t: Token) {
    match t
    case Text(b) => b != IAC
    case Quoted => true
    case Negotiate(verb, _) => IsVerb(verb)
    case Break(cmd) => cmd == BRK || cmd == IP
    case Sub(body) => forall i: nat :: !EndsAt([IAC, SB] + body + [IAC], i)
    case Command(cmd) => cmd != IAC && !IsVerb(cmd) && cmd != BRK && cmd != IP && cmd != SB
  }

  function Wire(t: Token): seq<Byte> {
    match t
    case Text(b) => [b]
    case Quoted => [IAC, IAC]
    case Negotiate(verb, opt) => [IAC, verb, opt]
    case Break(cmd) => [IAC, cmd]
    case Sub(body) => [IAC, SB] + body + [IAC, SE]
    case Command(cmd) => [IAC, cmd]
  }

  function WireAll(ts: seq<Token>): seq<Byte> {
    if ts == [] then [] else Wire(ts[0]) + WireAll(ts[1..])
  }

  /** What a token is worth: data for the console, a reply to the client, a break on the line. */
  datatype Out = Out(data: seq<Byte>, replies: seq<seq<Byte>>, breaks: nat)

  function Refusal(verb: Byte, opt: Byte): seq<Byte> {
    [IAC, if verb == DO || verb == DONT then WONT else DONT, opt]
  }

  function Meaning(t: Token): Out {
    match t
    case Text(b) => Out([b], [], 0)
    case Quoted => Out([IAC], [], 0)
    case Negotiate(verb, opt) => Out([], [Refusal(verb, opt)], 0)
    case Break(_) => Out([], [], 1)
    case _ => Out([], [], 0)
  }

  function Join(a: Out, b: Out): Out {
    Out(a.data + b.data, a.replies + b.replies, a.breaks + b.breaks)
  }

  const NOTHING := Out([], [], 0)

  function AllMeaning(ts: seq<Token>): Out {
    if ts == [] then NOTHING else Join(Meaning(ts[0]), AllMeaning(ts[1..]))
  }

  // ----- parsing, out of place -------------------------------------------------------

  /** Where the subnegotiation starting at `i` ends: the first IAC SE from `i` on, or the last byte. */
  function SubEnd(s: seq<Byte>, i: nat): (e: nat)
    requires i < |s|
    ensures i <= e < |s|
    ensures forall j :: i <= j < e ==> !EndsAt(s, j)
    ensures e + 1 < |s| ==> EndsAt(s, e)
    decreases |s| - i
  {
    if i + 1 == |s| || EndsAt(s, i) then i else SubEnd(s, i + 1)
  }

  /** The token starting at `i` and the index after it; nothing if the buffer ends inside one. */
  function TokenAt(s: seq<Byte>, i: nat): (r: (seq<Token>, nat))
    requires i < |s|
    ensures |r.0| <= 1 && i < r.1
    ensures r.0 == [] ==> r.1 >= |s|
  {
    if s[i] != IAC then ([Text(s[i])], i + 1)
    else if i + 1 >= |s| then ([], i + 1)
    else if s[i + 1] == IAC then ([Quoted], i + 2)
    else if IsVerb(s[i + 1]) then
      (if i + 2 >= |s| then ([], |s| + 1) else ([Negotiate(s[i + 1], s[i + 2])], i + 3))
    else if s[i + 1] == BRK || s[i + 1] == IP then ([Break(s[i + 1])], i + 2)
    else if s[i + 1] == SB then
      var e := SubEnd(s, i);
      if e + 1 < |s| then ([Sub(s[i + 2..e])], e + 2) else ([], e + 2)
    else ([Command(s[i + 1])], i + 2)
  }

  /** All tokens from `i` on; an incomplete one at the end of the buffer is dropped. */
  function Parse(s: seq<Byte>, i: nat): seq<Token>
    decreases |s| - i
  {
    if i >= |s| then [] else TokenAt(s, i).0 + Parse(s, TokenAt(s, i).1)
  }

  /** Parsing finds exactly the bytes of legal tokens. */
  lemma {:induction false} ParseIsFaithful(s: seq<Byte>, i: nat)
    requires i <= |s|
    ensures (forall t :: t in Parse(s, i) ==> Legal(t)) && WireAll(Parse(s, i)) <= s[i..]
    decreases |s| - i
  {
    hide TokenAt;
    hide Legal;
    hide Wire;
    if i < |s| {
      var (t, n) := TokenAt(s, i);
      ParseStep(s, i);
      if t != [] {
        TokenIsFaithful(s, i);
        hide WireAll;
        hide Parse;
        ParseIsFaithful(s, n);
        WireCons(t[0], Parse(s, n));
        assert s[i..n] + s[n..] == s[i..];
      }
    }
  }

  lemma WireCons(t: Token, ts: seq<Token>)
    ensures WireAll([t] + ts) == Wire(t) + WireAll(ts)
  {
    assert ([t] + ts)[1..] == ts;
  }

  /** Only the start of a sequence that the buffer does not finish is left over. */
  lemma {:induction false} ParseLeavesUnfinished(s: seq<Byte>, i: nat)
    requires i <= |s|
    ensures i + |WireAll(Parse(s, i))| <= |s| && Unfinished(s[i + |WireAll(Parse(s, i))|..])
    decreases |s| - i
  {
    hide TokenAt;
    hide Legal;
    hide Wire;
    hide Unfinished;
    if i == |s| {
      EmptyIsFinished();
      assert s[i..] == [];
    } else {
      var (t, n) := TokenAt(s, i);
      ParseStep(s, i);
      if t == [] {
        CutOff(s, i);
      } else {
        TokenIsFaithful(s, i);
        ParseLeavesUnfinished(s, n);
        WireCons(t[0], Parse(s, n));
      }
    }
  }

  lemma EmptyIsFinished()
    ensures Unfinished([])
  {
  }

  /** What may be left over at the end of a buffer: the start of a sequence that does not end in it. */
  ghost predicate Unfinished(tail: seq<Byte>) {
    || tail == [] || tail == [IAC]
    || (|tail| == 2 && tail[0] == IAC && IsVerb(tail[1]))
    || (|tail| >= 2 && tail[0] == IAC && tail[1] == SB && forall j: nat :: !EndsAt(tail, j))
  }

  lemma CutOff(s: seq<Byte>, i: nat)
    requires i < |s| && TokenAt(s, i).0 == []
    ensures Unfinished(s[i..])
  {
    var tail := s[i..];
    if i + 1 < |s| && s[i + 1] == SB {
      forall j: nat
        ensures !EndsAt(tail, j)
      {
        assert j + 1 < |tail| ==> tail[j] == s[i + j] && tail[j + 1] == s[i + j + 1] && !EndsAt(s, i + j);
      }
    }
  }

  lemma NoToken(before: seq<Byte>, tail: seq<Byte>)
    requires Unfinished(tail) && tail != []
    ensures TokenAt(before + tail, |before|).0 == []
  {
    var s, i := before + tail, |before|;
    assert s[i] == tail[0];
    if |tail| >= 2 {
      assert s[i + 1] == tail[1];
    }
    if |tail| >= 2 && tail[1] == SB {
      forall j | i <= j && j + 1 < |s|
        ensures !EndsAt(s, j)
      {
        assert !EndsAt(tail, j - i);
        assert s[j] == tail[j - i] && s[j + 1] == tail[j - i + 1];
      }
    }
  }

  lemma ParseStep(s: seq<Byte>, i: nat)
    requires i < |s|
    ensures var (t, n) := TokenAt(s, i); Parse(s, i) == if t == [] then [] else [t[0]] + Parse(s, n)
  {
    var (t, n) := TokenAt(s, i);
    hide TokenAt;
    if t == [] {
      assert Parse(s, n) == [];
    } else {
      assert t == [t[0]];
    }
  }

  lemma TokenIsFaithful(s: seq<Byte>, i: nat)
    requires i < |s| && TokenAt(s, i).0 != []
    ensures var (t, n) := TokenAt(s, i);
            n <= |s| && Legal(t[0]) && Wire(t[0]) == s[i..n]
  {
    var (t, n) := TokenAt(s, i);
    if t[0].Sub? {
      var e := SubEnd(s, i);
      assert e >= i + 2 by {
        assert EndsAt(s, e) && s[i + 1] == SB;
      }
      var all := [IAC, SB] + t[0].body + [IAC];
      assert all == s[i..e + 1];
      forall j: nat | j + 1 < |all|
        ensures !EndsAt(all, j)
      {
        assert !EndsAt(s, i + j);
      }
      assert all + [SE] == s[i..n];
      assert Wire(t[0]) == all + [SE];
    }
  }

  /**
   Any sequence of legal tokens, written out and followed by an unfinished one, is
   read back as exactly those tokens: with ParseIsFaithful, parsing is the only way
   to take a buffer apart.
   */
  lemma {:induction false} ParseInverts(ts: seq<Token>, before: seq<Byte>, tail: seq<Byte>)
    requires (forall t :: t in ts ==> Legal(t)) && Unfinished(tail)
    ensures Parse(before + WireAll(ts) + tail, |before|) == ts
    decreases |ts|
  {
    hide Legal;
    hide Wire;
    hide TokenAt;
    hide Unfinished;
    var s, i := before + WireAll(ts) + tail, |before|;
    if ts == [] {
      assert s == before + tail;
      if tail != [] {
        NoToken(before, tail);
        ParseStep(s, i);
      }
    } else {
      var t, rest := ts[0], ts[1..];
      assert ts == [t] + rest;
      WireCons(t, rest);
      Regroup(before, Wire(t), WireAll(rest), tail);
      OneToken(t, before, WireAll(rest) + tail);
      ParseInverts(rest, before + Wire(t), tail);
      hide Parse;
      hide WireAll;
      ParseStep(s, i);
    }
  }

  lemma Regroup(a: seq<Byte>, b: seq<Byte>, c: seq<Byte>, d: seq<Byte>)
    ensures a + (b + c) + d == a + b + c + d == a + b + (c + d)
  {
  }

  lemma OneToken(t: Token, before: seq<Byte>, after: seq<Byte>)
    requires Legal(t)
    ensures var s := before + Wire(t) + after;
            |before| < |s| && TokenAt(s, |before|) == ([t], |before| + |Wire(t)|)
  {
    if t.Sub? {
      OneSub(t, before, after);
    } else {
      var s, i := before + Wire(t) + after, |before|;
      assert s[i] == Wire(t)[0];
      if |Wire(t)| > 1 {
        assert s[i + 1] == Wire(t)[1];
      }
      if |Wire(t)| > 2 {
        assert s[i + 2] == Wire(t)[2];
      }
    }
  }

  lemma OneSub(t: Token, before: seq<Byte>, after: seq<Byte>)
    requires t.Sub? && Legal(t)
    ensures var s := before + Wire(t) + after;
            |before| < |s| && TokenAt(s, |before|) == ([t], |before| + |Wire(t)|)
  {
    var w := Wire(t);
    var s, i, e := before + w + after, |before|, |before| + |t.body| + 2;
    var all := [IAC, SB] + t.body + [IAC];
    assert w == all + [SE];
    forall j | i <= j < e + 2
      ensures s[j] == w[j - i]
    {
    }
    forall j | i <= j < e
      ensures !EndsAt(s, j)
    {
      assert !EndsAt(all, j - i);
      assert all[j - i] == w[j - i] && all[j - i + 1] == w[j - i + 1];
    }
    assert EndsAt(s, e);
    hide Legal;
    hide Wire;
    SubEndIs(s, i, e);
    assert s[i] == IAC && s[i + 1] == SB;
    assert s[i + 2..e] == t.body;
  }

  lemma SubEndIs(s: seq<Byte>, i: nat, e: nat)
    requires i <= e && EndsAt(s, e) && forall j :: i <= j < e ==> !EndsAt(s, j)
    ensures SubEnd(s, i) == e
  {
  }

  // ----- the filter, in place ----------------------------------------------------------

  function Shown(o: Out, console: bool): Out { if console then o else o.(breaks := 0) }

  /** What the filter makes of the buffer from index `i` on. */
  function FilterFrom(s: seq<Byte>, i: nat): Out { AllMeaning(Parse(s, i)) }

  /** What is done, joined with what the rest of the buffer will give. */
  function Remaining(done: Out, s: seq<Byte>, i: nat): Out {
    if i < |s| then Join(done, FilterFrom(s, i)) else done
  }

  lemma AllRemains(s: seq<Byte>)
    ensures FilterFrom(s, 0) == Remaining(NOTHING, s, 0)
  {
    JoinNothing(FilterFrom(s, 0));
  }

  lemma NothingRemains(done: Out, s: seq<Byte>, i: nat)
    requires i >= |s|
    ensures Remaining(done, s, i) == done
  {
  }

  /** Consuming the token at `i` moves its meaning from what is left to what is done. */
  lemma Advance(done: Out, s: seq<Byte>, i: nat)
    requires i < |s|
    ensures var (t, n) := TokenAt(s, i);
            && (t == [] ==> forall n: nat :: n >= |s| ==> Remaining(done, s, i) == Remaining(done, s, n))
            && (t != [] ==> Remaining(done, s, i) == Remaining(Join(done, Meaning(t[0])), s, n))
  {
    ParseStep(s, i);
    var (t, n) := TokenAt(s, i);
    hide TokenAt;
    if t != [] {
      var rest := Parse(s, n);
      assert ([t[0]] + rest)[1..] == rest;
      assert FilterFrom(s, i) == Join(Meaning(t[0]), FilterFrom(s, n));
      JoinAssoc(done, Meaning(t[0]), FilterFrom(s, n));
      JoinNothing(Join(done, Meaning(t[0])));
    } else {
      assert FilterFrom(s, i) == NOTHING;
      JoinNothing(done);
    }
  }

  lemma JoinAssoc(a: Out, b: Out, c: Out)
    ensures Join(a, Join(b, c)) == Join(Join(a, b), c)
  {
    assert a.data + (b.data + c.data) == (a.data + b.data) + c.data;
    assert a.replies + (b.replies + c.replies) == (a.replies + b.replies) + c.replies;
  }

  lemma JoinNothing(a: Out)
    ensures Join(a, NOTHING) == a && Join(NOTHING, a) == a
  {
    assert a.data + [] == a.data && [] + a.data == a.data;
    assert a.replies + [] == a.replies && [] + a.replies == a.replies;
  }

  /** One turn of the filter's loop: the token at `i` is consumed and its meaning put out at `o`. */
  method FilterOne(b: array<Byte>, n: nat, i: nat, o: nat, ghost s: seq<Byte>)
    returns (i': nat, o': nat, reply: seq<seq<Byte>>, brk: bool)
    requires o <= i < n <= b.Length && |s| == n && forall j :: i <= j < n ==> b[j] == s[j]
    modifies b
    ensures o' <= i' && o <= o' <= n && i < i'
    ensures forall j :: i' <= j < n ==> b[j] == s[j]
    ensures b[n..] == old(b[n..]) && b[..o] == old(b[..o])
    ensures var (t, next) := TokenAt(s, i);
            if t == [] then i' >= n && o' == o && reply == [] && !brk
            else i' == next && Meaning(t[0]) == Out(b[o..o'], reply, if brk then 1 else 0)
  {
    i', o', reply, brk := i + 2, o, [], false;
    if b[i] != IAC {
      b[o] := b[i];
      i', o' := i + 1, o + 1;
    } else if i + 1 >= n {
      i' := n;                          // trailing IAC: drop it
    } else if b[i + 1] == IAC {
      b[o] := IAC;
      o' := o + 1;
    } else if IsVerb(b[i + 1]) {
      if i + 2 >= n {
        i' := n;
      } else {
        reply := [[IAC, if b[i + 1] == DO || b[i + 1] == DONT then WONT else DONT, b[i + 2]]];
        i' := i + 3;
      }
    } else if b[i + 1] == BRK || b[i + 1] == IP {
      brk := true;
    } else if b[i + 1] == SB {
      i' := SkipSub(b, n, i, s);
    }
  }

  /**
   telnet_filter on the first `n` bytes of `b`: compacts the buffer in place,
   writing at `o` while reading at `i`.  `console` says a tty is open for breaks.
   */
  method TelnetFilter(b: array<Byte>, n: nat, console: bool) returns (o: nat, replies: seq<seq<Byte>>, breaks: nat)
    requires n <= b.Length
    modifies b
    ensures o <= n
    ensures Out(b[..o], replies, breaks) == Shown(FilterFrom(old(b[..n]), 0), console)
    ensures b[n..] == old(b[n..])
    ensures breaks == if console then FilterFrom(old(b[..n]), 0).breaks else 0
    ensures b[..o] == FilterFrom(old(b[..n]), 0).data && replies == FilterFrom(old(b[..n]), 0).replies
  {
    hide FilterFrom;
    hide TokenAt;
    hide Join;
    hide Meaning;
    hide Remaining;
    ghost var s := b[..n];
    var i := 0;
    o, replies, breaks := 0, [], 0;
    ghost var done := NOTHING;
    AllRemains(s);
    while i < n
      invariant o <= i && o <= n
      invariant forall j :: i <= j < n ==> b[j] == s[j]
      invariant b[n..] == old(b[n..])
      invariant Out(b[..o], replies, breaks) == Shown(done, console)
      invariant FilterFrom(s, 0) == Remaining(done, s, i)
      decreases n - i
    {
      Advance(done, s, i);
      ghost var t := TokenAt(s, i).0;
      ghost var kept := b[..o];
      var next, end, reply, brk := FilterOne(b, n, i, o, s);
      assert b[..end] == kept + b[o..end];
      if t != [] {
        JoinShown(done, Meaning(t[0]), kept, replies, breaks, b[o..end], reply, brk, console);
        done := Join(done, Meaning(t[0]));
      } else {
        assert replies + reply == replies;
      }
      i, o, replies := next, end, replies + reply;
      if brk && console {
        breaks := breaks + 1;
      }
    }
    NothingRemains(done, s, i);
  }

  lemma JoinShown(done: Out, m: Out, data: seq<Byte>, replies: seq<seq<Byte>>, breaks: nat,
                  more: seq<Byte>, reply: seq<seq<Byte>>, brk: bool, console: bool)
    requires Out(data, replies, breaks) == Shown(done, console)
    requires m == Out(more, reply, if brk then 1 else 0)
    ensures Shown(Join(done, m), console)
            == Out(data + more, replies + reply, if brk && console then breaks + 1 else breaks)
  {
  }

  /** The inner loop of the filter: to the byte after IAC SE, or past the end. */
  method SkipSub(b: array<Byte>, n: nat, start: nat, ghost s: seq<Byte>) returns (i: nat)
    requires start < n <= b.Length && |s| == n && forall j :: start <= j < n ==> b[j] == s[j]
    ensures i == SubEnd(s, start) + 2
  {
    i := start;
    while i + 1 < n && !(b[i] == IAC && b[i + 1] == SE)
      invariant start <= i < n && SubEnd(s, start) == SubEnd(s, i)
    {
      i := i + 1;
    }
    i := i + 2;
  }

  // ----- what the grammar means, in bytes ----------------------------------------------

  /** A three-byte option negotiation: 255, then 251 to 254, then an option. */
  predicate IsTriple(t: Token) {
    var w := Wire(t);
    |w| == 3 && w[0] == 255 && 251 <= w[1] <= 254
  }

  predicate IsBreak(t: Token) { Wire(t) == [255, 243] || Wire(t) == [255, 244] }

  predicate IsData(t: Token) { |Wire(t)| == 1 || Wire(t) == [255, 255] }

  function Pick(ts: seq<Token>, p: Token -> bool): seq<Token> {
    if ts == [] then [] else (if p(ts[0]) then [ts[0]] else []) + Pick(ts[1..], p)
  }

  /**
   Of any legal commands: one reply for each negotiation, in order, and none for
   anything else; DO (253) and DONT (254) are answered WONT (252), WILL (251) and
   WONT DONT (254), with the same option; one break for each BRK (243) and IP (244);
   the data are the plain bytes and a 255 for each doubled one, and nothing else.
   */
  lemma {:induction false} MeaningInBytes(ts: seq<Token>)
    requires forall t :: t in ts ==> Legal(t)
    ensures var o := AllMeaning(ts);
            var triples, data := Pick(ts, IsTriple), Pick(ts, IsData);
            && |o.replies| == |triples| && o.breaks == |Pick(ts, IsBreak)| && |o.data| == |data|
            && (forall k :: 0 <= k < |triples| ==>
                  |Wire(triples[k])| == 3
                  && o.replies[k] == [255, if Wire(triples[k])[1] >= 253 then 252 else 254, Wire(triples[k])[2]])
            && (forall k :: 0 <= k < |data| ==> Wire(data[k]) != [] && o.data[k] == Wire(data[k])[0])
  {
    hide Meaning;
    hide Wire;
    hide IsTriple;
    hide IsBreak;
    hide IsData;
    hide Legal;
    if ts != [] {
      MeaningInBytes(ts[1..]);
      OneInBytes(ts[0]);
    }
  }

  lemma OneInBytes(t: Token)
    requires Legal(t)
    ensures var w, m := Wire(t), Meaning(t);
            && (if IsTriple(t) then |w| == 3 && m.replies == [[255, if w[1] >= 253 then 252 else 254, w[2]]]
                else m.replies == [])
            && m.breaks == (if IsBreak(t) then 1 else 0)
            && (if IsData(t) then w != [] && m.data == [w[0]] else m.data == [])
  {
    if t.Sub? {
      assert |Wire(t)| >= 4;
    }
  }

  /** And that is what the filter makes of them, whatever unfinished command follows. */
  lemma FilterInBytes(ts: seq<Token>, tail: seq<Byte>)
    requires (forall t :: t in ts ==> Legal(t)) && Unfinished(tail)
    ensures FilterFrom(WireAll(ts) + tail, 0) == AllMeaning(ts)
  {
    hide Legal;
    hide Unfinished;
    hide Parse;
    hide WireAll;
    hide AllMeaning;
    ParseInverts(ts, [], tail);
    assert [] + WireAll(ts) + tail == WireAll(ts) + tail;
  }

  // ----- the escaper ---------------------------------------------------------------------

  function EscapeByte(b: Byte): seq<Byte> { if b == IAC then [IAC, IAC] else [b] }

  /** Every 0xFF doubled. */
  function Escape(s: seq<Byte>): seq<Byte> {
    if s == [] then [] else EscapeByte(s[0]) + Escape(s[1..])
  }

  function Tokens(s: seq<Byte>): (ts: seq<Token>)
    ensures |ts| == |s|
    ensures forall i :: 0 <= i < |s| ==> ts[i] == if s[i] == IAC then Quoted else Text(s[i])
  {
    seq(|s|, i requires 0 <= i < |s| => if s[i] == IAC then Quoted else Text(s[i]))
  }

  lemma {:induction false} EscapeIsTokens(s: seq<Byte>)
    ensures Escape(s) == WireAll(Tokens(s)) && AllMeaning(Tokens(s)) == Out(s, [], 0)
  {
    if s != [] {
      EscapeIsTokens(s[1..]);
      assert Tokens(s)[1..] == Tokens(s[1..]);
      assert s == [s[0]] + s[1..];
    }
  }

  /** The filter undoes the escaper: the same bytes come back, with no reply and no break. */
  lemma FilterUndoesEscape(s: seq<Byte>)
    ensures FilterFrom(Escape(s), 0) == Out(s, [], 0)
  {
    EscapeIsTokens(s);
    forall t | t in Tokens(s)
      ensures Legal(t)
    {
      var i :| 0 <= i < |s| && Tokens(s)[i] == t;
    }
    ParseInverts(Tokens(s), [], []);
    assert [] + WireAll(Tokens(s)) + [] == Escape(s);
  }

  /** A byte of 255 becomes two, any other stays one. */
  lemma EscapeInBytes(b: Byte)
    ensures Escape([b]) == if b == 255 then [255, 255] else [b]
  {
    assert [b][1..] == [];
  }

  lemma {:induction false} EscapeConcat(a: seq<Byte>, b: seq<Byte>)
    ensures Escape(a + b) == Escape(a) + Escape(b)
  {
    if a == [] {
      assert a + b == b;
    } else {
      EscapeConcat(a[1..], b);
      assert (a + b)[1..] == a[1..] + b && (a + b)[0] == a[0];
      assert Escape(a + b) == EscapeByte(a[0]) + Escape(a[1..] + b);
    }
  }

  lemma EscapeAppend(s: seq<Byte>, b: Byte)
    ensures Escape(s + [b]) == Escape(s) + EscapeByte(b)
  {
    EscapeConcat(s, [b]);
    assert [b][1..] == [];
  }

  function Concat(chunks: seq<seq<Byte>>): seq<Byte> {
    if chunks == [] then [] else Concat(chunks[..|chunks| - 1]) + chunks[|chunks| - 1]
  }

  /** Each chunk is a whole escaped piece of the input and fits the 1024-byte buffer. */
  ghost predicate Chunked(chunks: seq<seq<Byte>>, pieces: seq<seq<Byte>>) {
    && |chunks| == |pieces|
    && forall k :: 0 <= k < |chunks| ==> chunks[k] == Escape(pieces[k]) && 0 < |chunks[k]| <= 1024
  }

  /**
   telnet_write: `chunks` are the writes to the socket.  `pieces` cut the input at
   the same places, so no doubled 0xFF is ever lost or split between two writes.
   */
  method TelnetWrite(b: seq<Byte>) returns (chunks: seq<seq<Byte>>, ghost pieces: seq<seq<Byte>>)
    ensures Chunked(chunks, pieces)
    ensures Concat(pieces) == b
    ensures Concat(chunks) == Escape(b)
  {
    hide Escape;
    hide Concat;
    var out := new Byte[1024](_ => 0);
    var i, o := 0, 0;
    chunks, pieces := [], [];
    ghost var held := [];
    EmptyChunks();
    while i < |b|
      invariant i <= |b| && o <= 1022
      invariant Chunked(chunks, pieces)
      invariant out[..o] == Escape(held) && Concat(pieces) + held == b[..i]
      invariant Concat(chunks) == Escape(Concat(pieces))
    {
      ghost var kept := out[..o];
      out[o] := b[i];
      o := o + 1;
      if b[i] == IAC && o < 1024 {
        out[o] := IAC;
        o := o + 1;
      }
      EscapeAppend(held, b[i]);
      assert out[..o] == kept + EscapeByte(b[i]);
      assert b[..i + 1] == b[..i] + [b[i]];
      assert Concat(pieces) + (held + [b[i]]) == (Concat(pieces) + held) + [b[i]];
      held := held + [b[i]];
      if o >= 1023 {
        Flush(chunks, pieces, out[..o], held);
        chunks, pieces, held, o := chunks + [out[..o]], pieces + [held], [], 0;
        assert out[..0] == [];
        assert Concat(pieces) + [] == Concat(pieces);
      }
      i := i + 1;
    }
    assert b[..i] == b;
    if o != 0 {
      Flush(chunks, pieces, out[..o], held);
      chunks, pieces := chunks + [out[..o]], pieces + [held];
    } else {
      EscapedEmpty(held);
      assert Concat(pieces) + [] == Concat(pieces);
    }
  }

  lemma EmptyChunks()
    ensures Concat([]) == [] && Escape([]) == []
  {
  }

  lemma EscapedEmpty(s: seq<Byte>)
    requires Escape(s) == []
    ensures s == []
  {
  }

  lemma Flush(chunks: seq<seq<Byte>>, pieces: seq<seq<Byte>>, chunk: seq<Byte>, piece: seq<Byte>)
    requires Concat(chunks) == Escape(Concat(pieces)) && chunk == Escape(piece)
    ensures Concat(pieces + [piece]) == Concat(pieces) + piece
    ensures Concat(chunks + [chunk]) == Escape(Concat(pieces) + piece)
  {
    assert (pieces + [piece])[..|pieces|] == pieces && (chunks + [chunk])[..|chunks|] == chunks;
    EscapeConcat(Concat(pieces), piece);
  }

  /** Every chunk on its own reads back as its piece of the input. */
  lemma ChunksReadBack(chunks: seq<seq<Byte>>, pieces: seq<seq<Byte>>, k: nat)
    requires Chunked(chunks, pieces) && k < |chunks|
    ensures FilterFrom(chunks[k], 0) == Out(pieces[k], [], 0)
  {
    FilterUndoesEscape(pieces[k]);
  }

  // ----- subnegotiation with data bytes of 0xFF ---------------------------------------------

  /** The body holds the data bytes 0xFF, 0xF0 in a row. */
  ghost predicate LooksEnded(body: seq<Byte>) {
    exists k: nat :: k + 1 < |body| && body[k] == IAC && body[k + 1] == SE
  }

  lemma {:induction false} EndShows(body: seq<Byte>, j: nat)
    requires EndsAt(Escape(body) + [IAC], j)
    ensures LooksEnded(body)
  {
    if body != [] {
      var rest, head := body[1..], EscapeByte(body[0]);
      var s, r := Escape(body) + [IAC], Escape(rest) + [IAC];
      assert s == head + r;
      if j >= |head| {
        assert EndsAt(r, j - |head|);
        EndShows(rest, j - |head|);
        var k: nat :| k + 1 < |rest| && rest[k] == IAC && rest[k + 1] == SE;
        assert body[k + 1] == IAC && body[k + 1 + 1] == SE;
      } else {
        assert j == 1 && r[0] == SE;
        assert rest != [] && r[0] == rest[0];
        assert body[0] == IAC && body[0 + 1] == SE;
      }
    }
  }

  lemma {:induction false} EndHides(body: seq<Byte>, k: nat) returns (j: nat)
    requires k + 1 < |body| && body[k] == IAC && body[k + 1] == SE
    ensures EndsAt(Escape(body) + [IAC], j)
  {
    var rest, head := body[1..], EscapeByte(body[0]);
    var s, r := Escape(body) + [IAC], Escape(rest) + [IAC];
    assert s == head + r;
    if k == 0 {
      j := 1;
      assert r[0] == rest[0];
    } else {
      var i := EndHides(rest, k - 1);
      j := i + |head|;
      assert s[j] == r[i] && s[j + 1] == r[i + 1];
    }
  }

  /**
   RFC 855 doubles 0xFF inside a subnegotiation.  The filter takes the first IAC SE
   as its end without undoubling, so it skips the whole of it exactly when the
   parameters do not hold 0xFF, 0xF0 in a row.
   */
  lemma SubnegotiationSkipped(body: seq<Byte>)
    ensures var s := [IAC, SB] + Escape(body) + [IAC, SE];
            TokenAt(s, 0) == ([Sub(Escape(body))], |s|) <==> !LooksEnded(body)
  {
    var t := Sub(Escape(body));
    var s := [IAC, SB] + Escape(body) + [IAC, SE];
    EscapedLegal(body);
    hide Legal;
    hide Escape;
    if Legal(t) {
      OneToken(t, [], []);
      assert [] + Wire(t) + [] == s;
    } else if TokenAt(s, 0).0 != [] {
      TokenIsFaithful(s, 0);
    }
  }

  lemma EscapedLegal(body: seq<Byte>)
    ensures Legal(Sub(Escape(body))) <==> !LooksEnded(body)
  {
    var s := Escape(body) + [IAC];
    var all := [IAC, SB] + Escape(body) + [IAC];
    assert all == [IAC, SB] + s;
    if LooksEnded(body) {
      var k: nat :| k + 1 < |body| && body[k] == IAC && body[k + 1] == SE;
      var j := EndHides(body, k);
      assert EndsAt(all, j + 2);
    } else {
      forall j: nat
        ensures !EndsAt(all, j)
      {
        if EndsAt(all, j) {
          assert EndsAt(s, j - 2);
          EndShows(body, j - 2);
        }
      }
    }
  }

  lemma {:induction false} MeaningConcat(a: seq<Token>, b: seq<Token>)
    ensures AllMeaning(a + b) == Join(AllMeaning(a), AllMeaning(b))
  {
    hide Meaning;
    hide Join;
    if a == [] {
      assert a + b == b;
      JoinNothing(AllMeaning(b));
    } else {
      MeaningConcat(a[1..], b);
      assert (a + b)[1..] == a[1..] + b && (a + b)[0] == a[0];
      JoinAssoc(Meaning(a[0]), AllMeaning(a[1..]), AllMeaning(b));
    }
  }

  lemma {:induction false} WireConcat(a: seq<Token>, b: seq<Token>)
    ensures WireAll(a + b) == WireAll(a) + WireAll(b)
  {
    hide Wire;
    if a == [] {
      assert a + b == b;
    } else {
      WireConcat(a[1..], b);
      assert (a + b)[1..] == a[1..] + b && (a + b)[0] == a[0];
    }
  }

  lemma TokensLegal(s: seq<Byte>)
    ensures forall t :: t in Tokens(s) ==> Legal(t)
  {
    forall t | t in Tokens(s)
      ensures Legal(t)
    {
      var i :| 0 <= i < |s| && Tokens(s)[i] == t;
    }
  }

  /** What the filter makes of parameters that hold 0xFF, 0xF0 first after `a`. */
  function Leaked(a: seq<Byte>, rest: seq<Byte>): seq<Token> {
    [Sub(Escape(a) + [IAC])] + (Tokens(rest) + [Command(SE)])
  }

  lemma LeakedLegal(a: seq<Byte>, rest: seq<Byte>)
    requires !LooksEnded(a)
    ensures forall t :: t in Leaked(a, rest) ==> Legal(t)
  {
    EscapedLegal(a);
    var short, long := [IAC, SB] + Escape(a) + [IAC], [IAC, SB] + (Escape(a) + [IAC]) + [IAC];
    assert long == short + [IAC];
    forall i: nat
      ensures !EndsAt(long, i)
    {
      assert !EndsAt(short, i);
    }
    TokensLegal(rest);
  }

  lemma LeakedEscape(a: seq<Byte>, rest: seq<Byte>)
    ensures Escape(a + [IAC, SE] + rest) == Escape(a) + [IAC, IAC, SE] + Escape(rest)
  {
    hide Escape;
    EscapeConcat(a + [IAC, SE], rest);
    EscapeAppend(a + [IAC], SE);
    EscapeAppend(a, IAC);
    assert a + [IAC] + [SE] == a + [IAC, SE];
    assert Escape(a) + [IAC, IAC] + [SE] == Escape(a) + [IAC, IAC, SE];
  }

  lemma LeakedWire(a: seq<Byte>, rest: seq<Byte>)
    ensures WireAll(Leaked(a, rest)) == [IAC, SB] + Escape(a + [IAC, SE] + rest) + [IAC, SE]
  {
    hide Escape;
    hide Tokens;
    hide WireAll;
    var e, f := Escape(a), Escape(rest);
    LeakedEscape(a, rest);
    EscapeIsTokens(rest);
    OneOnTheWire(Command(SE));
    WireConcat(Tokens(rest), [Command(SE)]);
    WireCons(Sub(e + [IAC]), Tokens(rest) + [Command(SE)]);
    Rejoin(e, f);
  }

  lemma OneOnTheWire(t: Token)
    ensures WireAll([t]) == Wire(t)
  {
    assert [t][1..] == [];
  }

  lemma Rejoin(e: seq<Byte>, f: seq<Byte>)
    ensures [IAC, SB] + (e + [IAC]) + [IAC, SE] + (f + [IAC, SE]) == [IAC, SB] + (e + [IAC, IAC, SE] + f) + [IAC, SE]
  {
    assert (e + [IAC]) + [IAC, SE] == e + [IAC, IAC, SE];
    assert [IAC, SB] + (e + [IAC]) + [IAC, SE] == [IAC, SB] + (e + [IAC, IAC, SE]);
    Regroup([IAC, SB], e + [IAC, IAC, SE], f, [IAC, SE]);
  }

  lemma LeakedMeans(a: seq<Byte>, rest: seq<Byte>)
    ensures AllMeaning(Leaked(a, rest)) == Out(rest, [], 0)
  {
    hide Escape;
    hide Tokens;
    hide AllMeaning;
    hide Join;
    var sub, end := [Sub(Escape(a) + [IAC])], [Command(SE)];
    EscapeIsTokens(rest);
    MeaningConcat(Tokens(rest), end);
    MeaningConcat(sub, Tokens(rest) + end);
    MeansNothing(sub[0]);
    MeansNothing(end[0]);
    JoinNothing(Out(rest, [], 0));
  }

  lemma {:induction false} FirstEnd(body: seq<Byte>) returns (a: seq<Byte>, rest: seq<Byte>)
    requires LooksEnded(body)
    ensures body == a + [IAC, SE] + rest && !LooksEnded(a)
  {
    if body[0] == IAC && body[1] == SE {
      a, rest := [], body[2..];
    } else {
      var k: nat :| k + 1 < |body| && body[k] == IAC && body[k + 1] == SE;
      assert body[1..][k - 1] == IAC && body[1..][k - 1 + 1] == SE;
      var tail;
      tail, rest := FirstEnd(body[1..]);
      a := [body[0]] + tail;
      assert body == [body[0]] + body[1..];
      forall j: nat | j + 1 < |a|
        ensures !(a[j] == IAC && a[j + 1] == SE)
      {
        if j == 0 {
          assert a[1] == body[1..][0];
        } else {
          assert a[j] == tail[j - 1] && a[j + 1] == tail[j - 1 + 1];
        }
      }
    }
  }

  /**
   The extent of the leak: of parameters with 0xFF, 0xF0 in a row, exactly the bytes
   after the first such pair reach the console, and nothing else happens.
   */
  lemma SubnegotiationLeaks(body: seq<Byte>) returns (a: seq<Byte>, rest: seq<Byte>)
    requires LooksEnded(body)
    ensures body == a + [IAC, SE] + rest && !LooksEnded(a)
    ensures FilterFrom([IAC, SB] + Escape(body) + [IAC, SE], 0) == Out(rest, [], 0)
  {
    a, rest := FirstEnd(body);
    hide Escape;
    hide WireAll;
    hide AllMeaning;
    hide Legal;
    hide Parse;
    hide Leaked;
    LeakedWire(a, rest);
    LeakedMeans(a, rest);
    LeakedLegal(a, rest);
    EmptyIsFinished();
    ParseInverts(Leaked(a, rest), [], []);
    assert [] + WireAll(Leaked(a, rest)) + [] == WireAll(Leaked(a, rest));
  }

  /** A subnegotiation leaks nothing exactly if its parameters hold no such pair before their last byte. */
  lemma LeakIsEmptyExactly(body: seq<Byte>)
    ensures FilterFrom([IAC, SB] + Escape(body) + [IAC, SE], 0) == NOTHING
       <==> body == [] || !LooksEnded(body[..|body| - 1])
  {
    hide Escape;
    hide FilterFrom;
    hide LooksEnded;
    if LooksEnded(body) {
      var a, rest := SubnegotiationLeaks(body);
      FrontOf(a, rest);
    } else {
      Skipped(body);
      FrontClean(body);
    }
  }

  lemma FrontClean(body: seq<Byte>)
    requires !LooksEnded(body)
    ensures body != [] ==> !LooksEnded(body[..|body| - 1])
  {
    if body != [] {
      var front := body[..|body| - 1];
      forall k: nat | k + 1 < |front|
        ensures !(front[k] == IAC && front[k + 1] == SE)
      {
        assert front[k] == body[k] && front[k + 1] == body[k + 1];
      }
    }
  }

  lemma FrontOf(a: seq<Byte>, rest: seq<Byte>)
    requires !LooksEnded(a)
    ensures var body := a + [IAC, SE] + rest;
            LooksEnded(body[..|body| - 1]) <==> rest != []
  {
    var body := a + [IAC, SE] + rest;
    var front := body[..|body| - 1];
    if rest == [] {
      assert front == a + [IAC];
      forall k: nat | k + 1 < |front|
        ensures !(front[k] == IAC && front[k + 1] == SE)
      {
        if k + 1 < |a| {
          assert front[k] == a[k] && front[k + 1] == a[k + 1];
        }
      }
    } else {
      assert front[|a|] == IAC && front[|a| + 1] == SE;
    }
  }

  lemma Skipped(body: seq<Byte>)
    requires !LooksEnded(body)
    ensures FilterFrom([IAC, SB] + Escape(body) + [IAC, SE], 0) == NOTHING
  {
    hide Escape;
    hide WireAll;
    hide Legal;
    hide Parse;
    var t := Sub(Escape(body));
    EscapedLegal(body);
    OneOnTheWire(t);
    EmptyIsFinished();
    ParseInverts([t], [], []);
    assert [] + WireAll([t]) + [] == WireAll([t]);
    MeansNothing(t);
  }

  lemma MeansNothing(t: Token)
    requires t.Sub? || t.Command?
    ensures AllMeaning([t]) == NOTHING
  {
    assert [t][1..] == [];
  }
}
