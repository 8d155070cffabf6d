/**
 serve_one as it is written: nested retransmission loops over a transfer socket
 and a file position.  What recvfrom yields is a list of events; the loops are
 proved to be the reactive server of module Tftp, packet for packet.
 */
module TftpSender {
  import opened Bytes
  import opened Tftp

  /** `Blocked`: the events ran out while the server was waiting in recvfrom. */
  datatype Outcome = Blocked | Returned(ok: bool)

  /** The server's state and everything it has sent. */
  datatype Talk = Talk(server: Server, out: seq<Packet>)

  ghost function Play(file: seq<Byte>, bs: nat, options: bool, events: seq<Recv>): (t: Talk)
    requires bs >= 1
    ensures ServerOk(t.server) && t.server.file == file && t.server.bs == bs
    decreases |events|
  {
    if events == [] then Talk(Start(file, bs, options), [Current(Start(file, bs, options))])
    else
      var n := |events| - 1;
      var t := Play(file, bs, options, events[..n]);
      var (s, send) := React(t.server, events[n]);
      Talk(s, t.out + if send then [Current(s)] else [])
  }

  /** The next event extends the conversation by one reaction. */
  lemma PlayNext(file: seq<Byte>, bs: nat, options: bool, events: seq<Recv>, e: nat)
    requires bs >= 1 && e < |events|
    ensures var t := Play(file, bs, options, events[..e]);
            var (s, send) := React(t.server, events[e]);
            Play(file, bs, options, events[..e + 1]) == Talk(s, if send then t.out + [Current(s)] else t.out)
  {
    assert events[..e + 1][..e] == events[..e];
    var t := Play(file, bs, options, events[..e]);
    assert t.out + [] == t.out;
  }

  /** Nothing that arrives after the server has returned changes anything. */
  lemma {:induction false} PlayOver(file: seq<Byte>, bs: nat, options: bool, events: seq<Recv>, e: nat)
    requires bs >= 1 && e <= |events|
    requires Play(file, bs, options, events[..e]).server.phase.Finished?
    ensures Play(file, bs, options, events) == Play(file, bs, options, events[..e])
    decreases |events| - e
  {
    if e == |events| {
      assert events[..e] == events;
    } else {
      PlayNext(file, bs, options, events, e);
      PlayOver(file, bs, options, events, e + 1);
    }
  }

  /** The option negotiation: resend the OACK on timeout until block 0 is acknowledged. */
  method AwaitAccept(file: seq<Byte>, bs: nat, events: seq<Recv>)
    returns (outcome: Outcome, out: seq<Packet>, e: nat, accepted: bool)
    requires bs >= 1
    ensures e <= |events|
    ensures var t := Play(file, bs, true, events[..e]);
            if accepted then t == Talk(Start(file, bs, false), out + [Current(Start(file, bs, false))])
            else Reports(t, outcome, out) && outcome != Returned(true) && (outcome == Blocked ==> e == |events|)
  {
    out, e, accepted := [Oack], 0, false;
    while true
      invariant e <= |events| && Play(file, bs, true, events[..e]) == Talk(Start(file, bs, true), out)
      decreases |events| - e
    {
      if e == |events| {
        outcome := Blocked;
        return;
      }
      var ev := events[e];
      PlayNext(file, bs, true, events, e);
      e := e + 1;
      if ev.Timeout? {
        if ev.expired {
          outcome := Returned(false);
          return;
        }
        out := out + [Oack];
      } else if ev.pkt.Error? {
        outcome := Returned(false);
        return;
      } else if ev.pkt == Ack(0) {
        outcome, accepted := Blocked, true;
        return;
      }
    }
  }

  /** The server has sent `out` and has returned, or is waiting for another packet. */
  ghost predicate Reports(t: Talk, outcome: Outcome, out: seq<Packet>) {
    && t.out == out
    && outcome == if t.server.phase.Finished? then Returned(t.server.phase.ok) else Blocked
  }

  /** A server sending block `blk`, and how it takes what recvfrom yields. */
  function Busy(file: seq<Byte>, bs: nat, blk: nat, tries: nat): Server {
    Server(file, bs, Sending, blk, tries)
  }

  lemma PacketIs(file: seq<Byte>, bs: nat, blk: nat)
    requires bs >= 1 && 1 <= blk <= Last(file, bs)
    ensures BlockPacket(file, bs, blk) == Data(Wire(blk), Block(file, bs, blk))
  {
  }

  lemma StillBusy(file: seq<Byte>, bs: nat, blk: nat, tries: nat, out: seq<Packet>)
    ensures Reports(Talk(Busy(file, bs, blk, tries), out), Blocked, out)
  {
  }

  function BlockPacket(file: seq<Byte>, bs: nat, blk: nat): Packet
    requires blk >= 1
  {
    Data(Wire(blk), Block(file, bs, blk))
  }

  /** Block `blk` has been acknowledged: a short one ended the transfer, any other is followed by the next. */
  ghost predicate Acknowledged(t: Talk, file: seq<Byte>, bs: nat, blk: nat, out: seq<Packet>)
    requires bs >= 1 && blk >= 1
  {
    if |Block(file, bs, blk)| < bs then Reports(t, Returned(true), out)
    else blk < Last(file, bs)
         && t == Talk(Busy(file, bs, blk + 1, 0), out + [BlockPacket(file, bs, blk + 1)])
  }

  lemma Turn(file: seq<Byte>, bs: nat, options: bool, events: seq<Recv>, e: nat, blk: nat, tries: nat, out: seq<Packet>)
    requires bs >= 1 && 1 <= blk <= Last(file, bs) && e < |events|
    requires Play(file, bs, options, events[..e]) == Talk(Busy(file, bs, blk, tries), out)
    ensures var t, r := Play(file, bs, options, events[..e + 1]), events[e];
            if r.Timeout? then
              (if tries + 1 > 10 then Reports(t, Returned(false), out)
               else t == Talk(Busy(file, bs, blk, tries + 1), out + [BlockPacket(file, bs, blk)]))
            else if r.pkt.Error? then Reports(t, Returned(false), out)
            else if r.pkt == Ack(Wire(blk)) then Acknowledged(t, file, bs, blk, out)
            else t == Talk(Busy(file, bs, blk, tries), out + [BlockPacket(file, bs, blk)])
  {
    ShortIsLast(file, bs, blk);
    hide Play;
    PlayNext(file, bs, options, events, e);
  }

  /** One block: send, wait, resend until it is acknowledged. */
  method SendBlock(file: seq<Byte>, bs: nat, options: bool, events: seq<Recv>, blk: nat, body: seq<Byte>,
                   out0: seq<Packet>, e0: nat)
    returns (outcome: Outcome, out: seq<Packet>, e: nat, acked: bool)
    requires bs >= 1 && e0 <= |events|
    requires 1 <= blk <= Last(file, bs) && body == Block(file, bs, blk)
    requires Play(file, bs, options, events[..e0])
             == Talk(Busy(file, bs, blk, 0), out0 + [BlockPacket(file, bs, blk)])
    ensures acked ==> e0 < e <= |events|
    ensures acked ==> Acknowledged(Play(file, bs, options, events[..e]), file, bs, blk, out)
    ensures !acked ==> e <= |events| && Reports(Play(file, bs, options, events[..e]), outcome, out)
    ensures !acked ==> outcome != Returned(true) && (outcome == Blocked ==> e == |events|)
  {
    hide Play;
    hide Block;
    hide BlockPacket;
    hide Last;
    hide React;
    hide ServerOk;
    hide Wire;
    hide Busy;
    hide Reports;
    hide Acknowledged;
    var pkt := Data(Wire(blk), body);
    PacketIs(file, bs, blk);
    out, e, acked := out0, e0, false;
    var tries := 0;
    while true
      invariant e0 <= e <= |events|
      invariant Play(file, bs, options, events[..e]) == Talk(Busy(file, bs, blk, tries), out + [pkt])
      decreases |events| - e
    {
      out := out + [pkt];
      if e == |events| {
        outcome := Blocked;
        StillBusy(file, bs, blk, tries, out);
        return;
      }
      var ev := events[e];
      Turn(file, bs, options, events, e, blk, tries, out);
      e := e + 1;
      if ev.Timeout? {
        tries := tries + 1;
        if tries > 10 {
          outcome := Returned(false);
          return;
        }
      } else if ev.pkt.Error? {
        outcome := Returned(false);
        return;
      } else if ev.pkt == Ack(Wire(blk)) {
        outcome, acked := Blocked, true;
        return;
      }
    }
  }

  lemma Closing(file: seq<Byte>, bs: nat, options: bool, events: seq<Recv>, e: nat, outcome: Outcome, out: seq<Packet>)
    requires bs >= 1 && e <= |events| && Reports(Play(file, bs, options, events[..e]), outcome, out)
    requires outcome == Blocked ==> e == |events|
    ensures Reports(Play(file, bs, options, events), outcome, out)
  {
    if e == |events| {
      assert events[..e] == events;
    } else {
      PlayOver(file, bs, options, events, e);
    }
  }

  /** The transfer proper: read a block, send it until it is acknowledged, stop after a short one. */
  method SendFile(file: seq<Byte>, bs: nat, options: bool, events: seq<Recv>, out0: seq<Packet>, e0: nat)
    returns (outcome: Outcome, out: seq<Packet>, e: nat, sent: nat)
    requires bs >= 1 && e0 <= |events|
    requires Play(file, bs, options, events[..e0]) == Talk(Busy(file, bs, 1, 0), out0 + [BlockPacket(file, bs, 1)])
    ensures e <= |events| && Reports(Play(file, bs, options, events[..e]), outcome, out)
    ensures outcome == Blocked ==> e == |events|
    ensures outcome == Returned(true) ==> sent == |file|
  {
    hide Play;
    hide BlockPacket;
    out, e, sent := out0, e0, 0;
    var blk, pos := 1, 0;
    while true
      invariant e <= |events| && 1 <= blk <= Last(file, bs)
      invariant pos == sent == Offset(bs, blk - 1) <= |file|
      invariant Play(file, bs, options, events[..e])
                == Talk(Busy(file, bs, blk, 0), out + [BlockPacket(file, bs, blk)])
      decreases |events| - e
    {
      ShortIsLast(file, bs, blk);
      var body := file[pos..Min(pos + bs, |file|)];
      pos := pos + |body|;
      var acked;
      outcome, out, e, acked := SendBlock(file, bs, options, events, blk, body, out, e);
      if !acked {
        return;
      }
      sent := sent + |body|;
      if |body| < bs {
        outcome := Returned(true);
        return;
      }
      blk := blk + 1;
    }
  }

  /** serve_one from the option negotiation on, for any block size and any sequence of receive events. */
  method ServeOne(file: seq<Byte>, bs: nat, options: bool, events: seq<Recv>)
    returns (outcome: Outcome, out: seq<Packet>, sent: nat)
    requires bs >= 1
    ensures Reports(Play(file, bs, options, events), outcome, out)
    ensures outcome == Returned(true) ==> sent == |file|
  {
    sent, out := 0, [];
    var e := 0;
    if options {
      var accepted;
      outcome, out, e, accepted := AwaitAccept(file, bs, events);
      if !accepted {
        Closing(file, bs, options, events, e, outcome, out);
        return;
      }
    }
    outcome, out, e, sent := SendFile(file, bs, options, events, out, e);
    Closing(file, bs, options, events, e, outcome, out);
  }

  // ----- what the server does with given events ------------------------------------------

  /** While the OACK is out: anything but an error, an acknowledgement of block 0 or an expired deadline. */
  predicate KeepsWaiting(r: Recv) {
    if r.Timeout? then !r.expired else r.pkt != Error && r.pkt != Ack(0)
  }

  /** While block `blk` is out: anything but an error or that block's acknowledgement. */
  predicate KeepsSending(blk: nat, r: Recv) {
    r.Got? ==> r.pkt != Error && r.pkt != Ack(blk % 0x1_0000)
  }

  function Timeouts(events: seq<Recv>): nat {
    if events == [] then 0 else (if events[0].Timeout? then 1 else 0) + Timeouts(events[1..])
  }

  function Copies(p: Packet, n: nat): (s: seq<Packet>)
    ensures |s| == n && forall i :: 0 <= i < n ==> s[i] == p
  {
    seq(n, _ => p)
  }

  lemma {:induction false} ContinueConcat(t: Talk, a: seq<Recv>, b: seq<Recv>)
    requires ServerOk(t.server)
    ensures ServerOk(Continue(t, a).server)
    ensures Continue(t, a + b) == Continue(Continue(t, a), b)
    decreases |a|
  {
    if a == [] {
      assert a + b == b;
    } else {
      var (s, send) := React(t.server, a[0]);
      ContinueConcat(Talk(s, t.out + if send then [Current(s)] else []), a[1..], b);
      assert (a + b)[1..] == a[1..] + b && (a + b)[0] == a[0];
    }
  }

  /** The OACK goes out once more for every timeout, and stray packets change nothing. */
  lemma {:induction false} OackIsResent(file: seq<Byte>, bs: nat, out: seq<Packet>, quiet: seq<Recv>)
    requires bs >= 1 && forall i :: 0 <= i < |quiet| ==> KeepsWaiting(quiet[i])
    ensures Continue(Talk(Server(file, bs, AwaitOack, 0, 0), out), quiet)
         == Talk(Server(file, bs, AwaitOack, 0, 0), out + Copies(Oack, Timeouts(quiet)))
    decreases |quiet|
  {
    if quiet == [] {
      assert out + Copies(Oack, 0) == out;
    } else {
      var more := if quiet[0].Timeout? then [Oack] else [];
      OackIsResent(file, bs, out + more, quiet[1..]);
      assert more + Copies(Oack, Timeouts(quiet[1..])) == Copies(Oack, Timeouts(quiet));
      assert out + more + Copies(Oack, Timeouts(quiet[1..])) == out + (more + Copies(Oack, Timeouts(quiet[1..])));
    }
  }

  /** The event that ends the wait: block 0 acknowledged brings block 1; an error or the deadline, failure. */
  lemma WaitEnds(file: seq<Byte>, bs: nat, out: seq<Packet>, r: Recv)
    requires bs >= 1 && !KeepsWaiting(r)
    ensures ServerOk(Server(file, bs, AwaitOack, 0, 0))
    ensures var t := Continue(Talk(Server(file, bs, AwaitOack, 0, 0), out), [r]);
            if r == Got(Ack(0)) then t == Talk(Busy(file, bs, 1, 0), out + [BlockPacket(file, bs, 1)])
            else t.server.phase == Finished(false) && t.out == out
  {
    assert [r][1..] == [];
    assert out + [] == out;
  }

  lemma OneMore(file: seq<Byte>, bs: nat, blk: nat, tries: nat, out: seq<Packet>, r: Recv)
    requires bs >= 1 && 1 <= blk <= Last(file, bs)
    ensures ServerOk(Busy(file, bs, blk, tries))
    ensures var (s, send) := React(Busy(file, bs, blk, tries), r);
            && (KeepsSending(blk, r) && (r.Timeout? ==> tries < 10) ==>
                  send && s == Busy(file, bs, blk, tries + if r.Timeout? then 1 else 0))
            && (r == Got(Ack(blk % 0x1_0000)) && |Block(file, bs, blk)| == bs ==>
                  blk < Last(file, bs) && send && s == Busy(file, bs, blk + 1, 0))
            && (r == Got(Ack(blk % 0x1_0000)) && |Block(file, bs, blk)| < bs ==> !send && s.phase == Finished(true))
            && (r == Got(Error) || (r.Timeout? && tries >= 10) ==> !send && s.phase == Finished(false))
    ensures |Block(file, bs, blk)| <= bs && (|Block(file, bs, blk)| < bs <==> blk == Last(file, bs))
  {
    ShortIsLast(file, bs, blk);
    hide Block;
    BlockFits(file, bs, blk);
  }

  lemma BlockFits(file: seq<Byte>, bs: nat, blk: nat)
    requires blk >= 1
    ensures |Block(file, bs, blk)| <= bs
  {
  }

  /** A block goes out once more for every event that neither acknowledges it nor ends the transfer, up to ten timeouts. */
  lemma {:induction false} BlockIsResent(file: seq<Byte>, bs: nat, blk: nat, tries: nat, out: seq<Packet>, round: seq<Recv>)
    requires bs >= 1 && 1 <= blk <= Last(file, bs)
    requires (forall i :: 0 <= i < |round| ==> KeepsSending(blk, round[i])) && tries + Timeouts(round) <= 10
    ensures ServerOk(Busy(file, bs, blk, tries))
    ensures Continue(Talk(Busy(file, bs, blk, tries), out), round)
         == Talk(Busy(file, bs, blk, tries + Timeouts(round)), out + Copies(BlockPacket(file, bs, blk), |round|))
    decreases |round|
  {
    hide Block;
    hide Last;
    hide React;
    OneMore(file, bs, blk, tries, out, if round == [] then Timeout(false) else round[0]);
    var p := BlockPacket(file, bs, blk);
    if round == [] {
      assert out + Copies(p, 0) == out;
    } else {
      var next := tries + if round[0].Timeout? then 1 else 0;
      BlockIsResent(file, bs, blk, next, out + [p], round[1..]);
      assert [p] + Copies(p, |round| - 1) == Copies(p, |round|);
      assert out + [p] + Copies(p, |round| - 1) == out + ([p] + Copies(p, |round| - 1));
    }
  }

  /** Events in which every block, from `blk` to the last, is acknowledged in its turn; `rounds` holds what comes before each acknowledgement. */
  function Delivered(blk: nat, rounds: seq<seq<Recv>>): seq<Recv>
    decreases |rounds|
  {
    if rounds == [] then []
    else rounds[0] + [Got(Ack(blk % 0x1_0000))] + Delivered(blk + 1, rounds[1..])
  }

  ghost predicate Patient(blk: nat, rounds: seq<seq<Recv>>) {
    forall k :: 0 <= k < |rounds| ==>
      Timeouts(rounds[k]) <= 10 && forall i :: 0 <= i < |rounds[k]| ==> KeepsSending(blk + k, rounds[k][i])
  }

  /** The packets that go out then: each block as often as something arrived in its turn. */
  function Sendings(file: seq<Byte>, bs: nat, blk: nat, rounds: seq<seq<Recv>>): seq<Packet>
    requires blk >= 1
    decreases |rounds|
  {
    if rounds == [] then []
    else Copies(BlockPacket(file, bs, blk), 1 + |rounds[0]|) + Sendings(file, bs, blk + 1, rounds[1..])
  }

  /** One block, from its first copy to its acknowledgement. */
  lemma OneBlock(file: seq<Byte>, bs: nat, blk: nat, out: seq<Packet>, round: seq<Recv>)
    requires bs >= 1 && 1 <= blk <= Last(file, bs) && Timeouts(round) <= 10
    requires forall i :: 0 <= i < |round| ==> KeepsSending(blk, round[i])
    ensures ServerOk(Busy(file, bs, blk, 0))
    ensures var p := BlockPacket(file, bs, blk);
            var t := Continue(Talk(Busy(file, bs, blk, 0), out + [p]), round + [Got(Ack(blk % 0x1_0000))]);
            var sent := out + Copies(p, 1 + |round|);
            if blk < Last(file, bs) then t == Talk(Busy(file, bs, blk + 1, 0), sent + [BlockPacket(file, bs, blk + 1)])
            else t.server.phase == Finished(true) && t.out == sent
  {
    hide Block;
    hide Last;
    hide React;
    hide Continue;
    hide Busy;
    hide ServerOk;
    hide BlockPacket;
    hide Current;
    hide Timeouts;
    var p, ack := BlockPacket(file, bs, blk), Got(Ack(blk % 0x1_0000));
    var tries := Timeouts(round);
    BlockIsResent(file, bs, blk, 0, out + [p], round);
    OneMore(file, bs, blk, tries, out, ack);
    ContinueConcat(Talk(Busy(file, bs, blk, 0), out + [p]), round, [ack]);
    OneCopyMore(out, p, |round|);
    AckStep(Talk(Busy(file, bs, blk, tries), out + Copies(p, 1 + |round|)), ack);
    NextPacket(file, bs, blk + 1);
  }

  lemma OneCopyMore(out: seq<Packet>, p: Packet, n: nat)
    ensures out + [p] + Copies(p, n) == out + Copies(p, 1 + n)
  {
    assert [p] + Copies(p, n) == Copies(p, 1 + n);
    Regrouped(out, [p], Copies(p, n));
  }

  lemma NextPacket(file: seq<Byte>, bs: nat, blk: nat)
    requires blk >= 1
    ensures Current(Busy(file, bs, blk, 0)) == BlockPacket(file, bs, blk)
  {
  }

  lemma AckStep(t: Talk, r: Recv)
    requires ServerOk(t.server)
    ensures var (s, send) := React(t.server, r);
            Continue(t, [r]) == Talk(s, if send then t.out + [Current(s)] else t.out)
  {
    assert [r][1..] == [];
    assert t.out + [] == t.out;
  }

  lemma {:induction false} BlocksComplete(file: seq<Byte>, bs: nat, blk: nat, out: seq<Packet>, rounds: seq<seq<Recv>>)
    requires bs >= 1 && 1 <= blk && blk + |rounds| == Last(file, bs) + 1 && rounds != [] && Patient(blk, rounds)
    ensures ServerOk(Busy(file, bs, blk, 0))
    ensures var t := Continue(Talk(Busy(file, bs, blk, 0), out + [BlockPacket(file, bs, blk)]), Delivered(blk, rounds));
            t.server.phase == Finished(true) && t.out == out + Sendings(file, bs, blk, rounds)
    decreases |rounds|
  {
    hide Block;
    hide Last;
    hide KeepsSending;
    hide BlockPacket;
    hide Busy;
    hide ServerOk;
    var p, round := BlockPacket(file, bs, blk), rounds[0];
    var turn := round + [Got(Ack(blk % 0x1_0000))];
    var later := rounds[1..];
    OneBlock(file, bs, blk, out, round);
    ContinueConcat(Talk(Busy(file, bs, blk, 0), out + [p]), turn, Delivered(blk + 1, later));
    var sent := out + Copies(p, 1 + |round|);
    if blk < Last(file, bs) {
      assert forall k :: 0 <= k < |later| ==> later[k] == rounds[k + 1];
      assert Patient(blk + 1, later);
      hide Continue;
      BlocksComplete(file, bs, blk + 1, sent, later);
      Regrouped(out, Copies(p, 1 + |round|), Sendings(file, bs, blk + 1, later));
    } else {
      assert later == [] && Delivered(blk + 1, later) == [];
      assert Sendings(file, bs, blk, rounds) == Copies(p, 1 + |round|) + [];
    }
  }

  /** After some of the blocks have been acknowledged, the next one is out. */
  lemma {:induction false} BlocksProgress(file: seq<Byte>, bs: nat, blk: nat, out: seq<Packet>, rounds: seq<seq<Recv>>)
    requires bs >= 1 && 1 <= blk && blk + |rounds| <= Last(file, bs) && Patient(blk, rounds)
    ensures ServerOk(Busy(file, bs, blk, 0))
    ensures var next := blk + |rounds|;
            Continue(Talk(Busy(file, bs, blk, 0), out + [BlockPacket(file, bs, blk)]), Delivered(blk, rounds))
            == Talk(Busy(file, bs, next, 0), out + Sendings(file, bs, blk, rounds) + [BlockPacket(file, bs, next)])
    decreases |rounds|
  {
    hide Block;
    hide Last;
    hide KeepsSending;
    hide BlockPacket;
    hide Busy;
    hide ServerOk;
    hide Timeouts;
    hide React;
    hide Wire;
    OneMore(file, bs, blk, 0, out, Got(Error));
    if rounds == [] {
      assert out + [] == out;
    } else {
      var p, round, later := BlockPacket(file, bs, blk), rounds[0], rounds[1..];
      var turn := round + [Got(Ack(blk % 0x1_0000))];
      OneBlock(file, bs, blk, out, round);
      ContinueConcat(Talk(Busy(file, bs, blk, 0), out + [p]), turn, Delivered(blk + 1, later));
      var sent := out + Copies(p, 1 + |round|);
      assert forall k :: 0 <= k < |later| ==> later[k] == rounds[k + 1];
      assert Patient(blk + 1, later);
      hide Continue;
      hide Patient;
      BlocksProgress(file, bs, blk + 1, sent, later);
      Regrouped(out, Copies(p, 1 + |round|), Sendings(file, bs, blk + 1, later));
    }
  }

  /** An error packet, or the eleventh timeout of one block, ends the transfer in failure with nothing more sent. */
  lemma BlockFails(file: seq<Byte>, bs: nat, blk: nat, out: seq<Packet>, round: seq<Recv>, r: Recv)
    requires bs >= 1 && 1 <= blk <= Last(file, bs) && Timeouts(round) <= 10
    requires forall i :: 0 <= i < |round| ==> KeepsSending(blk, round[i])
    requires r == Got(Error) || (r.Timeout? && Timeouts(round) == 10)
    ensures ServerOk(Busy(file, bs, blk, 0))
    ensures var p := BlockPacket(file, bs, blk);
            var t := Continue(Talk(Busy(file, bs, blk, 0), out + [p]), round + [r]);
            t.server.phase == Finished(false) && t.out == out + Copies(p, 1 + |round|)
  {
    hide Block;
    hide Last;
    hide React;
    hide Continue;
    hide Busy;
    hide ServerOk;
    hide BlockPacket;
    hide Current;
    hide Timeouts;
    var p, tries := BlockPacket(file, bs, blk), Timeouts(round);
    BlockIsResent(file, bs, blk, 0, out + [p], round);
    OneMore(file, bs, blk, tries, out, r);
    ContinueConcat(Talk(Busy(file, bs, blk, 0), out + [p]), round, [r]);
    OneCopyMore(out, p, |round|);
    AckStep(Talk(Busy(file, bs, blk, tries), out + Copies(p, 1 + |round|)), r);
  }

  lemma Regrouped(a: seq<Packet>, b: seq<Packet>, c: seq<Packet>)
    ensures a + b + c == a + (b + c)
  {
  }

  /**
   The transfer succeeds, and these packets go out, whenever the acknowledgements
   arrive in order with no error packet, no expired OACK deadline and at most ten
   timeouts a block, whatever else arrives in between.
   */
  lemma TransferCompletes(file: seq<Byte>, bs: nat, options: bool, quiet: seq<Recv>, rounds: seq<seq<Recv>>)
    requires bs >= 1 && |rounds| == Last(file, bs) && Patient(1, rounds)
    requires forall i :: 0 <= i < |quiet| ==> KeepsWaiting(quiet[i])
    ensures var events := (if options then quiet + [Got(Ack(0))] else []) + Delivered(1, rounds);
            var oacks := if options then Copies(Oack, 1 + Timeouts(quiet)) else [];
            Reports(Play(file, bs, options, events), Returned(true), oacks + Sendings(file, bs, 1, rounds))
  {
    hide Patient;
    hide Block;
    hide KeepsWaiting;
    hide Play;
    AtLeastOne(file, bs);
    var first, rest := BlockPacket(file, bs, 1), Delivered(1, rounds);
    var start := Talk(Busy(file, bs, 1, 0), [] + [first]);
    if options {
      var oacks := Copies(Oack, 1 + Timeouts(quiet));
      NegotiationOpens(file, bs, quiet);
      ContinueConcat(Talk(Server(file, bs, AwaitOack, 0, 0), [Oack]), quiet + [Got(Ack(0))], rest);
      PlayIsContinue(file, bs, true, quiet + [Got(Ack(0))] + rest);
      BlocksComplete(file, bs, 1, oacks, rounds);
    } else {
      PlayIsContinue(file, bs, false, rest);
      assert [] + rest == rest && [] + [first] == [first];
      BlocksComplete(file, bs, 1, [], rounds);
    }
  }

  /** And it fails, with these packets out, if a block's turn ends with an error packet or an eleventh timeout. */
  lemma TransferFails(file: seq<Byte>, bs: nat, options: bool, quiet: seq<Recv>, rounds: seq<seq<Recv>>, round: seq<Recv>, r: Recv)
    requires bs >= 1 && |rounds| < Last(file, bs) && Patient(1, rounds)
    requires forall i :: 0 <= i < |quiet| ==> KeepsWaiting(quiet[i])
    requires Timeouts(round) <= 10 && forall i :: 0 <= i < |round| ==> KeepsSending(1 + |rounds|, round[i])
    requires r == Got(Error) || (r.Timeout? && Timeouts(round) == 10)
    ensures var events := (if options then quiet + [Got(Ack(0))] else []) + Delivered(1, rounds) + (round + [r]);
            var oacks := if options then Copies(Oack, 1 + Timeouts(quiet)) else [];
            Reports(Play(file, bs, options, events), Returned(false),
                    oacks + Sendings(file, bs, 1, rounds) + Copies(BlockPacket(file, bs, 1 + |rounds|), 1 + |round|))
  {
    hide Patient;
    hide Block;
    hide KeepsWaiting;
    hide KeepsSending;
    hide Play;
    hide Last;
    hide Delivered;
    hide Sendings;
    var first, early, late := BlockPacket(file, bs, 1), Delivered(1, rounds), round + [r];
    var opening := if options then quiet + [Got(Ack(0))] else [];
    var oacks := if options then Copies(Oack, 1 + Timeouts(quiet)) else [];
    var begun := Talk(Start(file, bs, options), [Current(Start(file, bs, options))]);
    PlayIsContinue(file, bs, options, opening + early + late);
    OpeningOk(file, bs, options, quiet);
    ContinueConcat(begun, opening + early, late);
    ContinueConcat(begun, opening, early);
    hide Continue;
    BlocksProgress(file, bs, 1, oacks, rounds);
    BlockFails(file, bs, 1 + |rounds|, oacks + Sendings(file, bs, 1, rounds), round, r);
  }

  /** The negotiation, if there is one, brings block 1 out. */
  lemma OpeningOk(file: seq<Byte>, bs: nat, options: bool, quiet: seq<Recv>)
    requires bs >= 1 && forall i :: 0 <= i < |quiet| ==> KeepsWaiting(quiet[i])
    ensures ServerOk(Start(file, bs, options))
    ensures var oacks := if options then Copies(Oack, 1 + Timeouts(quiet)) else [];
            Continue(Talk(Start(file, bs, options), [Current(Start(file, bs, options))]),
                     if options then quiet + [Got(Ack(0))] else [])
            == Talk(Busy(file, bs, 1, 0), oacks + [BlockPacket(file, bs, 1)])
  {
    if options {
      NegotiationOpens(file, bs, quiet);
    } else {
      assert [] + [BlockPacket(file, bs, 1)] == [BlockPacket(file, bs, 1)];
    }
  }

  lemma AtLeastOne(file: seq<Byte>, bs: nat)
    requires bs >= 1
    ensures Last(file, bs) >= 1
  {
  }

  lemma NegotiationOpens(file: seq<Byte>, bs: nat, quiet: seq<Recv>)
    requires bs >= 1 && forall i :: 0 <= i < |quiet| ==> KeepsWaiting(quiet[i])
    ensures ServerOk(Server(file, bs, AwaitOack, 0, 0))
    ensures Continue(Talk(Server(file, bs, AwaitOack, 0, 0), [Oack]), quiet + [Got(Ack(0))])
         == Talk(Busy(file, bs, 1, 0), Copies(Oack, 1 + Timeouts(quiet)) + [BlockPacket(file, bs, 1)])
  {
    var oacks := Copies(Oack, 1 + Timeouts(quiet));
    OackIsResent(file, bs, [Oack], quiet);
    assert [Oack] + Copies(Oack, Timeouts(quiet)) == oacks;
    ContinueConcat(Talk(Server(file, bs, AwaitOack, 0, 0), [Oack]), quiet, [Got(Ack(0))]);
    WaitEnds(file, bs, oacks, Got(Ack(0)));
  }

  /**
   While the OACK is unanswered the server waits, one more OACK out than there were
   timeouts; a deadline or an error packet then ends in failure, with nothing more sent.
   */
  lemma NegotiationExactly(file: seq<Byte>, bs: nat, quiet: seq<Recv>, r: Recv)
    requires bs >= 1 && forall i :: 0 <= i < |quiet| ==> KeepsWaiting(quiet[i])
    ensures Reports(Play(file, bs, true, quiet), Blocked, Copies(Oack, 1 + Timeouts(quiet)))
    ensures !KeepsWaiting(r) && r != Got(Ack(0)) ==>
              Reports(Play(file, bs, true, quiet + [r]), Returned(false), Copies(Oack, 1 + Timeouts(quiet)))
    ensures r == Got(Ack(0)) ==>
              Reports(Play(file, bs, true, quiet + [r]), Blocked,
                      Copies(Oack, 1 + Timeouts(quiet)) + [Data(1, Block(file, bs, 1))])
  {
    var waiting := Talk(Server(file, bs, AwaitOack, 0, 0), [Oack]);
    var oacks := Copies(Oack, 1 + Timeouts(quiet));
    PlayIsContinue(file, bs, true, quiet);
    PlayIsContinue(file, bs, true, quiet + [r]);
    OackIsResent(file, bs, [Oack], quiet);
    assert [Oack] + Copies(Oack, Timeouts(quiet)) == oacks;
    ContinueConcat(waiting, quiet, [r]);
    if !KeepsWaiting(r) {
      WaitEnds(file, bs, oacks, r);
    }
  }

  // ----- the loops inside the lossy network --------------------------------------------

  /** What the server's recvfrom yields in one step of the whole system. */
  function Hears(y: System, e: Event): seq<Recv> {
    match e
    case ServerTimeout(expired) => [Timeout(expired)]
    case ServerReceives => if y.up == [] then [] else [Got(y.up[0].pkt)]
    case _ => []
  }

  /** And over a whole run. */
  ghost function Heard(y: System, events: seq<Event>): seq<Recv>
    requires Inv(y)
    decreases |events|
  {
    if events == [] then []
    else
      StepKeeps(y, events[0]);
      Hears(y, events[0]) + Heard(Step(y, events[0]), events[1..])
  }

  /** The server's conversation continued from `t`. */
  ghost function Continue(t: Talk, events: seq<Recv>): Talk
    requires ServerOk(t.server)
    decreases |events|
  {
    if events == [] then t
    else
      var (s, send) := React(t.server, events[0]);
      Continue(Talk(s, t.out + if send then [Current(s)] else []), events[1..])
  }

  lemma {:induction false} ContinueSnoc(t: Talk, events: seq<Recv>, r: Recv)
    requires ServerOk(t.server)
    ensures ServerOk(Continue(t, events).server)
    ensures var u := Continue(t, events);
            var (s, send) := React(u.server, r);
            Continue(t, events + [r]) == Talk(s, u.out + if send then [Current(s)] else [])
    decreases |events|
  {
    if events == [] {
      assert events + [r] == [r] && [r][1..] == [];
    } else {
      var (s, send) := React(t.server, events[0]);
      ContinueSnoc(Talk(s, t.out + if send then [Current(s)] else []), events[1..], r);
      assert (events + [r])[1..] == events[1..] + [r] && (events + [r])[0] == events[0];
    }
  }

  /** Play folds the same reactions from the other end. */
  lemma {:induction false} PlayIsContinue(file: seq<Byte>, bs: nat, options: bool, events: seq<Recv>)
    requires bs >= 1
    ensures Play(file, bs, options, events)
         == Continue(Talk(Start(file, bs, options), [Current(Start(file, bs, options))]), events)
    decreases |events|
  {
    if events != [] {
      var n := |events| - 1;
      PlayIsContinue(file, bs, options, events[..n]);
      ContinueSnoc(Talk(Start(file, bs, options), [Current(Start(file, bs, options))]), events[..n], events[n]);
      assert events == events[..n] + [events[n]];
    }
  }

  lemma {:induction false} RunFollows(y: System, events: seq<Event>, out: seq<Packet>)
    requires Inv(y)
    ensures ServerOk(y.server)
    ensures Run(y, events).server == Continue(Talk(y.server, out), Heard(y, events)).server
    decreases |events|
  {
    if events != [] {
      var e := events[0];
      var z := Step(y, e);
      StepKeeps(y, e);
      var heard := Hears(y, e);
      if heard == [] {
        assert z.server == y.server;
        RunFollows(z, events[1..], out);
        assert Heard(y, events) == Heard(z, events[1..]);
      } else {
        var (s, send) := React(y.server, heard[0]);
        assert z.server == s;
        RunFollows(z, events[1..], out + if send then [Current(s)] else []);
        assert Heard(y, events)[1..] == Heard(z, events[1..]);
      }
    }
  }

  /** What the server hears in a run of the system from its beginning. */
  ghost function HeardInRun(file: seq<Byte>, bs: nat, options: bool, events: seq<Event>): seq<Recv>
    requires bs >= 1
  {
    BeginOk(file, bs, options);
    Heard(Begin(file, bs, options), events)
  }

  /** Where a run of the system from its beginning ends. */
  ghost function EndOfRun(file: seq<Byte>, bs: nat, options: bool, events: seq<Event>): System
    requires bs >= 1
  {
    BeginOk(file, bs, options);
    Run(Begin(file, bs, options), events)
  }

  /**
   The two results joined: in any run over the lossy, duplicating channels, the
   server is where the loops are after the same receive events; so when they report
   success the client holds the whole file.
   */
  lemma SuccessDelivers(file: seq<Byte>, bs: nat, options: bool, events: seq<Event>, outcome: Outcome, out: seq<Packet>)
    requires bs >= 1
    requires Reports(Play(file, bs, options, HeardInRun(file, bs, options, events)), outcome, out)
    ensures EndOfRun(file, bs, options, events).server == Play(file, bs, options, HeardInRun(file, bs, options, events)).server
    ensures outcome == Returned(true) ==> EndOfRun(file, bs, options, events).client.file == file
  {
    var y := Begin(file, bs, options);
    BeginOk(file, bs, options);
    PlayIsContinue(file, bs, options, Heard(y, events));
    RunFollows(y, events, [Current(Start(file, bs, options))]);
    hide Run;
    hide Play;
    TransferSafe(file, bs, options, events);
  }
}
