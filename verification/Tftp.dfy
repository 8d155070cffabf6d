/**
 The TFTP read server (RFC 1350 with RFC 2347/2348/2349 options) against an RFC 1350
 client, over FIFO channels that lose and duplicate packets at will.

 Block numbers are counted without bound and sent modulo 2^16.  Packets in flight
 carry their absolute number only for the proof; neither side ever looks at it.
 */
module Tftp {
  import opened Bytes

  const WRAP := 0x1_0000
  const MAX_TRIES := 10

  function Wire(blk: nat): nat { blk % WRAP }   // blk & 0xFFFF

  datatype Packet = Data(num: nat, body: seq<Byte>) | Oack | Ack(num: nat) | Error | Other

  /** What a recvfrom on the transfer socket yields; `expired` says the 30-second OACK deadline has passed. */
  datatype Recv = Timeout(expired: bool) | Got(pkt: Packet)

  // ----- blocks ---------------------------------------------------------------

  function Min(a: nat, b: nat): nat { if a <= b then a else b }

  /** The file position after `n` full reads. */
  function Offset(bs: nat, n: nat): nat {
    if n == 0 then 0 else Offset(bs, n - 1) + bs
  }

  /** Block `blk` of the file, as successive reads of `bs` bytes return them. */
  function Block(file: seq<Byte>, bs: nat, blk: nat): seq<Byte>
    requires blk >= 1
  {
    file[Min(Offset(bs, blk - 1), |file|)..Min(Offset(bs, blk), |file|)]
  }

  /** Reads of `bs` bytes until one comes back short, counting the short one. */
  function Reads(size: nat, bs: nat): nat
    requires bs >= 1
  {
    if size < bs then 1 else 1 + Reads(size - bs, bs)
  }

  /** The short block that ends the transfer. */
  function Last(file: seq<Byte>, bs: nat): nat
    requires bs >= 1
  {
    Reads(|file|, bs)
  }

  lemma {:induction false} ReadsIsQuotient(size: nat, bs: nat)
    requires bs >= 1
    ensures Reads(size, bs) == size / bs + 1
  {
    if size < bs {
      Quotient(size, bs, 0, size);
    } else {
      ReadsIsQuotient(size - bs, bs);
      var q, r := (size - bs) / bs, (size - bs) % bs;
      assert size == (q + 1) * bs + r;
      Quotient(size, bs, q + 1, r);
    }
  }

  lemma {:induction false} FullReads(size: nat, bs: nat, n: nat)
    requires bs >= 1
    ensures Offset(bs, n) <= size <==> n < Reads(size, bs)
    decreases n
  {
    if n > 0 && size >= bs {
      FullReads(size - bs, bs, n - 1);
    }
  }

  /** The short block is exactly the last one, and every block before it is full. */
  lemma ShortIsLast(file: seq<Byte>, bs: nat, blk: nat)
    requires bs >= 1 && 1 <= blk <= Last(file, bs)
    ensures Offset(bs, blk - 1) <= |file|
    ensures |Block(file, bs, blk)| < bs <==> blk == Last(file, bs)
    ensures blk < Last(file, bs) <==> Offset(bs, blk) <= |file|
  {
    FullReads(|file|, bs, blk - 1);
    FullReads(|file|, bs, blk);
  }

  // ----- server ---------------------------------------------------------------

  datatype Phase = AwaitOack | Sending | Finished(ok: bool)

  datatype Server = Server(file: seq<Byte>, bs: nat, phase: Phase, blk: nat, tries: nat)

  function Current(s: Server): Packet
    requires s.phase.Sending? ==> s.blk >= 1
  {
    if s.phase.Sending? then Data(Wire(s.blk), Block(s.file, s.bs, s.blk)) else Oack
  }

  function Start(file: seq<Byte>, bs: nat, options: bool): Server {
    if options then Server(file, bs, AwaitOack, 0, 0) else Server(file, bs, Sending, 1, 0)
  }

  predicate ServerOk(s: Server) {
    && s.bs >= 1
    && (s.phase.AwaitOack? <==> s.blk == 0 && !s.phase.Finished?)
    && s.blk <= Last(s.file, s.bs)
  }

  /** How serve_one reacts to one recvfrom: its next state, and whether the current packet goes out. */
  function React(s: Server, r: Recv): (o: (Server, bool))
    requires ServerOk(s)
    ensures ServerOk(o.0) && o.0.file == s.file && o.0.bs == s.bs
    ensures o.1 ==> !o.0.phase.Finished?
  {
    match s.phase
    case Finished(_) => (s, false)
    case AwaitOack =>
      if r.Timeout? then (if r.expired then (s.(phase := Finished(false)), false) else (s, true))
      else if r.pkt.Error? then (s.(phase := Finished(false)), false)
      else if r.pkt == Ack(0) then (s.(phase := Sending, blk := 1, tries := 0), true)
      else (s, false)
    case Sending =>
      if r.Timeout? then
        (if s.tries + 1 > MAX_TRIES then (s.(phase := Finished(false)), false) else (s.(tries := s.tries + 1), true))
      else if r.pkt.Error? then (s.(phase := Finished(false)), false)
      else if r.pkt == Ack(Wire(s.blk)) then
        ShortIsLast(s.file, s.bs, s.blk);
        (if |Block(s.file, s.bs, s.blk)| < s.bs then (s.(phase := Finished(true)), false)
         else (s.(blk := s.blk + 1, tries := 0), true))
      else (s, true)
  }

  // ----- client ---------------------------------------------------------------

  /** An RFC 1350 receiver: `next` is the next block (0 while it waits for the OACK). */
  datatype Client = Client(bs: nat, next: nat, file: seq<Byte>, done: bool)

  /** The client's next state and the block it acknowledges, if any. */
  function Accept(c: Client, p: Packet): (Client, seq<nat>) {
    match p
    case Oack => if c.next <= 1 then (c.(next := 1), [0]) else (c, [])
    case Data(num, body) =>
      if c.next >= 1 && !c.done && num == Wire(c.next) then
        (c.(next := c.next + 1, file := c.file + body, done := |body| < c.bs), [c.next])
      else if c.next >= 2 && num == Wire(c.next - 1) then (c, [c.next - 1])
      else (c, [])
    case _ => (c, [])
  }

  /** The newest block the client may have acknowledged. */
  function Newest(c: Client): nat { if c.next == 0 then 0 else c.next - 1 }

  // ----- the two over their channels --------------------------------------------

  datatype Flight = Flight(pkt: Packet, abs: nat)

  datatype System = System(server: Server, client: Client, down: seq<Flight>, up: seq<Flight>)

  datatype Event =
    | ServerTimeout(expired: bool)
    | ServerReceives
    | ClientReceives
    | ClientGivesUp
    | LoseDown(i: nat) | DuplicateDown(i: nat)
    | LoseUp(i: nat) | DuplicateUp(i: nat)

  function Without<T>(s: seq<T>, i: nat): seq<T> {
    if i < |s| then s[..i] + s[i + 1..] else s
  }

  function Twice<T>(s: seq<T>, i: nat): seq<T> {
    if i < |s| then s[..i + 1] + s[i..] else s
  }

  function ServerStep(y: System, r: Recv): System
    requires ServerOk(y.server)
  {
    var (s, send) := React(y.server, r);
    y.(server := s, down := y.down + if send then [Flight(Current(s), s.blk)] else [])
  }

  function ClientStep(y: System, p: Packet): System {
    var (c, acks) := Accept(y.client, p);
    y.(client := c, up := y.up + if acks == [] then [] else [Flight(Ack(Wire(acks[0])), acks[0])])
  }

  function Step(y: System, e: Event): System
    requires ServerOk(y.server)
  {
    match e
    case ServerTimeout(expired) => ServerStep(y, Timeout(expired))
    case ServerReceives => if y.up == [] then y else ServerStep(y.(up := y.up[1..]), Got(y.up[0].pkt))
    case ClientReceives => if y.down == [] then y else ClientStep(y.(down := y.down[1..]), y.down[0].pkt)
    case ClientGivesUp => y.(up := y.up + [Flight(Error, Newest(y.client))])
    case LoseDown(i) => y.(down := Without(y.down, i))
    case DuplicateDown(i) => y.(down := Twice(y.down, i))
    case LoseUp(i) => y.(up := Without(y.up, i))
    case DuplicateUp(i) => y.(up := Twice(y.up, i))
  }

  function Begin(file: seq<Byte>, bs: nat, options: bool): System {
    var s := Start(file, bs, options);
    System(s, Client(bs, s.blk, [], false), [Flight(Current(s), s.blk)], [])
  }

  // ----- the invariant ------------------------------------------------------------

  /** In order, and within one block of each other: absolute numbers from `lo` to `hi`. */
  ghost predicate InWindow(fs: seq<Flight>, lo: int, hi: int) {
    && (forall i :: 0 <= i < |fs| ==> lo <= fs[i].abs <= hi)
    && (forall i, j :: 0 <= i < j < |fs| ==> fs[i].abs <= fs[j].abs)
  }

  ghost predicate DownOk(s: Server, f: Flight) {
    if f.abs == 0 then f.pkt == Oack else f.pkt == Data(Wire(f.abs), Block(s.file, s.bs, f.abs))
  }

  ghost predicate UpOk(c: Client, f: Flight) {
    f.pkt == Error || (f.pkt == Ack(Wire(f.abs)) && f.abs < c.next)
  }

  lemma WindowAppend(fs: seq<Flight>, f: Flight, lo: int, hi: int)
    requires InWindow(fs, lo, hi) && lo <= f.abs
    requires forall i :: 0 <= i < |fs| ==> fs[i].abs <= f.abs
    ensures InWindow(fs + [f], lo, f.abs)
  {
  }

  /** The first `n` blocks. */
  function Prefix(file: seq<Byte>, bs: nat, n: nat): seq<Byte> {
    file[..Min(Offset(bs, n), |file|)]
  }

  /** Where the two ends stand: the client has what the server has had acknowledged, or one block more. */
  ghost predicate EndsAgree(s: Server, c: Client) {
    && ServerOk(s) && c.bs == s.bs
    && s.blk <= c.next <= s.blk + 1
    && c.next <= Last(s.file, s.bs) + 1
    && c.file == (if c.next == 0 then [] else Prefix(s.file, s.bs, c.next - 1))
    && (c.done <==> c.next == Last(s.file, s.bs) + 1)
    && (s.phase == Finished(true) ==> s.blk == Last(s.file, s.bs) && c.next == s.blk + 1)
  }

  ghost predicate Inv(y: System) {
    var s, c := y.server, y.client;
    && EndsAgree(s, c)
    && InWindow(y.down, c.next - 1, s.blk) && (forall f :: f in y.down ==> DownOk(s, f))
    && InWindow(y.up, s.blk - 1, Newest(c)) && (forall f :: f in y.up ==> UpOk(c, f))
  }

  /** Two consecutive absolute blocks never share a wire number, across any number of rollovers. */
  lemma WireIsExact(a: nat, b: nat)
    requires b <= a <= b + 1
    ensures Wire(a) == Wire(b) <==> a == b
  {
  }

  lemma NextBlock(file: seq<Byte>, bs: nat, n: nat)
    requires bs >= 1 && 1 <= n <= Last(file, bs)
    ensures Prefix(file, bs, n - 1) + Block(file, bs, n) == Prefix(file, bs, n)
    ensures |Block(file, bs, n)| < bs <==> n == Last(file, bs)
  {
    ShortIsLast(file, bs, n);
  }

  /** An acknowledgement of the current block moves the server on; any other leaves the ends as they are. */
  lemma ServerEnds(s: Server, c: Client, r: Recv, abs: nat)
    requires EndsAgree(s, c)
    requires r.Got? ==> UpOk(c, Flight(r.pkt, abs)) && s.blk <= abs + 1
    ensures var s' := React(s, r).0;
            && EndsAgree(s', c)
            && (s'.blk == s.blk || (s'.blk == s.blk + 1 && r.Got? && abs == s.blk))
  {
    if r.Got? && r.pkt.Ack? {
      WireIsExact(s.blk, abs);
    }
    if s.phase.Sending? {
      NextBlock(s.file, s.bs, s.blk);
    }
    hide Prefix;
    hide Block;
  }

  lemma ServerMoves(y: System, s: Server, send: seq<Flight>)
    requires Inv(y) && EndsAgree(s, y.client) && s.file == y.server.file && s.bs == y.server.bs
    requires s.blk == y.server.blk || s.blk == y.server.blk + 1
    requires forall i :: 0 <= i < |y.up| ==> s.blk <= y.up[i].abs + 1
    requires send == [] || (|send| == 1 && send[0].abs == s.blk && DownOk(s, send[0]))
    ensures Inv(y.(server := s, down := y.down + send))
  {
    hide Block;
    hide Prefix;
    if send != [] {
      WindowAppend(y.down, send[0], y.client.next - 1, y.server.blk);
    }
  }

  lemma ServerKeeps(y: System, r: Recv, abs: nat)
    requires Inv(y)
    requires r.Got? ==> UpOk(y.client, Flight(r.pkt, abs)) && y.server.blk <= abs + 1
    requires r.Got? ==> forall i :: 0 <= i < |y.up| ==> abs <= y.up[i].abs
    ensures Inv(ServerStep(y, r))
  {
    ServerEnds(y.server, y.client, r, abs);
    var (s, send) := React(y.server, r);
    assert !s.phase.Finished? ==> DownOk(s, Flight(Current(s), s.blk));
    hide React;
    hide EndsAgree;
    hide Block;
    hide Current;
    ServerMoves(y, s, if send then [Flight(Current(s), s.blk)] else []);
  }

  /** A data packet in the window is the expected block or the one before it, and the client tells them apart. */
  lemma ClientEnds(s: Server, c: Client, f: Flight)
    requires EndsAgree(s, c) && DownOk(s, f)
    requires c.next <= f.abs + 1 && f.abs <= s.blk
    ensures var (c', acks) := Accept(c, f.pkt);
            && EndsAgree(s, c')
            && (c'.next == c.next || (c'.next == c.next + 1 && f.abs == c.next))
            && (acks != [] ==> acks[0] == c'.next - 1)
  {
    if f.abs >= 1 {
      NextBlock(s.file, s.bs, f.abs);
      WireIsExact(c.next, f.abs);
    }
    hide Prefix;
    hide Block;
    hide Last;
  }

  lemma ClientKeeps(y: System, f: Flight)
    requires Inv(y) && DownOk(y.server, f)
    requires y.client.next <= f.abs + 1 && f.abs <= y.server.blk
    requires forall i :: 0 <= i < |y.down| ==> f.abs <= y.down[i].abs
    ensures Inv(ClientStep(y, f.pkt))
  {
    ClientEnds(y.server, y.client, f);
    hide Accept;
    hide Block;
  }

  lemma Losing(fs: seq<Flight>, k: nat, lo: int, hi: int)
    requires InWindow(fs, lo, hi)
    ensures InWindow(Without(fs, k), lo, hi) && forall f :: f in Without(fs, k) ==> f in fs
  {
    var gs := Without(fs, k);
    assert k < |fs| ==> forall i :: 0 <= i < |gs| ==> gs[i] == fs[if i < k then i else i + 1];
  }

  lemma Duplicating(fs: seq<Flight>, k: nat, lo: int, hi: int)
    requires InWindow(fs, lo, hi)
    ensures InWindow(Twice(fs, k), lo, hi) && forall f :: f in Twice(fs, k) ==> f in fs
  {
    var gs := Twice(fs, k);
    assert k < |fs| ==> forall i :: 0 <= i < |gs| ==> gs[i] == fs[if i <= k then i else i - 1];
  }

  lemma ChannelKeeps(y: System, e: Event)
    requires Inv(y) && (e.LoseDown? || e.DuplicateDown? || e.LoseUp? || e.DuplicateUp?)
    ensures Inv(Step(y, e))
  {
    var s, c := y.server, y.client;
    match e {
      case LoseDown(i) => Losing(y.down, i, c.next - 1, s.blk);
      case DuplicateDown(i) => Duplicating(y.down, i, c.next - 1, s.blk);
      case LoseUp(i) => Losing(y.up, i, s.blk - 1, Newest(c));
      case DuplicateUp(i) => Duplicating(y.up, i, s.blk - 1, Newest(c));
    }
    hide EndsAgree;
    hide InWindow;
    hide DownOk;
    hide UpOk;
    hide Without;
    hide Twice;
  }

  lemma GivingUpKeeps(y: System)
    requires Inv(y)
    ensures Inv(Step(y, ClientGivesUp))
  {
    hide Prefix;
    hide Block;
    hide Last;
    WindowAppend(y.up, Flight(Error, Newest(y.client)), y.server.blk - 1, Newest(y.client));
  }

  lemma StepKeeps(y: System, e: Event)
    requires Inv(y)
    ensures Inv(Step(y, e))
  {
    match e
    case ServerTimeout(expired) => ServerKeeps(y, Timeout(expired), 0);
    case ServerReceives =>
      if y.up != [] {
        ServerKeeps(y.(up := y.up[1..]), Got(y.up[0].pkt), y.up[0].abs);
      }
    case ClientReceives =>
      if y.down != [] {
        ClientKeeps(y.(down := y.down[1..]), y.down[0]);
      }
    case ClientGivesUp => GivingUpKeeps(y);
    case _ => ChannelKeeps(y, e);
  }

  ghost function Run(y: System, events: seq<Event>): (r: System)
    requires Inv(y)
    ensures Inv(r) && r.server.file == y.server.file && r.server.bs == y.server.bs
    decreases |events|
  {
    if events == [] then y
    else
      StepKeeps(y, events[0]);
      Run(Step(y, events[0]), events[1..])
  }

  lemma BeginOk(file: seq<Byte>, bs: nat, options: bool)
    requires bs >= 1
    ensures Inv(Begin(file, bs, options))
    ensures Begin(file, bs, options).server.file == file && Begin(file, bs, options).server.bs == bs
  {
  }

  /**
   Safety of the transfer, for every file, block size and history of loss,
   duplication, timeouts and give-ups: the client only ever holds a prefix of the
   file; when the server reports success the client holds all of it, after exactly
   floor(size / bs) + 1 blocks; and whatever is in flight belongs to at most two
   consecutive absolute blocks each way.
   */
  lemma TransferSafe(file: seq<Byte>, bs: nat, options: bool, events: seq<Event>)
    requires bs >= 1
    ensures Inv(Begin(file, bs, options))
    ensures var y := Run(Begin(file, bs, options), events);
            && y.client.file <= file
            && (y.client.done ==> y.client.file == file)
            && (y.server.phase == Finished(true) ==> y.client.done && y.server.blk == |file| / bs + 1)
            && InWindow(y.down, y.server.blk - 1, y.server.blk)
            && InWindow(y.up, y.server.blk - 1, y.server.blk)
  {
    hide Run;
    hide Begin;
    hide InWindow;
    hide Inv;
    BeginOk(file, bs, options);
    InvMeans(Run(Begin(file, bs, options), events));
  }

  lemma InvMeans(y: System)
    requires Inv(y)
    ensures y.client.file <= y.server.file
    ensures y.client.done ==> y.client.file == y.server.file
    ensures y.server.bs >= 1
    ensures y.server.phase == Finished(true) ==> y.client.done && y.server.blk == |y.server.file| / y.server.bs + 1
    ensures InWindow(y.down, y.server.blk - 1, y.server.blk) && InWindow(y.up, y.server.blk - 1, y.server.blk)
  {
    hide Block;
    ShortIsLast(y.server.file, y.server.bs, Last(y.server.file, y.server.bs));
    ReadsIsQuotient(|y.server.file|, y.server.bs);
  }

  // ----- a run that completes --------------------------------------------------------

  /** Block `blk` has just been sent, for the first time, and nothing else is in flight. */
  ghost predicate AtBlock(y: System, file: seq<Byte>, bs: nat, blk: nat)
    requires bs >= 1
  {
    && 1 <= blk <= Last(file, bs)
    && y.server == Server(file, bs, Sending, blk, 0)
    && y.client == Client(bs, blk, Prefix(file, bs, blk - 1), false)
    && y.down == [Flight(Data(blk % 0x1_0000, Block(file, bs, blk)), blk)] && y.up == []
  }

  /** The client takes the block, its acknowledgement is taken, and the next block is out or the transfer over. */
  lemma OneTurn(y: System, file: seq<Byte>, bs: nat, blk: nat)
    requires bs >= 1 && AtBlock(y, file, bs, blk)
    ensures ServerOk(y.server) && ServerOk(Step(y, ClientReceives).server)
    ensures var z := Step(Step(y, ClientReceives), ServerReceives);
            if blk < Last(file, bs) then AtBlock(z, file, bs, blk + 1)
            else z.server.phase == Finished(true) && z.client.done && z.client.file == file
  {
    NextBlock(file, bs, blk);
    WireIsExact(blk, blk);
    BlockAtMost(file, bs, blk);
    if blk == Last(file, bs) {
      WholeFile(file, bs);
    }
    hide Block;
    hide Prefix;
    hide Last;
    var c := Step(y, ClientReceives);
    assert [] + [Flight(Ack(Wire(blk)), blk)] == [Flight(Ack(Wire(blk)), blk)];
    assert c.up == [Flight(Ack(Wire(blk)), blk)] && c.down == [] && c.server == y.server;
    assert c.up[1..] == [];
  }

  lemma BlockAtMost(file: seq<Byte>, bs: nat, blk: nat)
    requires blk >= 1
    ensures |Block(file, bs, blk)| <= bs
  {
  }

  lemma WholeFile(file: seq<Byte>, bs: nat)
    requires bs >= 1
    ensures Prefix(file, bs, Last(file, bs)) == file
  {
    ShortIsLast(file, bs, Last(file, bs));
  }

  /** Client and server take turns `n` times. */
  function Turns(n: nat): seq<Event> {
    if n == 0 then [] else [ClientReceives, ServerReceives] + Turns(n - 1)
  }

  lemma RunTwo(y: System, a: Event, b: Event, rest: seq<Event>)
    requires Inv(y)
    ensures Inv(Step(y, a)) && Inv(Step(Step(y, a), b))
    ensures Run(y, [a, b] + rest) == Run(Step(Step(y, a), b), rest)
  {
    StepKeeps(y, a);
    StepKeeps(Step(y, a), b);
    assert ([a, b] + rest)[1..] == [b] + rest && ([b] + rest)[1..] == rest;
  }

  lemma {:induction false} TurnsComplete(y: System, file: seq<Byte>, bs: nat, blk: nat)
    requires bs >= 1 && Inv(y) && 1 <= blk <= Last(file, bs) && AtBlock(y, file, bs, blk)
    ensures var z := Run(y, Turns(Last(file, bs) + 1 - blk));
            z.server.phase == Finished(true) && z.client.done && z.client.file == file
    decreases Last(file, bs) - blk
  {
    hide Inv;
    hide AtBlock;
    hide Step;
    hide Run;
    hide ServerOk;
    hide Last;
    var n := Last(file, bs) - blk;
    OneTurn(y, file, bs, blk);
    RunTwo(y, ClientReceives, ServerReceives, Turns(n));
    if blk < Last(file, bs) {
      TurnsComplete(Step(Step(y, ClientReceives), ServerReceives), file, bs, blk + 1);
    } else {
      RunNone(Step(Step(y, ClientReceives), ServerReceives));
    }
  }

  lemma RunNone(y: System)
    requires Inv(y)
    ensures Run(y, Turns(0)) == y
  {
  }

  /** For every file, block size and choice of options some run ends with both sides done and the whole file across. */
  lemma TransferIsPossible(file: seq<Byte>, bs: nat, options: bool) returns (events: seq<Event>)
    requires bs >= 1
    ensures Inv(Begin(file, bs, options))
    ensures var z := Run(Begin(file, bs, options), events);
            z.server.phase == Finished(true) && z.client.done && z.client.file == file
  {
    BeginOk(file, bs, options);
    var y := Begin(file, bs, options);
    var n := Last(file, bs);
    if options {
      events := [ClientReceives, ServerReceives] + Turns(n);
      RunTwo(y, ClientReceives, ServerReceives, Turns(n));
      var z := Step(Step(y, ClientReceives), ServerReceives);
      OptionsTurn(file, bs);
      TurnsComplete(z, file, bs, 1);
    } else {
      events := Turns(n);
      TurnsComplete(y, file, bs, 1);
    }
  }

  lemma OptionsTurn(file: seq<Byte>, bs: nat)
    requires bs >= 1
    ensures var y := Begin(file, bs, true);
            && ServerOk(y.server) && ServerOk(Step(y, ClientReceives).server)
            && AtBlock(Step(Step(y, ClientReceives), ServerReceives), file, bs, 1)
  {
    var y := Begin(file, bs, true);
    var c := Step(y, ClientReceives);
    assert c.up == [Flight(Ack(0), 0)] && c.down == [];
    assert c.up[1..] == [];
  }
}
