/**
 Interrupt dispatch on the Cisco 2811: the CP0 lines, the MV64340 demultiplexer
 behind IP2..IP6, and the two masking rules that keep an interrupt nobody can
 service from being taken for ever.

 A 32-bit register is the set of its one bits.  Which lines and sources assert,
 and which irqs have an action, is input to every dispatch.
 */
module Irq {

  const IRQ_BASE := 8
  const TIMER := 7

  /** The CP0 lines handed to the demultiplexer. */
  const CASCADE: set<nat> := {2, 3, 4, 5, 6}

  type Word = s: set<nat> | forall b :: b in s ==> b < 32 witness {}

  /** cpu_int0 masks, Status.IM, and the bits remembered for the deferred reports. */
  datatype Ctl = Ctl(low: Word, high: Word, status: set<nat>, unclaimed: set<nat>, runaway: set<nat>)

  /** Asserted CP0 lines, main cause registers, and the sources some driver has claimed. */
  datatype Input = Input(lines: set<nat>, low: Word, high: Word, claimed: set<nat>)

  datatype Outcome = Timer | Handler(irq: nat) | Masked(bit: nat) | LinesOff(lines: set<nat>) | Spurious

  // ----- specification ----------------------------------------------------------

  function LeastFrom(w: Word, i: nat): (b: nat)
    requires exists x :: x in w && i <= x
    ensures b in w && i <= b && forall x :: x in w && i <= x ==> b <= x
    decreases 32 - i
  {
    if i in w then i else LeastFrom(w, i + 1)
  }

  /** __ffs. */
  function Least(w: Word): (b: nat)
    requires w != {}
    ensures b in w && forall x :: x in w ==> b <= x
  {
    assert exists x :: x in w && 0 <= x;
    LeastFrom(w, 0)
  }

  /** The highest-priority source both asserted and enabled: low word first, lowest bit first. */
  function Source(c: Ctl, i: Input): nat
    requires c.low * i.low != {} || c.high * i.high != {}
  {
    if c.low * i.low != {} then Least(c.low * i.low) else 32 + Least(c.high * i.high)
  }

  function MaskBit(c: Ctl, bit: nat): Ctl {
    if bit < 32 then c.(low := c.low - {bit}) else c.(high := c.high - {bit - 32})
  }

  predicate Enabled(c: Ctl, bit: nat) {
    if bit < 32 then bit in c.low else bit - 32 in c.high
  }

  function Demux(c: Ctl, i: Input): (Ctl, Outcome) {
    if c.low * i.low == {} && c.high * i.high == {} then
      var stuck := c.status * i.lines * CASCADE;
      (c.(status := c.status - stuck, runaway := c.runaway + stuck), LinesOff(stuck))
    else
      var bit := Source(c, i);
      if bit in i.claimed then (c, Handler(IRQ_BASE + bit))
      else (MaskBit(c, bit).(unclaimed := c.unclaimed + {bit}), Masked(bit))
  }

  function Dispatch(c: Ctl, i: Input): (Ctl, Outcome) {
    var pending := c.status * i.lines;
    if TIMER in pending then (c, Timer)
    else if pending * CASCADE != {} then Demux(c, i)
    else (c, Spurious)
  }

  // ----- what each input leads to, bit by bit -----------------------------------------

  /** Cause bit `b` (0 to 63) is asserted and its mask bit set. */
  predicate Due(c: Ctl, i: Input, b: nat) {
    (b < 32 && b in i.low && b in c.low) || (32 <= b < 64 && b - 32 in i.high && b - 32 in c.high)
  }

  /** And no lower-numbered one is. */
  ghost predicate FirstDue(c: Ctl, i: Input, b: nat) {
    Due(c, i, b) && forall a: nat :: a < b ==> !Due(c, i, a)
  }

  /** A CP0 line is asserted and its Status.IM bit set. */
  predicate LineOn(c: Ctl, i: Input, l: nat) { l in c.status && l in i.lines }

  predicate CascadeOn(c: Ctl, i: Input) {
    LineOn(c, i, 2) || LineOn(c, i, 3) || LineOn(c, i, 4) || LineOn(c, i, 5) || LineOn(c, i, 6)
  }

  lemma SourceIsFirst(c: Ctl, i: Input)
    ensures c.low * i.low != {} || c.high * i.high != {} ==> FirstDue(c, i, Source(c, i))
    ensures c.low * i.low == {} && c.high * i.high == {} ==> forall b: nat :: !Due(c, i, b)
  {
    if c.low * i.low == {} && c.high * i.high == {} {
      forall b: nat
        ensures !Due(c, i, b)
      {
        if b < 32 {
          assert b !in c.low * i.low;
        } else if b < 64 {
          assert b - 32 !in c.high * i.high;
        }
      }
    } else {
      var s := Source(c, i);
      forall a: nat | a < s
        ensures !Due(c, i, a)
      {
        if a < 32 {
          assert a !in c.low * i.low;
        } else {
          assert a - 32 !in c.high * i.high;
        }
      }
    }
  }

  lemma OnlyOneFirst(c: Ctl, i: Input, a: nat, b: nat)
    requires FirstDue(c, i, a) && FirstDue(c, i, b)
    ensures a == b
  {
  }

  /**
   The demultiplexer: the first due source runs its handler if it is claimed and is
   masked if not; with none due, the asserted cascade lines are switched off.
   */
  lemma DemuxExactly(c: Ctl, i: Input)
    ensures var (d, o) := Demux(c, i);
            && (forall b: nat :: FirstDue(c, i, b) ==>
                  if b in i.claimed then o == Handler(8 + b) && d == c
                  else o == Masked(b) && MaskedOnly(c, d, b))
            && ((forall b: nat :: !Due(c, i, b)) ==> o.LinesOff? && LinesDropped(c, d, i, o.lines))
  {
    SourceIsFirst(c, i);
    var (d, o) := Demux(c, i);
    forall b: nat | FirstDue(c, i, b)
      ensures if b in i.claimed then o == Handler(8 + b) && d == c else o == Masked(b) && MaskedOnly(c, d, b)
    {
      if b < 32 {
        assert b in c.low * i.low;
      } else {
        assert b - 32 in c.high * i.high;
      }
      OnlyOneFirst(c, i, b, Source(c, i));
    }
  }

  /** From `c` to `d` mask bit `b` was cleared and remembered, and nothing else changed. */
  ghost predicate MaskedOnly(c: Ctl, d: Ctl, b: nat) {
    && (forall x: nat :: x in d.low <==> x in c.low && x != b)
    && (forall x: nat :: x in d.high <==> x in c.high && x + 32 != b)
    && d.unclaimed == c.unclaimed + {b} && d.status == c.status && d.runaway == c.runaway
  }

  /** Exactly the asserted, enabled lines IP2 to IP6 were switched off and remembered. */
  ghost predicate LinesDropped(c: Ctl, d: Ctl, i: Input, lines: set<nat>) {
    && (forall l: nat :: l in lines <==> 2 <= l <= 6 && LineOn(c, i, l))
    && d.status == c.status - lines && d.runaway == c.runaway + lines
    && d.low == c.low && d.high == c.high && d.unclaimed == c.unclaimed
  }

  /**
   Each outcome of a dispatch occurs exactly on these inputs, with this change of
   state: the timer before anything else, then the first due source, handled if
   claimed and masked if not, then the lines, and spurious if no line is on.
   */
  lemma DispatchExactly(c: Ctl, i: Input)
    ensures var (d, o) := Dispatch(c, i);
            && (o == Timer <==> LineOn(c, i, 7))
            && (o == Spurious <==> !LineOn(c, i, 7) && !CascadeOn(c, i))
            && (forall b: nat :: FirstDue(c, i, b) ==>
                  (o == Handler(8 + b) <==> !LineOn(c, i, 7) && CascadeOn(c, i) && b in i.claimed))
            && (forall b: nat :: FirstDue(c, i, b) ==>
                  (o == Masked(b) <==> !LineOn(c, i, 7) && CascadeOn(c, i) && b !in i.claimed))
            && (o.Handler? ==> o.irq >= 8 && FirstDue(c, i, o.irq - 8))
            && (o.Masked? ==> FirstDue(c, i, o.bit) && MaskedOnly(c, d, o.bit))
            && (o.LinesOff? <==> !LineOn(c, i, 7) && CascadeOn(c, i) && forall b: nat :: !Due(c, i, b))
            && (o.LinesOff? ==> LinesDropped(c, d, i, o.lines))
            && (o.Timer? || o.Handler? || o.Spurious? ==> d == c)
  {
    DemuxExactly(c, i);
    SourceIsFirst(c, i);
    CascadeIs(c, i);
    hide Demux;
    hide CascadeOn;
    hide Source;
    if c.low * i.low == {} && c.high * i.high == {} {
      assert forall b: nat :: FirstDue(c, i, b) ==> Due(c, i, b);
    } else {
      assert FirstDue(c, i, Source(c, i));
    }
  }

  lemma CascadeIs(c: Ctl, i: Input)
    ensures c.status * i.lines * CASCADE != {} <==> CascadeOn(c, i)
    ensures TIMER in c.status * i.lines <==> LineOn(c, i, 7)
  {
    var pending := c.status * i.lines * CASCADE;
    assert forall l :: 2 <= l <= 6 ==> (l in pending <==> LineOn(c, i, l));
    if CascadeOn(c, i) {
      assert 2 in pending || 3 in pending || 4 in pending || 5 in pending || 6 in pending;
    }
  }

  /** A handler only ever runs for a source that is claimed, asserted and enabled. */
  lemma HandlerIsDue(c: Ctl, i: Input)
    ensures var o := Dispatch(c, i).1;
            o.Handler? ==>
              var bit := o.irq - IRQ_BASE;
              && bit in i.claimed && Enabled(c, bit)
              && (if bit < 32 then bit in i.low else bit - 32 in i.high)
              && Dispatch(c, i).0 == c
  {
  }

  // ----- livelock -----------------------------------------------------------------

  /** A cascade interrupt that returned without running a handler. */
  predicate Fruitless(o: Outcome) { o.Masked? || o.LinesOff? }

  /** How many fruitless dispatches are still possible: enabled sources plus enabled cascade lines. */
  function Rank(c: Ctl): nat { |c.low| + |c.high| + |c.status * CASCADE| }

  lemma Removed(s: set<nat>, x: nat)
    requires x in s
    ensures |s - {x}| == |s| - 1
  {
  }

  lemma Smaller(a: set<nat>, b: set<nat>)
    requires a <= b
    ensures |a| <= |b|
    ensures a != b ==> |a| < |b|
  {
    assert b == a + (b - a);
  }

  /** Every fruitless dispatch disables at least one source or line; no dispatch enables any. */
  lemma DispatchRanks(c: Ctl, i: Input)
    ensures var (d, o) := Dispatch(c, i);
            Rank(d) + (if Fruitless(o) then 1 else 0) <= Rank(c)
  {
    var (d, o) := Dispatch(c, i);
    match o
    case Masked(bit) =>
      if bit < 32 { Removed(c.low, bit); } else { Removed(c.high, bit - 32); }
    case LinesOff(stuck) =>
      assert d.status * CASCADE == c.status * CASCADE - stuck;
      assert stuck != {};
      Smaller(d.status * CASCADE, c.status * CASCADE);
    case _ =>
  }

  /** Dispatches, with handlers and drivers free to disable sources and lines in between, but never to enable one. */
  datatype Event = Interrupt(input: Input) | Disable(low: set<nat>, high: set<nat>, lines: set<nat>)

  function Step(c: Ctl, e: Event): Ctl {
    match e
    case Interrupt(i) => Dispatch(c, i).0
    case Disable(low, high, lines) => c.(low := c.low - low, high := c.high - high, status := c.status - lines)
  }

  function After(c: Ctl, events: seq<Event>): Ctl
    decreases |events|
  {
    if events == [] then c else After(Step(c, events[0]), events[1..])
  }

  function FruitlessCount(c: Ctl, events: seq<Event>): nat
    decreases |events|
  {
    if events == [] then 0
    else
      (if events[0].Interrupt? && Fruitless(Dispatch(c, events[0].input).1) then 1 else 0)
      + FruitlessCount(Step(c, events[0]), events[1..])
  }

  lemma StepRanks(c: Ctl, e: Event)
    ensures Rank(Step(c, e)) + (if e.Interrupt? && Fruitless(Dispatch(c, e.input).1) then 1 else 0) <= Rank(c)
  {
    match e
    case Interrupt(i) => DispatchRanks(c, i);
    case Disable(low, high, lines) =>
      Smaller(c.low - low, c.low);
      Smaller(c.high - high, c.high);
      Smaller((c.status - lines) * CASCADE, c.status * CASCADE);
  }

  lemma {:induction false} RunRanks(c: Ctl, events: seq<Event>)
    ensures FruitlessCount(c, events) + Rank(After(c, events)) <= Rank(c)
    decreases |events|
  {
    if events != [] {
      StepRanks(c, events[0]);
      RunRanks(Step(c, events[0]), events[1..]);
    }
  }

  lemma {:induction false} Below(s: set<nat>, n: nat)
    requires forall x :: x in s ==> x < n
    ensures |s| <= n
  {
    if n == 0 {
      assert s == {};
    } else {
      Below(s - {n - 1}, n - 1);
      Smaller(s, s - {n - 1} + {n - 1});
    }
  }

  /** No run, however long and whatever asserts, holds more than 64 + 5 fruitless dispatches. */
  lemma LivelockBound(c: Ctl, events: seq<Event>)
    ensures FruitlessCount(c, events) <= 64 + 5
  {
    RunRanks(c, events);
    Below(c.low, 32);
    Below(c.high, 32);
    Smaller(c.status * CASCADE, CASCADE);
  }

  // ----- the bound is reached -------------------------------------------------------

  const ALL: Word := set b: nat | b < 32

  lemma {:induction false} MaskEverything(c: Ctl) returns (events: seq<Event>)
    requires c.status * CASCADE != {}
    ensures FruitlessCount(c, events) == |c.low| + |c.high|
    ensures After(c, events).low == {} && After(c, events).high == {} && After(c, events).status == c.status
    decreases |c.low| + |c.high|
  {
    hide Least;
    if c.low == {} && c.high == {} {
      events := [];
    } else {
      var i := Input(c.status * CASCADE, ALL, ALL, {});
      assert c.low * ALL == c.low && c.high * ALL == c.high;
      assert c.status * (c.status * CASCADE) == c.status * CASCADE;
      var bit := Source(c, i);
      assert Dispatch(c, i).1 == Masked(bit);
      if bit < 32 { Removed(c.low, bit); } else { Removed(c.high, bit - 32); }
      var rest := MaskEverything(Step(c, Interrupt(i)));
      events := [Interrupt(i)] + rest;
      assert events[1..] == rest;
    }
  }

  lemma {:induction false} SilenceLines(c: Ctl) returns (events: seq<Event>)
    requires c.low == {} && c.high == {}
    ensures FruitlessCount(c, events) == |c.status * CASCADE|
    decreases |c.status * CASCADE|
  {
    if c.status * CASCADE == {} {
      events := [];
    } else {
      var l :| l in c.status * CASCADE;
      var i := Input({l}, {}, {}, {});
      assert c.status * {l} == {l} && {l} * CASCADE == {l};
      assert c.low * i.low == {} && c.high * i.high == {};
      assert Dispatch(c, i) == (c.(status := c.status - {l}, runaway := c.runaway + {l}), LinesOff({l}));
      assert (c.status - {l}) * CASCADE == c.status * CASCADE - {l};
      Removed(c.status * CASCADE, l);
      var rest := SilenceLines(Step(c, Interrupt(i)));
      events := [Interrupt(i)] + rest;
      assert events[1..] == rest;
    }
  }

  lemma {:induction false} CountConcat(c: Ctl, a: seq<Event>, b: seq<Event>)
    ensures FruitlessCount(c, a + b) == FruitlessCount(c, a) + FruitlessCount(After(c, a), b)
    decreases |a|
  {
    if a == [] {
      assert a + b == b;
    } else {
      CountConcat(Step(c, a[0]), a[1..], b);
      assert (a + b)[1..] == a[1..] + b && (a + b)[0] == a[0];
    }
  }

  /** The rank is exact: from any state with a cascade line enabled, some run wastes that many dispatches. */
  lemma BoundIsReached(c: Ctl) returns (events: seq<Event>)
    requires c.status * CASCADE != {}
    ensures FruitlessCount(c, events) == Rank(c)
  {
    var first := MaskEverything(c);
    var second := SilenceLines(After(c, first));
    events := first + second;
    CountConcat(c, first, second);
  }

  // ----- the code --------------------------------------------------------------------

  class Board {
    var maskLow: Word
    var maskHigh: Word
    var status: set<nat>
    var unclaimed: set<nat>
    var runaway: set<nat>

    function State(): Ctl
      reads this
    {
      Ctl(maskLow, maskHigh, status, unclaimed, runaway)
    }

    /** mv64340_irq_init masks everything, whatever the firmware left enabled. */
    constructor (status: set<nat>)
      ensures State() == Ctl({}, {}, status, {}, {})
    {
      maskLow, maskHigh := {}, {};
      this.status, unclaimed, runaway := status, {}, {};
    }

    method IrqMask(irq: nat)
      requires IRQ_BASE <= irq < IRQ_BASE + 64
      modifies this
      ensures State() == MaskBit(old(State()), irq - IRQ_BASE)
      ensures forall b :: 0 <= b < 64 ==>
                (Enabled(State(), b) <==> b != irq - 8 && Enabled(old(State()), b))
      ensures status == old(status) && unclaimed == old(unclaimed) && runaway == old(runaway)
    {
      var bit := irq - IRQ_BASE;
      if bit < 32 { maskLow := maskLow - {bit % 32}; } else { maskHigh := maskHigh - {bit % 32}; }
    }

    /** Undoes a mask exactly, and never touches another source. */
    method IrqUnmask(irq: nat)
      requires IRQ_BASE <= irq < IRQ_BASE + 64
      modifies this
      ensures forall b :: 0 <= b < 64 ==>
                (Enabled(State(), b) <==> b == irq - IRQ_BASE || Enabled(old(State()), b))
      ensures MaskBit(State(), irq - IRQ_BASE) == MaskBit(old(State()), irq - IRQ_BASE)
      ensures status == old(status) && unclaimed == old(unclaimed) && runaway == old(runaway)
    {
      var bit := irq - IRQ_BASE;
      if bit < 32 { maskLow := maskLow + {bit % 32}; } else { maskHigh := maskHigh + {bit % 32}; }
    }

    /** __ffs on a nonzero register. */
    method Ffs(w: Word) returns (b: nat)
      requires w != {}
      ensures b == Least(w)
    {
      b := 0;
      while b !in w
        invariant forall x :: x in w ==> b <= x
        invariant b <= 32
        decreases 32 - b
      {
        b := b + 1;
      }
    }

    /** The lowest enabled pending source, low cause register first. */
    method Pick(i: Input) returns (found: bool, bit: nat)
      ensures found <==> maskLow * i.low != {} || maskHigh * i.high != {}
      ensures found ==> bit == Source(State(), i) && bit < 64
    {
      var lo: Word := i.low * maskLow;
      var hi: Word := i.high * maskHigh;
      assert lo == maskLow * i.low && hi == maskHigh * i.high;
      if lo != {} {
        bit := Ffs(lo);
        return true, bit;
      } else if hi != {} {
        var h := Ffs(hi);
        return true, 32 + h;
      } else {
        return false, 0;
      }
    }

    /** mv64340_irq_dispatch: true if a source was handled or masked. */
    method MvDispatch(i: Input) returns (found: bool, o: Outcome)
      modifies this
      ensures found <==> old(maskLow * i.low != {} || maskHigh * i.high != {})
      ensures found ==> (State(), o) == Demux(old(State()), i)
      ensures !found ==> State() == old(State())
      ensures found ==> forall b: nat :: FirstDue(old(State()), i, b) ==>
                if b in i.claimed then o == Handler(8 + b) && State() == old(State())
                else o == Masked(b) && MaskedOnly(old(State()), State(), b)
    {
      hide Source;
      hide Least;
      hide FirstDue;
      hide MaskedOnly;
      DemuxExactly(State(), i);
      o := Spurious;
      var bit;
      found, bit := Pick(i);
      if !found {
        return;
      }
      if bit !in i.claimed {
        if bit < 32 { maskLow := maskLow - {bit % 32}; } else { maskHigh := maskHigh - {bit % 32}; }
        unclaimed := unclaimed + {bit};
        o := Masked(bit);
      } else {
        o := Handler(IRQ_BASE + bit);
      }
    }

    /** mv64340_cascade_runaway: mask every asserted cascade line. */
    method CascadeRunaway(pending: set<nat>)
      modifies this
      ensures status == old(status) - pending * CASCADE
      ensures runaway == old(runaway) + pending * CASCADE
      ensures maskLow == old(maskLow) && maskHigh == old(maskHigh) && unclaimed == old(unclaimed)
    {
      for ip := 2 to 7
        invariant status == old(status) - (set l | l in pending * CASCADE && l < ip)
        invariant runaway == old(runaway) + (set l | l in pending * CASCADE && l < ip)
        invariant maskLow == old(maskLow) && maskHigh == old(maskHigh) && unclaimed == old(unclaimed)
      {
        if ip in pending {
          status := status - {ip};
          runaway := runaway + {ip};
        }
      }
    }

    /** plat_irq_dispatch. */
    method PlatIrqDispatch(i: Input) returns (o: Outcome)
      modifies this
      ensures (State(), o) == Dispatch(old(State()), i)
    {
      var pending := status * i.lines;
      if 7 in pending {
        return Timer;
      }
      if pending * {6, 5, 4, 3, 2} != {} {
        var found, r := MvDispatch(i);
        if found {
          return r;
        }
        CascadeRunaway(pending);
        return LinesOff(pending * CASCADE);
      }
      return Spurious;
    }
  }
}
