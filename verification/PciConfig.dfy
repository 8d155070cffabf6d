/**
 PCI configuration access through the bridge's address/data pair: both registers
 are little-endian behind a big-endian CPU, and the data register only moves whole
 words. Sized accesses are shown to be plain byte-addressed reads and writes.
 */
module PciConfig {

  type Byte32 = x: bv32 | x < 0x100 witness 0

  datatype Size = One | Two | Four

  /** The address bits an access of this size does not look at are zero in its mask. */
  function Mask(size: Size): bv32 {
    match size case One => 0xff case Two => 0xfe case Four => 0xfc
  }

  function Swab(x: bv32): bv32 {
    (x << 24) | ((x & 0xff00) << 8) | ((x >> 8) & 0xff00) | (x >> 24)
  }

  lemma SwabTwice(x: bv32)
    ensures Swab(Swab(x)) == x
  {
  }

  /** A byte swap reverses the lanes. */
  lemma SwabReverses(x: bv32)
    ensures Lane(Swab(x), 0) == Lane(x, 3) && Lane(Swab(x), 1) == Lane(x, 2)
    ensures Lane(Swab(x), 2) == Lane(x, 1) && Lane(Swab(x), 3) == Lane(x, 0)
  {
  }

  /** The lanes are the word's bytes, lowest first. */
  lemma LanesMakeWord(x: bv32)
    ensures x == Lane(x, 0) | (Lane(x, 1) << 8) | (Lane(x, 2) << 16) | (Lane(x, 3) << 24)
  {
  }

  /** Byte `k mod 4` of a word, lowest first. */
  function Lane(word: bv32, k: bv32): Byte32 {
    var j := k & 3;
    if j == 0 then word & 0xff
    else if j == 1 then (word >> 8) & 0xff
    else if j == 2 then (word >> 16) & 0xff
    else (word >> 24) & 0xff
  }

  // ----- the bridge ------------------------------------------------------------------

  /** The address word of a register: enable bit, slot, function, register number. */
  function Key(devfn: Byte32, at: bv32): bv32 {
    0x8000_0000 | (((devfn >> 3) & 0x1f) << 11) | ((devfn & 7) << 8) | (at & 0xfc)
  }

  /** The address word gives back its device and its register word, and depends on nothing else. */
  lemma KeyFields(d: Byte32, a: bv32)
    ensures (Key(d, a) >> 8) & 0xff == d
    ensures Key(d, a) & 0xfc == a & 0xfc
    ensures Key(d, a) == Key(d, a & 0xfc)
  {
    FieldsOf(d, a & 0xfc);
    assert (a & 0xfc) & 0xfc == a & 0xfc;
  }

  /** Bit 31 enables the access; slot, function and register number stand at bits 11, 8 and 2, all else zero. */
  lemma KeyInBits(d: Byte32, at: bv32)
    ensures Key(d, at) & 0x8000_0000 != 0
    ensures (Key(d, at) >> 11) & 0x1f == d >> 3 && (Key(d, at) >> 8) & 7 == d & 7
    ensures (Key(d, at) >> 2) & 0x3f == (at >> 2) & 0x3f
    ensures Key(d, at) & 0x7fff_0003 == 0
  {
  }

  lemma FieldsOf(d: Byte32, r: bv32)
    requires r & 0xfc == r
    ensures (Key(d, r) >> 8) & 0xff == d
    ensures Key(d, r) & 0xfc == r
  {
  }

  /** Every register word has its own address, and bytes share one exactly when they share a word. */
  lemma KeyInjective(d: Byte32, a: bv32, e: Byte32, b: bv32)
    ensures Key(d, a) == Key(e, b) <==> d == e && a & 0xfc == b & 0xfc
  {
    hide Key;
    KeyFields(d, a);
    KeyFields(e, b);
  }

  /** Configuration words that some device answers for; anything else reads as all ones and ignores writes. */
  type Config = map<Addr, Cell>

  datatype Addr = Addr(bits: bv32)

  datatype Cell = Cell(word: bv32)

  function Word(cfg: Config, key: bv32): bv32 { if Addr(key) in cfg then cfg[Addr(key)].word else 0xffff_ffff }

  function Store(cfg: Config, key: bv32, word: bv32): Config {
    if Addr(key) in cfg then cfg[Addr(key) := Cell(word)] else cfg
  }

  lemma StoreWord(cfg: Config, key: bv32, word: bv32, k: bv32)
    ensures Word(Store(cfg, key, word), k) == if k == key && Addr(key) in cfg then word else Word(cfg, k)
  {
  }

  datatype Register = ConfigAddr | ConfigData

  // ----- the byte-addressed view --------------------------------------------------------

  /** The configuration byte at `at` of a device. */
  function Peek(cfg: Config, devfn: Byte32, at: Byte32): Byte32 { Lane(Word(cfg, Key(devfn, at)), at) }

  predicate Present(cfg: Config, devfn: Byte32, at: Byte32) { Addr(Key(devfn, at)) in cfg }

  /** Whether byte `at` belongs to an access of `size` at `place`. */
  predicate Covers(place: bv32, size: Size, at: Byte32) { Start(size, at) == Start(size, place) }

  function Start(size: Size, at: bv32): bv32 { at & Mask(size) }

  /** The byte of a written value that lands at `at`. */
  function Landing(val: bv32, size: Size, at: Byte32): Byte32 { Lane(val, Within(size, at)) }

  /** The place of byte `at` inside the access that covers it. */
  function Within(size: Size, at: bv32): bv32 { at & (3 & !Mask(size)) }

  /** The byte view of a configuration space, whatever its representation. */
  type Space = (Byte32, Byte32) -> Byte32

  function View(cfg: Config): Space { (d, a) => Peek(cfg, d, a) }

  /** A value read: the covered bytes, each in its lane, and zero above them. */
  ghost predicate IsValueOf(space: Space, devfn: Byte32, place: bv32, size: Size, val: bv32) {
    && (forall at: Byte32 :: Covers(place, size, at) ==> Landing(val, size, at) == space(devfn, at))
    && (size.One? ==> val < 0x100)
    && (size.Two? ==> val < 0x1_0000)
  }

  /** The byte a write leaves at `at` of device `d`. */
  function Wrote(cfg: Config, devfn: Byte32, place: bv32, size: Size, val: bv32, d: Byte32, at: Byte32, was: Byte32): Byte32 {
    if d == devfn && Covers(place, size, at) && Present(cfg, d, at) then Landing(val, size, at) else was
  }

  /** The bits at `shift` under `field` replaced by those of `val`. */
  function Insert(word: bv32, field: bv32, shift: bv32, val: bv32): bv32
    requires shift <= 24
  {
    (word & !(field << shift)) | ((val & field) << shift)
  }

  function Take(word: bv32, field: bv32, shift: bv32): bv32
    requires shift <= 24
  {
    (word >> shift) & field
  }

  /** The word a write of `size` leaves, by the driver's shifts and masks. */
  function Merge(word: bv32, place: bv32, size: Size, val: bv32): bv32 {
    match size
    case Four => val
    case One => Insert(word, 0xff, (place & 3) << 3, val)
    case Two => Insert(word, 0xffff, (place & 2) << 3, val)
  }

  /** The value a read of `size` takes out of a word. */
  function Extract(word: bv32, place: bv32, size: Size): bv32 {
    match size
    case Four => word
    case One => Take(word, 0xff, (place & 3) << 3)
    case Two => Take(word, 0xffff, (place & 2) << 3)
  }

  lemma Insert0(w: bv32, v: bv32)
    ensures var m := Insert(w, 0xff, 0, v);
            Lane(m, 0) == Lane(v, 0) && Lane(m, 1) == Lane(w, 1) && Lane(m, 2) == Lane(w, 2) && Lane(m, 3) == Lane(w, 3)
  {
  }

  lemma Insert1(w: bv32, v: bv32)
    ensures var m := Insert(w, 0xff, 8, v);
            Lane(m, 0) == Lane(w, 0) && Lane(m, 1) == Lane(v, 0) && Lane(m, 2) == Lane(w, 2) && Lane(m, 3) == Lane(w, 3)
  {
  }

  lemma Insert2(w: bv32, v: bv32)
    ensures var m := Insert(w, 0xff, 16, v);
            Lane(m, 0) == Lane(w, 0) && Lane(m, 1) == Lane(w, 1) && Lane(m, 2) == Lane(v, 0) && Lane(m, 3) == Lane(w, 3)
  {
  }

  lemma Insert3(w: bv32, v: bv32)
    ensures var m := Insert(w, 0xff, 24, v);
            Lane(m, 0) == Lane(w, 0) && Lane(m, 1) == Lane(w, 1) && Lane(m, 2) == Lane(w, 2) && Lane(m, 3) == Lane(v, 0)
  {
  }

  lemma InsertLow(w: bv32, v: bv32)
    ensures var m := Insert(w, 0xffff, 0, v);
            Lane(m, 0) == Lane(v, 0) && Lane(m, 1) == Lane(v, 1) && Lane(m, 2) == Lane(w, 2) && Lane(m, 3) == Lane(w, 3)
  {
  }

  lemma InsertHigh(w: bv32, v: bv32)
    ensures var m := Insert(w, 0xffff, 16, v);
            Lane(m, 0) == Lane(w, 0) && Lane(m, 1) == Lane(w, 1) && Lane(m, 2) == Lane(v, 0) && Lane(m, 3) == Lane(v, 1)
  {
  }

  /** A lane number and the shift it stands for. */
  lemma Lanes(place: bv32)
    ensures place & 3 == 0 ==> (place & 3) << 3 == 0 && (place & 2) << 3 == 0
    ensures place & 3 == 1 ==> (place & 3) << 3 == 8 && (place & 2) << 3 == 0
    ensures place & 3 == 2 ==> (place & 3) << 3 == 16 && (place & 2) << 3 == 16
    ensures place & 3 == 3 ==> (place & 3) << 3 == 24 && (place & 2) << 3 == 16
    ensures place & 3 == 0 || place & 3 == 1 || place & 3 == 2 || place & 3 == 3
  {
  }

  lemma LaneOf(word: bv32, k: bv32)
    ensures Lane(word, k) == Lane(word, k & 3)
  {
    assert (k & 3) & 3 == k & 3;
  }

  lemma CoversIs(place: bv32, size: Size, at: Byte32)
    requires at & 0xfc == place & 0xfc
    ensures Covers(place, size, at) <==>
            match size case Four => true case One => at & 3 == place & 3 case Two => at & 2 == place & 2
  {
  }

  lemma LandingIs(val: bv32, size: Size, at: Byte32)
    ensures Landing(val, size, at) ==
            match size case Four => Lane(val, at) case One => Lane(val, 0) case Two => Lane(val, at & 1)
  {
    match size
    case One => assert Within(One, at) == 0;
    case Two => assert Within(Two, at) == at & 1;
    case Four => assert Within(Four, at) == at & 3; LaneOf(val, at);
  }

  lemma MergeOne(word: bv32, place: bv32, val: bv32, k: bv32)
    requires k < 4
    ensures Lane(Merge(word, place, One, val), k) == if k == place & 3 then Lane(val, 0) else Lane(word, k)
  {
    hide Insert;
    hide Lane;
    Lanes(place);
    Insert0(word, val);
    Insert1(word, val);
    Insert2(word, val);
    Insert3(word, val);
    LaneNumber(k);
  }

  lemma MergeTwo(word: bv32, place: bv32, val: bv32, k: bv32)
    requires k < 4
    ensures Lane(Merge(word, place, Two, val), k) == if k & 2 == place & 2 then Lane(val, k & 1) else Lane(word, k)
  {
    hide Insert;
    hide Lane;
    Lanes(place);
    InsertLow(word, val);
    InsertHigh(word, val);
    LaneNumber(k);
    Halves(place);
  }

  lemma LaneNumber(k: bv32)
    requires k < 4
    ensures k == 0 || k == 1 || k == 2 || k == 3
  {
  }

  lemma Halves(place: bv32)
    ensures place & 2 == 0 <==> (place & 3 == 0 || place & 3 == 1)
    ensures place & 2 == 2 <==> (place & 3 == 2 || place & 3 == 3)
  {
  }

  /** Merging changes exactly the covered lanes. */
  lemma MergeLanes(word: bv32, place: bv32, size: Size, val: bv32, at: Byte32)
    requires at & 0xfc == place & 0xfc
    ensures Lane(Merge(word, place, size, val), at)
         == if Covers(place, size, at) then Landing(val, size, at) else Lane(word, at)
  {
    hide Lane;
    hide Covers;
    hide Landing;
    hide Mask;
    CoversIs(place, size, at);
    LandingIs(val, size, at);
    LaneOf(word, at);
    LaneOf(Merge(word, place, size, val), at);
    LowBits(at);
    match size
    case One => MergeOne(word, place, val, at & 3);
    case Two => MergeTwo(word, place, val, at & 3);
    case Four =>
  }

  lemma LowBits(at: bv32)
    ensures at & 3 < 4 && (at & 3) & 2 == at & 2 && (at & 3) & 1 == at & 1
  {
  }

  // ----- reading takes the covered lanes -----------------------------------------------------

  lemma TakeByte(w: bv32)
    ensures Lane(Take(w, 0xff, 0), 0) == Lane(w, 0) && Lane(Take(w, 0xff, 8), 0) == Lane(w, 1)
    ensures Lane(Take(w, 0xff, 16), 0) == Lane(w, 2) && Lane(Take(w, 0xff, 24), 0) == Lane(w, 3)
  {
  }

  lemma TakeHalf(w: bv32)
    ensures Lane(Take(w, 0xffff, 0), 0) == Lane(w, 0) && Lane(Take(w, 0xffff, 0), 1) == Lane(w, 1)
    ensures Lane(Take(w, 0xffff, 16), 0) == Lane(w, 2) && Lane(Take(w, 0xffff, 16), 1) == Lane(w, 3)
  {
  }

  lemma ExtractLane(word: bv32, place: bv32, size: Size, k: bv32)
    requires k < 4
    ensures size.One? && k == place & 3 ==> Lane(Extract(word, place, size), 0) == Lane(word, k)
    ensures size.Two? && k & 2 == place & 2 ==> Lane(Extract(word, place, size), k & 1) == Lane(word, k)
  {
    hide Lane;
    hide Take;
    Lanes(place);
    TakeByte(word);
    TakeHalf(word);
    LaneNumber(k);
    Halves(place);
  }

  lemma ExtractLanes(word: bv32, place: bv32, size: Size, at: Byte32)
    requires Covers(place, size, at)
    ensures at & 0xfc == place & 0xfc
    ensures Landing(Extract(word, place, size), size, at) == Lane(word, at)
  {
    CoveredWord(place, size, at);
    hide Lane;
    hide Landing;
    hide Covers;
    hide Extract;
    CoversIs(place, size, at);
    LandingIs(Extract(word, place, size), size, at);
    LaneOf(word, at);
    LowBits(at);
    ExtractLane(word, place, size, at & 3);
    ExtractAll(word, place);
  }

  lemma ExtractAll(word: bv32, place: bv32)
    ensures Extract(word, place, Four) == word
  {
  }

  lemma CoveredWord(place: bv32, size: Size, at: Byte32)
    requires Covers(place, size, at)
    ensures at & 0xfc == place & 0xfc
  {
  }

  lemma ExtractFits(word: bv32, place: bv32)
    ensures Extract(word, place, One) < 0x100 && Extract(word, place, Two) < 0x1_0000
  {
  }

  // ----- the driver --------------------------------------------------------------------------------

  datatype Status = Successful | DeviceNotFound

  class Bridge {
    var latch: bv32
    var cfg: Config

    constructor (c: Config, left: bv32)
      ensures cfg == c && latch == left
    {
      cfg, latch := c, left;
    }

    /** A big-endian store to a little-endian register. */
    method RawWrite(reg: Register, raw: bv32)
      modifies this
      ensures reg.ConfigAddr? ==> latch == Swab(raw) && cfg == old(cfg)
      ensures reg.ConfigData? ==> latch == old(latch) && cfg == Store(old(cfg), latch, Swab(raw))
    {
      match reg
      case ConfigAddr => latch := Swab(raw);
      case ConfigData => cfg := Store(cfg, latch, Swab(raw));
    }

    method RawRead(reg: Register) returns (raw: bv32)
      ensures raw == Swab(if reg.ConfigAddr? then latch else Word(cfg, latch))
    {
      match reg
      case ConfigAddr => raw := Swab(latch);
      case ConfigData => raw := Swab(Word(cfg, latch));
    }

    method MvRead(reg: Register) returns (val: bv32)
      ensures val == if reg.ConfigAddr? then latch else Word(cfg, latch)
    {
      var raw := RawRead(reg);
      val := Swab(raw);
      SwabTwice(if reg.ConfigAddr? then latch else Word(cfg, latch));
    }

    method MvWrite(reg: Register, val: bv32)
      modifies this
      ensures reg.ConfigAddr? ==> latch == val && cfg == old(cfg)
      ensures reg.ConfigData? ==> latch == old(latch) && cfg == Store(old(cfg), latch, val)
    {
      SwabTwice(val);
      RawWrite(reg, Swab(val));
    }

    method PciAddr(bus: nat, devfn: Byte32, place: bv32) returns (ok: bool)
      modifies this
      ensures ok == (bus == 0) && cfg == old(cfg)
      ensures latch == if ok then Key(devfn, place) else old(latch)
    {
      if bus != 0 {
        return false;
      }
      MvWrite(ConfigAddr, 0x8000_0000 | (((devfn >> 3) & 0x1f) << 11) | ((devfn & 7) << 8) | (place & 0xfc));
      return true;
    }

    /** The read returns the covered bytes; an unreachable bus answers all ones and touches nothing. */
    method PciRead(bus: nat, devfn: Byte32, place: bv32, size: Size) returns (status: Status, val: bv32)
      modifies this
      ensures cfg == old(cfg)
      ensures bus != 0 ==> status == DeviceNotFound && val == 0xffff_ffff && latch == old(latch)
      ensures bus == 0 ==> status == Successful && IsValueOf(View(cfg), devfn, place, size, val)
    {
      hide Key;
      hide Take;
      var ok := PciAddr(bus, devfn, place);
      if !ok {
        return DeviceNotFound, 0xffff_ffff;
      }
      var _ := MvRead(ConfigAddr);
      var data := MvRead(ConfigData);
      match size {
        case One => val := Take(data, 0xff, (place & 3) << 3);
        case Two => val := Take(data, 0xffff, (place & 2) << 3);
        case Four => val := data;
      }
      ReadIsValue(cfg, devfn, place, size);
      status := Successful;
    }

    /** The write changes exactly the covered bytes that some device answers for. */
    method PciWrite(bus: nat, devfn: Byte32, place: bv32, size: Size, val: bv32) returns (status: Status)
      modifies this
      ensures cfg.Keys == old(cfg.Keys)
      ensures bus != 0 ==> status == DeviceNotFound && cfg == old(cfg) && latch == old(latch)
      ensures bus == 0 ==> status == Successful &&
                           forall d: Byte32, at: Byte32 ::
                             Peek(cfg, d, at) == Wrote(old(cfg), devfn, place, size, val, d, at, Peek(old(cfg), d, at))
    {
      hide Key;
      hide Wrote;
      hide Peek;
      hide Insert;
      var ok := PciAddr(bus, devfn, place);
      if !ok {
        return DeviceNotFound;
      }
      var _ := MvRead(ConfigAddr);
      var data;
      if size == Four {
        data := val;
      } else {
        data := MvRead(ConfigData);
        match size {
          case One => data := Insert(data, 0xff, (place & 3) << 3, val);
          case Two => data := Insert(data, 0xffff, (place & 2) << 3, val);
        }
        var _ := PciAddr(bus, devfn, place);
        var _ := MvRead(ConfigAddr);
      }
      MvWrite(ConfigData, data);
      WriteIsExact(old(cfg), devfn, place, size, val);
      status := Successful;
    }
  }

  // ----- any run of accesses ------------------------------------------------------------------

  datatype Access =
    | Read(bus: nat, devfn: Byte32, place: bv32, size: Size)
    | Write(bus: nat, devfn: Byte32, place: bv32, size: Size, val: bv32)

  /** The latest value written to a byte, or what it held at first. */
  function Latest(cfg: Config, ops: seq<Access>, d: Byte32, at: Byte32): Byte32 {
    if ops == [] then Peek(cfg, d, at)
    else
      var was := Latest(cfg, ops[..|ops| - 1], d, at);
      match ops[|ops| - 1]
      case Read(_, _, _, _) => was
      case Write(bus, devfn, place, size, val) =>
        if bus == 0 then Wrote(cfg, devfn, place, size, val, d, at, was) else was
  }

  function LatestView(cfg: Config, ops: seq<Access>): Space { (d, a) => Latest(cfg, ops, d, a) }

  lemma ReadIsValue(cfg: Config, devfn: Byte32, place: bv32, size: Size)
    ensures IsValueOf(View(cfg), devfn, place, size, Extract(Word(cfg, Key(devfn, place)), place, size))
  {
    var word := Word(cfg, Key(devfn, place));
    hide Key;
    hide Extract;
    hide Covers;
    hide Landing;
    hide Lane;
    ExtractFits(word, place);
    forall at: Byte32 | Covers(place, size, at)
      ensures Landing(Extract(word, place, size), size, at) == Peek(cfg, devfn, at)
    {
      ExtractLanes(word, place, size, at);
      KeyInjective(devfn, place, devfn, at);
    }
  }

  /** The configuration after the driver's read-merge-write. */
  function Written(cfg: Config, devfn: Byte32, place: bv32, size: Size, val: bv32): Config {
    var key := Key(devfn, place);
    Store(cfg, key, Merge(Word(cfg, key), place, size, val))
  }

  lemma WriteByte(cfg: Config, devfn: Byte32, place: bv32, size: Size, val: bv32, d: Byte32, at: Byte32)
    ensures Peek(Written(cfg, devfn, place, size, val), d, at)
         == Wrote(cfg, devfn, place, size, val, d, at, Peek(cfg, d, at))
  {
    hide Key;
    hide Merge;
    hide Covers;
    hide Landing;
    hide Lane;
    hide Store;
    hide Word;
    var key := Key(devfn, place);
    var merged := Merge(Word(cfg, key), place, size, val);
    KeyInjective(devfn, place, d, at);
    StoreWord(cfg, key, merged, Key(d, at));
    if Key(d, at) == key {
      MergeLanes(Word(cfg, key), place, size, val, at);
    } else if Covers(place, size, at) {
      CoveredWord(place, size, at);
    }
  }

  lemma WriteIsExact(cfg: Config, devfn: Byte32, place: bv32, size: Size, val: bv32)
    ensures forall d: Byte32, at: Byte32 ::
              Peek(Written(cfg, devfn, place, size, val), d, at)
              == Wrote(cfg, devfn, place, size, val, d, at, Peek(cfg, d, at))
  {
    hide Peek;
    hide Wrote;
    hide Written;
    forall d: Byte32, at: Byte32
      ensures Peek(Written(cfg, devfn, place, size, val), d, at)
           == Wrote(cfg, devfn, place, size, val, d, at, Peek(cfg, d, at))
    {
      WriteByte(cfg, devfn, place, size, val, d, at);
    }
  }

  /** Presence is a matter of which words answer, which no access changes. */
  lemma SameKeysSameWrote(c: Config, e: Config, devfn: Byte32, place: bv32, size: Size, val: bv32, d: Byte32, at: Byte32, was: Byte32)
    requires c.Keys == e.Keys
    ensures Wrote(c, devfn, place, size, val, d, at, was) == Wrote(e, devfn, place, size, val, d, at, was)
  {
    hide Key;
    hide Covers;
    hide Landing;
    assert Addr(Key(d, at)) in c.Keys <==> Addr(Key(d, at)) in e.Keys;
  }

  /** The covered bytes and the zeros above them pin a value down. */
  lemma ValueUnique(space: Space, devfn: Byte32, place: bv32, size: Size, v: bv32, w: bv32)
    requires IsValueOf(space, devfn, place, size, v) && IsValueOf(space, devfn, place, size, w)
    ensures v == w
  {
    hide Lane;
    forall k: bv32 | k < 4
      ensures LaneMatters(size, k) ==> Lane(v, k) == Lane(w, k)
    {
      if LaneMatters(size, k) {
        var at: Byte32 := ByteAt(place, size, k);
        LandingAt(place, size, k, v);
        LandingAt(place, size, k, w);
      }
    }
    SameLanes(size, v, w);
  }

  predicate LaneMatters(size: Size, k: bv32) {
    match size case One => k == 0 case Two => k < 2 case Four => k < 4
  }

  function ByteAt(place: bv32, size: Size, k: bv32): Byte32
    requires k < 4
  {
    Start(size, place) | k
  }

  lemma LandingAt(place: bv32, size: Size, k: bv32, v: bv32)
    requires k < 4 && LaneMatters(size, k)
    ensures Covers(place, size, ByteAt(place, size, k))
    ensures Landing(v, size, ByteAt(place, size, k)) == Lane(v, k)
  {
    hide Lane;
    hide Start;
    hide Within;
    hide ByteAt;
    match size
    case One => WithinByte(place);
    case Two => WithinHalf(place, k);
    case Four => WithinWord(place, k);
  }

  predicate Splits(place: bv32, size: Size, k: bv32)
    requires k < 4
  {
    var at := ByteAt(place, size, k);
    Start(size, at) == Start(size, place) && Within(size, at) == k
  }

  lemma WithinByte(p: bv32)
    ensures Splits(p, One, 0)
  {
  }

  lemma WithinHalf(p: bv32, k: bv32)
    requires k < 2
    ensures Splits(p, Two, k)
  {
  }

  lemma WithinWord(p: bv32, k: bv32)
    requires k < 4
    ensures Splits(p, Four, k)
  {
  }

  lemma SameLanes(size: Size, v: bv32, w: bv32)
    requires size.One? ==> v < 0x100 && w < 0x100
    requires size.Two? ==> v < 0x1_0000 && w < 0x1_0000
    requires Lane(v, 0) == Lane(w, 0)
    requires !size.One? ==> Lane(v, 1) == Lane(w, 1)
    requires size.Four? ==> Lane(v, 2) == Lane(w, 2) && Lane(v, 3) == Lane(w, 3)
    ensures v == w
  {
  }

  /**
   Over any sequence of accesses, on any bus, a read returns the latest value of each
   byte it covers and the space ends with the latest value of every byte.
   */
  method Replay(b: Bridge, ops: seq<Access>) returns (results: seq<(Status, bv32)>)
    modifies b
    ensures |results| == |ops| && b.cfg.Keys == old(b.cfg.Keys)
    ensures forall d: Byte32, at: Byte32 :: Peek(b.cfg, d, at) == Latest(old(b.cfg), ops, d, at)
    ensures forall i :: 0 <= i < |ops| ==> Answers(old(b.cfg), ops[..i], ops[i], results[i])
    decreases |ops|
  {
    hide Peek;
    hide Answers;
    if ops == [] {
      return [];
    }
    var rest, last := ops[..|ops| - 1], ops[|ops| - 1];
    ghost var first := b.cfg;
    var early := Replay(b, rest);
    var result := PlayOne(b, last, first, rest);
    results := early + [result];
    assert forall i :: 0 <= i < |rest| ==> rest[..i] == ops[..i];
    assert rest + [last] == ops;
  }

  method PlayOne(b: Bridge, op: Access, ghost first: Config, ghost rest: seq<Access>) returns (result: (Status, bv32))
    requires b.cfg.Keys == first.Keys
    requires forall d: Byte32, at: Byte32 :: Peek(b.cfg, d, at) == Latest(first, rest, d, at)
    modifies b
    ensures b.cfg.Keys == first.Keys
    ensures forall d: Byte32, at: Byte32 :: Peek(b.cfg, d, at) == Latest(first, rest + [op], d, at)
    ensures Answers(first, rest, op, result)
  {
    hide Peek;
    hide Covers;
    hide Landing;
    hide Wrote;
    assert (rest + [op])[..|rest|] == rest;
    match op {
      case Read(bus, devfn, place, size) =>
        var status, val := b.PciRead(bus, devfn, place, size);
        result := (status, val);
      case Write(bus, devfn, place, size, val) =>
        ghost var was := b.cfg;
        var status := b.PciWrite(bus, devfn, place, size, val);
        forall d: Byte32, at: Byte32
          ensures Peek(b.cfg, d, at) == Latest(first, rest + [op], d, at)
        {
          SameKeysSameWrote(was, first, devfn, place, size, val, d, at, Peek(was, d, at));
        }
        result := (status, 0);
    }
  }

  /** What an access answers after `ops`. */
  ghost predicate Answers(cfg: Config, ops: seq<Access>, op: Access, result: (Status, bv32)) {
    && (result.0 == if op.bus == 0 then Successful else DeviceNotFound)
    && (op.Read? ==> if op.bus == 0 then IsValueOf(LatestView(cfg, ops), op.devfn, op.place, op.size, result.1)
                     else result.1 == 0xffff_ffff)
  }

  // ----- a write read back ----------------------------------------------------------------------

  /** Naturally aligned, an access covers as many bytes as its size from its place on, each in its own lane. */
  lemma CoversExactly(place: Byte32, size: Size, at: Byte32, val: bv32)
    requires place & 3 & !Mask(size) == 0
    ensures size.One? ==> (Covers(place, size, at) <==> at == place)
    ensures size.Two? ==> (Covers(place, size, at) <==> at == place || at == place + 1)
    ensures size.Four? ==> (Covers(place, size, at) <==> at == place || at == place + 1 || at == place + 2 || at == place + 3)
    ensures Covers(place, size, at) ==> Within(size, at) == at - place
  {
  }

  function Truncated(size: Size, val: bv32): bv32 {
    match size case One => val & 0xff case Two => val & 0xffff case Four => val
  }

  lemma TruncatedLanes(size: Size, val: bv32, at: Byte32)
    ensures Landing(Truncated(size, val), size, at) == Landing(val, size, at)
    ensures size.One? ==> Truncated(size, val) < 0x100
    ensures size.Two? ==> Truncated(size, val) < 0x1_0000
  {
    LandingIs(val, size, at);
    LandingIs(Truncated(size, val), size, at);
    hide Lane;
    match size
    case One => ByteKept(val);
    case Two => HalfKept(val, at);
    case Four =>
  }

  lemma ByteKept(val: bv32)
    ensures Lane(val & 0xff, 0) == Lane(val, 0) && val & 0xff < 0x100
  {
  }

  lemma HalfKept(val: bv32, at: bv32)
    ensures Lane(val & 0xffff, at & 1) == Lane(val, at & 1) && val & 0xffff < 0x1_0000
  {
  }

  /** Reading back what was written, at the same place and size, gives the value cut to that size. */
  method ReadBack(b: Bridge, devfn: Byte32, place: bv32, size: Size, val: bv32) returns (got: bv32)
    requires Addr(Key(devfn, place)) in b.cfg
    modifies b
    ensures got == match size case One => val & 0xff case Two => val & 0xffff case Four => val
  {
    hide Key;
    hide Lane;
    ghost var was := b.cfg;
    var _ := b.PciWrite(0, devfn, place, size, val);
    var _, v := b.PciRead(0, devfn, place, size);
    got := v;
    hide Landing;
    hide Peek;
    forall at: Byte32 | Covers(place, size, at)
      ensures Landing(Truncated(size, val), size, at) == View(b.cfg)(devfn, at)
    {
      TruncatedLanes(size, val, at);
      CoveredWord(place, size, at);
      KeyInjective(devfn, place, devfn, at);
      assert Present(was, devfn, at);
    }
    TruncatedLanes(size, val, 0);
    hide Covers;
    hide Truncated;
    ValueUnique(View(b.cfg), devfn, place, size, got, Truncated(size, val));
    TruncatedIs(size, val);
  }

  lemma TruncatedIs(size: Size, val: bv32)
    ensures Truncated(size, val) == match size case One => val & 0xff case Two => val & 0xffff case Four => val
  {
  }
}
