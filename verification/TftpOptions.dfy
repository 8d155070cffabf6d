/**
 The read request: file name, mode and options, each ended by a NUL (RFC 1350
 section 5, RFC 2347), and the block size that comes out of the negotiation (RFC 2348).
 */
module TftpOptions {
  import opened Bytes

  type Text = seq<Byte>

  ghost predicate NulFree(t: Text) { forall i :: 0 <= i < |t| ==> t[i] != 0 }

  // ----- fields -------------------------------------------------------------------

  /** payload.split(NUL) */
  function Split(s: Text): (parts: seq<Text>)
    ensures |parts| >= 1
  {
    if s == [] then [[]]
    else
      var rest := Split(s[1..]);
      if s[0] == 0 then [[]] + rest else [[s[0]] + rest[0]] + rest[1..]
  }

  /** Fields on the wire, each followed by its NUL. */
  function Fields(fields: seq<Text>): Text {
    if fields == [] then [] else fields[0] + [0] + Fields(fields[1..])
  }

  lemma {:induction false} SplitField(f: Text, rest: Text)
    requires NulFree(f)
    ensures Split(f + [0] + rest) == [f] + Split(rest)
    decreases |f|
  {
    var s := f + [0] + rest;
    if f == [] {
      assert s[1..] == rest;
    } else {
      SplitField(f[1..], rest);
      assert s[1..] == f[1..] + [0] + rest && s[0] == f[0];
      assert [f[0]] + f[1..] == f;
      assert Split(s) == [f] + Split(rest);
    }
  }

  lemma {:induction false} SplitFields(fields: seq<Text>)
    requires forall i :: 0 <= i < |fields| ==> NulFree(fields[i])
    ensures Split(Fields(fields)) == fields + [[]]
  {
    if fields != [] {
      SplitFields(fields[1..]);
      SplitField(fields[0], Fields(fields[1..]));
      assert fields == [fields[0]] + fields[1..];
    }
  }

  // ----- lower case -----------------------------------------------------------------

  /** str.lower on one Latin-1 character. */
  function LowerByte(b: Byte): Byte {
    if 0x41 <= b <= 0x5A || (0xC0 <= b <= 0xDE && b != 0xD7) then b + 0x20 else b
  }

  /** Capital letters, with or without an accent, become the small ones; no other character changes. */
  lemma LowerLetters(b: Byte)
    ensures 'A' as int <= b <= 'Z' as int ==> LowerByte(b) == b - 'A' as int + 'a' as int
    ensures 0xC0 <= b <= 0xDE && b != 0xD7 ==> LowerByte(b) == b - 0xC0 + 0xE0
    ensures !('A' as int <= b <= 'Z' as int) && !(0xC0 <= b <= 0xDE && b != 0xD7) ==> LowerByte(b) == b
    ensures LowerByte(LowerByte(b)) == LowerByte(b)
  {
  }

  function Lower(t: Text): Text { seq(|t|, i requires 0 <= i < |t| => LowerByte(t[i])) }

  // ----- the request --------------------------------------------------------------------

  type Options = map<Text, Text>

  datatype Request = Request(name: Text, mode: Text, options: Options)

  datatype Setting = Setting(name: Text, value: Text)

  /** The settings taken from `rest`, two fields each, an odd one out ignored; a later one wins. */
  function Pairs(rest: seq<Text>): Options {
    if |rest| < 2 then map[]
    else if |rest| % 2 == 1 then Pairs(rest[..|rest| - 1])
    else Pairs(rest[..|rest| - 2])[Lower(rest[|rest| - 2]) := rest[|rest| - 1]]
  }

  lemma NoPairs(rest: seq<Text>)
    requires rest == []
    ensures Pairs(rest) == map[]
  {
  }

  lemma OddField(rest: seq<Text>)
    requires |rest| % 2 == 1
    ensures Pairs(rest) == Pairs(rest[..|rest| - 1])
  {
  }

  lemma NextPair(rest: seq<Text>)
    requires |rest| >= 2 && |rest| % 2 == 0
    ensures Pairs(rest) == Pairs(rest[..|rest| - 2])[Lower(rest[|rest| - 2]) := rest[|rest| - 1]]
  {
  }

  /** The fields of a packet without the empty string after the last NUL. */
  function Parts(payload: Text): seq<Text> {
    var parts := Split(payload);
    if parts[|parts| - 1] == [] then parts[..|parts| - 1] else parts
  }

  const OCTET: Text := [0x6F, 0x63, 0x74, 0x65, 0x74]

  function Parsed(payload: Text): Request {
    var parts := Parts(payload);
    Request(if |parts| > 0 then parts[0] else [],
            if |parts| > 1 then Lower(parts[1]) else OCTET,
            if |parts| > 2 then Pairs(parts[2..]) else map[])
  }

  /** parse_opts */
  method ParseOpts(payload: Text) returns (name: Text, mode: Text, options: Options)
    ensures Request(name, mode, options) == Parsed(payload)
  {
    hide Split;
    hide Pairs;
    hide Lower;
    var parts := Parts(payload);
    name := if |parts| > 0 then parts[0] else [];
    mode := if |parts| > 1 then Lower(parts[1]) else OCTET;
    options := map[];
    var rest := if |parts| > 2 then parts[2..] else [];
    var i := 0;
    NoPairs(rest[..0]);
    NoPairs([]);
    while i < |rest| - 1
      invariant 0 <= i <= |rest| && i % 2 == 0
      invariant options == Pairs(rest[..i])
    {
      options := options[Lower(rest[i]) := rest[i + 1]];
      NextPair(rest[..i + 2]);
      assert rest[..i + 2][..i] == rest[..i];
      i := i + 2;
    }
    if i < |rest| {
      OddField(rest);
      assert rest[..|rest| - 1] == rest[..i];
    } else {
      assert rest[..i] == rest;
    }
  }

  // ----- round trip ------------------------------------------------------------------------

  function SettingFields(settings: seq<Setting>): seq<Text> {
    if settings == [] then []
    else SettingFields(settings[..|settings| - 1]) + [settings[|settings| - 1].name, settings[|settings| - 1].value]
  }

  /** A client's request packet after the opcode. */
  function Packed(name: Text, mode: Text, settings: seq<Setting>): Text {
    Fields([name, mode] + SettingFields(settings))
  }

  ghost predicate Clean(settings: seq<Setting>) {
    forall i :: 0 <= i < |settings| ==> NulFree(settings[i].name) && NulFree(settings[i].value)
  }

  /** What a client's settings mean: names without case, the last of equal names counting. */
  ghost predicate Means(settings: seq<Setting>, options: Options) {
    && (forall i :: 0 <= i < |settings| ==> Lower(settings[i].name) in options)
    && (forall n :: n in options ==> exists i :: LastNamed(settings, i, n) && options[n] == settings[i].value)
  }

  ghost predicate LastNamed(settings: seq<Setting>, i: int, name: Text) {
    && 0 <= i < |settings| && Lower(settings[i].name) == name
    && forall j :: i < j < |settings| ==> Lower(settings[j].name) != name
  }

  lemma {:induction false} FieldsClean(settings: seq<Setting>)
    requires Clean(settings)
    ensures |SettingFields(settings)| == 2 * |settings|
    ensures forall i :: 0 <= i < |SettingFields(settings)| ==> NulFree(SettingFields(settings)[i])
  {
    if settings != [] {
      FieldsClean(settings[..|settings| - 1]);
    }
  }

  lemma {:induction false} PairsMean(settings: seq<Setting>)
    ensures |SettingFields(settings)| == 2 * |settings|
    ensures Means(settings, Pairs(SettingFields(settings)))
  {
    hide Pairs;
    hide Means;
    hide Lower;
    if settings == [] {
      NoSettings(settings);
      NoPairs(SettingFields(settings));
    } else {
      var n := |settings| - 1;
      var early, last := settings[..n], settings[n];
      PairsMean(early);
      var fields := SettingFields(settings);
      assert fields[..|fields| - 2] == SettingFields(early);
      NextPair(fields);
      AddSetting(early, last, Pairs(SettingFields(early)));
      assert early + [last] == settings;
    }
  }

  lemma AddSetting(early: seq<Setting>, last: Setting, options: Options)
    requires Means(early, options)
    ensures Means(early + [last], options[Lower(last.name) := last.value])
  {
    hide Lower;
    var all, more := early + [last], options[Lower(last.name) := last.value];
    forall i | 0 <= i < |all|
      ensures Lower(all[i].name) in more
    {
      if i < |early| {
        assert all[i] == early[i];
      }
    }
    forall n | n in more
      ensures exists i :: LastNamed(all, i, n) && more[n] == all[i].value
    {
      if n == Lower(last.name) {
        assert LastNamed(all, |early|, n);
      } else {
        var i :| LastNamed(early, i, n) && options[n] == early[i].value;
        assert LastNamed(all, i, n);
      }
    }
  }

  /** Parsing gives back what a client packed, for any NUL-free fields, empty ones included. */
  lemma ParseUndoesPack(name: Text, mode: Text, settings: seq<Setting>)
    requires NulFree(name) && NulFree(mode) && Clean(settings)
    ensures var r := Parsed(Packed(name, mode, settings));
            r.name == name && r.mode == Lower(mode) && Means(settings, r.options)
  {
    hide Split;
    hide Fields;
    hide Pairs;
    hide Lower;
    hide SettingFields;
    FieldsClean(settings);
    var fields := [name, mode] + SettingFields(settings);
    SplitFields(fields);
    assert (fields + [[]])[..|fields|] == fields;
    assert Parts(Packed(name, mode, settings)) == fields;
    assert fields[2..] == SettingFields(settings);
    PairsMean(settings);
    if settings == [] {
      assert fields[2..] == [];
      NoSettings(settings);
    }
  }

  lemma NoSettings(settings: seq<Setting>)
    requires settings == []
    ensures Means(settings, map[])
  {
  }

  /** A request without a mode is for octets, and a last option without a value is no option. */
  lemma ShortRequests(name: Text, mode: Text, settings: seq<Setting>, odd: Text)
    requires NulFree(name) && NulFree(mode) && NulFree(odd) && Clean(settings)
    ensures Parsed([]) == Request([], [0x6F, 0x63, 0x74, 0x65, 0x74], map[])
    ensures Parsed(Fields([name])) == Request(name, [0x6F, 0x63, 0x74, 0x65, 0x74], map[])
    ensures Parsed(Fields([name, mode] + SettingFields(settings) + [odd])) == Parsed(Packed(name, mode, settings))
  {
    hide Split;
    hide Fields;
    hide Pairs;
    hide Lower;
    hide SettingFields;
    EmptySplits();
    SplitFields([name]);
    assert ([name] + [[]])[..1] == [name];
    FieldsClean(settings);
    var fields := [name, mode] + SettingFields(settings);
    var longer := fields + [odd];
    SplitFields(fields);
    SplitFields(longer);
    assert (fields + [[]])[..|fields|] == fields && (longer + [[]])[..|longer|] == longer;
    assert fields[2..] == SettingFields(settings) && longer[2..] == SettingFields(settings) + [odd];
    OddField(longer[2..]);
    assert longer[2..][..|longer| - 3] == SettingFields(settings);
    if settings == [] {
      NoPairs(SettingFields(settings));
    }
  }

  lemma EmptySplits()
    ensures Split([]) == [[]]
  {
  }

  // ----- block size ---------------------------------------------------------------------------

  const SMALLEST := 8

  /**
   max(8, min(max_blksize, requested)): the largest size that suits both, but never
   below eight.  RFC 2348 lets a server answer with at most the size asked for; that
   holds exactly for requests of at least eight.
   */
  function BlockSize(cap: int, requested: int): (bs: int)
    ensures bs >= SMALLEST
    ensures bs <= requested <==> requested >= SMALLEST
    ensures bs <= cap <==> cap >= SMALLEST
    ensures cap >= 8 && requested >= 8 ==> bs == if cap < requested then cap else requested
    ensures cap < 8 || requested < 8 ==> bs == 8
  {
    var least := if cap < requested then cap else requested;
    if least > SMALLEST then least else SMALLEST
  }
}
