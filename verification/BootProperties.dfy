/** System properties set at boot: what a list of them is, and the snapshot format. */
module BootPropertiesSpec {
  type Byte = x: int | 0 <= x < 256

  const MAX_NAME := 32
  const MAX_VALUE := 92
  const EQUALS: Byte := 61
  const EIO := 5
  const WORD := 0x1_0000_0000

  datatype Property = Property(name: seq<Byte>, value: seq<Byte>)

  /** What strchr finds in the list of rejected characters: space = $ * ? ' " and its NUL. */
  predicate Rejected(c: Byte) {
    c in {32, 61, 36, 42, 63, 39, 34, 0}
  }

  /** The answer to adding a property: 0, or why it cannot be added. */
  function Verdict(name: seq<Byte>, value: seq<Byte>): int {
    if |name| > MAX_NAME then -1
    else if |value| > MAX_VALUE then -2
    else if exists c | c in name :: Rejected(c) then -3
    else 0
  }

  predicate Fits(p: Property) {
    Verdict(p.name, p.value) == 0
  }

  predicate AllFit(ps: seq<Property>) {
    forall p | p in ps :: Fits(p)
  }

  /** A property as it is kept: "name=value" and a NUL. */
  function Text(p: Property): seq<Byte> {
    p.name + [EQUALS] + p.value + [0]
  }

  /** What strchr finds: the first `c` before the NUL. */
  function StrChr(s: seq<Byte>, c: Byte): (r: int)
    ensures -1 <= r < |s|
    ensures r >= 0 ==> s[r] == c && c !in s[..r] && 0 !in s[..r]
  {
    if s == [] then -1
    else if s[0] == c then 0
    else if s[0] == 0 then -1
    else
      var r := StrChr(s[1..], c);
      if r < 0 then -1
      else
        assert s[..r + 1] == [s[0]] + s[1..][..r];
        r + 1
  }

  lemma {:induction false} StrChrIs(s: seq<Byte>, c: Byte, n: nat)
    requires n < |s| && s[n] == c && c !in s[..n] && 0 !in s[..n]
    ensures StrChr(s, c) == n
  {
    if n > 0 {
      assert s[..n][0] == s[0] && s[..n] == [s[0]] + s[1..][..n - 1];
      StrChrIs(s[1..], c, n - 1);
    }
  }

  /** A name that was accepted holds no '=', so the text splits where name and value were joined. */
  lemma TextSplits(p: Property)
    requires Fits(p)
    ensures StrChr(Text(p), EQUALS) == |p.name|
  {
    var n := |p.name|;
    assert Text(p)[..n] == p.name;
    assert Rejected(EQUALS) && Rejected(0);
    StrChrIs(Text(p), EQUALS, n);
  }

  /** What an option "name=value", a C string, asks for: nothing, if it has no '='. */
  function Split(param: seq<Byte>): (r: seq<Property>)
    ensures |r| <= 1
  {
    var q := StrChr(param + [0], EQUALS);
    if q < 0 then [] else [Property(param[..q], param[q + 1..])]
  }

  /** An option made from a property that fits, even one with '=' in its value, asks for it. */
  lemma OptionRoundTrip(p: Property)
    requires Fits(p)
    ensures Split(p.name + [EQUALS] + p.value) == [p]
  {
    var param := p.name + [EQUALS] + p.value;
    assert param + [0] == Text(p);
    TextSplits(p);
    assert param[..|p.name|] == p.name && param[|p.name| + 1..] == p.value;
  }

  /** The characters that no name may contain, besides the NUL that ends this string. */
  const REJECT: string := " =$*?'\""

  /** Why a property cannot be added: the length of its name, then that of its value, then a character of its name. */
  lemma VerdictExactly(name: seq<Byte>, value: seq<Byte>)
    ensures Verdict(name, value) == -1 <==> |name| > 32
    ensures Verdict(name, value) == -2 <==> |name| <= 32 && |value| > 92
    ensures Verdict(name, value) == -3 <==> |name| <= 32 && |value| <= 92 && exists c | c in name :: c == 0 || c as char in REJECT
    ensures Verdict(name, value) == 0 <==> |name| <= 32 && |value| <= 92 && forall c | c in name :: c != 0 && c as char !in REJECT
  {
    forall c: Byte ensures Rejected(c) <==> c == 0 || c as char in REJECT {
      assert REJECT == [' ', '=', '$', '*', '?', '\'', '"'];
    }
  }

  /** An option asks for a property exactly if it is a name without '=' and NUL, '=', and a value. */
  lemma SplitExactly(param: seq<Byte>, p: Property)
    ensures Split(param) == [p] <==> param == p.name + [EQUALS] + p.value && EQUALS !in p.name && 0 !in p.name
    ensures Split(param) == [] <==> forall q: Property :: Split(param) != [q]
  {
    hide StrChr;
    if Split(param) != [] {
      SplitIs(param);
    }
    if param == p.name + [EQUALS] + p.value && EQUALS !in p.name && 0 !in p.name {
      SplitFinds(p);
    }
  }

  lemma SplitIs(param: seq<Byte>)
    requires Split(param) != []
    ensures var p := Split(param)[0];
      Split(param) == [p] && param == p.name + [EQUALS] + p.value && EQUALS !in p.name && 0 !in p.name
  {
    hide StrChr;
    var q := StrChr(param + [0], EQUALS);
    assert (param + [0])[..q] == param[..q];
    assert param == param[..q] + [EQUALS] + param[q + 1..];
  }

  lemma SplitFinds(p: Property)
    requires EQUALS !in p.name && 0 !in p.name
    ensures Split(p.name + [EQUALS] + p.value) == [p]
  {
    hide StrChr;
    var param := p.name + [EQUALS] + p.value;
    assert (param + [0])[..|p.name|] == p.name;
    StrChrIs(param + [0], EQUALS, |p.name|);
    assert param[..|p.name|] == p.name && param[|p.name| + 1..] == p.value;
  }

  // ----- the snapshot -----------------------------------------------------------------------

  function Put32(n: nat): (r: seq<Byte>)
    requires n < WORD
    ensures |r| == 4
  {
    var high := n / 0x1_0000;
    var low := n % 0x1_0000;
    [high / 0x100, high % 0x100, low / 0x100, low % 0x100]
  }

  function Get32(s: seq<Byte>): (n: nat)
    requires |s| >= 4
    ensures n < WORD
  {
    var a: int, b: int, c: int, d: int := s[0], s[1], s[2], s[3];
    (a * 0x100 + b) * 0x1_0000 + (c * 0x100 + d)
  }

  lemma Word32(n: nat, rest: seq<Byte>)
    requires n < WORD
    ensures Get32(Put32(n) + rest) == n && (Put32(n) + rest)[4..] == rest
  {
    var s := Put32(n) + rest;
    assert s[..4] == Put32(n);
    var high, low := n / 0x1_0000, n % 0x1_0000;
    var a: int, b: int, c: int, d: int := s[0], s[1], s[2], s[3];
    assert a * 0x100 + b == high && c * 0x100 + d == low;
  }

  function EncodeOne(p: Property): seq<Byte>
    requires Fits(p)
  {
    Put32(|p.name| + 1) + (p.name + [0]) + Put32(|p.value| + 1) + (p.value + [0])
  }

  lemma EncodeOneIs(s: seq<Byte>, p: Property)
    requires Fits(p)
    ensures s + EncodeOne(p) == s + Put32(|p.name| + 1) + (p.name + [0]) + Put32(|p.value| + 1) + (p.value + [0])
  {
  }

  function EncodeList(ps: seq<Property>): seq<Byte>
    requires AllFit(ps)
  {
    if ps == [] then [] else EncodeOne(ps[0]) + EncodeList(ps[1..])
  }

  /** A count kept in 32 bits. */
  function Wrap(n: nat): (r: nat)
    ensures r < WORD
  {
    n % WORD
  }

  lemma WrapMore(n: nat)
    ensures Wrap(0) == 0 && Wrap(Wrap(n) + 1) == Wrap(n + 1)
  {
  }

  /** A whole snapshot. */
  function Encode(ps: seq<Property>): seq<Byte>
    requires AllFit(ps)
  {
    Put32(Wrap(|ps|)) + EncodeList(ps)
  }

  /**
   What a step of loading comes to.  A stream that ends within a length, and a length of 0, which
   leaves no room for the NUL, have no defined meaning.
   */
  datatype Loaded = Loaded(ret: int, ps: seq<Property>, rest: seq<Byte>) | Undefined

  /** A string with its length, and what is left of the stream; a short one is consumed all the same. */
  datatype Field = Field(bytes: seq<Byte>, rest: seq<Byte>) | Short(rest: seq<Byte>) | NoField

  function DecodeField(s: seq<Byte>): Field {
    if |s| < 4 then NoField
    else
      var n, s := Get32(s), s[4..];
      if |s| < n then Short([])
      else if n == 0 then NoField
      else Field(s[..n - 1], s[n..])
  }

  /** One property is loaded at the end of the list. */
  function DecodeOne(s: seq<Byte>, ps: seq<Property>): Loaded {
    match DecodeField(s)
    case NoField => Undefined
    case Short(rest) => Loaded(-EIO, ps, rest)
    case Field(name, s) =>
      match DecodeField(s)
      case NoField => Undefined
      case Short(rest) => Loaded(-EIO, ps, rest)
      case Field(value, s) =>
        if Verdict(name, value) == 0 then Loaded(0, ps + [Property(name, value)], s)
        else Loaded(-EIO, ps, s)
  }

  function DecodeList(n: nat, s: seq<Byte>, ps: seq<Property>): Loaded {
    if n == 0 then Loaded(0, ps, s)
    else
      match DecodeOne(s, ps)
      case Undefined => Undefined
      case Loaded(ret, ps, s) => if ret != 0 then Loaded(ret, ps, s) else DecodeList(n - 1, s, ps)
  }

  /** A snapshot replaces the list. */
  function Decode(s: seq<Byte>): Loaded {
    if |s| < 4 then Undefined else DecodeList(Get32(s), s[4..], [])
  }

  lemma FieldRoundTrip(bytes: seq<Byte>, rest: seq<Byte>)
    requires |bytes| < WORD - 1
    ensures DecodeField(Put32(|bytes| + 1) + (bytes + [0]) + rest) == Field(bytes, rest)
  {
    var n := |bytes| + 1;
    var tail := bytes + [0] + rest;
    assert Put32(n) + (bytes + [0]) + rest == Put32(n) + tail;
    Word32(n, tail);
    assert tail[..n - 1] == bytes && tail[n..] == rest;
  }

  lemma OneRoundTrip(p: Property, rest: seq<Byte>, ps: seq<Property>)
    requires Fits(p)
    ensures DecodeOne(EncodeOne(p) + rest, ps) == Loaded(0, ps + [p], rest)
  {
    var value := Put32(|p.value| + 1) + (p.value + [0]) + rest;
    var first := Put32(|p.name| + 1) + (p.name + [0]);
    assert EncodeOne(p) + rest == first + value;
    FieldRoundTrip(p.name, value);
    FieldRoundTrip(p.value, rest);
  }

  lemma EncodeListIs(ps: seq<Property>, rest: seq<Byte>)
    requires ps != [] && AllFit(ps)
    ensures Fits(ps[0]) && AllFit(ps[1..])
    ensures EncodeList(ps) + rest == EncodeOne(ps[0]) + (EncodeList(ps[1..]) + rest)
  {
    assert ps[0] in ps;
    hide EncodeOne, Fits;
  }

  lemma EncodeStep(ps: seq<Property>)
    requires ps != [] && AllFit(ps)
    ensures Fits(ps[0]) && AllFit(ps[1..])
    ensures EncodeList(ps) == EncodeOne(ps[0]) + EncodeList(ps[1..])
  {
    assert ps[0] in ps;
    hide EncodeOne, Fits;
  }

  lemma FitMore(ps: seq<Property>, p: Property)
    requires AllFit(ps) && Fits(p)
    ensures AllFit(ps + [p]) && Fits(p)
  {
    hide Fits;
  }

  lemma EncodeNone()
    ensures AllFit([]) && EncodeList([]) == []
  {
  }

  lemma {:induction false} EncodeMore(ps: seq<Property>, p: Property)
    requires AllFit(ps) && AllFit(ps + [p]) && Fits(p)
    ensures EncodeList(ps + [p]) == EncodeList(ps) + EncodeOne(p)
    decreases |ps|
  {
    hide *;
    EncodeStep(ps + [p]);
    EncodeNone();
    if ps == [] {
      assert (ps + [p])[1..] == [];
    } else {
      EncodeStep(ps);
      var more := ps[1..];
      assert (ps + [p])[1..] == more + [p];
      EncodeMore(more, p);
      var a, b, c := EncodeOne(ps[0]), EncodeList(more), EncodeOne(p);
      assert a + (b + c) == a + b + c;
    }
  }

  /** What has been written once the first `i` properties are saved. */
  predicate Saved(start: seq<Byte>, data: seq<Byte>, ps: seq<Property>, i: nat) {
    i <= |ps| && AllFit(ps[..i]) && data == start + EncodeList(ps[..i])
  }

  lemma SavedNone(start: seq<Byte>, ps: seq<Property>)
    ensures Saved(start, start, ps, 0)
  {
    EncodeNone();
    assert start + [] == start;
  }

  lemma SavedMore(start: seq<Byte>, data: seq<Byte>, ps: seq<Property>, i: nat)
    requires Saved(start, data, ps, i) && i < |ps| && Fits(ps[i])
    ensures Saved(start, data + EncodeOne(ps[i]), ps, i + 1)
  {
    var done, p := ps[..i], ps[i];
    assert ps[..i + 1] == done + [p];
    hide AllFit, Fits, EncodeOne, EncodeList;
    FitMore(done, p);
    EncodeMore(done, p);
    var a, b := EncodeList(done), EncodeOne(p);
    assert start + (a + b) == start + a + b;
  }

  lemma SavedAll(start: seq<Byte>, data: seq<Byte>, ps: seq<Property>)
    requires Saved(start + Put32(Wrap(|ps|)), data, ps, |ps|)
    ensures AllFit(ps) && data == start + Encode(ps)
  {
    hide EncodeList, AllFit, Put32, Wrap;
    assert ps[..|ps|] == ps;
    var a, b := Put32(Wrap(|ps|)), EncodeList(ps);
    assert start + (a + b) == start + a + b;
  }

  lemma DecodeListIs(n: nat, s: seq<Byte>, ps: seq<Property>)
    requires n > 0 && DecodeOne(s, ps).Loaded? && DecodeOne(s, ps).ret == 0
    ensures DecodeList(n, s, ps) == DecodeList(n - 1, DecodeOne(s, ps).rest, DecodeOne(s, ps).ps)
  {
    hide DecodeOne;
  }

  lemma NoneRoundTrip(rest: seq<Byte>, before: seq<Property>)
    ensures DecodeList(0, EncodeList([]) + rest, before) == Loaded(0, before + [], rest)
  {
    assert EncodeList([]) + rest == rest && before + [] == before;
  }

  lemma {:induction false} ListRoundTrip(ps: seq<Property>, rest: seq<Byte>, before: seq<Property>)
    requires AllFit(ps)
    ensures DecodeList(|ps|, EncodeList(ps) + rest, before) == Loaded(0, before + ps, rest)
    decreases |ps|
  {
    hide *;
    if ps == [] {
      NoneRoundTrip(rest, before);
    } else {
      EncodeListIs(ps, rest);
      var p, more := ps[0], ps[1..];
      assert before + [p] + more == before + ps;
      var tail := EncodeList(more) + rest;
      OneRoundTrip(p, tail, before);
      DecodeListIs(|ps|, EncodeOne(p) + tail, before);
      ListRoundTrip(more, rest, before + [p]);
    }
  }

  /**
   Loading what was saved gives back the same properties in the same order, values with '=' and
   all, and takes from the stream exactly the bytes that were written.
   */
  lemma SnapshotRoundTrip(ps: seq<Property>, rest: seq<Byte>)
    requires AllFit(ps) && |ps| < WORD
    ensures Decode(Encode(ps) + rest) == Loaded(0, ps, rest)
  {
    hide AllFit, EncodeList, DecodeList, Put32, Get32;
    var tail := EncodeList(ps) + rest;
    assert Encode(ps) + rest == Put32(|ps|) + tail;
    Word32(|ps|, tail);
    ListRoundTrip(ps, rest, []);
    assert [] + ps == ps;
  }

  /** Four bytes, the most significant first. */
  function BigEndian(s: seq<Byte>): nat
    requires |s| == 4
  {
    var a: int, b: int, c: int, d: int := s[0], s[1], s[2], s[3];
    a * 0x1000000 + b * 0x10000 + c * 0x100 + d
  }

  /** Where a property begins in a snapshot. */
  function Offset(ps: seq<Property>, i: nat): nat
    requires i <= |ps|
  {
    if i == 0 then 4 else Offset(ps, i - 1) + 10 + |ps[i - 1].name| + |ps[i - 1].value|
  }

  /** At that place are a length, the name, a NUL, another length, the value, a NUL. */
  predicate StandsAt(s: seq<Byte>, o: nat, p: Property) {
    var n, v := |p.name|, |p.value|;
    && o + 10 + n + v <= |s|
    && BigEndian(s[o..o + 4]) == n + 1 && s[o + 4..o + 4 + n] == p.name && s[o + 4 + n] == 0
    && BigEndian(s[o + 5 + n..o + 9 + n]) == v + 1 && s[o + 9 + n..o + 9 + n + v] == p.value && s[o + 9 + n + v] == 0
  }

  lemma Put32Is(n: nat)
    requires n < WORD
    ensures BigEndian(Put32(n)) == n
  {
    var high, low := n / 0x1_0000, n % 0x1_0000;
    assert high == (high / 0x100) * 0x100 + high % 0x100 && low == (low / 0x100) * 0x100 + low % 0x100;
  }

  /**
   A field of any stream, not only of one that was saved: a length, most significant byte first, that
   is not 0, and as many bytes, the last of which is dropped whatever it is; if there are fewer, the field
   is short; and a stream that ends within the length, or a length of 0, is not a field.
   */
  lemma FieldExactly(s: seq<Byte>)
    ensures var f := DecodeField(s);
      && (f.NoField? <==> |s| < 4 || BigEndian(s[..4]) == 0)
      && (f.Short? <==> |s| >= 4 && BigEndian(s[..4]) > |s| - 4) && (f.Short? ==> f.rest == [])
      && (f.Field? ==> var n := BigEndian(s[..4]); f.bytes == s[4..3 + n] && f.rest == s[4 + n..])
  {
    if |s| >= 4 {
      Get32Is(s);
      hide Get32, BigEndian;
      var n := Get32(s);
      if 0 < n <= |s| - 4 {
        assert s[4..][..n - 1] == s[4..3 + n] && s[4..][n..] == s[4 + n..];
      }
    }
  }

  lemma Get32Is(s: seq<Byte>)
    requires |s| >= 4
    ensures Get32(s) == BigEndian(s[..4])
  {
  }

  lemma OneStands(a: seq<Byte>, p: Property, b: seq<Byte>)
    requires Fits(p)
    ensures StandsAt(a + EncodeOne(p) + b, |a|, p) && |EncodeOne(p)| == 10 + |p.name| + |p.value|
  {
    hide Put32, BigEndian, Verdict;
    assert |p.name| < WORD - 1 && |p.value| < WORD - 1 by { FitsShort(p); }
    Put32Is(|p.name| + 1);
    Put32Is(|p.value| + 1);
    var s, o, n, v := a + EncodeOne(p) + b, |a|, |p.name|, |p.value|;
    assert s[o..o + 4] == Put32(n + 1);
    assert s[o + 4..o + 4 + n] == p.name;
    assert s[o + 5 + n..o + 9 + n] == Put32(v + 1);
    assert s[o + 9 + n..o + 9 + n + v] == p.value;
  }

  lemma FitsShort(p: Property)
    requires Fits(p)
    ensures |p.name| < WORD - 1 && |p.value| < WORD - 1
  {
  }

  lemma StandsStill(s: seq<Byte>, more: seq<Byte>, o: nat, p: Property)
    requires StandsAt(s, o, p)
    ensures StandsAt(s + more, o, p)
  {
    hide BigEndian;
    var t, n, v := s + more, |p.name|, |p.value|;
    assert t[o..o + 4] == s[o..o + 4];
    assert t[o + 4..o + 4 + n] == s[o + 4..o + 4 + n];
    assert t[o + 5 + n..o + 9 + n] == s[o + 5 + n..o + 9 + n];
    assert t[o + 9 + n..o + 9 + n + v] == s[o + 9 + n..o + 9 + n + v];
  }

  lemma {:induction false} OffsetSame(ps: seq<Property>, qs: seq<Property>, i: nat)
    requires i <= |ps| && ps <= qs
    ensures Offset(ps, i) == Offset(qs, i)
  {
    if i > 0 {
      OffsetSame(ps, qs, i - 1);
    }
  }

  lemma {:induction false} ListStands(ps: seq<Property>, start: seq<Byte>)
    requires AllFit(ps) && |start| == 4
    ensures |start + EncodeList(ps)| == Offset(ps, |ps|)
    ensures forall i | 0 <= i < |ps| :: StandsAt(start + EncodeList(ps), Offset(ps, i), ps[i])
    decreases |ps|
  {
    hide AllFit, Fits, EncodeOne, EncodeList, StandsAt, Offset;
    if ps == [] {
      EncodeNone();
      OffsetStart(ps);
    } else {
      var init, p := ps[..|ps| - 1], ps[|ps| - 1];
      assert ps == init + [p];
      FitLast(ps);
      ListStands(init, start);
      EncodeMore(init, p);
      OffsetMore(ps);
      var s := start + EncodeList(init);
      assert start + EncodeList(ps) == s + EncodeOne(p) + [];
      OneStands(s, p, []);
      forall i | 0 <= i < |ps|
        ensures StandsAt(s + EncodeOne(p), Offset(ps, i), ps[i])
      {
        OffsetSame(init, ps, if i < |init| then i else |init|);
        if i < |init| {
          StandsStill(s, EncodeOne(p), Offset(init, i), init[i]);
        } else {
          assert s + EncodeOne(p) + [] == s + EncodeOne(p);
        }
      }
      assert start + EncodeList(ps) == s + EncodeOne(p);
    }
  }

  lemma OffsetStart(ps: seq<Property>)
    ensures Offset(ps, 0) == 4
  {
  }

  lemma OffsetMore(ps: seq<Property>)
    requires ps != []
    ensures var p := ps[|ps| - 1]; Offset(ps, |ps|) == Offset(ps[..|ps| - 1], |ps| - 1) + 10 + |p.name| + |p.value|
  {
    OffsetSame(ps[..|ps| - 1], ps, |ps| - 1);
  }

  lemma FitLast(ps: seq<Property>)
    requires ps != [] && AllFit(ps)
    ensures AllFit(ps[..|ps| - 1]) && Fits(ps[|ps| - 1])
  {
    hide Fits;
    assert forall p | p in ps[..|ps| - 1] :: p in ps;
  }

  /** A snapshot, byte by byte: the number of properties, and then each of them at its place. */
  lemma SnapshotLayout(ps: seq<Property>)
    requires AllFit(ps) && |ps| < WORD
    ensures var s := Encode(ps);
      && |s| == Offset(ps, |ps|) && |s| >= 4 && BigEndian(s[..4]) == |ps|
      && forall i | 0 <= i < |ps| :: StandsAt(s, Offset(ps, i), ps[i])
  {
    hide AllFit, EncodeList, StandsAt, Offset, Put32, BigEndian;
    Put32Is(|ps|);
    ListStands(ps, Put32(|ps|));
    assert Encode(ps)[..4] == Put32(|ps|);
  }

  lemma OneFits(s: seq<Byte>, ps: seq<Property>)
    requires AllFit(ps)
    ensures DecodeOne(s, ps).Loaded? ==> AllFit(DecodeOne(s, ps).ps) && ps <= DecodeOne(s, ps).ps
  {
    hide DecodeField;
  }

  /** Whatever a stream holds, only properties that fit are loaded. */
  lemma {:induction false} LoadedFit(n: nat, s: seq<Byte>, ps: seq<Property>)
    requires AllFit(ps)
    ensures DecodeList(n, s, ps).Loaded? ==> AllFit(DecodeList(n, s, ps).ps) && ps <= DecodeList(n, s, ps).ps
  {
    if n > 0 {
      OneFits(s, ps);
      hide AllFit, DecodeOne;
      var one := DecodeOne(s, ps);
      if one.Loaded? && one.ret == 0 { LoadedFit(n - 1, one.rest, one.ps); }
    }
  }
}

/** The list of boot-properties.c, with the cell at its end that the next property goes into. */
module BootProperties {
  import opened BootPropertiesSpec

  class Stream {
    var data: seq<Byte> // written to at the end, read from at the beginning

    constructor (data: seq<Byte>)
      ensures this.data == data
    {
      this.data := data;
    }

    method PutBe32(n: nat)
      requires n < WORD
      modifies this
      ensures data == old(data) + Put32(n)
    {
      data := data + Put32(n);
    }

    method Put(bytes: seq<Byte>)
      modifies this
      ensures data == old(data) + bytes
    {
      data := data + bytes;
    }

    method GetBe32() returns (n: nat)
      requires |data| >= 4
      modifies this
      ensures n == Get32(old(data)) && data == old(data)[4..]
    {
      n := Get32(data);
      data := data[4..];
    }

    /** As many bytes as there are, up to the number asked for. */
    method Get(n: nat) returns (bytes: seq<Byte>)
      modifies this
      ensures bytes + data == old(data) && |bytes| == if |old(data)| < n then |old(data)| else n
    {
      var k := if |data| < n then |data| else n;
      bytes := data[..k];
      data := data[k..];
    }
  }

  class BootProperty {
    var next: BootProperty?
    const property: array<Byte>
    const length: nat

    constructor (name: seq<Byte>, value: seq<Byte>)
      ensures next == null && fresh(property)
      ensures property[..] == Text(Property(name, value)) && length == property.Length - 1
    {
      var n, v := |name|, |value|;
      var p := new Byte[n + 1 + v + 1];
      forall i | 0 <= i < n { p[i] := name[i]; }
      p[n] := EQUALS;
      forall i | 0 <= i < v { p[n + 1 + i] := value[i]; }
      p[n + 1 + v] := 0;
      next, property, length := null, p, n + 1 + v;
      new;
      assert p[..n] == name && p[n + 1..n + 1 + v] == value;
      assert p[..] == p[..n] + [p[n]] + p[n + 1..n + 1 + v] + [p[n + 1 + v]];
    }
  }

  /** Where the pointer to the next property is to be stored. */
  datatype TailCell = HeadCell | NextOf(node: BootProperty)

  ghost predicate Held(nodes: seq<BootProperty>, props: seq<Property>)
    reads set n | n in nodes :: n.property
  {
    && |nodes| == |props|
    && (forall i | 0 <= i < |nodes| :: nodes[i].property[..] == Text(props[i]))
    && (forall n | n in nodes :: n.length == n.property.Length - 1)
    && AllFit(props)
  }

  ghost predicate Distinct(nodes: seq<BootProperty>) {
    forall i, j | 0 <= i < j < |nodes| :: nodes[i] != nodes[j]
  }

  lemma DistinctMore(nodes: seq<BootProperty>, node: BootProperty)
    requires Distinct(nodes) && node !in nodes
    ensures Distinct(nodes + [node])
  {
    assert forall i | 0 <= i < |nodes| :: (nodes + [node])[i] in nodes;
  }

  lemma HeldOne(node: BootProperty, p: Property)
    requires node.property[..] == Text(p) && node.length == node.property.Length - 1 && Fits(p)
    ensures Held([node], [p])
  {
  }

  lemma HeldMore(nodes: seq<BootProperty>, props: seq<Property>, node: BootProperty, p: Property)
    requires Held(nodes, props) && Held([node], [p])
    ensures Held(nodes + [node], props + [p])
  {
    assert [node][0] == node && [p][0] == p && node in [node] && p in [p];
    hide Text, Fits;
  }

  lemma HeldFits(nodes: seq<BootProperty>, props: seq<Property>, i: nat)
    requires Held(nodes, props)
    ensures AllFit(props) && |nodes| == |props|
    ensures i < |nodes| ==>
      nodes[i].property[..] == Text(props[i]) && nodes[i].length == nodes[i].property.Length - 1 && Fits(props[i])
  {
    hide Text, Fits;
  }

  twostate lemma HeldStill(list: (seq<BootProperty>, seq<Property>))
    requires old(Held(list.0, list.1))
    requires forall n | n in list.0 :: n.property[..] == old(n.property[..])
    ensures Held(list.0, list.1)
  {
    hide Text, Fits;
  }

  twostate lemma HeldSame(list: (seq<BootProperty>, seq<Property>))
    requires old(Held(list.0, list.1)) && Held(list.0, list.1)
    ensures forall n | n in list.0 :: n.property[..] == old(n.property[..])
  {
    hide Text, Fits;
    forall n | n in list.0 ensures n.property[..] == old(n.property[..]) {
      var i :| 0 <= i < |list.0| && list.0[i] == n;
      assert n.property[..] == Text(list.1[i]);
      assert old(n.property[..]) == Text(list.1[i]);
    }
  }

  class PropertyList {
    var head: BootProperty?
    var tail: TailCell
    ghost var nodes: seq<BootProperty>
    ghost var props: seq<Property>

    ghost function Arrays(): set<object>
      reads this
    {
      set n | n in nodes :: n.property
    }

    ghost function Repr(): set<object>
      reads this
    {
      (set n | n in nodes) + Arrays()
    }

    /** The list is the chain of `nodes`, in order, and its tail cell is the last pointer of it. */
    ghost predicate Chained()
      reads this, set n | n in nodes
    {
      && head == Next(0)
      && (forall i | 0 <= i < |nodes| :: nodes[i].next == Next(i + 1))
      && Distinct(nodes)
      && tail == if nodes == [] then HeadCell else NextOf(nodes[|nodes| - 1])
    }

    ghost function Next(i: nat): BootProperty?
      reads this
    {
      if i < |nodes| then nodes[i] else null
    }

    /** Every node holds the text of its property. */
    ghost predicate Holds()
      reads this, Repr()
    {
      Held(nodes, props)
    }

    /** Where one is in the chain. */
    lemma At(i: nat)
      requires Chained() && i <= |nodes|
      ensures head == Next(0) && (Next(i) == null <==> i == |nodes|)
      ensures i < |nodes| ==> Next(i) == nodes[i] && nodes[i].next == Next(i + 1)
    {
    }

    lemma HoldsIs()
      ensures Holds() <==> Held(nodes, props)
    {
    }

    ghost predicate Valid()
      reads this, Repr()
    {
      Chained() && Holds()
    }

    constructor ()
      ensures Valid() && props == [] && nodes == []
    {
      head, tail, nodes, props := null, HeadCell, [], [];
    }

    /** Every property is freed, once, first to last. */
    method ClearAll() returns (ghost freed: seq<BootProperty>)
      requires Valid()
      modifies this
      ensures Valid() && props == [] && nodes == []
      ensures freed == old(nodes)
    {
      hide Chained, Holds, Next;
      var p := head;
      freed := [];
      ghost var i := 0;
      At(0);
      while p != null
        invariant i <= |nodes| && freed == nodes[..i] && p == Next(i)
        invariant unchanged(this) && Valid()
        decreases |nodes| - i
      {
        At(i);
        assert nodes[..i + 1] == nodes[..i] + [nodes[i]];
        var next := p.next;
        freed := freed + [p];
        p := next;
        i := i + 1;
      }
      At(i);
      assert nodes[..i] == nodes;
      Empty();
    }

    /** The head and the tail cell are as in a new list. */
    method Empty()
      modifies this
      ensures Valid() && props == [] && nodes == []
    {
      head, tail, nodes, props := null, HeadCell, [], [];
    }

    /** A property goes to the end of the list, if its lengths and its name allow. */
    method Add2(name: seq<Byte>, value: seq<Byte>) returns (ret: int)
      requires Valid()
      modifies this, Repr()
      ensures Valid() && fresh(Repr() - old(Repr()))
      ensures ret == Verdict(name, value)
      ensures props == old(props) + if ret == 0 then [Property(name, value)] else []
    {
      hide Text, Chained, Holds, Verdict;
      ret := Check(name, value);
      if ret == 0 {
        var prop := new BootProperty(name, value);
        Link(prop, Property(name, value));
      }
    }

    static method Check(name: seq<Byte>, value: seq<Byte>) returns (ret: int)
      ensures ret == Verdict(name, value)
    {
      if |name| > MAX_NAME { return -1; }
      if |value| > MAX_VALUE { return -2; }
      var nn := 0;
      while nn < |name|
        invariant nn <= |name|
        invariant forall i | 0 <= i < nn :: !Rejected(name[i])
      {
        if Rejected(name[nn]) { return -3; }
        nn := nn + 1;
      }
      assert forall c | c in name :: !Rejected(c);
      return 0;
    }

    /** The pointer in the tail cell, and then the tail cell itself, move on to the new node. */
    method Link(prop: BootProperty, ghost p: Property)
      requires Valid() && prop !in nodes && prop.next == null && Fits(p)
      requires prop.property[..] == Text(p) && prop.length == prop.property.Length - 1
      modifies this, set n | n in nodes
      ensures Valid() && nodes == old(nodes) + [prop] && props == old(props) + [p]
    {
      hide Chained, Held, Text, Fits, Verdict, Next;
      HeldOne(prop, p);
      HeldMore(nodes, props, prop, p);
      Append(prop, p);
      HeldStill((nodes, props));
    }

    method Append(prop: BootProperty, ghost p: Property)
      requires Chained() && prop !in nodes && prop.next == null
      modifies this, set n | n in nodes
      ensures Chained() && nodes == old(nodes) + [prop] && props == old(props) + [p]
    {
      hide Chained, Next, Distinct;
      LinksAre();
      ghost var was := nodes;
      Store(prop);
      Extend(prop, p);
      ChainedMore(was, prop);
    }

    lemma LinksAre()
      requires Chained()
      ensures tail == if nodes == [] then HeadCell else NextOf(nodes[|nodes| - 1])
      ensures Linked(nodes) && (nodes != [] ==> head == nodes[0] && nodes[|nodes| - 1] !in nodes[..|nodes| - 1])
    {
      forall i | 0 <= i < |nodes| - 1
        ensures nodes[i].next == nodes[i + 1]
      {
        assert nodes[i].next == Next(i + 1);
      }
    }

    /** Each node points to the one behind it. */
    static ghost predicate Linked(q: seq<BootProperty>)
      reads set n | n in q
    {
      Distinct(q) && forall i | 0 <= i < |q| - 1 :: q[i].next == q[i + 1]
    }

    /** The old nodes are linked as before, but for the last one, which points to the new one. */
    lemma ChainedMore(was: seq<BootProperty>, prop: BootProperty)
      requires nodes == was + [prop] && prop !in was && prop.next == null && tail == NextOf(prop)
      requires Distinct(was) && forall i | 0 <= i < |was| - 1 :: was[i].next == was[i + 1]
      requires if was == [] then head == prop else head == was[0] && was[|was| - 1].next == prop
      ensures Chained()
    {
      DistinctMore(was, prop);
      hide Distinct;
      forall i | 0 <= i < |nodes|
        ensures nodes[i].next == Next(i + 1)
      {
        if i < |was| {
          assert nodes[i] == was[i];
        }
      }
    }

    /** Stores a pointer where the tail cell says. */
    method Store(prop: BootProperty)
      modifies this`head, if tail.NextOf? then {tail.node} else {}
      ensures tail == HeadCell ==> head == prop
      ensures tail.NextOf? ==> head == old(head) && tail.node.next == prop
    {
      match tail {
        case HeadCell => head := prop;
        case NextOf(node) => node.next := prop;
      }
    }

    method Extend(prop: BootProperty, ghost p: Property)
      modifies `tail, `nodes, `props
      ensures tail == NextOf(prop) && nodes == old(nodes) + [prop] && props == old(props) + [p]
    {
      tail := NextOf(prop);
      nodes, props := nodes + [prop], props + [p];
    }

    /** An option on the command line. */
    method ParseOption(param: seq<Byte>)
      requires Valid()
      modifies this, Repr()
      ensures Valid() && fresh(Repr() - old(Repr()))
      ensures props == old(props) + if Split(param) != [] && Fits(Split(param)[0]) then Split(param) else []
    {
      hide Chained, Holds, Verdict;
      var q := StrChr(param + [0], EQUALS);
      if q < 0 { return; }
      var valueLength := |param| - (q + 1);
      assert param[q + 1..q + 1 + valueLength] == param[q + 1..];
      var ret := Add2(param[..q], param[q + 1..q + 1 + valueLength]);
    }

    /** What a client that asks for the list is sent: every text without its NUL, then one NUL. */
    method List() returns (messages: seq<seq<Byte>>)
      requires Valid()
      ensures |messages| == |props| + 1 && messages[|props|] == [0]
      ensures forall i | 0 <= i < |props| :: messages[i] == props[i].name + [EQUALS] + props[i].value
    {
      messages := [];
      var p := head;
      while p != null
        invariant |messages| <= |nodes| && p == Next(|messages|)
        invariant forall i | 0 <= i < |messages| :: messages[i] == props[i].name + [EQUALS] + props[i].value
        decreases |nodes| - |messages|
      {
        assert p.property[..p.length] == Text(props[|messages|])[..p.length];
        messages := messages + [p.property[..p.length]];
        p := p.next;
      }
      messages := messages + [[0]];
    }

    // ----- saving -----------------------------------------------------------------------------

    /** Name and value are split in place by a NUL, written, and joined again. */
    static method SaveProperty(f: Stream, p: BootProperty, ghost prop: Property) returns (ret: int)
      requires p.property[..] == Text(prop) && p.length == p.property.Length - 1 && Fits(prop)
      modifies f, p.property
      ensures ret == 0
      ensures f.data == old(f.data) + EncodeOne(prop)
      ensures p.property[..] == old(p.property[..])
    {
      TextSplits(prop);
      assert |prop.name| <= MAX_NAME && |prop.value| <= MAX_VALUE;
      hide Put32, Fits, Verdict, StrChr;
      ghost var text := p.property[..];
      var split := StrChr(p.property[..], EQUALS);
      if split < 0 {
        return -1;
      }
      SplitParts(text, prop, split);
      p.property[split] := 0;
      SaveParts(f, p, split, prop);
      p.property[split] := EQUALS;
      assert p.property[..] == text;
      EncodeOneIs(old(f.data), prop);
      return 0;
    }

    /** The name and the value, each with its length and the NUL at its end. */
    static method SaveParts(f: Stream, p: BootProperty, split: nat, ghost prop: Property)
      requires split < p.property.Length && p.length == p.property.Length - 1
      requires p.property[..][..split + 1] == prop.name + [0] && p.property[..][split + 1..] == prop.value + [0]
      requires |prop.name| <= MAX_NAME && |prop.value| <= MAX_VALUE
      modifies f
      ensures f.data == old(f.data) + Put32(|prop.name| + 1) + (prop.name + [0]) + Put32(|prop.value| + 1) + (prop.value + [0])
    {
      hide Put32;
      var keyLength := split + 1;
      assert p.property[..keyLength] == p.property[..][..keyLength];
      f.PutBe32(keyLength);
      f.Put(p.property[..keyLength]);
      var valueLength := p.length - keyLength + 1;
      assert p.property[split + 1..split + 1 + valueLength] == p.property[..][split + 1..];
      f.PutBe32(valueLength);
      f.Put(p.property[split + 1..split + 1 + valueLength]);
    }

    /** A text that is split by a NUL at its first '='. */
    static lemma SplitParts(text: seq<Byte>, prop: Property, k: nat)
      requires text == Text(prop) && k == |prop.name|
      ensures text[k := 0][..k + 1] == prop.name + [0] && text[k := 0][k + 1..] == prop.value + [0]
      ensures text[k := 0][k := EQUALS] == text
    {
    }

    method SaveCount(f: Stream)
      requires Valid()
      modifies f
      ensures f.data == old(f.data) + Put32(Wrap(|props|))
    {
      HeldFits(nodes, props, 0);
      hide Chained, Put32, AllFit, Wrap;
      var count := Count();
      f.PutBe32(count);
    }

    /** The length of the chain, in a 32-bit word. */
    method Count() returns (count: nat)
      requires Chained()
      ensures count == Wrap(|nodes|)
    {
      hide Chained, Next, Wrap;
      WrapMore(0);
      count := 0;
      var p := head;
      ghost var i := 0;
      At(0);
      while p != null
        invariant i <= |nodes| && p == Next(i) && count == Wrap(i)
        decreases |nodes| - i
      {
        At(i);
        WrapMore(i);
        count := Wrap(count + 1);
        i := i + 1;
        p := p.next;
      }
      At(i);
    }

    /** One property of the list is saved; the texts are as before. */
    method SaveAt(f: Stream, p: BootProperty, ghost i: nat) returns (ret: int)
      requires Valid() && i < |nodes| && p == nodes[i]
      modifies f, Arrays()
      ensures Valid() && p.next == Next(i + 1)
      ensures ret == 0 && i < |props| && AllFit(props) && Fits(props[i])
      ensures f.data == old(f.data) + EncodeOne(props[i])
    {
      hide Text, Fits, Verdict, EncodeOne, EncodeList, Put32, Held;
      HeldFits(nodes, props, i);
      ret := SaveProperty(f, p, props[i]);
      HeldStill((nodes, props));
    }

    /** Saving writes the snapshot of the properties, and leaves their texts as they were. */
    method Save(f: Stream)
      requires Valid()
      modifies f, Arrays()
      ensures Valid()
      ensures AllFit(props) && f.data == old(f.data) + Encode(props)
      ensures forall n | n in nodes :: n.property[..] == old(n.property[..])
    {
      HeldFits(nodes, props, 0);
      hide AllFit, Fits, Encode, EncodeOne, EncodeList, Saved, Put32, Wrap, Held, Chained, Holds;
      SaveCount(f);
      SaveAll(f);
      SavedAll(old(f.data), f.data, props);
      HoldsIs();
      HeldSame((nodes, props));
    }

    /** Every property of the list is saved, first to last. */
    method SaveAll(f: Stream)
      requires Valid()
      modifies f, Arrays()
      ensures Valid() && |props| == |nodes| && Saved(old(f.data), f.data, props, |props|)
    {
      HeldFits(nodes, props, 0);
      hide AllFit, Fits, EncodeOne, EncodeList, Saved, Put32, Held, Chained, Holds, Next;
      var p := head;
      ghost var i, start := 0, f.data;
      SavedNone(start, props);
      At(0);
      while p != null
        invariant i <= |nodes| == |props| && p == Next(i) && Valid()
        invariant Saved(start, f.data, props, i)
        decreases |nodes| - i
      {
        At(i);
        ghost var data := f.data;
        var ret := SaveAt(f, p, i);
        SavedMore(start, data, props, i);
        if ret != 0 { break; }
        i := i + 1;
        p := p.next;
      }
      At(i);
    }

    // ----- loading ----------------------------------------------------------------------------

    /** A length and as many bytes, of which the last is the NUL. */
    static method LoadField(f: Stream) returns (ok: bool, bytes: seq<Byte>)
      requires !DecodeField(f.data).NoField?
      modifies f
      ensures DecodeField(old(f.data)) == if ok then Field(bytes, f.data) else Short(f.data)
    {
      ghost var s := f.data;
      var n := f.GetBe32();
      var got := f.Get(n);
      if |got| != n { return false, []; }
      assert s[4..][..n] == got;
      return true, got[..n - 1];
    }

    method LoadProperty(f: Stream) returns (ret: int)
      requires Valid() && DecodeOne(f.data, props).Loaded?
      modifies this, Repr(), f
      ensures Valid() && fresh(Repr() - old(Repr()))
      ensures Loaded(ret, props, f.data) == DecodeOne(old(f.data), old(props))
    {
      hide Chained, Holds, DecodeField, Verdict;
      var ok, key := LoadField(f);
      if !ok { return -EIO; }
      var more, value := LoadField(f);
      if !more { return -EIO; }
      ret := Add2(key, value);
      if ret != 0 { return -EIO; }
    }

    /** The list is replaced by what the stream holds. */
    method Load(f: Stream) returns (ret: int)
      requires Valid() && Decode(f.data).Loaded?
      modifies this, Repr(), f
      ensures Valid()
      ensures Loaded(ret, props, f.data) == Decode(old(f.data))
    {
      hide Chained, Holds, DecodeOne, Get32;
      ghost var freed := ClearAll();
      assert Repr() == {};
      ghost var s := f.data;
      var count := f.GetBe32();
      var i := 0;
      while i < count
        invariant i <= count && Valid() && fresh(Repr() - old(Repr()))
        invariant DecodeList(count - i, f.data, props) == Decode(s)
      {
        ret := LoadProperty(f);
        if ret != 0 { return; }
        i := i + 1;
      }
      return 0;
    }
  }
}
