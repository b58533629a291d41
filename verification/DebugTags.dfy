/** The little language of debug tags, as in "all,-init,no-qemud". */
module DebugTagsSpec {
  type Bit = n: nat | n < 64

  /** A debug tag: its name, with underscores, and the number of its bit. */
  datatype Tag = Tag(name: string, flag: Bit)

  /** A word of 64 bits, as the set of those that are on. */
  type Bits = s: set<nat> | forall b | b in s :: b < 64

  /** The verbosity bits, and whether the base library is verbose. */
  datatype Logs = Logs(bits: Bits, base: bool)

  const TEMP_SIZE := 32

  /** The names of the table of tags fit in the buffer they are compared with. */
  predicate TableOk(tags: seq<Tag>) {
    forall t | t in tags :: |t.name| < TEMP_SIZE - 1
  }

  function Below(n: nat): (r: set<nat>)
    ensures forall i: nat :: i in r <==> i < n
  {
    if n == 0 then {} else Below(n - 1) + {n - 1}
  }

  function AllBits(): Bits {
    Below(64)
  }

  // ----- text -------------------------------------------------------------------------------

  function Find(s: string, c: char): (n: nat)
    ensures n <= |s| && (n < |s| ==> s[n] == c) && c !in s[..n]
  {
    if s == [] || s[0] == c then 0
    else
      var n := 1 + Find(s[1..], c);
      assert s[..n] == [s[0]] + s[1..][..n - 1];
      n
  }

  /** Every `from` replaced by `to`. */
  function Translate(s: string, from: char, to: char): (r: string)
    ensures |r| == |s|
    ensures forall i | 0 <= i < |s| :: r[i] == if s[i] == from then to else s[i]
  {
    seq(|s|, i requires 0 <= i < |s| => if s[i] == from then to else s[i])
  }

  /** A string translated into a buffer of `size`, which cuts it short. */
  function Buffered(s: string, size: nat, from: char, to: char): string
    requires size > 0
  {
    Translate(if |s| >= size then s[..size - 1] else s, from, to)
  }

  /** The items between the commas. */
  function Items(s: string): (r: seq<string>)
    ensures r != []
  {
    var n := Find(s, ',');
    if n == |s| then [s] else [s[..n]] + Items(s[n + 1..])
  }

  // ----- one item ---------------------------------------------------------------------------

  /** What an item asks for: nothing, or bits to be set or cleared. */
  datatype Meaning = Nothing | Switch(bits: Bits, on: bool, all: bool)

  function FindTag(tags: seq<Tag>, name: string): (n: nat)
    ensures n <= |tags| && (n < |tags| ==> tags[n].name == name)
    ensures forall i | 0 <= i < n :: tags[i].name != name
  {
    if tags == [] || tags[0].name == name then 0 else 1 + FindTag(tags[1..], name)
  }

  /** The item without the sign that turns it off. */
  function Unsigned(item: string, suffix: bool): (bool, string) {
    if !suffix && item != [] && item[0] == '-' then (true, item[1..])
    else if "no-" <= item then (true, item[3..])
    else (false, item)
  }

  /** An item shorter than two characters, or of an unknown name, means nothing. */
  function MeaningOf(tags: seq<Tag>, item: string, suffix: bool): Meaning {
    if |item| < 2 then Nothing
    else
      var (off, name) := Unsigned(item, suffix);
      if name == "all" then Switch(AllBits(), !off, true)
      else
        var n := FindTag(tags, Translate(name, '-', '_'));
        if n == |tags| then Nothing else Switch({tags[n].flag}, !off, false)
  }

  function Apply(l: Logs, m: Meaning): Logs {
    match m
    case Nothing => l
    case Switch(bits, on, all) =>
      Logs(if on then l.bits + bits else l.bits - bits, if all then on else l.base)
  }

  /** Items are applied from left to right. */
  function Fold(tags: seq<Tag>, l: Logs, items: seq<string>, suffix: bool): Logs
    decreases |items|
  {
    if items == [] then l
    else Fold(tags, Apply(l, MeaningOf(tags, items[0], suffix)), items[1..], suffix)
  }

  function ItemsOf(s: string, suffix: bool): seq<string> {
    if suffix then [s] else Items(s)
  }

  predicate AnyValid(tags: seq<Tag>, items: seq<string>, suffix: bool) {
    exists item | item in items :: MeaningOf(tags, item, suffix) != Nothing
  }

  // ----- the last item wins -----------------------------------------------------------------

  /** Whether an item says anything about a bit. */
  predicate Names(tags: seq<Tag>, item: string, suffix: bool, bit: nat) {
    var m := MeaningOf(tags, item, suffix);
    m.Switch? && bit in m.bits
  }

  predicate LastNaming(tags: seq<Tag>, items: seq<string>, suffix: bool, bit: nat, i: nat)
    requires i < |items|
  {
    Names(tags, items[i], suffix, bit) && forall j | i < j < |items| :: !Names(tags, items[j], suffix, bit)
  }

  /** A bit is as the last item that names it says, and unchanged if none does. */
  lemma {:induction false} LastItemWins(tags: seq<Tag>, l: Logs, items: seq<string>, suffix: bool, bit: nat)
    ensures var r := Fold(tags, l, items, suffix);
      && (forall i | 0 <= i < |items| && LastNaming(tags, items, suffix, bit, i) ::
           bit in r.bits <==> MeaningOf(tags, items[i], suffix).on)
      && ((forall i | 0 <= i < |items| :: !Names(tags, items[i], suffix, bit)) ==> (bit in r.bits <==> bit in l.bits))
    decreases |items|
  {
    if items != [] {
      hide MeaningOf;
      var more, now := items[1..], Apply(l, MeaningOf(tags, items[0], suffix));
      LastItemWins(tags, now, more, suffix, bit);
      var r := Fold(tags, l, items, suffix);
      forall i | 0 <= i < |items| && LastNaming(tags, items, suffix, bit, i)
        ensures bit in r.bits <==> MeaningOf(tags, items[i], suffix).on
      {
        if i > 0 {
          assert more[i - 1] == items[i];
          assert LastNaming(tags, more, suffix, bit, i - 1);
        } else {
          assert forall j | 0 <= j < |more| :: more[j] == items[j + 1];
        }
      }
      if forall i | 0 <= i < |items| :: !Names(tags, items[i], suffix, bit) {
        assert forall j | 0 <= j < |more| :: more[j] == items[j + 1];
      }
    }
  }

  // ----- what the items mean ----------------------------------------------------------------

  /** Commas separate the items. */
  lemma ItemsAreBetweenCommas(item: string, more: string)
    requires ',' !in item
    ensures Items(item) == [item]
    ensures Items(item + "," + more) == [item] + Items(more)
  {
    var s := item + "," + more;
    var n := Find(s, ',');
    assert s[|item|] == ',';
    assert n >= |item| by { assert forall i | 0 <= i < |item| :: s[i] == item[i] && item[i] in item; }
    assert forall i | 0 <= i < n :: s[..n][i] == s[i];
    assert n == |item|;
    assert s[..n] == item && s[n + 1..] == more;
    assert Find(item, ',') == |item|;
  }

  lemma FindTagIs(tags: seq<Tag>, i: nat)
    requires i < |tags| && forall j, k | 0 <= j < k < |tags| :: tags[j].name != tags[k].name
    ensures FindTag(tags, tags[i].name) == i
  {
  }

  /** A tag may be written with dashes for its underscores, and turned off by '-' or "no-". */
  lemma TagMeans(tags: seq<Tag>, i: nat, item: string, suffix: bool)
    requires i < |tags| && forall j, k | 0 <= j < k < |tags| :: tags[j].name != tags[k].name
    requires |item| >= 2 && Translate(item, '-', '_') == tags[i].name && item != "all"
    requires item[0] != '-' && !("no-" <= item)
    ensures MeaningOf(tags, item, suffix) == Switch({tags[i].flag}, true, false)
    ensures MeaningOf(tags, "no-" + item, suffix) == Switch({tags[i].flag}, false, false)
    ensures !suffix ==> MeaningOf(tags, "-" + item, suffix) == Switch({tags[i].flag}, false, false)
  {
    FindTagIs(tags, i);
    hide FindTag, Translate;
    assert ("no-" + item)[3..] == item && ("-" + item)[1..] == item;
  }

  /** "all" is every bit, in the same three forms. */
  lemma AllMeans(tags: seq<Tag>, suffix: bool)
    ensures MeaningOf(tags, "all", suffix) == Switch(AllBits(), true, true)
    ensures MeaningOf(tags, "no-all", suffix) == Switch(AllBits(), false, true)
    ensures MeaningOf(tags, "-all", false) == Switch(AllBits(), false, true)
  {
    assert "no-all"[3..] == "all" && "-all"[1..] == "all" && "no-all"[..3] == "no-";
  }

  /** How an item is made of a name and the sign that turns it off. */
  predicate Signs(item: string, suffix: bool, off: bool, name: string) {
    var dashed := !suffix && item != [] && item[0] == '-';
    if off then (dashed && item == "-" + name) || (!dashed && item == "no-" + name)
    else item == name && !dashed && !("no-" <= item)
  }

  /** An item means nothing exactly if it is shorter than two characters, or its name is neither "all" nor that of a tag. */
  lemma NothingExactly(tags: seq<Tag>, item: string, suffix: bool)
    ensures MeaningOf(tags, item, suffix) != Nothing <==>
            |item| >= 2 && exists off, name ::
              Signs(item, suffix, off, name) && (name == "all" || exists t | t in tags :: t.name == Translate(name, '-', '_'))
  {
    var (off, name) := Unsigned(item, suffix);
    SignsIs(item, suffix, off, name);
    assert Signs(item, suffix, off, name);
    hide Signs, Unsigned, Translate;
    var n := FindTag(tags, Translate(name, '-', '_'));
    assert n < |tags| ==> tags[n] in tags;
    forall t | t in tags && t.name == Translate(name, '-', '_') ensures n < |tags| {
      var j :| 0 <= j < |tags| && tags[j] == t;
    }
  }

  lemma SignsIs(item: string, suffix: bool, off: bool, name: string)
    requires (off, name) == Unsigned(item, suffix)
    ensures forall o, m :: Signs(item, suffix, o, m) <==> o == off && m == name
  {
    assert item != [] ==> item == [item[0]] + item[1..];
    assert "no-" <= item ==> item == "no-" + item[3..];
    forall m ensures ("no-" + m)[3..] == m && ("-" + m)[1..] == m && ("no-" <= "no-" + m) {
    }
  }

  /** Cutting the name at the size of the buffer does not make it the name of a tag. */
  lemma BufferedTag(tags: seq<Tag>, name: string)
    requires TableOk(tags)
    ensures FindTag(tags, Buffered(name, TEMP_SIZE, '-', '_')) == FindTag(tags, Translate(name, '-', '_'))
  {
    var cut, whole := Buffered(name, TEMP_SIZE, '-', '_'), Translate(name, '-', '_');
    var m, n := FindTag(tags, cut), FindTag(tags, whole);
    assert m < |tags| ==> tags[m] in tags;
    assert n < |tags| ==> tags[n] in tags;
  }
}

/** The parser of debug tags. */
module DebugTags {
  import opened DebugTagsSpec

  /** The two places where verbosity is kept. */
  class Verbosity {
    var verbose: Bits
    var base: bool

    function Abs(): Logs
      reads this
    {
      Logs(verbose, base)
    }

    constructor (l: Logs)
      ensures Abs() == l
    {
      verbose, base := l.bits, l.base;
    }
  }

  /** The items of what is left of a string, once one of them has been taken. */
  function Left(s: string, x: nat, suffix: bool): seq<string>
    requires x <= |s|
  {
    if x == |s| then [] else ItemsOf(s[x..], suffix)
  }

  /** What is left from the next item on has the same effect as what is left, but for that item. */
  lemma LeftIs(s: string, x: nat, suffix: bool, y: nat)
    requires x < |s|
    requires y == if suffix then |s| else x + Find(s[x..], ',')
    ensures Left(s, x, suffix) == [s[x..y]] + (if y < |s| then Items(s[y + 1..]) else [])
    ensures suffix ==> y == |s|
  {
    var t := s[x..];
    assert suffix || y == |s| ==> s[x..y] == t;
    if !suffix && y < |s| {
      assert t[..y - x] == s[x..y] && t[y - x + 1..] == s[y + 1..];
    }
  }

  method FindTagBit(tags: seq<Tag>, name: string) returns (bits: Bits)
    ensures var n := FindTag(tags, name); bits == if n < |tags| then {tags[n].flag} else {}
  {
    bits := {};
    var nn := 0;
    while nn < |tags|
      invariant nn <= |tags| && bits == {}
      invariant FindTag(tags, name) == nn + FindTag(tags[nn..], name)
    {
      if name == tags[nn].name {
        bits := {tags[nn].flag};
        break;
      }
      nn := nn + 1;
    }
  }

  /** One item, at positions x to y. */
  method ParseItem(tags: seq<Tag>, opt: string, x0: nat, y: nat, suffix: bool, v: Verbosity) returns (valid: bool)
    requires TableOk(tags) && x0 <= y <= |opt| && (y < |opt| ==> opt[y] == ',')
    modifies v
    ensures v.Abs() == Apply(old(v.Abs()), MeaningOf(tags, opt[x0..y], suffix))
    ensures valid <==> MeaningOf(tags, opt[x0..y], suffix) != Nothing
  {
    valid := false;
    if y > x0 + 1 {
      hide Unsigned, Apply, FindTag, Translate, TableOk;
      var remove, x := ParseSign(opt, x0, y, suffix);
      if opt[x..y] == "all" {
        valid := true;
        SetAll(v, remove);
      } else {
        BufferedTag(tags, opt[x..y]);
        var mask := FindTagBit(tags, Buffered(opt[x..y], TEMP_SIZE, '-', '_'));
        if mask != {} {
          valid := true;
          SetBits(v, mask, remove);
        }
      }
    }
  }

  /** What comes before the name in an item, and where the name begins. */
  method ParseSign(opt: string, x0: nat, y: nat, suffix: bool) returns (remove: bool, x: nat)
    requires x0 + 1 < y <= |opt| && (y < |opt| ==> opt[y] == ',')
    ensures x0 <= x <= y && (remove, opt[x..y]) == Unsigned(opt[x0..y], suffix)
  {
    remove, x := false, x0;
    NoPrefix(opt, x0, y);
    if !suffix && opt[x] == '-' {
      remove := true;
      x := x + 1;
    } else if |opt| >= x + 3 && opt[x..x + 3] == "no-" {
      remove := true;
      x := x + 3;
    }
  }

  method SetAll(v: Verbosity, remove: bool)
    modifies v
    ensures v.Abs() == Apply(old(v.Abs()), Switch(AllBits(), !remove, true))
  {
    v.base := !remove;
    v.verbose := if remove then {} else AllBits();
  }

  method SetBits(v: Verbosity, mask: Bits, remove: bool)
    modifies v
    ensures v.Abs() == Apply(old(v.Abs()), Switch(mask, !remove, false))
  {
    v.verbose := if remove then v.verbose - mask else v.verbose + mask;
  }

  /** The comparison with "no-" does not look past the comma. */
  lemma NoPrefix(opt: string, x: nat, y: nat)
    requires x <= y <= |opt| && (y < |opt| ==> opt[y] == ',')
    ensures "no-" <= opt[x..y] <==> |opt| >= x + 3 && opt[x..x + 3] == "no-"
  {
  }

  lemma FoldIs(tags: seq<Tag>, l: Logs, item: string, more: seq<string>, suffix: bool)
    ensures Fold(tags, l, [item] + more, suffix) == Fold(tags, Apply(l, MeaningOf(tags, item, suffix)), more, suffix)
    ensures AnyValid(tags, [item] + more, suffix) <==>
      MeaningOf(tags, item, suffix) != Nothing || AnyValid(tags, more, suffix)
  {
    hide MeaningOf, Apply;
    assert ([item] + more)[1..] == more;
    assert item in [item] + more;
    assert forall i | i in more :: i in [item] + more;
  }

  /** An empty string has no items, or an empty one: they mean the same. */
  lemma NoItems(tags: seq<Tag>, l: Logs, suffix: bool)
    ensures Fold(tags, l, ItemsOf("", suffix), suffix) == l == Fold(tags, l, [], suffix)
    ensures !AnyValid(tags, ItemsOf("", suffix), suffix) && !AnyValid(tags, [], suffix)
  {
    var none: seq<string> := [""];
    assert ItemsOf("", suffix) == none && none == [""] + [];
    FoldIs(tags, l, "", [], suffix);
  }

  lemma SplitItems(s: string)
    ensures ItemsOf(s, false) == Items(s)
  {
  }

  /** The value is read once, from left to right; it says whether any item was valid. */
  method ParseDebugTags(tags: seq<Tag>, opt: string, suffix: bool, v: Verbosity) returns (result: bool)
    requires TableOk(tags)
    modifies v
    ensures v.Abs() == Fold(tags, old(v.Abs()), ItemsOf(opt, suffix), suffix)
    ensures result <==> AnyValid(tags, ItemsOf(opt, suffix), suffix)
  {
    hide Fold, AnyValid, Apply, MeaningOf, Items, ItemsOf;
    result := false;
    var x := 0;
    NoItems(tags, v.Abs(), suffix);
    assert opt[0..] == opt;
    while x < |opt|
      invariant x <= |opt|
      invariant Fold(tags, v.Abs(), Left(opt, x, suffix), suffix) == Fold(tags, old(v.Abs()), ItemsOf(opt, suffix), suffix)
      invariant AnyValid(tags, ItemsOf(opt, suffix), suffix) <==> result || AnyValid(tags, Left(opt, x, suffix), suffix)
    {
      var y := if suffix then |opt| else x + Find(opt[x..], ',');
      ghost var before := v.Abs();
      ghost var more := if y < |opt| then Items(opt[y + 1..]) else [];
      LeftIs(opt, x, suffix, y);
      FoldIs(tags, before, opt[x..y], more, suffix);
      var valid := ParseItem(tags, opt, x, y, suffix, v);
      if valid { result := true; }
      NoItems(tags, v.Abs(), suffix);
      x := if y < |opt| then y + 1 else y;
      SplitItems(opt[x..]);
      assert x == |opt| ==> opt[x..] == "";
    }
    NoItems(tags, v.Abs(), suffix);
  }
}
