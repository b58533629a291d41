/** What a command line asks for: its options read one after another, up to the first other word. */
module CmdlineOptionSpec {
  import opened AsyncIoCommon
  import opened DebugTagsSpec

  datatype Kind = Flag | Param | List

  /** An option: its name, with underscores, and whether a value goes with it. */
  datatype Info = Info(name: string, kind: Kind)

  const NAME_SIZE := 64

  /**
   The table of options.  Names are distinct, use underscores for dashes and fit in the buffer they
   are compared in; the words that are read before the table is consulted are none of them.
   */
  predicate TableOk(table: seq<Info>, avd: nat) {
    && (forall i | 0 <= i < |table| :: NameOk(table[i].name))
    && (forall i, j | 0 <= i < j < |table| :: table[i].name != table[j].name)
    && avd < |table| && table[avd].kind == Param
  }

  predicate NameOk(name: string) {
    && 0 < |name| < NAME_SIZE && '-' !in name
    && name != "verbose" && name != "debug" && !("debug_" <= name)
  }

  function FindOption(table: seq<Info>, name: string): (n: nat)
    ensures n <= |table| && (n < |table| ==> table[n].name == name)
    ensures forall i | 0 <= i < n :: table[i].name != name
  {
    if table == [] || table[0].name == name then 0 else 1 + FindOption(table[1..], name)
  }

  // ----- reading ----------------------------------------------------------------------------

  /** What one option says. */
  datatype Piece =
    | SetFlag(i: nat)
    | SetParam(i: nat, value: string)
    | AddItem(i: nat, value: string)
    | Debug(tags: string, suffix: bool)
    | Verbose

  /** Reading ends at the first word that is no option, or for want of a value. */
  datatype End = Stopped | NoTags | NoValue

  datatype Walk = Walk(pieces: seq<Piece>, rest: seq<string>, end: End)

  /** What the first words say, and how many they are; 0 if reading ends here. */
  datatype First = First(words: nat, piece: Piece) | Ends(end: End)

  function ReadFirst(table: seq<Info>, avd: nat, args: seq<string>): (r: First)
    ensures r.First? ==> 1 <= r.words <= |args|
  {
    if args == [] || args[0] == "" then Ends(Stopped)
    else if args[0][0] == '@' then First(1, SetParam(avd, args[0][1..]))
    else if args[0][0] != '-' || '_' in args[0][1..] then Ends(Stopped)
    else ReadOption(table, args[0][1..], args[1..])
  }

  /** An option, without its dash, and the words after it. */
  function ReadOption(table: seq<Info>, arg: string, more: seq<string>): (r: First)
    ensures r.First? ==> 1 <= r.words <= |more| + 1
  {
    if arg == "verbose" then First(1, Verbose)
    else if arg == "debug" then if more == [] then Ends(NoTags) else First(2, Debug(more[0], false))
    else if "debug-" <= arg then First(1, Debug(arg[6..], true))
    else
      var n := FindOption(table, Buffered(arg, NAME_SIZE, '-', '_'));
      if n == |table| then Ends(Stopped)
      else if table[n].kind == Flag then First(1, SetFlag(n))
      else if more == [] then Ends(NoValue)
      else First(2, if table[n].kind == Param then SetParam(n, more[0]) else AddItem(n, more[0]))
  }

  function Read(table: seq<Info>, avd: nat, args: seq<string>): Walk
    decreases |args|
  {
    match ReadFirst(table, avd, args)
    case Ends(end) => Walk([], args, end)
    case First(words, piece) =>
      var w := Read(table, avd, args[words..]);
      w.(pieces := [piece] + w.pieces)
  }

  // ----- what the pieces add up to ------------------------------------------------------------

  predicate FlagOn(ps: seq<Piece>, i: nat) {
    SetFlag(i) in ps
  }

  /** The last value given to a parameter. */
  function LastParam(ps: seq<Piece>, i: nat): Option<string> {
    if ps == [] then None
    else
      var p := ps[|ps| - 1];
      if p.SetParam? && p.i == i then Some(p.value) else LastParam(ps[..|ps| - 1], i)
  }

  /** All values given to a list, in the order of the command line. */
  function ListOf(ps: seq<Piece>, i: nat): seq<string> {
    if ps == [] then []
    else
      var p := ps[|ps| - 1];
      ListOf(ps[..|ps| - 1], i) + if p.AddItem? && p.i == i then [p.value] else []
  }

  /** "-verbose" stands for "-debug-init" and makes the base library verbose. */
  function LogsOf(tags: seq<Tag>, l: Logs, p: Piece): Logs {
    match p
    case Debug(s, suffix) => Fold(tags, l, ItemsOf(s, suffix), suffix)
    case Verbose => Fold(tags, l.(base := true), ItemsOf("init", true), true)
    case _ => l
  }

  function AllLogs(tags: seq<Tag>, l: Logs, ps: seq<Piece>): Logs {
    if ps == [] then l else LogsOf(tags, AllLogs(tags, l, ps[..|ps| - 1]), ps[|ps| - 1])
  }

  /** One field of the option record. */
  datatype Field = Field(on: bool, param: Option<string>, items: seq<string>)

  function FieldOf(ps: seq<Piece>, i: nat): Field {
    Field(FlagOn(ps, i), LastParam(ps, i), ListOf(ps, i))
  }

  /** The words consumed and the words left over are the command line, in order. */
  lemma {:induction false} NothingIsLost(table: seq<Info>, avd: nat, args: seq<string>)
    ensures var w := Read(table, avd, args); |w.rest| <= |args| && w.rest == args[|args| - |w.rest|..]
    decreases |args|
  {
    var f := ReadFirst(table, avd, args);
    if f.First? {
      NothingIsLost(table, avd, args[f.words..]);
      var rest := Read(table, avd, args[f.words..]).rest;
      var k := |args| - |rest|;
      assert args[k..] == args[f.words..][k - f.words..];
    }
  }

  /** Nothing is left over that could still be read. */
  lemma {:induction false} ReadsAsFarAsItCan(table: seq<Info>, avd: nat, args: seq<string>)
    ensures var w := Read(table, avd, args); ReadFirst(table, avd, w.rest) == Ends(w.end)
    decreases |args|
  {
    var f := ReadFirst(table, avd, args);
    if f.First? { ReadsAsFarAsItCan(table, avd, args[f.words..]); }
  }

  // ----- round trip ---------------------------------------------------------------------------

  /** How an option is written: its name with dashes. */
  function Written(name: string): string {
    "-" + Translate(name, '_', '-')
  }

  /** A field of the kind its option is. */
  predicate FieldOk(kind: Kind, f: Field) {
    && (kind != Flag ==> !f.on)
    && (kind != Param ==> f.param == None)
    && (kind != List ==> f.items == [])
  }

  function RenderItems(name: string, items: seq<string>): seq<string> {
    if items == [] then [] else [Written(name), items[0]] + RenderItems(name, items[1..])
  }

  function RenderField(name: string, f: Field): seq<string> {
    (if f.on then [Written(name)] else [])
    + (match f.param case None => [] case Some(v) => [Written(name), v])
    + RenderItems(name, f.items)
  }

  /** A command line that asks for the fields from number `i` on. */
  function Render(table: seq<Info>, opts: seq<Field>, i: nat): seq<string>
    requires |opts| == |table|
    decreases |opts| - i
  {
    if i >= |opts| then [] else RenderField(table[i].name, opts[i]) + Render(table, opts, i + 1)
  }

  function ItemPieces(i: nat, items: seq<string>): seq<Piece> {
    if items == [] then [] else [AddItem(i, items[0])] + ItemPieces(i, items[1..])
  }

  function FieldPieces(i: nat, f: Field): seq<Piece> {
    (if f.on then [SetFlag(i)] else [])
    + (match f.param case None => [] case Some(v) => [SetParam(i, v)])
    + ItemPieces(i, f.items)
  }

  function Pieces(opts: seq<Field>, i: nat): seq<Piece>
    decreases |opts| - i
  {
    if i >= |opts| then [] else FieldPieces(i, opts[i]) + Pieces(opts, i + 1)
  }

  /** Dashes for underscores, and back again. */
  lemma DashedAndBack(name: string)
    requires '-' !in name
    ensures Translate(Translate(name, '_', '-'), '-', '_') == name
    ensures '_' !in Translate(name, '_', '-')
  {
    assert forall k | 0 <= k < |name| :: name[k] in name;
  }

  lemma ReservedWords(arg: string)
    ensures arg == "verbose" ==> Translate(arg, '-', '_') == "verbose"
    ensures arg == "debug" ==> Translate(arg, '-', '_') == "debug"
    ensures "debug-" <= arg ==> "debug_" <= Translate(arg, '-', '_')
  {
    var t := Translate(arg, '-', '_');
    if "debug-" <= arg {
      assert forall k | 0 <= k < 6 :: arg[k] == "debug-"[k];
    }
  }

  lemma FindOptionIs(table: seq<Info>, i: nat)
    requires i < |table| && forall j, k | 0 <= j < k < |table| :: table[j].name != table[k].name
    ensures FindOption(table, table[i].name) == i
  {
  }

  lemma WrittenIsFound(table: seq<Info>, avd: nat, i: nat)
    requires TableOk(table, avd) && i < |table|
    ensures var arg := Written(table[i].name)[1..];
      && arg == Translate(table[i].name, '_', '-')
      && arg != "verbose" && arg != "debug" && !("debug-" <= arg) && '_' !in arg
      && FindOption(table, Buffered(arg, NAME_SIZE, '-', '_')) == i
  {
    var name := table[i].name;
    assert NameOk(name);
    DashedAndBack(name);
    FindOptionIs(table, i);
    hide TableOk, FindOption;
    var arg := Translate(name, '_', '-');
    assert Written(name)[1..] == arg;
    ReservedWords(arg);
  }

  lemma ReadWritten(table: seq<Info>, avd: nat, i: nat, words: seq<string>)
    requires TableOk(table, avd) && i < |table| && words != [] && words[0] == Written(table[i].name)
    ensures ReadFirst(table, avd, words) ==
      match table[i].kind
      case Flag => First(1, SetFlag(i))
      case Param => if |words| == 1 then Ends(NoValue) else First(2, SetParam(i, words[1]))
      case List => if |words| == 1 then Ends(NoValue) else First(2, AddItem(i, words[1]))
  {
    WrittenIsFound(table, avd, i);
    hide TableOk, FindOption;
  }

  /** A walk with more pieces before it. */
  function Before(ps: seq<Piece>, w: Walk): Walk {
    w.(pieces := ps + w.pieces)
  }

  lemma BeforeBefore(ps: seq<Piece>, qs: seq<Piece>, w: Walk)
    ensures Before(ps, Before(qs, w)) == Before(ps + qs, w)
    ensures Before([], w) == w
  {
    assert ps + (qs + w.pieces) == ps + qs + w.pieces;
  }

  lemma ReadFlag(table: seq<Info>, avd: nat, i: nat, more: seq<string>)
    requires TableOk(table, avd) && i < |table| && table[i].kind == Flag
    ensures Read(table, avd, [Written(table[i].name)] + more) == Before([SetFlag(i)], Read(table, avd, more))
  {
    var words := [Written(table[i].name)] + more;
    ReadWritten(table, avd, i, words);
    assert words[1..] == more;
    hide TableOk, ReadFirst, Written;
  }

  lemma ReadValue(table: seq<Info>, avd: nat, i: nat, v: string, more: seq<string>)
    requires TableOk(table, avd) && i < |table| && table[i].kind != Flag
    ensures Read(table, avd, [Written(table[i].name), v] + more) ==
      Before([if table[i].kind == Param then SetParam(i, v) else AddItem(i, v)], Read(table, avd, more))
  {
    var words := [Written(table[i].name), v] + more;
    ReadWritten(table, avd, i, words);
    assert words[2..] == more;
    hide TableOk, ReadFirst, Written;
  }

  lemma {:induction false} ReadItems(table: seq<Info>, avd: nat, i: nat, items: seq<string>, more: seq<string>)
    requires TableOk(table, avd) && i < |table| && (items == [] || table[i].kind == List)
    ensures Read(table, avd, RenderItems(table[i].name, items) + more) ==
      Before(ItemPieces(i, items), Read(table, avd, more))
    decreases |items|
  {
    hide TableOk, ReadFirst, Written, Read, Before;
    var name := table[i].name;
    if items == [] {
      assert RenderItems(name, items) + more == more;
      BeforeBefore([], [], Read(table, avd, more));
    } else {
      var later := RenderItems(name, items[1..]) + more;
      assert RenderItems(name, items) + more == [Written(name), items[0]] + later;
      ReadValue(table, avd, i, items[0], later);
      ReadItems(table, avd, i, items[1..], more);
      BeforeBefore([AddItem(i, items[0])], ItemPieces(i, items[1..]), Read(table, avd, more));
    }
  }

  lemma FieldShapes(kind: Kind, name: string, i: nat, f: Field)
    requires FieldOk(kind, f)
    ensures kind == List ==> RenderField(name, f) == RenderItems(name, f.items) && FieldPieces(i, f) == ItemPieces(i, f.items)
    ensures kind == Flag && f.on ==> RenderField(name, f) == [Written(name)] && FieldPieces(i, f) == [SetFlag(i)]
    ensures kind == Param && f.param.Some? ==>
      RenderField(name, f) == [Written(name), f.param.value] && FieldPieces(i, f) == [SetParam(i, f.param.value)]
    ensures !f.on && f.param == None && f.items == [] ==> RenderField(name, f) == [] && FieldPieces(i, f) == []
  {
    hide Written;
  }

  lemma ReadField(table: seq<Info>, avd: nat, i: nat, f: Field, more: seq<string>)
    requires TableOk(table, avd) && i < |table| && FieldOk(table[i].kind, f)
    ensures Read(table, avd, RenderField(table[i].name, f) + more) == Before(FieldPieces(i, f), Read(table, avd, more))
  {
    hide TableOk, ReadFirst, Written, Read, Before, RenderField, FieldPieces;
    var name := table[i].name;
    FieldShapes(table[i].kind, name, i, f);
    BeforeBefore([], [], Read(table, avd, more));
    assert [] + more == more;
    match table[i].kind
    case List => ReadItems(table, avd, i, f.items, more);
    case Flag => if f.on { ReadFlag(table, avd, i, more); }
    case Param => if f.param.Some? { ReadValue(table, avd, i, f.param.value, more); }
  }

  predicate OptsOk(table: seq<Info>, opts: seq<Field>) {
    |opts| == |table| && forall i | 0 <= i < |table| :: FieldOk(table[i].kind, opts[i])
  }

  lemma {:induction false} ReadRendered(table: seq<Info>, avd: nat, opts: seq<Field>, tail: seq<string>, i: nat)
    requires TableOk(table, avd) && OptsOk(table, opts) && ReadFirst(table, avd, tail) == Ends(Stopped)
    ensures Read(table, avd, Render(table, opts, i) + tail) == Before(Pieces(opts, i), Walk([], tail, Stopped))
    decreases |opts| - i
  {
    hide TableOk, ReadFirst, RenderField, FieldPieces, Before;
    if i >= |opts| {
      assert Render(table, opts, i) + tail == tail;
      BeforeBefore([], [], Walk([], tail, Stopped));
    } else {
      var head, more := RenderField(table[i].name, opts[i]), Render(table, opts, i + 1);
      assert (head + more) + tail == head + (more + tail);
      ReadRendered(table, avd, opts, tail, i + 1);
      hide Read;
      ReadField(table, avd, i, opts[i], more + tail);
      BeforeBefore(FieldPieces(i, opts[i]), Pieces(opts, i + 1), Walk([], tail, Stopped));
    }
  }

  // Pieces put together.

  lemma {:induction false} LastParamOf(a: seq<Piece>, b: seq<Piece>, i: nat)
    ensures LastParam(a + b, i) == if LastParam(b, i).Some? then LastParam(b, i) else LastParam(a, i)
    decreases |b|
  {
    if b == [] {
      assert a + b == a;
    } else {
      assert (a + b)[..|a + b| - 1] == a + b[..|b| - 1];
      LastParamOf(a, b[..|b| - 1], i);
    }
  }

  lemma {:induction false} ListOfBoth(a: seq<Piece>, b: seq<Piece>, i: nat)
    ensures ListOf(a + b, i) == ListOf(a, i) + ListOf(b, i)
    decreases |b|
  {
    if b == [] {
      assert a + b == a;
    } else {
      assert (a + b)[..|a + b| - 1] == a + b[..|b| - 1];
      ListOfBoth(a, b[..|b| - 1], i);
    }
  }

  lemma FieldOfOne(p: Piece, i: nat)
    ensures FieldOf([p], i) == Field(
      p == SetFlag(i),
      if p.SetParam? && p.i == i then Some(p.value) else None,
      if p.AddItem? && p.i == i then [p.value] else [])
  {
    assert [p][..0] == [];
    assert LastParam([], i) == None;
    assert ListOf([p], i) == ListOf([], i) + (if p.AddItem? && p.i == i then [p.value] else []);
  }

  lemma FieldOfBoth(a: seq<Piece>, b: seq<Piece>, i: nat)
    ensures var f, g := FieldOf(a, i), FieldOf(b, i);
      FieldOf(a + b, i) == Field(f.on || g.on, if g.param.Some? then g.param else f.param, f.items + g.items)
  {
    LastParamOf(a, b, i);
    ListOfBoth(a, b, i);
  }

  lemma {:induction false} FieldOfItems(i: nat, items: seq<string>, k: nat)
    ensures FieldOf(ItemPieces(i, items), k) == Field(false, None, if k == i then items else [])
    decreases |items|
  {
    if items != [] {
      FieldOfOne(AddItem(i, items[0]), k);
      FieldOfItems(i, items[1..], k);
      FieldOfBoth([AddItem(i, items[0])], ItemPieces(i, items[1..]), k);
    }
  }

  lemma FieldOfField(kind: Kind, i: nat, f: Field, k: nat)
    requires FieldOk(kind, f)
    ensures FieldOf(FieldPieces(i, f), k) == if k == i then f else Field(false, None, [])
  {
    hide FieldOf;
    FieldOfItems(i, f.items, k);
    match kind
    case List => assert FieldPieces(i, f) == ItemPieces(i, f.items);
    case Flag =>
      if f.on {
        assert FieldPieces(i, f) == [SetFlag(i)];
        FieldOfOne(SetFlag(i), k);
      } else {
        assert FieldPieces(i, f) == ItemPieces(i, []);
      }
    case Param =>
      if f.param.Some? {
        assert FieldPieces(i, f) == [SetParam(i, f.param.value)];
        FieldOfOne(SetParam(i, f.param.value), k);
      } else {
        assert FieldPieces(i, f) == ItemPieces(i, []);
      }
  }

  lemma {:induction false} FieldOfAll(table: seq<Info>, opts: seq<Field>, i: nat, k: nat)
    requires OptsOk(table, opts) && k < |opts|
    ensures FieldOf(Pieces(opts, i), k) == if k >= i then opts[k] else Field(false, None, [])
    decreases |opts| - i
  {
    hide FieldOf, FieldPieces, FieldOk;
    if i < |opts| {
      FieldOfField(table[i].kind, i, opts[i], k);
      FieldOfAll(table, opts, i + 1, k);
      FieldOfBoth(FieldPieces(i, opts[i]), Pieces(opts, i + 1), k);
      assert opts[k].items + [] == opts[k].items && [] + opts[k].items == opts[k].items;
    } else {
      FieldOfItems(k, [], k);
    }
  }

  /**
   Every option record, written out as a command line and followed by words that are no options,
   is read back as it was, and those words are left over.
   */
  lemma {:induction false} RenderParseRoundTrip(table: seq<Info>, avd: nat, opts: seq<Field>, tail: seq<string>)
    requires TableOk(table, avd) && OptsOk(table, opts) && ReadFirst(table, avd, tail) == Ends(Stopped)
    ensures var w := Read(table, avd, Render(table, opts, 0) + tail);
      && w.rest == tail && w.end == Stopped
      && forall k | 0 <= k < |opts| :: FieldOf(w.pieces, k) == opts[k]
  {
    ReadRendered(table, avd, opts, tail, 0);
    assert Pieces(opts, 0) + [] == Pieces(opts, 0);
    forall k | 0 <= k < |opts| ensures FieldOf(Pieces(opts, 0), k) == opts[k] {
      FieldOfAll(table, opts, 0, k);
    }
  }

  /** The last value of a parameter wins, and there is none only if none was given. */
  lemma {:induction false} LastValueWins(ps: seq<Piece>, i: nat)
    ensures forall k | 0 <= k < |ps| && LastSetting(ps, i, k) :: LastParam(ps, i) == Some(ps[k].value)
    ensures LastParam(ps, i) == None <==> forall k | 0 <= k < |ps| :: !Sets(ps[k], i)
    decreases |ps|
  {
    if ps != [] {
      var before := ps[..|ps| - 1];
      LastValueWins(before, i);
      forall k | 0 <= k < |ps| && LastSetting(ps, i, k) ensures LastParam(ps, i) == Some(ps[k].value) {
        if k < |before| { assert LastSetting(before, i, k) && before[k] == ps[k]; }
      }
      assert forall k | 0 <= k < |before| :: before[k] == ps[k];
    }
  }

  predicate Sets(p: Piece, i: nat) {
    p.SetParam? && p.i == i
  }

  predicate LastSetting(ps: seq<Piece>, i: nat, k: nat)
    requires k < |ps|
  {
    Sets(ps[k], i) && forall j | k < j < |ps| :: !Sets(ps[j], i)
  }

  /** "@name" says what "-avd name" says. */
  lemma AtNameIsAvd(table: seq<Info>, avd: nat, name: string, more: seq<string>)
    requires TableOk(table, avd)
    ensures Read(table, avd, ["@" + name] + more) == Read(table, avd, [Written(table[avd].name), name] + more)
  {
    ReadValue(table, avd, avd, name, more);
    var words := ["@" + name] + more;
    assert words[1..] == more && ("@" + name)[1..] == name;
    hide TableOk, Written;
  }
}
