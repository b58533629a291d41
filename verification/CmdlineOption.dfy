/** The option parser of cmdline-option.cpp: argv compacted in place, lists reversed in place. */
module CmdlineOption {
  import opened AsyncIoCommon
  import opened DebugTagsSpec
  import opened DebugTags
  import opened CmdlineOptionSpec

  /** One value of a list option. */
  class ParamList {
    const param: string
    var next: ParamList?

    constructor (param: string, next: ParamList?)
      ensures this.param == param && this.next == next
    {
      this.param, this.next := param, next;
    }
  }

  ghost function At(nodes: seq<ParamList>, i: nat): ParamList? {
    if i < |nodes| then nodes[i] else null
  }

  ghost predicate Chain(head: ParamList?, nodes: seq<ParamList>)
    reads set n | n in nodes
  {
    && head == At(nodes, 0)
    && (forall i | 0 <= i < |nodes| :: nodes[i].next == At(nodes, i + 1))
    && (forall i, j | 0 <= i < j < |nodes| :: nodes[i] != nodes[j])
  }

  ghost function Params(nodes: seq<ParamList>): seq<string> {
    seq(|nodes|, i requires 0 <= i < |nodes| => nodes[i].param)
  }

  ghost function Reversed<T>(s: seq<T>): (r: seq<T>)
    ensures |r| == |s| && forall i | 0 <= i < |s| :: r[i] == s[|s| - 1 - i]
  {
    seq(|s|, i requires 0 <= i < |s| => s[|s| - 1 - i])
  }

  ghost function Prev(nodes: seq<ParamList>, i: nat): ParamList?
    requires i <= |nodes|
  {
    if i == 0 then null else nodes[i - 1]
  }

  lemma TurnedRound(nodes: seq<ParamList>, rev: ParamList?)
    requires forall i | 0 <= i < |nodes| :: nodes[i].next == Prev(nodes, i)
    requires forall i, j | 0 <= i < j < |nodes| :: nodes[i] != nodes[j]
    requires rev == Prev(nodes, |nodes|)
    ensures Chain(rev, Reversed(nodes))
  {
    var r := Reversed(nodes);
    forall i | 0 <= i < |r| ensures r[i].next == At(r, i + 1) {
      var j := |nodes| - 1 - i;
      assert r[i] == nodes[j] && nodes[j].next == Prev(nodes, j);
    }
  }

  lemma ReversedMore<T>(s: seq<T>, x: T)
    ensures Reversed(s + [x]) == [x] + Reversed(s)
  {
  }

  lemma ParamsOf(nodes: seq<ParamList>, node: ParamList)
    ensures Params([node] + nodes) == [node.param] + Params(nodes)
  {
  }

  lemma SameNodes(nodes: seq<ParamList>)
    ensures forall n :: n in Reversed(nodes) <==> n in nodes
  {
    var r := Reversed(nodes);
    forall n | n in nodes ensures n in r {
      var i :| 0 <= i < |nodes| && nodes[i] == n;
      assert r[|nodes| - 1 - i] == n;
    }
  }

  lemma TurnedItems(nodes: seq<ParamList>, items: seq<string>)
    requires Params(nodes) == Reversed(items)
    ensures Params(Reversed(nodes)) == items
  {
    assert Params(Reversed(nodes)) == Reversed(Params(nodes));
    assert Reversed(Reversed(items)) == items;
  }

  /** A list is reversed by turning its pointers round. */
  method Reverse(head: ParamList?, ghost nodes: seq<ParamList>) returns (rev: ParamList?)
    requires Chain(head, nodes)
    modifies set n | n in nodes
    ensures Chain(rev, Reversed(nodes))
  {
    var prev: ParamList? := null;
    var cur := head;
    ghost var k := 0;
    while cur != null
      invariant k <= |nodes| && cur == At(nodes, k)
      invariant prev == Prev(nodes, k)
      invariant forall i | 0 <= i < k :: nodes[i].next == Prev(nodes, i)
      invariant forall i | k <= i < |nodes| :: nodes[i].next == At(nodes, i + 1)
      decreases |nodes| - k
    {
      var next := cur.next;
      cur.next := prev;
      prev := cur;
      cur := next;
      k := k + 1;
    }
    rev := prev;
    TurnedRound(nodes, rev);
  }

  /** The option record, field by field of the table. */
  class AndroidOptions {
    const flags: array<bool>
    const params: array<Option<string>>
    const lists: array<ParamList?>
    ghost var chains: seq<seq<ParamList>>

    ghost function Nodes(): set<ParamList>
      reads this
    {
      set i, n | 0 <= i < |chains| && n in chains[i] :: n
    }

    /** Every list is a chain, and no two lists share a node. */
    ghost predicate Chained()
      reads this, lists, Nodes()
    {
      && |chains| == lists.Length
      && (forall i | 0 <= i < |chains| :: Chain(lists[i], chains[i]))
      && (forall i, j, n | 0 <= i < |chains| && 0 <= j < |chains| && n in chains[i] && n in chains[j] :: i == j)
    }

    /** The record is what the pieces amount to; while they are read, lists are back to front. */
    ghost predicate Shows(ps: seq<Piece>, i: nat, backwards: bool)
      requires i < flags.Length == params.Length == lists.Length == |chains|
      reads this, flags, params
    {
      var f := FieldOf(ps, i);
      Field(flags[i], params[i], Params(chains[i])) == if backwards then f.(items := Reversed(f.items)) else f
    }

    ghost predicate Valid(table: seq<Info>)
      reads this, lists, Nodes()
    {
      && flags.Length == params.Length == lists.Length == |table|
      && Chained()
      && forall i | 0 <= i < |table| && table[i].kind != List :: chains[i] == []
    }

    ghost predicate Holds(table: seq<Info>, ps: seq<Piece>)
      reads this, flags, params, lists, Nodes()
    {
      Valid(table) && forall i | 0 <= i < |table| :: Shows(ps, i, true)
    }

    constructor (n: nat)
      ensures fresh(flags) && fresh(params) && fresh(lists)
      ensures flags.Length == params.Length == lists.Length == n
    {
      flags := new bool[n];
      params := new Option<string>[n](_ => None);
      lists := new ParamList?[n](_ => null);
      chains := [];
    }

    /** Everything is cleared, whatever was there. */
    method Clear(table: seq<Info>)
      requires flags.Length == params.Length == lists.Length == |table|
      modifies this, flags, params, lists
      ensures Holds(table, []) && Nodes() == {}
    {
      forall i | 0 <= i < flags.Length { flags[i] := false; }
      forall i | 0 <= i < params.Length { params[i] := None; }
      forall i | 0 <= i < lists.Length { lists[i] := null; }
      chains := seq(lists.Length, _ => []);
    }

    method SetFlag(table: seq<Info>, i: nat, ghost ps: seq<Piece>)
      requires Holds(table, ps) && i < |table|
      modifies flags
      ensures Holds(table, ps + [Piece.SetFlag(i)])
    {
      hide FieldOf;
      flags[i] := true;
      More(table, ps, Piece.SetFlag(i));
      forall k | 0 <= k < |table| ensures Shows(ps + [Piece.SetFlag(i)], k, true) {
        assert old(Shows(ps, k, true));
      }
    }

    method SetParam(table: seq<Info>, i: nat, value: string, ghost ps: seq<Piece>)
      requires Holds(table, ps) && i < |table|
      modifies params
      ensures Holds(table, ps + [Piece.SetParam(i, value)])
    {
      hide FieldOf;
      params[i] := Some(value);
      More(table, ps, Piece.SetParam(i, value));
      forall k | 0 <= k < |table| ensures Shows(ps + [Piece.SetParam(i, value)], k, true) {
        assert old(Shows(ps, k, true));
      }
    }

    /** One more piece changes one field at most. */
    static lemma More(table: seq<Info>, ps: seq<Piece>, p: Piece)
      ensures forall i: nat | i < |table| :: FieldOf(ps + [p], i) == With(FieldOf(ps, i), p, i)
    {
      forall i: nat | i < |table| ensures FieldOf(ps + [p], i) == With(FieldOf(ps, i), p, i) {
        FieldOfBoth(ps, [p], i);
        FieldOfOne(p, i);
        hide FieldOf;
        assert FieldOf(ps, i).items + [] == FieldOf(ps, i).items;
      }
    }

    static ghost function With(f: Field, p: Piece, i: nat): Field {
      match p
      case SetFlag(k) => if k == i then f.(on := true) else f
      case SetParam(k, v) => if k == i then f.(param := Some(v)) else f
      case AddItem(k, v) => if k == i then f.(items := f.items + [v]) else f
      case _ => f
    }

    /** A value goes to the front of its list. */
    method AddItem(table: seq<Info>, i: nat, value: string, ghost ps: seq<Piece>)
      requires Holds(table, ps) && i < |table| && table[i].kind == List
      modifies this, lists
      ensures Holds(table, ps + [Piece.AddItem(i, value)])
      ensures fresh(Nodes() - old(Nodes()))
    {
      hide FieldOf;
      var pl := new ParamList(value, lists[i]);
      ParamsOf(chains[i], pl);
      ReversedMore(FieldOf(ps, i).items, value);
      lists[i] := pl;
      chains := chains[i := [pl] + chains[i]];
      More(table, ps, Piece.AddItem(i, value));
      forall k | 0 <= k < |table| ensures Shows(ps + [Piece.AddItem(i, value)], k, true) {
        assert old(Shows(ps, k, true));
      }
    }

    /** What only concerns the logs leaves the record as it is. */
    lemma NotMine(table: seq<Info>, ps: seq<Piece>, p: Piece)
      requires Holds(table, ps) && (p.Debug? || p.Verbose?)
      ensures Holds(table, ps + [p])
    {
      hide FieldOf;
      More(table, ps, p);
      forall k | 0 <= k < |table| ensures Shows(ps + [p], k, true) {
        assert Shows(ps, k, true);
      }
    }

    /** The lists before number `i` are turned round, the others are back to front. */
    ghost predicate Turned(table: seq<Info>, ps: seq<Piece>, i: nat)
      reads this, flags, params, lists, Nodes()
    {
      && Valid(table)
      && (forall k | 0 <= k < |table| && k < i :: Shows(ps, k, false))
      && (forall k | 0 <= k < |table| && i <= k :: Shows(ps, k, true))
    }

    /** In the end every list is turned round, into the order of the command line. */
    method ReverseLists(table: seq<Info>, ghost ps: seq<Piece>)
      requires Holds(table, ps)
      modifies this, lists, Nodes()
      ensures Turned(table, ps, |table|)
    {
      assert Turned(table, ps, 0) && |table| == lists.Length;
      hide FieldOf, Shows, Valid;
      ghost var nodes := Nodes();
      var i := 0;
      while i < |table|
        invariant i <= |table| && Nodes() == nodes
        invariant Turned(table, ps, i)
      {
        TurnNext(table, i, ps);
        i := i + 1;
      }
    }

    method TurnNext(table: seq<Info>, i: nat, ghost ps: seq<Piece>)
      requires Turned(table, ps, i) && i < |table|
      modifies this, lists, Nodes()
      ensures Turned(table, ps, i + 1) && Nodes() == old(Nodes())
    {
      if table[i].kind == List {
        InNodes(i);
        hide FieldOf, Chain;
        ghost var was := chains;
        ReverseAt(table, i, ps);
        forall k | 0 <= k < |table| && k < i ensures Shows(ps, k, false) {
          assert chains[k] == was[k] && old(Shows(ps, k, false));
        }
        forall k | 0 <= k < |table| && i < k ensures Shows(ps, k, true) {
          assert chains[k] == was[k] && old(Shows(ps, k, true));
        }
      } else {
        assert Shows(ps, i, true) && chains[i] == [];
        NoItems(ps, i);
      }
    }

    lemma InNodes(i: nat)
      requires i < |chains|
      ensures forall n | n in chains[i] :: n in Nodes()
    {
    }

    method ReverseAt(table: seq<Info>, i: nat, ghost ps: seq<Piece>)
      requires Valid(table) && i < |table| && Shows(ps, i, true)
      modifies this, lists, set n | n in chains[i]
      ensures Valid(table) && Shows(ps, i, false) && Nodes() == old(Nodes())
      ensures chains == old(chains)[i := Reversed(old(chains[i]))]
    {
      hide FieldOf, Chain;
      ghost var was := chains;
      ghost var turned := Reversed(chains[i]);
      SameNodes(was[i]);
      var rev := Reverse(lists[i], chains[i]);
      forall j | 0 <= j < |was| && j != i ensures Chain(lists[j], was[j]) {
        assert old(Chain(lists[j], was[j]));
        assert forall n | n in was[j] :: n !in was[i];
      }
      lists[i] := rev;
      chains := was[i := turned];
      assert forall j | 0 <= j < |was| :: forall n :: n in chains[j] <==> n in was[j];
      TurnedItems(was[i], FieldOf(ps, i).items);
    }

    /** A list that takes no values has none. */
    lemma NoItems(ps: seq<Piece>, i: nat)
      requires i < flags.Length == params.Length == lists.Length == |chains| && Shows(ps, i, true) && chains[i] == []
      ensures Shows(ps, i, false)
    {
      hide FieldOf;
      assert |FieldOf(ps, i).items| == 0;
    }
  }

  method Lookup(table: seq<Info>, name: string) returns (n: nat)
    ensures n == FindOption(table, name)
  {
    n := 0;
    while n < |table|
      invariant n <= |table| && FindOption(table, name) == n + FindOption(table[n..], name)
    {
      if table[n].name == name { return; }
      n := n + 1;
    }
  }

  /** The words of an argument vector between two positions. */
  ghost predicate WordsAt(argv: array<Option<string>>, from: nat, words: seq<string>)
    reads argv
  {
    from + |words| <= argv.Length && forall i | 0 <= i < |words| :: argv[from + i] == Some(words[i])
  }

  /** One option is read, and takes effect; or reading ends.  `words` is what is left to read. */
  method ReadWord(table: seq<Info>, tags: seq<Tag>, avd: nat, argv: array<Option<string>>, aread: nat, nargs: nat,
    opt: AndroidOptions, v: Verbosity, ghost ps: seq<Piece>, ghost words: seq<string>)
    returns (count: nat, end: End)
    requires CmdlineOptionSpec.TableOk(table, avd) && DebugTagsSpec.TableOk(tags)
    requires WordsAt(argv, aread, words) && |words| == nargs > 0
    requires opt.Holds(table, ps)
    requires argv != opt.params
    modifies opt, opt.flags, opt.params, opt.lists, v
    ensures fresh(opt.Nodes() - old(opt.Nodes()))
    ensures
      match ReadFirst(table, avd, words)
      case Ends(e) => count == 0 && end == e && opt.Holds(table, ps) && v.Abs() == old(v.Abs())
      case First(n, piece) => count == n && opt.Holds(table, ps + [piece]) && v.Abs() == LogsOf(tags, old(v.Abs()), piece)
  {
    hide opt.Holds, FindOption, Fold, ItemsOf;
    end := Stopped;
    assert argv[aread] == Some(words[0]);
    assert nargs > 1 ==> argv[aread + 1] == Some(words[1]);
    var word := argv[aread].value;
    if word == "" { return 0, Stopped; }
    if word[0] == '@' {
      assert table[avd].kind == Param;
      opt.SetParam(table, avd, word[1..], ps);
      return 1, Stopped;
    }
    if word[0] != '-' { return 0, Stopped; }
    var arg := word[1..];
    if '_' in arg { return 0, Stopped; }
    assert WordsAt(argv, aread + 1, words[1..]);
    count, end := ReadOptionWord(table, tags, argv, aread + 1, nargs - 1, arg, opt, v, ps, words[1..]);
  }

  /** An option, without its dash; the words after it are at `aread`. */
  method ReadOptionWord(table: seq<Info>, tags: seq<Tag>, argv: array<Option<string>>, aread: nat, nargs: nat, name: string,
    opt: AndroidOptions, v: Verbosity, ghost ps: seq<Piece>, ghost more: seq<string>)
    returns (count: nat, end: End)
    requires DebugTagsSpec.TableOk(tags)
    requires WordsAt(argv, aread, more) && |more| == nargs
    requires opt.Holds(table, ps)
    requires argv != opt.params
    modifies opt, opt.flags, opt.params, opt.lists, v
    ensures fresh(opt.Nodes() - old(opt.Nodes()))
    ensures
      match ReadOption(table, name, more)
      case Ends(e) => count == 0 && end == e && opt.Holds(table, ps) && v.Abs() == old(v.Abs())
      case First(n, piece) => count == n && opt.Holds(table, ps + [piece]) && v.Abs() == LogsOf(tags, old(v.Abs()), piece)
  {
    hide FindOption, Fold, ItemsOf, Buffered;
    end := Stopped;
    assert nargs > 0 ==> argv[aread] == Some(more[0]);
    if name == "verbose" {
      BeVerbose(table, tags, opt, v, ps);
      return 1, Stopped;
    } else if name == "debug" {
      if nargs == 0 { return 0, NoTags; }
      SetTags(table, tags, argv[aread].value, false, opt, v, ps);
      return 2, Stopped;
    } else if "debug-" <= name {
      SetTags(table, tags, name[6..], true, opt, v, ps);
      return 1, Stopped;
    }
    count, end := ReadTableOption(table, argv, aread, nargs, name, opt, ps, more);
  }

  /** A debug option changes the logs and not the record. */
  method SetTags(table: seq<Info>, tags: seq<Tag>, text: string, suffix: bool, opt: AndroidOptions, v: Verbosity, ghost ps: seq<Piece>)
    requires DebugTagsSpec.TableOk(tags) && opt.Holds(table, ps)
    modifies v
    ensures opt.Holds(table, ps + [Debug(text, suffix)]) && opt.Nodes() == old(opt.Nodes())
    ensures v.Abs() == LogsOf(tags, old(v.Abs()), Debug(text, suffix))
  {
    hide Fold, ItemsOf;
    opt.NotMine(table, ps, Debug(text, suffix));
    var valid := ParseDebugTags(tags, text, suffix, v);
  }

  /** The word "verbose" is read on as "debug-init". */
  method BeVerbose(table: seq<Info>, tags: seq<Tag>, opt: AndroidOptions, v: Verbosity, ghost ps: seq<Piece>)
    requires DebugTagsSpec.TableOk(tags) && opt.Holds(table, ps)
    modifies v
    ensures opt.Holds(table, ps + [Verbose]) && opt.Nodes() == old(opt.Nodes())
    ensures v.Abs() == LogsOf(tags, old(v.Abs()), Verbose)
  {
    hide Fold, ItemsOf;
    opt.NotMine(table, ps, Verbose);
    v.base := true;
    var valid := ParseDebugTags(tags, "init", true, v);
  }

  /** An option of the table. */
  method ReadTableOption(table: seq<Info>, argv: array<Option<string>>, aread: nat, nargs: nat, arg: string,
    opt: AndroidOptions, ghost ps: seq<Piece>, ghost more: seq<string>)
    returns (count: nat, end: End)
    requires WordsAt(argv, aread, more) && |more| == nargs
    requires opt.Holds(table, ps)
    requires argv != opt.params
    requires arg != "verbose" && arg != "debug" && !("debug-" <= arg)
    modifies opt, opt.flags, opt.params, opt.lists
    ensures fresh(opt.Nodes() - old(opt.Nodes()))
    ensures
      match ReadOption(table, arg, more)
      case Ends(e) => count == 0 && end == e && opt.Holds(table, ps)
      case First(n, piece) => count == n && !piece.Debug? && !piece.Verbose? && opt.Holds(table, ps + [piece])
  {
    hide FindOption, Buffered;
    end := Stopped;
    assert nargs > 0 ==> argv[aread] == Some(more[0]);
    var oo := Lookup(table, Buffered(arg, NAME_SIZE, '-', '_'));
    if oo == |table| { return 0, Stopped; }
    if table[oo].kind == Flag {
      opt.SetFlag(table, oo, ps);
      return 1, Stopped;
    }
    if nargs == 0 { return 0, NoValue; }
    if table[oo].kind == Param {
      opt.SetParam(table, oo, argv[aread].value, ps);
    } else {
      opt.AddItem(table, oo, argv[aread].value, ps);
    }
    return 2, Stopped;
  }

  /** What becomes of the program: it goes on, is told of an error, or exits. */
  datatype Outcome = Ok | Error | Exit

  /** The words that are left are moved down in the vector, over those that were read. */
  method Compact(argv: array<Option<string>>, from: nat, nargs: nat, ghost rest: seq<string>)
    requires 1 <= from && from + nargs + 1 == argv.Length
    requires WordsAt(argv, from, rest) && |rest| == nargs
    modifies argv
    ensures argv[0] == old(argv[0])
    ensures WordsAt(argv, 1, rest) && argv[1 + nargs] == None
    ensures forall i | 2 + nargs <= i < argv.Length :: argv[i] == old(argv[i])
  {
    var aread, awrite, n := from, 1, nargs;
    while n > 0
      invariant 0 <= n <= nargs && aread == from + (nargs - n) && awrite == 1 + (nargs - n)
      invariant argv[0] == old(argv[0])
      invariant forall i | 0 <= i < nargs - n :: argv[1 + i] == Some(rest[i])
      invariant forall i | nargs - n <= i < nargs :: argv[from + i] == Some(rest[i])
      invariant forall i | awrite <= i < argv.Length :: argv[i] == old(argv[i])
    {
      argv[awrite] := argv[aread];
      awrite := awrite + 1;
      aread := aread + 1;
      n := n - 1;
    }
    argv[awrite] := None;
  }

  lemma ReadMore(table: seq<Info>, avd: nat, left: seq<string>, ps: seq<Piece>)
    requires ReadFirst(table, avd, left).First?
    ensures var f := ReadFirst(table, avd, left);
      Before(ps, Read(table, avd, left)) == Before(ps + [f.piece], Read(table, avd, left[f.words..]))
  {
    var f := ReadFirst(table, avd, left);
    BeforeBefore(ps, [f.piece], Read(table, avd, left[f.words..]));
  }

  lemma NoLogsYet(tags: seq<Tag>, l: Logs)
    ensures AllLogs(tags, l, []) == l
  {
  }

  lemma NothingToRead(table: seq<Info>, avd: nat, left: seq<string>)
    requires left == []
    ensures ReadFirst(table, avd, left) == Ends(Stopped)
  {
  }

  lemma ReadNoMore(table: seq<Info>, avd: nat, left: seq<string>, ps: seq<Piece>)
    requires ReadFirst(table, avd, left).Ends?
    ensures Before(ps, Read(table, avd, left)) == Walk(ps, left, ReadFirst(table, avd, left).end)
  {
    assert ps + [] == ps;
  }

  lemma AllLogsMore(tags: seq<Tag>, l: Logs, ps: seq<Piece>, p: Piece)
    ensures AllLogs(tags, l, ps + [p]) == LogsOf(tags, AllLogs(tags, l, ps), p)
  {
    assert (ps + [p])[..|ps|] == ps;
  }

  /** Options are read as far as they go; those that were read, and the words left, are returned. */
  method ReadOptions(table: seq<Info>, tags: seq<Tag>, avd: nat, argc: nat, argv: array<Option<string>>,
    opt: AndroidOptions, v: Verbosity, ghost words: seq<string>)
    returns (end: End, nargs: nat, aread: nat, ghost ps: seq<Piece>, ghost left: seq<string>)
    requires CmdlineOptionSpec.TableOk(table, avd) && DebugTagsSpec.TableOk(tags)
    requires argc >= 1 && argv.Length == argc + 1 && |words| == argc - 1 && WordsAt(argv, 1, words)
    requires argv != opt.params && opt.Holds(table, []) && opt.Nodes() == {}
    modifies opt, opt.flags, opt.params, opt.lists, v
    ensures Read(table, avd, words) == Walk(ps, left, end)
    ensures v.Abs() == AllLogs(tags, old(v.Abs()), ps)
    ensures opt.Holds(table, ps) && fresh(opt.Nodes())
    ensures WordsAt(argv, aread, left) && |left| == nargs && aread + nargs == argc && aread >= 1
    ensures forall i | 0 <= i < argv.Length :: argv[i] == old(argv[i])
  {
    hide opt.Valid, opt.Shows, opt.Holds, ReadFirst, FieldOf, Read, LogsOf, AllLogs, Before;
    nargs, aread, end := argc - 1, 1, Stopped;
    ps, left := [], words;
    BeforeBefore([], [], Read(table, avd, words));
    NoLogsYet(tags, v.Abs());
    while nargs > 0
      invariant 1 <= aread && aread + nargs == argc
      invariant |left| == nargs && WordsAt(argv, aread, left)
      invariant Read(table, avd, words) == Before(ps, Read(table, avd, left))
      invariant opt.Holds(table, ps) && fresh(opt.Nodes())
      invariant v.Abs() == AllLogs(tags, old(v.Abs()), ps)
      invariant end == Stopped
    {
      ghost var f := ReadFirst(table, avd, left);
      var count, why := ReadWord(table, tags, avd, argv, aread, nargs, opt, v, ps, left);
      if count == 0 {
        ReadNoMore(table, avd, left, ps);
        end := why;
        return;
      }
      ReadMore(table, avd, left, ps);
      AllLogsMore(tags, old(v.Abs()), ps, f.piece);
      ps, left := ps + [f.piece], left[count..];
      nargs, aread := nargs - count, aread + count;
    }
    NothingToRead(table, avd, left);
    ReadNoMore(table, avd, left, ps);
  }

  /**
   The command line is read.  The record shows what was read, and the vector and its length what
   was left; when a value is missing the vector is as it was, but the record is half filled.
   */
  method ParseOptions(table: seq<Info>, tags: seq<Tag>, avd: nat, argc: nat, argv: array<Option<string>>,
    opt: AndroidOptions, v: Verbosity, ghost words: seq<string>)
    returns (outcome: Outcome, newArgc: nat)
    requires CmdlineOptionSpec.TableOk(table, avd) && DebugTagsSpec.TableOk(tags)
    requires argc >= 1 && argv.Length == argc + 1 && |words| == argc - 1 && WordsAt(argv, 1, words)
    requires opt.flags.Length == opt.params.Length == opt.lists.Length == |table|
    requires argv != opt.params
    modifies argv, opt, opt.flags, opt.params, opt.lists, v
    ensures
      var w := Read(table, avd, words);
      && v.Abs() == AllLogs(tags, old(v.Abs()), w.pieces)
      && match w.end
         case NoTags => outcome == Error && newArgc == argc && argv[..] == old(argv[..])
         case NoValue => outcome == Exit
         case Stopped =>
           && outcome == Ok
           && newArgc == |w.rest| + 1 && argv[0] == old(argv[0])
           && WordsAt(argv, 1, w.rest) && newArgc < argv.Length && argv[newArgc] == None
           && opt.Turned(table, w.pieces, |table|)
  {
    hide opt.Valid, opt.Shows, FieldOf, Read, AllLogs;
    opt.Clear(table);
    var end, nargs, aread, ps, left := ReadOptions(table, tags, avd, argc, argv, opt, v, words);
    match end {
      case NoTags =>
        return Error, argc;
      case NoValue =>
        return Exit, argc;
      case Stopped =>
        outcome, newArgc := Ok, nargs + 1;
        Compact(argv, aread, nargs, left);
        opt.ReverseLists(table, ps);
    }
  }
}
