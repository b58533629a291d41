/**
 What a command line asks for, in any order of its options: those of the table, the name of a virtual
 device, and debug tags.  Nothing here is said in terms of how the words are read.
 */
module CmdlineOptionTheorems {
  import opened AsyncIoCommon
  import D = DebugTagsSpec
  import opened CmdlineOptionSpec

  /** One thing to be asked for. */
  datatype Ask =
    | AskFlag(i: nat)
    | AskParam(i: nat, value: string)
    | AskItem(i: nat, value: string)
    | AskName(value: string)   // "@value"
    | AskTags(tags: string)    // "-debug tags"
    | AskTag(tag: string)      // "-debug-tag"
    | AskVerbose

  predicate AskOk(table: seq<Info>, a: Ask) {
    match a
    case AskFlag(i) => i < |table| && table[i].kind == Flag
    case AskParam(i, _) => i < |table| && table[i].kind == Param
    case AskItem(i, _) => i < |table| && table[i].kind == List
    case AskTag(tag) => '_' !in tag
    case _ => true
  }

  /** How it is written. */
  function Words(table: seq<Info>, a: Ask): seq<string>
    requires AskOk(table, a)
  {
    match a
    case AskFlag(i) => [Written(table[i].name)]
    case AskParam(i, value) => [Written(table[i].name), value]
    case AskItem(i, value) => [Written(table[i].name), value]
    case AskName(value) => ["@" + value]
    case AskTags(tags) => ["-debug", tags]
    case AskTag(tag) => ["-debug-" + tag]
    case AskVerbose => ["-verbose"]
  }

  function AllWords(table: seq<Info>, asks: seq<Ask>): seq<string>
    requires forall a | a in asks :: AskOk(table, a)
  {
    if asks == [] then [] else Words(table, asks[0]) + AllWords(table, asks[1..])
  }

  // ----- what is asked for ------------------------------------------------------------------

  /** The last value asked for; "@value" is a value of the virtual device. */
  function LastAsked(asks: seq<Ask>, avd: nat, k: nat): Option<string> {
    if asks == [] then None
    else
      match asks[|asks| - 1]
      case AskParam(i, value) => if i == k then Some(value) else LastAsked(asks[..|asks| - 1], avd, k)
      case AskName(value) => if k == avd then Some(value) else LastAsked(asks[..|asks| - 1], avd, k)
      case _ => LastAsked(asks[..|asks| - 1], avd, k)
  }

  /** All items asked for, in their order. */
  function ItemsAsked(asks: seq<Ask>, k: nat): seq<string> {
    if asks == [] then []
    else
      var last := asks[|asks| - 1];
      ItemsAsked(asks[..|asks| - 1], k) + if last.AskItem? && last.i == k then [last.value] else []
  }

  /** The bit of the first tag of that name, if there is one. */
  function BitNamed(tags: seq<D.Tag>, name: string): D.Bits {
    set i | 0 <= i < |tags| && tags[i].name == name && (forall j | 0 <= j < i :: tags[j].name != name) :: tags[i].flag
  }

  /** Debug tags take effect from left to right, also those within one word; "-verbose" sets the bit of "init". */
  function LogsAsked(tags: seq<D.Tag>, l: D.Logs, asks: seq<Ask>): D.Logs {
    if asks == [] then l
    else
      var before := LogsAsked(tags, l, asks[..|asks| - 1]);
      match asks[|asks| - 1]
      case AskTags(s) => D.Fold(tags, before, D.Items(s), false)
      case AskTag(tag) => D.Fold(tags, before, [tag], true)
      case AskVerbose => D.Logs(before.bits + BitNamed(tags, "init"), true)
      case _ => before
  }

  // ----- where reading ends -----------------------------------------------------------------

  /** The word is an option of that name, in the buffer in which names are compared. */
  predicate Spells(word: string, name: string) {
    && word != [] && word[0] == '-' && '_' !in word[1..]
    && word != "-verbose" && word != "-debug" && !("-debug-" <= word)
    && var arg := word[1..];
       D.Translate(if |arg| < NAME_SIZE then arg else arg[..NAME_SIZE - 1], '-', '_') == name
  }

  /** The word is not the beginning of an option. */
  predicate Strange(table: seq<Info>, word: string) {
    || word == []
    || (word[0] != '@' && word[0] != '-')
    || (word[0] == '-' && '_' in word)
    || (word[0] == '-' && word != "-verbose" && word != "-debug" && !("-debug-" <= word) && forall o | o in table :: !Spells(word, o.name))
  }

  lemma SpellsIs(table: seq<Info>, word: string)
    requires word != [] && word[0] == '-' && '_' !in word[1..]
    requires word != "-verbose" && word != "-debug" && !("-debug-" <= word)
    ensures var n := FindOption(table, D.Buffered(word[1..], NAME_SIZE, '-', '_'));
            && (n < |table| <==> exists o :: o in table && Spells(word, o.name))
            && (n < |table| ==> Spells(word, table[n].name) && table[n] in table)
            && (forall i | 0 <= i < |table| && Spells(word, table[i].name) :: n <= i && table[n].name == table[i].name)
  {
    var name := D.Buffered(word[1..], NAME_SIZE, '-', '_');
    assert forall o: Info :: Spells(word, o.name) <==> o.name == name;
    hide Spells;
  }

  /** A word with a dash is what is behind its dash. */
  lemma DashedIs(word: string)
    requires word != [] && word[0] == '-'
    ensures word[1..] == "verbose" <==> word == "-verbose"
    ensures word[1..] == "debug" <==> word == "-debug"
    ensures "debug-" <= word[1..] <==> "-debug-" <= word
    ensures '_' in word[1..] <==> '_' in word
  {
    assert word == "-" + word[1..];
    assert "-debug-" == "-" + "debug-" && "-debug" == "-" + "debug" && "-verbose" == "-" + "verbose";
    if "debug-" <= word[1..] {
      assert forall k | 0 <= k < 7 :: word[k] == "-debug-"[k];
    }
    if "-debug-" <= word {
      assert forall k | 0 <= k < 6 :: word[1..][k] == "-debug-"[k + 1];
    }
  }

  /**
   Reading ends exactly at a word that is not the beginning of an option, at a "-debug" that is the last
   word, and at the last word if it is an option of the table that needs a value.
   */
  lemma EndsExactly(table: seq<Info>, avd: nat, words: seq<string>)
    requires TableOk(table, avd)
    ensures var f := ReadFirst(table, avd, words);
            && (f == Ends(Stopped) <==> words == [] || Strange(table, words[0]))
            && (f == Ends(NoTags) <==> words == ["-debug"])
            && (f == Ends(NoValue) <==> |words| == 1 && exists o :: o in table && o.kind != Flag && Spells(words[0], o.name))
  {
    hide Spells, FindOption, TableOk, ReadOption;
    if words != [] && words[0] != [] && words[0][0] == '-' {
      var word := words[0];
      DashedIs(word);
      if '_' in word[1..] {
        NoSpelling(word);
      } else if word == "-verbose" || word == "-debug" || "-debug-" <= word {
        NoSpelling(word);
        ReservedEnds(table, word, words[1..]);
      } else {
        TableEnds(table, avd, word, words[1..]);
      }
    } else {
      if words != [] {
        NoSpelling(words[0]);
      }
    }
  }

  lemma NoSpelling(word: string)
    ensures forall name | Spells(word, name) ::
              word != [] && word[0] == '-' && '_' !in word[1..] && word != "-verbose" && word != "-debug" && !("-debug-" <= word)
  {
  }

  lemma ReservedEnds(table: seq<Info>, word: string, more: seq<string>)
    requires word == "-verbose" || word == "-debug" || "-debug-" <= word
    ensures ReadOption(table, word[1..], more) == Ends(NoTags) <==> word == "-debug" && more == []
    ensures ReadOption(table, word[1..], more).Ends? ==> ReadOption(table, word[1..], more) == Ends(NoTags)
  {
    hide FindOption;
    DashedIs(word);
  }

  lemma TableEnds(table: seq<Info>, avd: nat, word: string, more: seq<string>)
    requires TableOk(table, avd)
    requires word != [] && word[0] == '-' && '_' !in word[1..]
    requires word != "-verbose" && word != "-debug" && !("-debug-" <= word)
    ensures var f := ReadOption(table, word[1..], more);
            && f != Ends(NoTags)
            && (f == Ends(Stopped) <==> forall o | o in table :: !Spells(word, o.name))
            && (f == Ends(NoValue) <==> more == [] && exists o :: o in table && o.kind != Flag && Spells(word, o.name))
  {
    hide Spells, TableOk, FindOption;
    DashedIs(word);
    SpellsIs(table, word);
    OneKind(table, avd, word);
  }

  lemma OneKind(table: seq<Info>, avd: nat, word: string)
    requires TableOk(table, avd)
    ensures forall o, p | o in table && p in table && Spells(word, o.name) && Spells(word, p.name) :: o == p
  {
    assert forall o: Info, p: Info | Spells(word, o.name) && Spells(word, p.name) :: o.name == p.name;
    hide Spells;
  }

  // ----- reading one of them ----------------------------------------------------------------

  function PieceOf(avd: nat, a: Ask): Piece {
    match a
    case AskFlag(i) => SetFlag(i)
    case AskParam(i, value) => SetParam(i, value)
    case AskItem(i, value) => AddItem(i, value)
    case AskName(value) => SetParam(avd, value)
    case AskTags(tags) => Debug(tags, false)
    case AskTag(tag) => Debug(tag, true)
    case AskVerbose => Verbose
  }

  function PiecesOf(avd: nat, asks: seq<Ask>): seq<Piece> {
    seq(|asks|, i requires 0 <= i < |asks| => PieceOf(avd, asks[i]))
  }

  lemma ReadAsk(table: seq<Info>, avd: nat, a: Ask, more: seq<string>)
    requires TableOk(table, avd) && AskOk(table, a)
    ensures Read(table, avd, Words(table, a) + more) == Before([PieceOf(avd, a)], Read(table, avd, more))
  {
    hide TableOk, Written, FindOption, Read, Before;
    match a
    case AskFlag(i) => ReadFlag(table, avd, i, more);
    case AskParam(i, value) => ReadValue(table, avd, i, value, more);
    case AskItem(i, value) => ReadValue(table, avd, i, value, more);
    case AskName(value) => ReadName(table, avd, value, more);
    case AskTags(tags) => ReadTags(table, avd, tags, more);
    case AskTag(tag) => ReadTag(table, avd, tag, more);
    case AskVerbose => ReadVerbose(table, avd, more);
  }

  lemma ReadName(table: seq<Info>, avd: nat, value: string, more: seq<string>)
    ensures Read(table, avd, ["@" + value] + more) == Before([SetParam(avd, value)], Read(table, avd, more))
  {
    hide ReadOption;
    var words := ["@" + value] + more;
    assert words[1..] == more && words[0][1..] == value;
  }

  lemma ReadTags(table: seq<Info>, avd: nat, tags: string, more: seq<string>)
    ensures Read(table, avd, ["-debug", tags] + more) == Before([Debug(tags, false)], Read(table, avd, more))
  {
    hide FindOption;
    var words := ["-debug", tags] + more;
    assert words[0][1..] == "debug" && words[1..][0] == tags && words[2..] == more;
  }

  lemma ReadVerbose(table: seq<Info>, avd: nat, more: seq<string>)
    ensures Read(table, avd, ["-verbose"] + more) == Before([Verbose], Read(table, avd, more))
  {
    hide FindOption;
    var words := ["-verbose"] + more;
    assert words[0][1..] == "verbose" && words[1..] == more;
  }

  lemma ReadTag(table: seq<Info>, avd: nat, tag: string, more: seq<string>)
    requires '_' !in tag
    ensures Read(table, avd, ["-debug-" + tag] + more) == Before([Debug(tag, true)], Read(table, avd, more))
  {
    hide ReadOption;
    var words := ["-debug-" + tag] + more;
    assert words[1..] == more;
    TagWord(table, tag, more);
  }

  lemma TagWord(table: seq<Info>, tag: string, more: seq<string>)
    requires '_' !in tag
    ensures var word := "-debug-" + tag;
            word[0] == '-' && '_' !in word[1..] && ReadOption(table, word[1..], more) == First(1, Debug(tag, true))
  {
    hide FindOption;
    var arg := ("-debug-" + tag)[1..];
    assert arg == "debug-" + tag && arg[6..] == tag;
    assert arg[0] == 'd' && arg[5] == '-';
    assert forall c | c in arg :: c in "debug-" || c in tag;
  }

  lemma {:induction false} ReadAsks(table: seq<Info>, avd: nat, asks: seq<Ask>, tail: seq<string>)
    requires TableOk(table, avd) && (forall a | a in asks :: AskOk(table, a))
    ensures Read(table, avd, AllWords(table, asks) + tail) == Before(PiecesOf(avd, asks), Read(table, avd, tail))
    decreases |asks|
  {
    hide TableOk, Read, Before, Words, PieceOf, PiecesOf, AskOk;
    if asks == [] {
      assert AllWords(table, asks) + tail == tail;
      PiecesNone(avd);
      BeforeBefore([], [], Read(table, avd, tail));
    } else {
      var more := asks[1..];
      assert forall a | a in more :: a in asks;
      ReadAsks(table, avd, more, tail);
      assert AllWords(table, asks) + tail == Words(table, asks[0]) + (AllWords(table, more) + tail);
      ReadAsk(table, avd, asks[0], AllWords(table, more) + tail);
      BeforeBefore([PieceOf(avd, asks[0])], PiecesOf(avd, more), Read(table, avd, tail));
      PiecesTail(avd, asks);
    }
  }

  lemma PiecesTail(avd: nat, asks: seq<Ask>)
    requires asks != []
    ensures PiecesOf(avd, asks) == [PieceOf(avd, asks[0])] + PiecesOf(avd, asks[1..])
  {
    hide PieceOf;
  }

  // ----- what the pieces add up to ----------------------------------------------------------

  lemma PiecesInit(avd: nat, asks: seq<Ask>)
    requires asks != []
    ensures var ps, n := PiecesOf(avd, asks), |asks| - 1;
            |ps| == |asks| && ps[..n] == PiecesOf(avd, asks[..n]) && ps[n] == PieceOf(avd, asks[n])
  {
    hide PieceOf;
  }

  lemma PiecesNone(avd: nat)
    ensures PiecesOf(avd, []) == []
  {
  }

  lemma FlagAsked(avd: nat, asks: seq<Ask>, k: nat)
    ensures FlagOn(PiecesOf(avd, asks), k) <==> AskFlag(k) in asks
  {
    var ps := PiecesOf(avd, asks);
    if AskFlag(k) in asks {
      var i :| 0 <= i < |asks| && asks[i] == AskFlag(k);
      assert ps[i] == SetFlag(k);
    }
    if SetFlag(k) in ps {
      var i :| 0 <= i < |ps| && ps[i] == SetFlag(k);
      assert asks[i] == AskFlag(k);
    }
  }

  lemma {:induction false} ValuesAsked(avd: nat, asks: seq<Ask>, k: nat)
    ensures LastParam(PiecesOf(avd, asks), k) == LastAsked(asks, avd, k)
    ensures ListOf(PiecesOf(avd, asks), k) == ItemsAsked(asks, k)
    decreases |asks|
  {
    if asks != [] {
      ValuesAsked(avd, asks[..|asks| - 1], k);
      PiecesInit(avd, asks);
      hide PiecesOf;
    }
  }

  lemma VerboseIs(tags: seq<D.Tag>, l: D.Logs)
    ensures D.Fold(tags, l.(base := true), D.ItemsOf("init", true), true) == D.Logs(l.bits + BitNamed(tags, "init"), true)
  {
    var n := D.FindTag(tags, "init");
    assert D.Translate("init", '-', '_') == "init";
    if n < |tags| {
      assert BitNamed(tags, "init") == {tags[n].flag};
    } else {
      assert BitNamed(tags, "init") == {};
    }
    hide D.FindTag;
    assert "init"[0] != "no-"[0] && "init" != "all";
    assert D.MeaningOf(tags, "init", true) == if n == |tags| then D.Nothing else D.Switch({tags[n].flag}, true, false);
    var items := ["init"];
    assert items[1..] == [];
  }

  lemma {:induction false} LogsAre(tags: seq<D.Tag>, l: D.Logs, avd: nat, asks: seq<Ask>)
    ensures AllLogs(tags, l, PiecesOf(avd, asks)) == LogsAsked(tags, l, asks)
    decreases |asks|
  {
    hide PiecesOf, D.Fold, D.Items, BitNamed;
    if asks == [] {
      PiecesNone(avd);
    } else {
      LogsAre(tags, l, avd, asks[..|asks| - 1]);
      PiecesInit(avd, asks);
      VerboseIs(tags, LogsAsked(tags, l, asks[..|asks| - 1]));
    }
  }

  /**
   Every command line that asks for things in any order, followed by words that are no options, is read
   as what it asks for: each flag that is asked for, the last value of each parameter, all values of each
   list in their order, and the debug tags from left to right; the words that are no options are left.
   */
  lemma CommandLineRoundTrip(table: seq<Info>, avd: nat, tags: seq<D.Tag>, l: D.Logs, asks: seq<Ask>, tail: seq<string>)
    requires TableOk(table, avd) && (forall a | a in asks :: AskOk(table, a)) && (tail == [] || Strange(table, tail[0]))
    ensures var w := Read(table, avd, AllWords(table, asks) + tail);
            && w.rest == tail && w.end == Stopped
            && (forall k: nat :: FieldOf(w.pieces, k) == Field(AskFlag(k) in asks, LastAsked(asks, avd, k), ItemsAsked(asks, k)))
            && AllLogs(tags, l, w.pieces) == LogsAsked(tags, l, asks)
  {
    ReadAsks(table, avd, asks, tail);
    EndsExactly(table, avd, tail);
    LogsAre(tags, l, avd, asks);
    forall k: nat ensures FieldOf(PiecesOf(avd, asks), k) == Field(AskFlag(k) in asks, LastAsked(asks, avd, k), ItemsAsked(asks, k)) {
      FlagAsked(avd, asks, k);
      ValuesAsked(avd, asks, k);
    }
    hide TableOk, FieldOf, AllLogs, AllWords, LastAsked, ItemsAsked, LogsAsked, PiecesOf;
    assert PiecesOf(avd, asks) + [] == PiecesOf(avd, asks);
  }
}
