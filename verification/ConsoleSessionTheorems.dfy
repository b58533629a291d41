/**
 What a console session comes to: which line calls which handler with which arguments, which attempts
 to authenticate meet which token, and when the session ends.
 */
module ConsoleSessionTheorems {
  import opened AsyncIoCommon
  import opened ConsoleSessionSpec

  // ----- the command tree -----------------------------------------------------------------

  /** A word of a line, the spaces behind it, and the entry of its level that it names. */
  datatype Hop = Hop(index: nat, word: seq<Byte>, gap: nat)

  /** Word, spaces, word, spaces, and so on. */
  function Spelled(path: seq<Hop>): seq<Byte> {
    if path == [] then [] else path[0].word + Spaces(path[0].gap) + Spelled(path[1..])
  }

  /** The entry is the first of its level that has the word among its names. */
  predicate FirstNamed(commands: seq<Command>, i: nat, word: seq<Byte>) {
    i < |commands| && Named(commands[i].names, word) && forall j | 0 <= j < i :: !Named(commands[j].names, word)
  }

  /** The words of a path name an entry at every level, groups down to `cmd`. */
  predicate Leads(commands: seq<Command>, path: seq<Hop>, cmd: Command)
    decreases |path|
  {
    && path != [] && SPACE !in path[0].word && FirstNamed(commands, path[0].index, path[0].word)
    && var entry := commands[path[0].index];
       if |path| == 1 then cmd == entry
       else path[0].gap > 0 && path[1].word != [] && entry.Group? && Leads(entry.subs, path[1..], cmd)
  }

  /** The line is the words of the path, and what follows, which begins with something other than a space. */
  predicate Followed(line: seq<Byte>, path: seq<Hop>, args: Option<seq<Byte>>) {
    && path != []
    && match args
       case None => line == Spelled(path)
       case Some(a) => a != [] && a[0] != SPACE && path[|path| - 1].gap > 0 && line == Spelled(path) + a
  }

  /** The word with which a line starts. */
  predicate Starts(line: seq<Byte>, word: seq<Byte>) {
    word <= line && SPACE !in word && (|word| < |line| ==> line[|word|] == SPACE)
  }

  /** None of the entries has that name. */
  ghost predicate Nameless(commands: seq<Command>, line: seq<Byte>) {
    forall i, w | 0 <= i < |commands| && Starts(line, w) :: !Named(commands[i].names, w)
  }

  /** A line that may be looked at. */
  predicate Allowed(setup: Setup, line: seq<Byte>) {
    !setup.http(line) && setup.utf8(line)
  }

  /** The first word names a command that is enabled. */
  predicate Enables(setup: Setup, commands: seq<Command>, path: seq<Hop>) {
    path != [] && path[0].index < |commands| && setup.enabled(commands[path[0].index].names)
  }

  /** Where the words of a line lead, and what is left of it. */
  ghost predicate Finds(setup: Setup, commands: seq<Command>, line: seq<Byte>, cmd: Command, args: Option<seq<Byte>>) {
    && Allowed(setup, line)
    && exists path: seq<Hop> :: Leads(commands, path, cmd) && Enables(setup, commands, path) && Followed(line, path, args)
  }

  // ----- words ------------------------------------------------------------------------------

  lemma StartsIs(line: seq<Byte>, w: seq<Byte>)
    ensures Starts(line, w) <==> w == FirstWord(line)
  {
    NoSpace(line);
    if Starts(line, w) {
      assert forall i | 0 <= i < |w| :: line[i] == w[i] && w[i] in w;
      FindUnique(line, SPACE, |w|);
      assert line[..|w|] == w;
    }
  }

  lemma {:induction false} SkipSpacesBack(k: nat, rest: seq<Byte>)
    requires rest != [] ==> rest[0] != SPACE
    ensures SkipSpaces(Spaces(k) + rest) == rest
  {
    if k > 0 {
      SkipSpacesBack(k - 1, rest);
      var s := Spaces(k) + rest;
      assert s[1..] == Spaces(k - 1) + rest;
    } else {
      assert Spaces(0) + rest == rest;
    }
  }

  /** A line is taken apart in one way only. */
  lemma SplitIs(w: seq<Byte>, k: nat, rest: seq<Byte>)
    requires SPACE !in w && (rest != [] ==> k > 0 && rest[0] != SPACE)
    ensures var line := w + Spaces(k) + rest;
            FirstWord(line) == w && Args(line) == if rest == [] then None else Some(rest)
  {
    var line := w + Spaces(k) + rest;
    assert forall i | 0 <= i < |w| :: line[i] == w[i] && w[i] in w;
    if k > 0 {
      assert line[|w|] == SPACE;
      FindUnique(line, SPACE, |w|);
      assert line[..|w|] == w;
      assert line[|w| + 1..] == Spaces(k - 1) + rest;
      SkipSpacesBack(k - 1, rest);
    } else {
      assert line == w;
      FindUnique(line, SPACE, |w|);
    }
  }

  lemma FirstNamedIs(commands: seq<Command>, i: nat, word: seq<Byte>)
    ensures FirstNamed(commands, i, word) <==> i < |commands| && FindCommand(commands, word) == i
  {
  }

  lemma NamelessIs(commands: seq<Command>, line: seq<Byte>)
    ensures Nameless(commands, line) <==> FindCommand(commands, FirstWord(line)) == |commands|
  {
    StartsIs(line, FirstWord(line));
    forall w ensures Starts(line, w) <==> w == FirstWord(line) { StartsIs(line, w); }
  }

  // ----- where a walk ends ------------------------------------------------------------------

  /** What comes of the entry that the words lead to. */
  ghost predicate Comes(cmd: Command, args: Option<seq<Byte>>, r: Result) {
    match cmd
    case Leaf(_, handler) => r == Call(handler, args)
    case Buggy(_) => r == BuggyTable
    case Group(_, subs) => if args == None then r == MissingSub else Nameless(subs, args.value) && r == BadSub
  }

  /** A path from here. */
  lemma {:induction false} WalkLeads(commands: seq<Command>, line: seq<Byte>)
    returns (path: seq<Hop>, cmd: Command, args: Option<seq<Byte>>)
    requires FindCommand(commands, FirstWord(line)) < |commands|
    ensures var n := FindCommand(commands, FirstWord(line));
            && path != [] && Leads(commands, path, cmd) && path[0].index == n && path[0].word == FirstWord(line) && Followed(line, path, args)
            && Comes(cmd, args, Walk(commands[n], Args(line)))
    decreases commands
  {
    hide FindCommand, FirstWord, Args, Nameless, Named, Spaces, FirstNamed, Leads, Followed, Walk, Comes;
    var n := FindCommand(commands, FirstWord(line));
    var w, a := FirstWord(line), Args(line);
    var rest := if a == None then [] else a.value;
    WordSpacesArgs(line);
    FirstNamedIs(commands, n, w);
    var hop := Hop(n, w, |line| - |w| - |rest|);
    var entry := commands[n];
    WalkIs(entry, a);
    if entry.Group? && a.Some? && FindCommand(entry.subs, FirstWord(rest)) < |entry.subs| {
      var more: seq<Hop>;
      more, cmd, args := WalkLeads(entry.subs, rest);
      FirstIsThere(rest);
      path := [hop] + more;
      LeadsOn(commands, hop, more, cmd);
      FollowedOn(line, hop, more, args, rest);
    } else {
      path, cmd, args := [hop], entry, a;
      LeadsAt(commands, hop);
      FollowedAt(line, hop, a);
    }
  }

  lemma WalkIs(cmd: Command, args: Option<seq<Byte>>)
    ensures if cmd.Group? && args.Some? && FindCommand(cmd.subs, FirstWord(args.value)) < |cmd.subs|
            then Walk(cmd, args) == Walk(cmd.subs[FindCommand(cmd.subs, FirstWord(args.value))], Args(args.value))
            else (cmd.Group? && args.Some? ==> Nameless(cmd.subs, args.value)) && Comes(cmd, args, Walk(cmd, args))
  {
    hide FindCommand, FirstWord, Args, Nameless;
    if cmd.Group? && args.Some? {
      NamelessIs(cmd.subs, args.value);
    }
  }

  lemma LeadsAt(commands: seq<Command>, hop: Hop)
    requires SPACE !in hop.word && FirstNamed(commands, hop.index, hop.word)
    ensures Leads(commands, [hop], commands[hop.index])
  {
    hide Named;
  }

  lemma FirstIsThere(line: seq<Byte>)
    requires line != [] && line[0] != SPACE
    ensures FirstWord(line) != []
  {
  }

  lemma LeadsOn(commands: seq<Command>, hop: Hop, more: seq<Hop>, cmd: Command)
    requires SPACE !in hop.word && FirstNamed(commands, hop.index, hop.word) && hop.gap > 0
    requires commands[hop.index].Group? && Leads(commands[hop.index].subs, more, cmd) && more != [] && more[0].word != []
    ensures Leads(commands, [hop] + more, cmd)
  {
    hide FirstNamed;
    assert ([hop] + more)[1..] == more;
  }

  lemma FollowedAt(line: seq<Byte>, hop: Hop, a: Option<seq<Byte>>)
    requires line == hop.word + Spaces(hop.gap) + (if a == None then [] else a.value)
    requires a.Some? ==> a.value != [] && a.value[0] != SPACE && hop.gap > 0
    ensures Followed(line, [hop], a)
  {
    hide Spaces;
    assert [hop][1..] == [];
    assert Spelled([hop]) == hop.word + Spaces(hop.gap) + [];
  }

  lemma FollowedOn(line: seq<Byte>, hop: Hop, more: seq<Hop>, args: Option<seq<Byte>>, rest: seq<Byte>)
    requires line == hop.word + Spaces(hop.gap) + rest && Followed(rest, more, args)
    ensures Followed(line, [hop] + more, args)
  {
    hide Spaces;
    var path := [hop] + more;
    assert path[1..] == more;
    assert Spelled(path) == hop.word + Spaces(hop.gap) + Spelled(more);
    assert path[|path| - 1] == more[|more| - 1];
  }

  /** The rest of a line after its first word, by a path. */
  function Behind(path: seq<Hop>, args: Option<seq<Byte>>): seq<Byte>
    requires path != []
  {
    Spelled(path[1..]) + if args == None then [] else args.value
  }

  lemma PathSplits(commands: seq<Command>, path: seq<Hop>, cmd: Command, line: seq<Byte>, args: Option<seq<Byte>>)
    requires Leads(commands, path, cmd) && Followed(line, path, args)
    ensures FirstWord(line) == path[0].word
    ensures |path| == 1 ==> Args(line) == args
    ensures |path| > 1 ==> Behind(path, args) != [] && Args(line) == Some(Behind(path, args)) && Followed(Behind(path, args), path[1..], args)
  {
    hide FirstNamed, FirstWord, Args, Spaces;
    var rest := Behind(path, args);
    SplitLine(line, path, args);
    if |path| > 1 {
      SecondStarts(commands, path, cmd, args);
      assert path[1..][|path| - 2] == path[|path| - 1];
    } else {
      assert path[1..] == [];
      assert args.Some? ==> [] + args.value == args.value;
    }
    SplitIs(path[0].word, path[0].gap, rest);
  }

  lemma SplitLine(line: seq<Byte>, path: seq<Hop>, args: Option<seq<Byte>>)
    requires Followed(line, path, args)
    ensures line == path[0].word + Spaces(path[0].gap) + Behind(path, args)
  {
    hide Spaces;
    if args.Some? {
      assert Spelled(path) + args.value == path[0].word + Spaces(path[0].gap) + (Spelled(path[1..]) + args.value);
    } else {
      assert Spelled(path[1..]) + [] == Spelled(path[1..]);
    }
  }

  lemma SecondStarts(commands: seq<Command>, path: seq<Hop>, cmd: Command, args: Option<seq<Byte>>)
    requires Leads(commands, path, cmd) && |path| > 1
    ensures var rest := Behind(path, args); rest != [] && rest[0] != SPACE && path[0].gap > 0
  {
    hide FirstNamed, Spaces;
    var w := path[1..][0].word;
    assert w == path[1].word && w != [] && SPACE !in w;
    assert w[0] in w;
    assert Spelled(path[1..]) == w + Spaces(path[1..][0].gap) + Spelled(path[1..][1..]);
    assert Spelled(path[1..])[0] == w[0];
  }

  /** A path leads where the walk does. */
  lemma {:induction false} LeadsWalk(commands: seq<Command>, path: seq<Hop>, cmd: Command, line: seq<Byte>, args: Option<seq<Byte>>, r: Result)
    requires Leads(commands, path, cmd) && Followed(line, path, args) && Comes(cmd, args, r)
    ensures path[0].index < |commands| && FindCommand(commands, FirstWord(line)) == path[0].index
    ensures Walk(commands[path[0].index], Args(line)) == r
    decreases |path|
  {
    PathSplits(commands, path, cmd, line, args);
    FirstNamedIs(commands, path[0].index, path[0].word);
    hide FindCommand, FirstWord, Args, Nameless, Named, FirstNamed, Followed, Behind;
    var entry := commands[path[0].index];
    if |path| == 1 {
      if entry.Group? && args.Some? {
        NamelessIs(entry.subs, args.value);
      }
    } else {
      LeadsWalk(entry.subs, path[1..], cmd, Behind(path, args), args, r);
    }
  }

  // ----- what a line does -------------------------------------------------------------------

  lemma FoundComes(setup: Setup, commands: seq<Command>, line: seq<Byte>, cmd: Command, args: Option<seq<Byte>>, r: Result)
    requires Finds(setup, commands, line, cmd, args) && Comes(cmd, args, r)
    ensures Dispatch(setup, commands, line) == r
  {
    hide Leads, Followed, Comes, FindCommand, FirstWord, Args, Walk;
    var path: seq<Hop> :| Leads(commands, path, cmd) && Enables(setup, commands, path) && Followed(line, path, args);
    LeadsWalk(commands, path, cmd, line, args, r);
  }

  /** A line whose first word names an enabled command leads somewhere. */
  lemma DispatchFinds(setup: Setup, commands: seq<Command>, line: seq<Byte>) returns (cmd: Command, args: Option<seq<Byte>>)
    requires !Dispatch(setup, commands, line).Unknown? && !Dispatch(setup, commands, line).Forbidden?
    ensures Finds(setup, commands, line, cmd, args) && Comes(cmd, args, Dispatch(setup, commands, line))
  {
    hide Leads, Followed, Comes, FindCommand, FirstWord, Args, Walk;
    WalkKnows(setup, commands, line);
    var path: seq<Hop>;
    path, cmd, args := WalkLeads(commands, line);
    assert Enables(setup, commands, path);
  }

  lemma UnknownIs(setup: Setup, commands: seq<Command>, line: seq<Byte>)
    ensures Dispatch(setup, commands, line).Unknown? <==>
            Allowed(setup, line) && forall i: nat, w | Starts(line, w) && FirstNamed(commands, i, w) :: !setup.enabled(commands[i].names)
  {
    hide FindCommand, FirstWord, Args, FirstNamed, Starts;
    var first := FirstWord(line);
    forall i: nat, w | Starts(line, w) && FirstNamed(commands, i, w)
      ensures w == first && i < |commands| && FindCommand(commands, first) == i
    {
      StartsIs(line, w);
      FirstNamedIs(commands, i, w);
    }
    StartsIs(line, first);
    FirstNamedIs(commands, FindCommand(commands, first), first);
    WalkKnows(setup, commands, line);
  }

  lemma {:induction false} WalkNever(cmd: Command, args: Option<seq<Byte>>)
    ensures !Walk(cmd, args).Unknown? && !Walk(cmd, args).Forbidden?
    decreases cmd
  {
    if cmd.Group? && args.Some? {
      var n := FindCommand(cmd.subs, FirstWord(args.value));
      if n < |cmd.subs| {
        WalkNever(cmd.subs[n], Args(args.value));
      }
    }
  }

  lemma WalkKnows(setup: Setup, commands: seq<Command>, line: seq<Byte>)
    ensures var n := FindCommand(commands, FirstWord(line));
            Dispatch(setup, commands, line).Unknown? <==> Allowed(setup, line) && (n == |commands| || !setup.enabled(commands[n].names))
    ensures Dispatch(setup, commands, line).Forbidden? <==> !Allowed(setup, line)
  {
    var n := FindCommand(commands, FirstWord(line));
    if n < |commands| {
      WalkNever(commands[n], Args(line));
    }
    hide Walk, FindCommand, FirstWord, Args;
  }

  lemma FoundIs(setup: Setup, commands: seq<Command>, line: seq<Byte>, cmd: Command, args: Option<seq<Byte>>)
    requires Finds(setup, commands, line, cmd, args)
    ensures Comes(cmd, args, Dispatch(setup, commands, line)) || (cmd.Group? && args.Some? && !Nameless(cmd.subs, args.value))
  {
    hide Dispatch, Finds, Nameless;
    match cmd
    case Leaf(_, handler) => FoundComes(setup, commands, line, cmd, args, Call(handler, args));
    case Buggy(_) => FoundComes(setup, commands, line, cmd, args, BuggyTable);
    case Group(_, subs) =>
      if args == None {
        FoundComes(setup, commands, line, cmd, args, MissingSub);
      } else if Nameless(subs, args.value) {
        FoundComes(setup, commands, line, cmd, args, BadSub);
      }
  }

  /**
   What every line does.  It calls a handler with certain arguments exactly if it is made of words,
   spaces and these arguments, where every word names the first entry of its level that has this name,
   the first of them is enabled, and the last is the command with that handler; and each complaint
   has its own exact reason.
   */
  lemma DispatchExactly(setup: Setup, commands: seq<Command>, line: seq<Byte>)
    ensures var r := Dispatch(setup, commands, line);
            && (r.Forbidden? <==> !Allowed(setup, line))
            && (r.Unknown? <==>
                  Allowed(setup, line) && forall i: nat, w | Starts(line, w) && FirstNamed(commands, i, w) :: !setup.enabled(commands[i].names))
            && (forall h, args :: r == Call(h, args) <==> exists cmd :: Finds(setup, commands, line, cmd, args) && cmd.Leaf? && cmd.handler == h)
            && (r == MissingSub <==> exists cmd :: Finds(setup, commands, line, cmd, None) && cmd.Group?)
            && (r == BadSub <==> exists cmd, a :: Finds(setup, commands, line, cmd, Some(a)) && cmd.Group? && Nameless(cmd.subs, a))
            && (r == BuggyTable <==> exists cmd, args :: Finds(setup, commands, line, cmd, args) && cmd.Buggy?)
  {
    hide Dispatch, Finds, Allowed, FirstNamed, Starts, Nameless;
    UnknownIs(setup, commands, line);
    WalkKnows(setup, commands, line);
    var r := Dispatch(setup, commands, line);
    forall cmd, args | Finds(setup, commands, line, cmd, args)
      ensures Comes(cmd, args, r) || (cmd.Group? && args.Some? && !Nameless(cmd.subs, args.value))
    {
      FoundIs(setup, commands, line, cmd, args);
    }
    if !r.Unknown? && !r.Forbidden? {
      var cmd, args := DispatchFinds(setup, commands, line);
    }
  }

  // ----- a whole session --------------------------------------------------------------------

  /** How often the token file was read: once for each attempt with an argument. */
  function Tries(log: seq<Entry>): nat {
    if log == [] then 0
    else Tries(log[..|log| - 1]) + if log[|log| - 1].Tried? && log[|log| - 1].args.Some? then 1 else 0
  }

  /** What the file held then. */
  function Held(tokens: seq<Option<seq<Byte>>>, n: nat): Option<seq<Byte>> {
    if n < |tokens| then tokens[n] else None
  }

  /** An attempt whose argument is the token that the file held when it was read for this attempt. */
  predicate Grants(tokens: seq<Option<seq<Byte>>>, log: seq<Entry>, j: nat)
    requires j < |log|
  {
    && log[j].Tried? && log[j].args.Some?
    && var token := Held(tokens, Tries(log[..j]));
       token.Some? && CString(log[j].args.value) == CString(token.value)
  }

  predicate Granted(tokens: seq<Option<seq<Byte>>>, log: seq<Entry>) {
    exists j | 0 <= j < |log| :: Grants(tokens, log, j)
  }

  /** The table a client is given. */
  function Table(setup: Setup, required: bool, tokens: seq<Option<seq<Byte>>>, log: seq<Entry>): seq<Command> {
    if required && !Granted(tokens, log) then setup.preauth else setup.main
  }

  /** What a line runs. */
  function Runs(r: Result, token: Option<seq<Byte>>): seq<Entry> {
    match r
    case Call(handler, args) =>
      if handler != AUTH then [Ran(handler, args)] else if args == None then [Tried(None, None)] else [Tried(args, token)]
    case _ => []
  }

  /** What a session runs, from the lines that were presented and the tokens that the file held. */
  function Account(setup: Setup, required: bool, tokens: seq<Option<seq<Byte>>>, lines: seq<seq<Byte>>): seq<Entry> {
    if lines == [] then []
    else
      var log := Account(setup, required, tokens, lines[..|lines| - 1]);
      log + Runs(Dispatch(setup, Table(setup, required, tokens, log), CString(lines[|lines| - 1])), Held(tokens, Tries(log)))
  }

  /** What comes of one of the lines. */
  function ResultAt(setup: Setup, required: bool, tokens: seq<Option<seq<Byte>>>, lines: seq<seq<Byte>>, i: nat): Result
    requires i < |lines|
  {
    Dispatch(setup, Table(setup, required, tokens, Account(setup, required, tokens, lines[..i])), CString(lines[i]))
  }

  /** A line that ends the session: one that is forbidden, and one that quits. */
  predicate Ends(r: Result) {
    r.Forbidden? || (r.Call? && r.handler == QUIT)
  }

  /** What it will hold from then on. */
  function Left(tokens: seq<Option<seq<Byte>>>, n: nat): seq<Option<seq<Byte>>> {
    if n <= |tokens| then tokens[n..] else []
  }

  /** The client is as its lines and tokens made it. */
  predicate Accounted(setup: Setup, required: bool, tokens: seq<Option<seq<Byte>>>, c: Client) {
    && c.log == Account(setup, required, tokens, c.lines)
    && (c.authenticated <==> !required || Granted(tokens, c.log))
    && c.tokens == Left(tokens, Tries(c.log))
  }

  predicate EndsLast(setup: Setup, required: bool, tokens: seq<Option<seq<Byte>>>, c: Client) {
    && (c.finished <==> c.lines != [] && Ends(ResultAt(setup, required, tokens, c.lines, |c.lines| - 1)))
    && forall i | 0 <= i < |c.lines| - 1 :: !Ends(ResultAt(setup, required, tokens, c.lines, i))
  }

  lemma GrantedMore(tokens: seq<Option<seq<Byte>>>, log: seq<Entry>, e: Entry)
    ensures Granted(tokens, log + [e]) <==> Granted(tokens, log) || Grants(tokens, log + [e], |log|)
    ensures Tries(log + [e]) == Tries(log) + if e.Tried? && e.args.Some? then 1 else 0
  {
    var now := log + [e];
    assert now[..|log|] == log;
    hide Tries, Held, CString;
    forall j | 0 <= j < |log| ensures Grants(tokens, now, j) <==> Grants(tokens, log, j) {
      assert now[..j] == log[..j];
    }
  }

  lemma AccountMore(setup: Setup, required: bool, tokens: seq<Option<seq<Byte>>>, lines: seq<seq<Byte>>, line: seq<Byte>)
    ensures var log := Account(setup, required, tokens, lines);
            var r := Dispatch(setup, Table(setup, required, tokens, log), CString(line));
            && Account(setup, required, tokens, lines + [line]) == log + Runs(r, Held(tokens, Tries(log)))
            && ResultAt(setup, required, tokens, lines + [line], |lines|) == r
            && forall i | 0 <= i < |lines| :: ResultAt(setup, required, tokens, lines + [line], i) == ResultAt(setup, required, tokens, lines, i)
  {
    var now := lines + [line];
    assert now[..|lines|] == lines;
    assert forall i | 0 <= i < |lines| :: now[..i] == lines[..i] && now[i] == lines[i];
    hide Dispatch, Table, CString, Runs, Tries;
  }

  /** A result is acted upon: at most one entry is logged, and the file is read for an attempt with an argument. */
  lemma DoIs(c: Client, r: Result, tokens: seq<Option<seq<Byte>>>, n: nat)
    requires c.tokens == Left(tokens, n)
    ensures var d, run := Do(c, r), Runs(r, Held(tokens, n));
            && d.lines == c.lines && d.log == c.log + run && |run| <= 1 && (d.finished <==> c.finished || Ends(r))
            && (run == [] ==> d.authenticated == c.authenticated && d.tokens == c.tokens)
            && (run != [] ==>
                  && (d.authenticated <==> c.authenticated || Succeeds(run[0]))
                  && (run[0].Tried? && run[0].args.Some? ==> run[0].token == Held(tokens, n))
                  && d.tokens == Left(tokens, n + if run[0].Tried? && run[0].args.Some? then 1 else 0))
  {
    hide CString;
  }

  lemma ExecuteIs(setup: Setup, c: Client, line: seq<Byte>)
    ensures Execute(setup, c, line) == Do(c.(lines := c.lines + [line]), Dispatch(setup, Commands(setup, c), CString(line)))
  {
    hide Do, Dispatch, CString;
  }

  lemma ExecuteAccounted(setup: Setup, required: bool, tokens: seq<Option<seq<Byte>>>, c: Client, line: seq<Byte>)
    requires Accounted(setup, required, tokens, c) && EndsLast(setup, required, tokens, c) && !c.finished
    ensures var d := Execute(setup, c, line);
            Accounted(setup, required, tokens, d) && EndsLast(setup, required, tokens, d) && d.lines == c.lines + [line]
  {
    hide Dispatch, CString, Granted, Grants, Tries, Account, ResultAt, Ends, Execute, Do, Runs, Held, Left, Succeeds;
    var r := Dispatch(setup, Commands(setup, c), CString(line));
    var run := Runs(r, Held(tokens, Tries(c.log)));
    ExecuteIs(setup, c, line);
    DoIs(c.(lines := c.lines + [line]), r, tokens, Tries(c.log));
    AccountMore(setup, required, tokens, c.lines, line);
    if run != [] {
      assert run == [run[0]];
      GrantedMore(tokens, c.log, run[0]);
      GrantsLast(tokens, c.log, run[0]);
    } else {
      assert c.log + run == c.log;
    }
  }

  lemma GrantsLast(tokens: seq<Option<seq<Byte>>>, log: seq<Entry>, e: Entry)
    requires e.Tried? && e.args.Some? ==> e.token == Held(tokens, Tries(log))
    ensures Grants(tokens, log + [e], |log|) <==> Succeeds(e)
  {
    assert (log + [e])[..|log|] == log;
    hide Tries, CString, Held;
  }

  lemma {:induction false} FeedAccounted(setup: Setup, required: bool, tokens: seq<Option<seq<Byte>>>, c: Client, bytes: seq<Byte>)
    requires Accounted(setup, required, tokens, c) && EndsLast(setup, required, tokens, c)
    ensures var d := Feed(setup, c, bytes); Accounted(setup, required, tokens, d) && EndsLast(setup, required, tokens, d)
    decreases |bytes|
  {
    hide Execute, Accounted, EndsLast;
    if bytes != [] && !c.finished {
      ExecuteAccounted(setup, required, tokens, c, c.pending);
      PendingOnly(setup, required, tokens, c, FeedByte(setup, c, bytes[0]).pending);
      var d := Execute(setup, c, c.pending);
      PendingOnly(setup, required, tokens, d, []);
      FeedAccounted(setup, required, tokens, FeedByte(setup, c, bytes[0]), bytes[1..]);
    }
  }

  lemma PendingOnly(setup: Setup, required: bool, tokens: seq<Option<seq<Byte>>>, c: Client, p: seq<Byte>)
    requires Accounted(setup, required, tokens, c) && EndsLast(setup, required, tokens, c)
    ensures var d := c.(pending := p); Accounted(setup, required, tokens, d) && EndsLast(setup, required, tokens, d)
  {
    hide Granted, Tries, Account, ResultAt;
  }

  lemma AcceptAccounted(setup: Setup, required: bool, tokens: seq<Option<seq<Byte>>>)
    ensures var c := Accept(required, tokens); Accounted(setup, required, tokens, c) && EndsLast(setup, required, tokens, c)
  {
    assert tokens[0..] == tokens;
  }

  /** The lines that a session executes are those of the stream, as they are presented, until one ends the session. */
  lemma {:induction false} RunLinesAre(setup: Setup, c: Client, lines: seq<seq<Byte>>)
    requires !c.finished
    ensures var d := RunLines(setup, c, lines);
            && |c.lines| <= |d.lines| <= |c.lines| + |lines| && c.lines == d.lines[..|c.lines|]
            && (forall i | 0 <= i < |d.lines| - |c.lines| :: d.lines[|c.lines| + i] == Presented(lines[i]))
            && (!d.finished ==> |d.lines| == |c.lines| + |lines|)
    decreases |lines|
  {
    hide Presented, Execute;
    if lines != [] {
      var d := Execute(setup, c, Presented(lines[0])).(pending := []);
      ExecuteLines(setup, c, Presented(lines[0]));
      if d.finished {
        RunEnded(setup, d, lines[1..]);
      } else {
        RunLinesAre(setup, d, lines[1..]);
      }
      var r := RunLines(setup, d, lines[1..]);
      hide RunLines;
      assert r.lines[..|c.lines| + 1] == c.lines + [Presented(lines[0])];
      assert r.lines[|c.lines|] == r.lines[..|c.lines| + 1][|c.lines|];
      assert r.lines[..|c.lines|] == r.lines[..|c.lines| + 1][..|c.lines|];
      forall i | 0 <= i < |r.lines| - |c.lines|
        ensures r.lines[|c.lines| + i] == Presented(lines[i])
      {
        if i > 0 {
          assert r.lines[|d.lines| + (i - 1)] == Presented(lines[1..][i - 1]);
        }
      }
      assert RunLines(setup, c, lines) == r by { RunFirst(setup, c, lines); }
    }
  }

  lemma RunFirst(setup: Setup, c: Client, lines: seq<seq<Byte>>)
    requires !c.finished && lines != []
    ensures RunLines(setup, c, lines) == RunLines(setup, Execute(setup, c, Presented(lines[0])).(pending := []), lines[1..])
  {
    hide Presented, Execute;
  }

  lemma ExecuteLines(setup: Setup, c: Client, line: seq<Byte>)
    ensures Execute(setup, c, line).lines == c.lines + [line]
  {
    hide Dispatch, CString;
  }

  /**
   What every session does, for all that is sent and whatever the token file holds: the lines that are
   executed are those of the stream, one after the other; the log is what they run, each handler with
   the arguments of its line and each attempt with the token that the file held then; and the session
   ends with the first line that is forbidden or quits.
   */
  lemma SessionIs(setup: Setup, required: bool, tokens: seq<Option<seq<Byte>>>, input: seq<Byte>)
    ensures var d := Feed(setup, Accept(required, tokens), input);
            && |d.lines| <= |Lines(input)| && (!d.finished ==> |d.lines| == |Lines(input)|)
            && (forall i | 0 <= i < |d.lines| :: d.lines[i] == Presented(Lines(input)[i]))
            && d.log == Account(setup, required, tokens, d.lines)
            && (d.authenticated <==> !required || Granted(tokens, d.log))
            && (d.finished <==> d.lines != [] && Ends(ResultAt(setup, required, tokens, d.lines, |d.lines| - 1)))
            && (forall i | 0 <= i < |d.lines| - 1 :: !Ends(ResultAt(setup, required, tokens, d.lines, i)))
  {
    hide *;
    var c := Accept(required, tokens);
    AcceptAccounted(setup, required, tokens);
    FeedAccounted(setup, required, tokens, c, input);
    AcceptIs(required, tokens);
    SessionLines(setup, c, input);
    AccountedIs(setup, required, tokens, Feed(setup, c, input));
  }

  lemma SessionLines(setup: Setup, c: Client, input: seq<Byte>)
    requires !c.finished && c.pending == [] && c.lines == []
    ensures var d := Feed(setup, c, input);
            && |d.lines| <= |Lines(input)| && (!d.finished ==> |d.lines| == |Lines(input)|)
            && forall i | 0 <= i < |d.lines| :: d.lines[i] == Presented(Lines(input)[i])
  {
    hide *;
    FramingIs(setup, c, input);
    FirstLines(setup, c, Lines(input));
    SameLines(setup, c, Feed(setup, c, input), Lines(input));
  }

  lemma FirstLines(setup: Setup, c: Client, lines: seq<seq<Byte>>)
    requires !c.finished && c.lines == []
    ensures var d := RunLines(setup, c, lines);
            && |d.lines| <= |lines| && (!d.finished ==> |d.lines| == |lines|)
            && forall i | 0 <= i < |d.lines| :: d.lines[i] == Presented(lines[i])
  {
    hide *;
    RunLinesAre(setup, c, lines);
    var d := RunLines(setup, c, lines);
    forall i | 0 <= i < |d.lines| ensures d.lines[i] == Presented(lines[i]) {
      assert d.lines[|c.lines| + i] == Presented(lines[i]);
    }
  }

  lemma AcceptIs(required: bool, tokens: seq<Option<seq<Byte>>>)
    ensures var c := Accept(required, tokens); !c.finished && c.pending == [] && c.lines == []
  {
  }

  lemma SameLines(setup: Setup, c: Client, d: Client, lines: seq<seq<Byte>>)
    requires d.(pending := []) == RunLines(setup, c, lines).(pending := [])
    ensures d.lines == RunLines(setup, c, lines).lines && d.finished == RunLines(setup, c, lines).finished
  {
    hide RunLines;
  }

  lemma AccountedIs(setup: Setup, required: bool, tokens: seq<Option<seq<Byte>>>, d: Client)
    requires Accounted(setup, required, tokens, d) && EndsLast(setup, required, tokens, d)
    ensures d.log == Account(setup, required, tokens, d.lines)
    ensures d.authenticated <==> !required || Granted(tokens, d.log)
    ensures d.finished <==> d.lines != [] && Ends(ResultAt(setup, required, tokens, d.lines, |d.lines| - 1))
    ensures forall i | 0 <= i < |d.lines| - 1 :: !Ends(ResultAt(setup, required, tokens, d.lines, i))
  {
    hide Granted, Account, ResultAt, Ends, Left, Tries;
  }

  // ----- authentication -----------------------------------------------------------------------

  /** The attempts of an account met the tokens one after the other. */
  lemma {:induction false} TokensMet(setup: Setup, required: bool, tokens: seq<Option<seq<Byte>>>, lines: seq<seq<Byte>>)
    ensures var log := Account(setup, required, tokens, lines);
            forall j | 0 <= j < |log| :: Succeeds(log[j]) <==> Grants(tokens, log, j)
    decreases |lines|
  {
    hide Account, Grants, Succeeds, Dispatch, Tries, CString, ResultAt, Table, Held;
    if lines == [] {
      AccountNone(setup, required, tokens);
    } else {
      var init := lines[..|lines| - 1];
      TokensMet(setup, required, tokens, init);
      assert lines == init + [lines[|lines| - 1]];
      AccountMore(setup, required, tokens, init, lines[|lines| - 1]);
      var before, log := Account(setup, required, tokens, init), Account(setup, required, tokens, lines);
      forall j | 0 <= j < |log|
        ensures Succeeds(log[j]) <==> Grants(tokens, log, j)
      {
        if j < |before| {
          GrantsBefore(tokens, before, log, j);
        } else {
          GrantsLast(tokens, before, log[j]);
          assert log == before + [log[j]];
        }
      }
    }
  }

  lemma AccountNone(setup: Setup, required: bool, tokens: seq<Option<seq<Byte>>>)
    ensures Account(setup, required, tokens, []) == []
  {
  }

  lemma GrantsBefore(tokens: seq<Option<seq<Byte>>>, before: seq<Entry>, log: seq<Entry>, j: nat)
    requires before <= log && j < |before|
    ensures Grants(tokens, before, j) <==> Grants(tokens, log, j)
  {
    assert before[..j] == log[..j];
    hide Tries, CString, Held;
  }

  /**
   Over every run of a client that must authenticate, a handler that the table for those who have not
   yet authenticated does not offer runs only after an attempt whose argument was the token that the
   file held when it was read for this attempt; and the full table is given exactly after such an attempt.
   */
  lemma NothingBeforeAuthentication(setup: Setup, tokens: seq<Option<seq<Byte>>>, input: seq<Byte>)
    ensures var d := Feed(setup, Accept(true, tokens), input);
      && (forall i | 0 <= i < |d.log| && d.log[i].Ran? && !Offers(setup.preauth, d.log[i].handler) ::
           exists j | 0 <= j < i :: Grants(tokens, d.log, j))
      && (d.authenticated <==> exists j | 0 <= j < |d.log| :: Grants(tokens, d.log, j))
  {
    hide Feed, Offers, Succeeds, Grants, Account, ResultAt, Lines, Presented, Ends;
    AttemptsGuard(setup, tokens, input);
    SessionIs(setup, true, tokens, input);
    var d := Feed(setup, Accept(true, tokens), input);
    TokensMet(setup, true, tokens, d.lines);
  }

  /** With the table of the console: anything but help, ping, the name, 'auth' and 'quit' comes after the token. */
  lemma OnlyPreauthCommandsBeforeToken(setup: Setup, tokens: seq<Option<seq<Byte>>>, input: seq<Byte>)
    requires setup.preauth == PREAUTH
    ensures var d := Feed(setup, Accept(true, tokens), input);
      forall i | 0 <= i < |d.log| && d.log[i].Ran? && d.log[i].handler !in {HELP, HELP_VERBOSE, PING, AVD_NAME, AUTH, QUIT} ::
        exists j | 0 <= j < i :: Grants(tokens, d.log, j)
  {
    hide Feed, Grants;
    NothingBeforeAuthentication(setup, tokens, input);
    var d := Feed(setup, Accept(true, tokens), input);
    forall i | 0 <= i < |d.log| && d.log[i].Ran? && d.log[i].handler !in {HELP, HELP_VERBOSE, PING, AVD_NAME, AUTH, QUIT}
      ensures exists j | 0 <= j < i :: Grants(tokens, d.log, j)
    {
      PreauthOffers(d.log[i].handler);
    }
  }
}
