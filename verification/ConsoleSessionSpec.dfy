/** A console session: bytes to lines, lines to commands, and who may run which. */
module ConsoleSessionSpec {
  import opened AsyncIoCommon

  type Byte = bv8

  const LF: Byte := 10
  const CR: Byte := 13
  const SPACE: Byte := 32
  const BAR: Byte := 124
  const NUL: Byte := 0

  /** The longest line that is kept whole: the buffer without its NUL. */
  const LINE_MAX: nat := 4095

  /** A command has a handler, or sub-commands, or by mistake neither. */
  datatype Command =
    | Leaf(names: seq<Byte>, handler: nat)
    | Group(names: seq<Byte>, subs: seq<Command>)
    | Buggy(names: seq<Byte>)

  const AUTH: nat := 0
  const QUIT: nat := 1

  /** What the console is set up with: its two tables, and the checks made on lines and names. */
  datatype Setup = Setup(
    preauth: seq<Command>,
    main: seq<Command>,
    http: seq<Byte> -> bool,
    utf8: seq<Byte> -> bool,
    enabled: seq<Byte> -> bool)

  // ----- words --------------------------------------------------------------------------------

  /** The position of the first `c`, or the length. */
  function Find(s: seq<Byte>, c: Byte): (n: nat)
    ensures n <= |s|
  {
    if s == [] || s[0] == c then 0 else 1 + Find(s[1..], c)
  }

  lemma {:induction false} FindIs(s: seq<Byte>, c: Byte)
    ensures var n := Find(s, c); (n < |s| ==> s[n] == c) && forall i | 0 <= i < n :: s[i] != c
  {
    if s != [] && s[0] != c {
      FindIs(s[1..], c);
      var n := Find(s, c);
      assert forall i | 1 <= i < n :: s[i] == s[1..][i - 1];
    }
  }

  lemma FindUnique(s: seq<Byte>, c: Byte, n: nat)
    requires n <= |s| && (n < |s| ==> s[n] == c) && forall i | 0 <= i < n :: s[i] != c
    ensures Find(s, c) == n
  {
    FindIs(s, c);
  }

  /** The bytes before the first NUL. */
  function CString(s: seq<Byte>): (r: seq<Byte>)
    ensures |r| <= |s| && NUL !in r
  {
    var n := Find(s, NUL);
    FindIs(s, NUL);
    assert forall i | 0 <= i < n :: s[..n][i] == s[i];
    s[..n]
  }

  function FirstWord(line: seq<Byte>): seq<Byte> {
    line[..Find(line, SPACE)]
  }

  function SkipSpaces(s: seq<Byte>): (r: seq<Byte>)
    ensures |r| <= |s|
  {
    if s != [] && s[0] == SPACE then SkipSpaces(s[1..]) else s
  }

  /** What follows the first word and the spaces after it, if anything does. */
  function Args(line: seq<Byte>): (r: Option<seq<Byte>>)
    ensures r.Some? ==> 0 < |r.value| < |line|
  {
    var n := Find(line, SPACE);
    if n == |line| then None
    else
      var rest := SkipSpaces(line[n + 1..]);
      if rest == [] then None else Some(rest)
  }

  /** Whether a word is one of the names of a command, which bars separate; a bar at the end adds none. */
  predicate Named(names: seq<Byte>, word: seq<Byte>)
    decreases |names|
  {
    var n := Find(names, BAR);
    word == names[..n] || (n + 1 < |names| && Named(names[n + 1..], word))
  }

  function Spaces(n: nat): (r: seq<Byte>)
    ensures |r| == n
  {
    seq(n, _ => SPACE)
  }

  lemma {:induction false} SkipSpacesIs(s: seq<Byte>)
    ensures var r := SkipSpaces(s); s == Spaces(|s| - |r|) + r && (r != [] ==> r[0] != SPACE)
  {
    if s != [] && s[0] == SPACE {
      SkipSpacesIs(s[1..]);
      var r := SkipSpaces(s);
      assert Spaces(|s| - |r|) == [SPACE] + Spaces(|s| - 1 - |r|);
      assert s == [s[0]] + s[1..];
    }
  }

  /** A line is its first word, spaces, and its arguments; the word has no space, the arguments start with none. */
  lemma WordSpacesArgs(line: seq<Byte>)
    ensures
      var w, args := FirstWord(line), match Args(line) case None => [] case Some(a) => a;
      && SPACE !in w && (args != [] ==> args[0] != SPACE && |w| + |args| < |line|)
      && line == w + Spaces(|line| - |w| - |args|) + args
  {
    var n := Find(line, SPACE);
    NoSpace(line);
    if n < |line| {
      var rest := line[n + 1..];
      SkipSpacesIs(rest);
      hide Find, SkipSpaces, Spaces;
      OneMoreSpace(line, n, SkipSpaces(rest));
    }
  }

  lemma NoSpace(line: seq<Byte>)
    ensures var n := Find(line, SPACE);
      && SPACE !in line[..n] && (n < |line| ==> line[n] == SPACE)
      && (n == |line| ==> line == line[..n] + Spaces(0) + [])
  {
    FindIs(line, SPACE);
    var n := Find(line, SPACE);
    assert forall i | 0 <= i < n :: line[..n][i] == line[i];
  }

  lemma OneMoreSpace(line: seq<Byte>, n: nat, r: seq<Byte>)
    requires n < |line| && line[n] == SPACE && |r| < |line| - n
    requires line[n + 1..] == Spaces(|line| - n - 1 - |r|) + r
    ensures line == line[..n] + Spaces(|line| - n - |r|) + r
  {
    var k := |line| - n - 1 - |r|;
    assert Spaces(k + 1) == [SPACE] + Spaces(k);
    hide Spaces;
    assert line == line[..n] + ([SPACE] + line[n + 1..]);
    assert line[..n] + ([SPACE] + (Spaces(k) + r)) == line[..n] + ([SPACE] + Spaces(k)) + r;
  }

  /** Names are separated by bars. */
  lemma NamesAreBetweenBars(name: seq<Byte>, more: seq<Byte>, word: seq<Byte>)
    requires BAR !in name
    ensures Named(name, word) <==> word == name
    ensures Named(name + [BAR], word) <==> word == name
    ensures more != [] ==> (Named(name + [BAR] + more, word) <==> word == name || Named(more, word))
  {
    var s := name + [BAR] + more;
    assert forall i | 0 <= i < |name| :: name[i] in name && s[i] == name[i];
    assert s[|name|] == BAR;
    FindUnique(name, BAR, |name|);
    FindUnique(name + [BAR], BAR, |name|);
    FindUnique(s, BAR, |name|);
    hide Find;
    assert name[..|name|] == name && (name + [BAR])[..|name|] == name;
    assert s[..|name|] == name && s[|name| + 1..] == more;
  }

  // ----- commands -----------------------------------------------------------------------------

  /** The first command of a table that has the word among its names, or the length. */
  function FindCommand(commands: seq<Command>, word: seq<Byte>): (n: nat)
    ensures n <= |commands| && (n < |commands| ==> Named(commands[n].names, word))
    ensures forall i | 0 <= i < n :: !Named(commands[i].names, word)
  {
    if commands == [] || Named(commands[0].names, word) then 0 else 1 + FindCommand(commands[1..], word)
  }

  datatype Result =
    | Call(handler: nat, args: Option<seq<Byte>>)
    | Unknown
    | BuggyTable
    | MissingSub
    | BadSub
    | Forbidden

  /** Down the tree, one word for each level. */
  function Walk(cmd: Command, args: Option<seq<Byte>>): Result
    decreases cmd
  {
    match cmd
    case Leaf(_, handler) => Call(handler, args)
    case Buggy(_) => BuggyTable
    case Group(_, subs) =>
      if args == None then MissingSub
      else
        var n := FindCommand(subs, FirstWord(args.value));
        if n == |subs| then BadSub else Walk(subs[n], Args(args.value))
  }

  function Dispatch(setup: Setup, commands: seq<Command>, line: seq<Byte>): Result {
    if setup.http(line) || !setup.utf8(line) then Forbidden
    else
      var n := FindCommand(commands, FirstWord(line));
      if n == |commands| || !setup.enabled(commands[n].names) then Unknown
      else Walk(commands[n], Args(line))
  }

  // ----- the session ----------------------------------------------------------------------------

  datatype Entry =
    | Ran(handler: nat, args: Option<seq<Byte>>)
    | Tried(args: Option<seq<Byte>>, token: Option<seq<Byte>>)

  /** An attempt to authenticate succeeds when the argument is the token. */
  predicate Succeeds(e: Entry) {
    e.Tried? && e.args.Some? && e.token.Some? && CString(e.args.value) == CString(e.token.value)
  }

  /**
   One client.  `tokens` is what the token file will hold, each time it is read; `log` is what was
   run, and `lines` the lines that were presented to the dispatcher.
   */
  datatype Client = Client(
    authenticated: bool,
    finished: bool,
    pending: seq<Byte>,
    tokens: seq<Option<seq<Byte>>>,
    log: seq<Entry>,
    lines: seq<seq<Byte>>)

  function Commands(setup: Setup, c: Client): seq<Command> {
    if c.authenticated then setup.main else setup.preauth
  }

  function TryAuth(c: Client, args: Option<seq<Byte>>): Client {
    if args == None then c.(log := c.log + [Tried(None, None)])
    else
      var token := if c.tokens == [] then None else c.tokens[0];
      var e := Tried(args, token);
      c.(tokens := if c.tokens == [] then [] else c.tokens[1..],
         log := c.log + [e],
         authenticated := c.authenticated || Succeeds(e))
  }

  function Do(c: Client, r: Result): Client {
    match r
    case Forbidden => c.(finished := true)
    case Call(h, args) =>
      if h == AUTH then TryAuth(c, args)
      else c.(log := c.log + [Ran(h, args)], finished := c.finished || h == QUIT)
    case _ => c
  }

  /** A line is presented; as a C string it ends at its first NUL. */
  function Execute(setup: Setup, c: Client, line: seq<Byte>): Client {
    Do(c.(lines := c.lines + [line]), Dispatch(setup, Commands(setup, c), CString(line)))
  }

  function FeedByte(setup: Setup, c: Client, ch: Byte): Client {
    if ch == CR then c
    else if ch == LF then
      var d := Execute(setup, c, c.pending);
      if d.finished then d else d.(pending := [])
    else c.(pending := (if |c.pending| >= LINE_MAX then [] else c.pending) + [ch])
  }

  /** Bytes are taken one by one, up to the end of the session. */
  function Feed(setup: Setup, c: Client, bytes: seq<Byte>): Client
    decreases |bytes|
  {
    if bytes == [] || c.finished then c else Feed(setup, FeedByte(setup, c, bytes[0]), bytes[1..])
  }

  /** A client as it is accepted, with or without the need to authenticate. */
  function Accept(required: bool, tokens: seq<Option<seq<Byte>>>): Client {
    Client(!required, false, [], tokens, [], [])
  }

  /** A client that receives its bytes in pieces. */
  function FeedAll(setup: Setup, c: Client, chunks: seq<seq<Byte>>): Client
    decreases |chunks|
  {
    if chunks == [] then c else FeedAll(setup, Feed(setup, c, chunks[0]), chunks[1..])
  }

  function Concat(chunks: seq<seq<Byte>>): seq<Byte> {
    if chunks == [] then [] else chunks[0] + Concat(chunks[1..])
  }

  // ----- framing --------------------------------------------------------------------------------

  lemma {:induction false} FeedBoth(setup: Setup, c: Client, a: seq<Byte>, b: seq<Byte>)
    ensures Feed(setup, c, a + b) == Feed(setup, Feed(setup, c, a), b)
    decreases |a|
  {
    hide FeedByte;
    if a == [] {
      assert a + b == b;
    } else if !c.finished {
      assert (a + b)[1..] == a[1..] + b;
      FeedBoth(setup, FeedByte(setup, c, a[0]), a[1..], b);
    }
  }

  /** How the bytes are cut up by recv makes no difference. */
  lemma {:induction false} ChunksDoNotMatter(setup: Setup, c: Client, chunks: seq<seq<Byte>>)
    ensures FeedAll(setup, c, chunks) == Feed(setup, c, Concat(chunks))
    decreases |chunks|
  {
    if chunks != [] {
      FeedBoth(setup, c, chunks[0], Concat(chunks[1..]));
      ChunksDoNotMatter(setup, Feed(setup, c, chunks[0]), chunks[1..]);
    }
  }

  function NoCr(s: seq<Byte>): seq<Byte> {
    if s == [] then [] else (if s[0] == CR then [] else [s[0]]) + NoCr(s[1..])
  }

  /** How much of a line of `n` bytes is left after the buffer has wrapped. */
  function Span(n: nat): (r: nat)
    ensures r <= n && r <= LINE_MAX && (n > 0 ==> r > 0)
  {
    if n == 0 then 0 else (n - 1) % LINE_MAX + 1
  }

  /** What is left of it: its last bytes. */
  function Kept(s: seq<Byte>): (r: seq<Byte>)
    ensures |r| == Span(|s|)
  {
    s[|s| - Span(|s|)..]
  }

  lemma SpanMore(n: nat)
    ensures Span(n + 1) == if Span(n) >= LINE_MAX then 1 else Span(n) + 1
  {
  }

  lemma KeptMore(s: seq<Byte>, ch: Byte)
    ensures Kept(s + [ch]) == (if |Kept(s)| >= LINE_MAX then [] else Kept(s)) + [ch]
  {
    SpanMore(|s|);
    hide Span;
    var k, t := Span(|s| + 1), s + [ch];
    assert t[|t| - k..] == s[|s| - (k - 1)..] + [ch];
  }

  /** What the buffer presents of a line. */
  function Presented(line: seq<Byte>): seq<Byte> {
    Kept(NoCr(line))
  }

  lemma FeedChar(setup: Setup, c: Client, before: seq<Byte>, ch: Byte)
    requires c.pending == Kept(before) && ch != LF
    ensures FeedByte(setup, c, ch) == c.(pending := Kept(before + if ch == CR then [] else [ch]))
  {
    KeptMore(before, ch);
    hide Kept, Execute;
    assert before + [] == before;
  }

  lemma {:induction false} FeedLine(setup: Setup, c: Client, before: seq<Byte>, x: seq<Byte>)
    requires !c.finished && c.pending == Kept(before) && LF !in x
    ensures Feed(setup, c, x) == c.(pending := Kept(before + NoCr(x)))
    decreases |x|
  {
    hide Kept, FeedByte, Feed, NoCr;
    if x == [] {
      NoCrNone();
      FeedNone(setup, c);
      assert before + NoCr(x) == before;
    } else {
      var ch, more := x[0], x[1..];
      assert ch in x && LF !in more;
      var now := before + if ch == CR then [] else [ch];
      NoCrFirst(before, x);
      FeedChar(setup, c, before, ch);
      FeedStep(setup, c, x);
      FeedLine(setup, FeedByte(setup, c, ch), now, more);
    }
  }

  lemma NoCrNone()
    ensures NoCr([]) == []
  {
  }

  lemma NoCrFirst(before: seq<Byte>, x: seq<Byte>)
    requires x != []
    ensures (before + if x[0] == CR then [] else [x[0]]) + NoCr(x[1..]) == before + NoCr(x)
  {
  }

  lemma FeedStep(setup: Setup, c: Client, x: seq<Byte>)
    requires !c.finished && x != []
    ensures Feed(setup, c, x) == Feed(setup, FeedByte(setup, c, x[0]), x[1..])
  {
    hide FeedByte;
  }

  /** The complete lines of a stream, and what follows the last of them. */
  function Lines(s: seq<Byte>): seq<seq<Byte>>
    decreases |s|
  {
    var n := Find(s, LF);
    if n == |s| then [] else [s[..n]] + Lines(s[n + 1..])
  }

  function Rest(s: seq<Byte>): seq<Byte>
    decreases |s|
  {
    var n := Find(s, LF);
    if n == |s| then s else Rest(s[n + 1..])
  }

  /** Lines are executed in order, each as it is presented, until one of them ends the session. */
  function RunLines(setup: Setup, c: Client, lines: seq<seq<Byte>>): Client
    decreases |lines|
  {
    if lines == [] || c.finished then c
    else RunLines(setup, Execute(setup, c, Presented(lines[0])).(pending := []), lines[1..])
  }

  lemma ExecuteKeeps(setup: Setup, c: Client, line: seq<Byte>, p: seq<Byte>)
    ensures Execute(setup, c.(pending := p), line) == Execute(setup, c, line).(pending := p)
  {
    hide Dispatch, CString;
  }

  lemma FeedOneLine(setup: Setup, c: Client, x: seq<Byte>)
    requires !c.finished && c.pending == [] && LF !in x
    ensures
      var d := Feed(setup, c, x + [LF]);
      var e := Execute(setup, c, Presented(x));
      d.(pending := []) == e.(pending := []) && (!d.finished ==> d.pending == [])
  {
    hide *;
    PresentedIs(x);
    FeedLine(setup, c, [], x);
    var full := c.(pending := Presented(x));
    FeedBoth(setup, c, x, [LF]);
    FeedLf(setup, full);
    ExecuteKeeps(setup, c, Presented(x), Presented(x));
  }

  lemma PresentedIs(x: seq<Byte>)
    ensures Kept([]) == [] && Kept([] + NoCr(x)) == Presented(x)
  {
    hide NoCr, Kept;
    assert [] + NoCr(x) == NoCr(x);
    assert |Kept([])| == 0;
  }

  lemma FeedLf(setup: Setup, c: Client)
    requires !c.finished
    ensures var d := Execute(setup, c, c.pending); Feed(setup, c, [LF]) == if d.finished then d else d.(pending := [])
  {
    hide Execute;
    FeedStep(setup, c, [LF]);
    assert [LF][1..] == [];
    FeedNone(setup, FeedByte(setup, c, LF));
    hide Feed;
  }

  lemma FeedNone(setup: Setup, c: Client)
    ensures Feed(setup, c, []) == c
  {
  }

  /** After the end of the session nothing is processed. */
  lemma NothingAfterTheEnd(setup: Setup, c: Client, bytes: seq<Byte>)
    requires c.finished
    ensures Feed(setup, c, bytes) == c
  {
  }

  /**
   Whatever the pieces in which it arrives, a stream is executed as the lines it holds, in order,
   each with its CRs removed and cut to its last bytes by the size of the buffer; nothing is
   processed after a line that ends the session; and the rest of the stream waits in the buffer.
   */
  lemma {:induction false} FramingIs(setup: Setup, c: Client, input: seq<Byte>)
    requires !c.finished && c.pending == []
    ensures
      var d := Feed(setup, c, input);
      && d.(pending := []) == RunLines(setup, c, Lines(input)).(pending := [])
      && (!d.finished ==> d.pending == Presented(Rest(input)))
    decreases |input|
  {
    hide *;
    var n := Find(input, LF);
    if n == |input| {
      FramingRest(setup, c, input);
    } else {
      var x, more := input[..n], input[n + 1..];
      CutLine(input);
      LinesAre(input);
      FeedBoth(setup, c, x + [LF], more);
      FeedOneLine(setup, c, x);
      RunOne(setup, c, x, Lines(more));
      var d := Feed(setup, c, x + [LF]);
      if d.finished {
        NothingAfterTheEnd(setup, d, more);
        RunEnded(setup, d.(pending := []), Lines(more));
      } else {
        FramingIs(setup, d, more);
      }
    }
  }

  lemma FramingRest(setup: Setup, c: Client, input: seq<Byte>)
    requires !c.finished && c.pending == [] && Find(input, LF) == |input|
    ensures
      var d := Feed(setup, c, input);
      && d.(pending := []) == RunLines(setup, c, Lines(input)).(pending := [])
      && d.pending == Presented(Rest(input))
  {
    NoLine(input);
    FeedLine(setup, c, [], input);
    hide Feed, NoCr, Find, Lines, Rest;
    assert [] + NoCr(input) == NoCr(input);
  }

  lemma RunOne(setup: Setup, c: Client, x: seq<Byte>, more: seq<seq<Byte>>)
    requires !c.finished
    ensures RunLines(setup, c, [x] + more) == RunLines(setup, Execute(setup, c, Presented(x)).(pending := []), more)
  {
    hide Execute, Presented;
    var lines := [x] + more;
    assert lines[0] == x && lines[1..] == more;
  }

  lemma RunEnded(setup: Setup, c: Client, lines: seq<seq<Byte>>)
    requires c.finished
    ensures RunLines(setup, c, lines) == c
  {
  }

  lemma Cut(s: seq<Byte>, n: nat)
    requires n < |s| && forall i | 0 <= i < n :: s[i] != s[n]
    ensures s[n] !in s[..n] && s == (s[..n] + [s[n]]) + s[n + 1..]
  {
    assert forall i | 0 <= i < n :: s[..n][i] == s[i];
  }

  lemma CutLine(input: seq<Byte>)
    requires Find(input, LF) < |input|
    ensures var n := Find(input, LF); LF !in input[..n] && input == (input[..n] + [LF]) + input[n + 1..]
  {
    FindIs(input, LF);
    hide Find;
    Cut(input, Find(input, LF));
  }

  lemma NoLine(input: seq<Byte>)
    requires Find(input, LF) == |input|
    ensures LF !in input && Lines(input) == [] && Rest(input) == input
  {
    FindIs(input, LF);
  }

  lemma LinesAre(input: seq<Byte>)
    requires Find(input, LF) < |input|
    ensures var n := Find(input, LF);
      Lines(input) == [input[..n]] + Lines(input[n + 1..]) && Rest(input) == Rest(input[n + 1..])
  {
    hide Find;
  }

  // ----- authentication -------------------------------------------------------------------------

  /** The handlers of a table, at any depth. */
  predicate Reaches(cmd: Command, handler: nat)
    decreases cmd
  {
    match cmd
    case Leaf(_, h) => h == handler
    case Group(_, subs) => exists i | 0 <= i < |subs| :: Reaches(subs[i], handler)
    case Buggy(_) => false
  }

  predicate Offers(commands: seq<Command>, handler: nat) {
    exists i | 0 <= i < |commands| :: Reaches(commands[i], handler)
  }

  /** A walk ends at a handler of the tree it started from. */
  lemma {:induction false} WalkStays(cmd: Command, args: Option<seq<Byte>>)
    ensures Walk(cmd, args).Call? ==> Reaches(cmd, Walk(cmd, args).handler)
    ensures Walk(cmd, args).Call? && Walk(cmd, args).args.Some? ==>
      args.Some? && |Walk(cmd, args).args.value| <= |args.value|
    decreases cmd
  {
    match cmd
    case Leaf(_, _) =>
    case Buggy(_) =>
    case Group(_, subs) =>
      if args.Some? {
        var n := FindCommand(subs, FirstWord(args.value));
        if n < |subs| { WalkStays(subs[n], Args(args.value)); }
      }
  }

  /** A handler that is called is in the table, and is given less than the line it was found on. */
  lemma DispatchStays(setup: Setup, commands: seq<Command>, line: seq<Byte>)
    ensures var r := Dispatch(setup, commands, line);
      r.Call? ==> Offers(commands, r.handler) && (r.args.Some? ==> |r.args.value| < |line|)
  {
    var n := FindCommand(commands, FirstWord(line));
    if n < |commands| { WalkStays(commands[n], Args(line)); }
  }

  /** A handler that is not offered before authentication ran only after an attempt that succeeded. */
  predicate Guarded(setup: Setup, log: seq<Entry>) {
    forall i | 0 <= i < |log| && log[i].Ran? && !Offers(setup.preauth, log[i].handler) ::
      exists j | 0 <= j < i :: Succeeds(log[j])
  }

  predicate Won(log: seq<Entry>) {
    exists j | 0 <= j < |log| :: Succeeds(log[j])
  }

  /** The full table is for those who have authenticated. */
  predicate Honest(setup: Setup, c: Client) {
    Guarded(setup, c.log) && (c.authenticated <==> Won(c.log))
  }

  lemma EntryMore(setup: Setup, log: seq<Entry>, e: Entry)
    requires Guarded(setup, log)
    requires e.Ran? ==> Offers(setup.preauth, e.handler) || Won(log)
    ensures Guarded(setup, log + [e])
    ensures Won(log + [e]) <==> Won(log) || Succeeds(e)
  {
    hide Offers, Succeeds;
    var now := log + [e];
    assert now[|log|] == e;
    assert forall j | 0 <= j < |log| :: now[j] == log[j];
  }

  lemma ExecuteOk(setup: Setup, c: Client, line: seq<Byte>)
    requires Honest(setup, c)
    ensures Honest(setup, Execute(setup, c, line))
  {
    var s := CString(line);
    DispatchStays(setup, Commands(setup, c), s);
    var r := Dispatch(setup, Commands(setup, c), s);
    var d := Execute(setup, c, line);
    hide Guarded, Won, Dispatch, Offers, CString;
    if |d.log| > |c.log| {
      EntryMore(setup, c.log, d.log[|c.log|]);
      assert d.log == c.log + [d.log[|c.log|]];
    }
  }

  lemma {:induction false} FeedOk(setup: Setup, c: Client, bytes: seq<Byte>)
    requires Honest(setup, c)
    ensures Honest(setup, Feed(setup, c, bytes))
    decreases |bytes|
  {
    if bytes != [] && !c.finished {
      ExecuteOk(setup, c, c.pending);
      hide Guarded, Won, Execute;
      FeedOk(setup, FeedByte(setup, c, bytes[0]), bytes[1..]);
    }
  }

  /** What an attempt that succeeded is needed for, over every run of a client that must authenticate. */
  lemma AttemptsGuard(setup: Setup, tokens: seq<Option<seq<Byte>>>, input: seq<Byte>)
    ensures var d := Feed(setup, Accept(true, tokens), input); Guarded(setup, d.log) && (d.authenticated <==> Won(d.log))
  {
    FeedOk(setup, Accept(true, tokens), input);
  }

  const HELP: nat := 2
  const HELP_VERBOSE: nat := 3
  const PING: nat := 4
  const AVD_NAME: nat := 5

  /** The commands that may be given before authentication. */
  const PREAUTH: seq<Command> := [
    Leaf([104, 101, 108, 112, 124, 104, 124, 63], HELP), // help|h|?
    Leaf([104, 101, 108, 112, 45, 118, 101, 114, 98, 111, 115, 101], HELP_VERBOSE), // help-verbose
    Leaf([112, 105, 110, 103], PING), // ping
    Group([97, 118, 100], [Leaf([110, 97, 109, 101], AVD_NAME)]), // avd name
    Leaf([97, 117, 116, 104], AUTH), // auth
    Leaf([113, 117, 105, 116, 124, 101, 120, 105, 116], QUIT)] // quit|exit

  lemma PreauthOffers(handler: nat)
    ensures Offers(PREAUTH, handler) <==> handler in {HELP, HELP_VERBOSE, PING, AVD_NAME, AUTH, QUIT}
  {
    var subs := PREAUTH[3].subs;
    assert Reaches(PREAUTH[3], handler) <==> Reaches(subs[0], handler);
    assert forall i | 0 <= i < |PREAUTH| && i != 3 :: Reaches(PREAUTH[i], handler) <==> PREAUTH[i].handler == handler;
    assert |PREAUTH| == 6;
    if handler in {HELP, HELP_VERBOSE, PING, AVD_NAME, AUTH, QUIT} {
      var i := if handler == AUTH then 4 else if handler == QUIT then 5 else handler - 2;
      assert Reaches(PREAUTH[i], handler);
    }
  }
}
