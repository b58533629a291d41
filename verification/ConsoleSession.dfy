/** The console client of console.cpp: its line buffer, its command tables, its authentication. */
module ConsoleSession {
  import opened AsyncIoCommon
  import opened ConsoleSessionSpec

  // ----- memory -----------------------------------------------------------------------------

  /** A byte of memory.  What lies beyond the buffer is of no account, and read as NUL. */
  function Peek(mem: seq<Byte>, p: nat, k: nat): Byte {
    if p + k < |mem| then mem[p + k] else NUL
  }

  /** What memcmp tells. */
  predicate Same(mem: seq<Byte>, p: nat, name: seq<Byte>) {
    forall k | 0 <= k < |name| :: Peek(mem, p, k) == name[k]
  }

  /** The C string at a position. */
  function StringAt(mem: seq<Byte>, p: nat): seq<Byte>
    requires p <= |mem|
  {
    CString(mem[p..])
  }

  predicate Ended(mem: seq<Byte>, p: nat) {
    p < |mem| && exists i | p <= i < |mem| :: mem[i] == NUL
  }

  /** Names hold neither a space nor a NUL. */
  predicate NameOk(name: seq<Byte>) {
    forall c | c in name :: c != SPACE && c != NUL
  }

  predicate CommandOk(cmd: Command)
    decreases cmd
  {
    NameOk(cmd.names) && (cmd.Group? ==> forall c | c in cmd.subs :: CommandOk(c))
  }

  predicate TableOk(commands: seq<Command>) {
    forall c | c in commands :: CommandOk(c)
  }

  lemma StringIs(mem: seq<Byte>, p: nat)
    requires Ended(mem, p)
    ensures var s := StringAt(mem, p);
      && p + |s| < |mem| && mem[p + |s|] == NUL
      && (forall i | 0 <= i < |s| :: mem[p + i] == s[i] && s[i] != NUL)
  {
    var i :| p <= i < |mem| && mem[i] == NUL;
    assert mem[p..][i - p] == NUL;
    FindIs(mem[p..], NUL);
    var n := Find(mem[p..], NUL);
    assert n < |mem| - p;
    assert mem[p..][n] == mem[p + n];
  }

  lemma StringUnique(mem: seq<Byte>, q: nat, s: seq<Byte>)
    requires q + |s| < |mem| && mem[q + |s|] == NUL
    requires mem[q..q + |s|] == s && NUL !in s
    ensures Ended(mem, q) && StringAt(mem, q) == s
  {
    var u := mem[q..];
    assert u[|s|] == NUL && u[..|s|] == s;
    assert forall i | 0 <= i < |s| :: u[i] == s[i] && s[i] in s;
    FindUnique(u, NUL, |s|);
  }

  /** The string at a later position of a string. */
  lemma StringLater(mem: seq<Byte>, p: nat, k: nat)
    requires Ended(mem, p) && k <= |StringAt(mem, p)|
    ensures Ended(mem, p + k) && StringAt(mem, p + k) == StringAt(mem, p)[k..]
  {
    StringIs(mem, p);
    var s := StringAt(mem, p);
    assert mem[p + k..p + k + (|s| - k)] == s[k..];
    StringUnique(mem, p + k, s[k..]);
  }

  /**
   Comparing a name with memory, and the byte after it with space and NUL, tells whether the name is
   the first word there: whatever lies in memory after the end of the string.
   */
  lemma MatchIs(mem: seq<Byte>, p: nat, name: seq<Byte>)
    requires Ended(mem, p) && NameOk(name)
    ensures Same(mem, p, name) && Peek(mem, p, |name|) in {SPACE, NUL} <==> name == FirstWord(StringAt(mem, p))
  {
    StringIs(mem, p);
    var s := StringAt(mem, p);
    hide StringAt;
    FindIs(s, SPACE);
    var n := |name|;
    assert forall k | 0 <= k < n :: name[k] in name;
    assert forall k | 0 <= k < |s| :: Peek(mem, p, k) == s[k];
    assert Peek(mem, p, |s|) == NUL;
    if Same(mem, p, name) && Peek(mem, p, n) in {SPACE, NUL} {
      assert forall k | 0 <= k < n :: Peek(mem, p, k) != NUL;
      assert n <= |s|;
      assert name == s[..n];
      assert forall k | 0 <= k < n :: s[k] == name[k];
      assert n < |s| ==> s[n] == Peek(mem, p, n);
      FindUnique(s, SPACE, n);
    }
  }

  // ----- finding a command ------------------------------------------------------------------

  lemma NamedStep(names: seq<Byte>, from: nat, word: seq<Byte>)
    requires from <= |names|
    ensures
      var n := Find(names[from..], BAR);
      var next := from + n + 1;
      Named(names[from..], word) <==> word == names[from..from + n] || (next < |names| && Named(names[next..], word))
  {
    var t := names[from..];
    var n := Find(t, BAR);
    assert t[..n] == names[from..from + n];
    if n + 1 < |t| { assert t[n + 1..] == names[from + n + 1..]; }
  }

  lemma PartOk(names: seq<Byte>, from: nat, to: nat)
    requires NameOk(names) && from <= to <= |names|
    ensures NameOk(names[from..to])
  {
    var part := names[from..to];
    assert forall i | 0 <= i < |part| :: part[i] == names[from + i] && names[from + i] in names;
  }

  /** One name is compared; the names after it are those after the next bar. */
  lemma NameMatch(mem: seq<Byte>, input: nat, names: seq<Byte>, from: nat)
    requires Ended(mem, input) && NameOk(names) && from <= |names|
    ensures
      var word := FirstWord(StringAt(mem, input));
      var n := Find(names[from..], BAR);
      var next := from + n + 1;
      var same := Same(mem, input, names[from..from + n]) && Peek(mem, input, n) in {SPACE, NUL};
      && (Named(names[from..], word) <==> same || (next < |names| && Named(names[next..], word)))
      && (same ==> |word| == n)
  {
    var word := FirstWord(StringAt(mem, input));
    hide FirstWord, StringAt, Ended, NameOk, Peek, Same, Named;
    var n := Find(names[from..], BAR);
    NamedStep(names, from, word);
    PartOk(names, from, from + n);
    MatchIs(mem, input, names[from..from + n]);
  }

  /** Whether the first word at `input` is one of the names; if so it ends `length` bytes on. */
  method MatchNames(buff: array<Byte>, input: nat, names: seq<Byte>) returns (found: bool, length: nat)
    requires Ended(buff[..], input) && NameOk(names)
    ensures found <==> Named(names, FirstWord(StringAt(buff[..], input)))
    ensures found ==> length == |FirstWord(StringAt(buff[..], input))|
  {
    assert input <= buff.Length;
    hide FirstWord, StringAt, Ended, NameOk, Peek, Same, Named, Find;
    ghost var word := FirstWord(StringAt(buff[..], input));
    var name := 0;
    assert names[0..] == names;
    while true
      invariant name <= |names|
      invariant Named(names, word) <==> Named(names[name..], word)
      decreases |names| - name
    {
      length := Find(names[name..], BAR);
      NameMatch(buff[..], input, names, name);
      var c := Peek(buff[..], input, length);
      if Same(buff[..], input, names[name..name + length]) && (c == SPACE || c == NUL) {
        return true, length;
      }
      if name + length == |names| { return false, 0; }
      name := name + length + 1;
      if name == |names| { return false, 0; }
    }
  }

  /** The arguments after the first word at `input`, or a null pointer. */
  method FindArgs(buff: array<Byte>, input: nat) returns (args: int)
    requires Ended(buff[..], input)
    ensures -1 <= args < buff.Length
    ensures Args(StringAt(buff[..], input)) == ArgsAt(buff[..], args)
    ensures args >= 0 ==> args > input && Ended(buff[..], args)
  {
    ghost var mem := buff[..];
    StringIs(mem, input);
    var line := StringAt(buff[..], input);
    hide StringAt, Ended, Args, SkipSpaces;
    var n := Find(line, SPACE);
    FindIs(line, SPACE);
    if n == |line| {
      NoArgs(line);
      return -1;
    }
    var k := n;
    SkipOne(line, n);
    while buff[input + k] == SPACE
      invariant n <= k <= |line|
      invariant SkipSpaces(line[k..]) == SkipSpaces(line[n + 1..])
      decreases |line| - k
    {
      assert mem[input + k] == SPACE;
      SkipOne(line, k);
      k := k + 1;
    }
    assert mem[input + k] == buff[input + k];
    SomeArgs(line, n, k);
    StringLater(mem, input, k);
    args := if buff[input + k] == NUL then -1 else input + k;
  }

  lemma NoArgs(line: seq<Byte>)
    requires Find(line, SPACE) == |line|
    ensures Args(line) == None
  {
  }

  lemma SomeArgs(line: seq<Byte>, n: nat, k: nat)
    requires n == Find(line, SPACE) < |line| && n <= k <= |line|
    requires SkipSpaces(line[k..]) == SkipSpaces(line[n + 1..])
    requires k < |line| ==> line[k] != SPACE
    ensures Args(line) == if k == |line| then None else Some(line[k..])
    ensures k > n
  {
    assert k < |line| ==> SkipSpaces(line[k..]) == line[k..];
    assert k == |line| ==> SkipSpaces(line[k..]) == [];
  }

  lemma SkipOne(line: seq<Byte>, n: nat)
    requires n < |line| && line[n] == SPACE
    ensures SkipSpaces(line[n..]) == SkipSpaces(line[n + 1..])
  {
    assert line[n..][1..] == line[n + 1..];
  }

  /** A pointer to arguments, which may be null. */
  function ArgsAt(mem: seq<Byte>, args: int): Option<seq<Byte>>
    requires -1 <= args < |mem|
  {
    if args < 0 then None else Some(StringAt(mem, args))
  }

  lemma CommandAt(commands: seq<Command>, n: nat)
    requires TableOk(commands) && n < |commands|
    ensures CommandOk(commands[n])
  {
  }

  lemma SubsOk(cmd: Command)
    requires CommandOk(cmd) && cmd.Group?
    ensures TableOk(cmd.subs)
  {
  }

  /** The first command that has the first word at `input` among its names. */
  method FindCommandAt(buff: array<Byte>, input: nat, commands: seq<Command>) returns (nn: nat, end: nat, args: int)
    requires Ended(buff[..], input) && TableOk(commands)
    ensures nn == FindCommand(commands, FirstWord(StringAt(buff[..], input)))
    ensures nn < |commands| ==> end == input + |FirstWord(StringAt(buff[..], input))|
    ensures -1 <= args < buff.Length
    ensures Args(StringAt(buff[..], input)) == ArgsAt(buff[..], args)
    ensures args >= 0 ==> args > input && Ended(buff[..], args)
  {
    assert input <= buff.Length;
    hide FirstWord, StringAt, Ended, Named, Args, NameOk;
    ghost var word := FirstWord(StringAt(buff[..], input));
    args := FindArgs(buff, input);
    nn, end := 0, 0;
    assert commands[0..] == commands;
    while nn < |commands|
      invariant nn <= |commands|
      invariant FindCommand(commands, word) == nn + FindCommand(commands[nn..], word)
    {
      assert CommandOk(commands[nn]);
      var found, length := MatchNames(buff, input, commands[nn].names);
      if found {
        end := input + length;
        return;
      }
      nn := nn + 1;
    }
  }

  // ----- authentication ---------------------------------------------------------------------

  /** Every byte is compared, whether or not one before it differed. */
  method ConstTimeStrcmp(fst: seq<Byte>, snd: seq<Byte>, size: nat) returns (result: Byte)
    requires size <= |fst| && size <= |snd|
    ensures result == 0 <==> fst[..size] == snd[..size]
  {
    result := 0;
    var i := 0;
    while i < size
      invariant i <= size
      invariant result == 0 <==> forall k | 0 <= k < i :: fst[k] == snd[k]
    {
      OrOfXor(result, fst[i], snd[i]);
      result := result | (fst[i] ^ snd[i]);
      i := i + 1;
    }
    assert result == 0 ==> fst[..size] == snd[..size];
    assert fst[..size] == snd[..size] ==> forall k | 0 <= k < size :: fst[..size][k] == snd[..size][k];
  }

  lemma OrOfXor(r: Byte, a: Byte, b: Byte)
    ensures r | (a ^ b) == 0 <==> r == 0 && a == b
  {
  }

  /** The argument, cut or filled up with NULs to the length of the token and its NUL. */
  function Padded(args: seq<Byte>, size: nat): (r: seq<Byte>)
    ensures |r| == size
  {
    seq(size, i requires 0 <= i < size => if i < |args| then args[i] else NUL)
  }

  /** The comparison sees exactly whether the argument is the token. */
  lemma PaddedIs(token: seq<Byte>, args: seq<Byte>)
    requires NUL !in token && NUL !in args
    ensures token + [NUL] == Padded(args, |token| + 1) <==> token == args
  {
    var t, p := token + [NUL], Padded(args, |token| + 1);
    assert forall i | 0 <= i < |args| :: args[i] in args;
    assert forall i | 0 <= i < |token| :: token[i] in token && t[i] == token[i];
    if t == p {
      assert p[|token|] == NUL;
      assert |args| <= |token|;
      assert t[|args|] == p[|args|] == NUL;
      assert |args| == |token|;
      assert forall i | 0 <= i < |token| :: token[i] == args[i];
    }
    if token == args {
      assert forall i | 0 <= i < |t| :: t[i] == p[i];
    }
  }

  datatype Table = Preauth | Main

  datatype AuthStatus = Disabled | Required | Error

  // ----- the client -------------------------------------------------------------------------

  class ControlClient {
    const setup: Setup
    const buff: array<Byte>
    var buffLen: nat
    var commands: Table
    var finished: bool
    var tokens: seq<Option<seq<Byte>>>
    var log: seq<Entry>
    var lines: seq<seq<Byte>>

    ghost predicate Valid()
      reads this
    {
      buff.Length == LINE_MAX + 1 && buffLen <= LINE_MAX && TableOk(setup.preauth) && TableOk(setup.main)
    }

    ghost function Abs(): Client
      requires Valid()
      reads this, buff
    {
      Client(commands == Main, finished, buff[..buffLen], tokens, log, lines)
    }

    constructor (setup: Setup, tokens: seq<Option<seq<Byte>>>)
      requires TableOk(setup.preauth) && TableOk(setup.main)
      ensures Valid() && this.setup == setup && Abs() == ConsoleSessionSpec.Accept(true, tokens)
      ensures fresh(buff)
    {
      this.setup, this.tokens := setup, tokens;
      buff := new Byte[LINE_MAX + 1];
      buffLen, commands, finished, log, lines := 0, Preauth, false, [], [];
    }

    /** A new connection; it is turned away when the token cannot be had. */
    static method Accept(setup: Setup, tokens: seq<Option<seq<Byte>>>, status: AuthStatus) returns (client: ControlClient?)
      requires TableOk(setup.preauth) && TableOk(setup.main)
      ensures client == null <==> status == Error
      ensures client != null ==> fresh(client) && client.Valid() && client.setup == setup
      ensures client != null ==> client.Abs() == ConsoleSessionSpec.Accept(status == Required, tokens)
    {
      client := new ControlClient(setup, tokens);
      match status {
        case Disabled => client.commands := Main;
        case Required =>
        case Error => client := null;
      }
    }

    /** The 'auth' command. */
    method DoAuth(args: int)
      requires Valid() && -1 <= args < buff.Length && (args >= 0 ==> Ended(buff[..], args))
      modifies this`commands, this`tokens, this`log
      ensures Abs() == TryAuth(old(Abs()), ArgsAt(buff[..], args))
    {
      if args < 0 {
        log := log + [Tried(None, None)];
        return;
      }
      var value := StringAt(buff[..], args);
      var token := if tokens == [] then None else tokens[0];
      if tokens != [] { tokens := tokens[1..]; }
      log := log + [Tried(Some(value), token)];
      if token == None { return; }
      var wanted := CString(token.value);
      var size := |wanted| + 1;
      PaddedIs(wanted, value);
      StringTwice(buff[..], args);
      var differ := ConstTimeStrcmp(wanted + [NUL], Padded(value, size), size);
      assert (wanted + [NUL])[..size] == wanted + [NUL] && Padded(value, size)[..size] == Padded(value, size);
      if differ != 0 { return; }
      commands := Main;
    }

    /** A command is found for the line in the buffer, and carried out. */
    method DoCommand()
      requires Valid() && Ended(buff[..], 0)
      modifies this`commands, this`tokens, this`log, this`finished
      ensures Abs() == Do(old(Abs()), Dispatch(setup, Commands(setup, old(Abs())), StringAt(buff[..], 0)))
    {
      hide StringAt, Ended, FirstWord, Args, FindCommand, TableOk;
      var line := StringAt(buff[..], 0);
      if setup.http(line) || !setup.utf8(line) {
        finished := true;
        return;
      }
      var table := if commands == Main then setup.main else setup.preauth;
      var nn, end, args := FindCommandAt(buff, 0, table);
      if nn == |table| || !setup.enabled(table[nn].names) {
        return;
      }
      CommandAt(table, nn);
      WalkDown(table[nn], args);
    }

    /** Down the tree to a handler, one word of the line for each level. */
    method WalkDown(top: Command, topArgs: int)
      requires Valid() && -1 <= topArgs < buff.Length && (topArgs >= 0 ==> Ended(buff[..], topArgs)) && CommandOk(top)
      modifies this`commands, this`tokens, this`log, this`finished
      ensures Abs() == Do(old(Abs()), Walk(top, ArgsAt(buff[..], topArgs)))
    {
      hide StringAt, Ended, FirstWord, Args, FindCommand, TableOk;
      var cmd, args := top, topArgs;
      while true
        invariant -1 <= args < buff.Length && (args >= 0 ==> Ended(buff[..], args))
        invariant CommandOk(cmd) && Walk(cmd, ArgsAt(buff[..], args)) == Walk(top, ArgsAt(buff[..], topArgs))
        invariant Abs() == old(Abs())
        decreases cmd
      {
        match cmd {
          case Leaf(_, handler) =>
            if handler == AUTH {
              DoAuth(args);
            } else {
              log := log + [Ran(handler, ArgsAt(buff[..], args))];
              if handler == QUIT { finished := true; }
            }
            return;
          case Buggy(_) =>
            return;
          case Group(_, subs) =>
            if args < 0 { return; }
            SubsOk(cmd);
            var sub, subEnd, subArgs := FindCommandAt(buff, args, subs);
            if sub == |subs| { return; }
            CommandAt(subs, sub);
            cmd := subs[sub];
            args := subArgs;
        }
      }
    }

    /** CRs are dropped, an LF ends the line, and a buffer that is full begins again. */
    method ReadByte(ch: Byte)
      requires Valid() && !finished
      modifies this, buff
      ensures Valid() && Abs() == FeedByte(setup, old(Abs()), ch)
    {
      hide Dispatch, Do;
      if ch == CR {
      } else if ch == LF {
        ghost var pending := buff[..buffLen];
        buff[buffLen] := NUL;
        assert buff[..buffLen] == pending;
        WholeLine(buff[..], buffLen);
        lines := lines + [buff[..buffLen]];
        DoCommand();
        if finished { return; }
        buffLen := 0;
      } else {
        if buffLen >= LINE_MAX { buffLen := 0; }
        buff[buffLen] := ch;
        buffLen := buffLen + 1;
      }
    }

    /** Bytes that were received are taken one by one; the rest is dropped when the session ends. */
    method Read(bytes: seq<Byte>)
      requires Valid() && !finished
      modifies this, buff
      ensures Valid() && Abs() == Feed(setup, old(Abs()), bytes)
    {
      hide FeedByte;
      var nn := 0;
      assert bytes[0..] == bytes;
      while nn < |bytes|
        invariant nn <= |bytes| && Valid() && !finished
        invariant Feed(setup, Abs(), bytes[nn..]) == Feed(setup, old(Abs()), bytes)
      {
        assert bytes[nn..][0] == bytes[nn] && bytes[nn..][1..] == bytes[nn + 1..];
        ReadByte(bytes[nn]);
        nn := nn + 1;
        if finished { return; }
      }
    }
  }

  lemma StringTwice(mem: seq<Byte>, p: nat)
    requires p <= |mem|
    ensures CString(StringAt(mem, p)) == StringAt(mem, p)
  {
    var s := StringAt(mem, p);
    assert forall i | 0 <= i < |s| :: s[i] in s;
    FindUnique(s, NUL, |s|);
  }

  /** A line ended by NUL is, up to a NUL of its own, the C string in the buffer. */
  lemma WholeLine(mem: seq<Byte>, n: nat)
    requires n < |mem| && mem[n] == NUL
    ensures Ended(mem, 0) && StringAt(mem, 0) == CString(mem[..n])
  {
    FindIs(mem[..n], NUL);
    var s := CString(mem[..n]);
    assert forall i | 0 <= i < |s| :: s[i] == mem[i];
    assert mem[|s|] == NUL;
    StringUnique(mem, 0, s);
  }
}
