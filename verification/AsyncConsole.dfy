/** The connection to an emulator console: connect, then read the two lines of its banner. */
module AsyncConsoleSpec {
  import opened AsyncUtilsSpec
  import opened AsyncUtils

  const ENOPROTOOPT := 92
  const LINE_SIZE: nat := 128

  /** "Android Console:" */
  const BANNER: seq<Byte> := [65, 110, 100, 114, 111, 105, 100, 32, 67, 111, 110, 115, 111, 108, 101, 58]

  datatype Phase = Initial | Dialling | Lost | Banner1 | Banner2 | Ready

  /** What the console connector stores, with the bytes of the line it is reading, if it is. */
  datatype Acc = Acc(phase: Phase, error: int, dial: Dial, got: seq<Byte>)

  /** The end of a call of asyncConsoleConnector_run. */
  datatype Told = Told(status: Status, errno: int, acc: Acc, script: seq<Packet>)

  /** How connect answers, and which error is pending on the socket when it is looked at. */
  datatype Net = Net(connectErrno: int, socketErrno: int)

  predicate IsBanner(line: seq<Byte>) {
    BANNER <= line
  }

  function Prepare(acc: Acc, phase: Phase): Acc {
    acc.(phase := phase, got := [])
  }

  function Fail(acc: Acc, errno: int, script: seq<Packet>): Told {
    Told(Failure, errno, acc.(phase := Lost, error := errno, got := []), script)
  }

  function Rank(p: Phase): nat {
    match p
    case Initial => 4
    case Dialling => 3
    case Banner1 => 2
    case Banner2 => 1
    case Ready => 0
    case Lost => 0
  }

  /** What follows when the connection is there, is awaited, or has failed. */
  function Dialed(acc: Acc, d: Dialled, net: Net, script: seq<Packet>): Told
    requires Rank(acc.phase) >= 3
    decreases 2, 0
  {
    var acc := acc.(phase := Dialling, dial := d.dial);
    match d.status
    case Failure => Fail(acc, d.errno, script)
    case Complete => ReadBanner(Prepare(acc, Banner1), script)
    case NeedMore => Told(NeedMore, 0, acc, script)
  }

  /** The line being read goes on. */
  function ReadBanner(acc: Acc, script: seq<Packet>): Told
    requires acc.phase in {Banner1, Banner2}
    decreases 1, Rank(acc.phase)
  {
    var r := LineCall(script, acc.got, LINE_SIZE, LF);
    var acc := acc.(got := r.got);
    match r.status
    case Failure => Fail(acc, r.errno, r.script)
    case NeedMore => Told(NeedMore, 0, acc, r.script)
    case Complete =>
      if acc.phase == Banner2 then Told(Complete, 0, acc.(phase := Ready, got := []), r.script)
      else if IsBanner(r.got) then ReadBanner(Prepare(acc, Banner2), r.script)
      else Fail(acc, ENOPROTOOPT, r.script)
  }

  /** One call of asyncConsoleConnector_run. */
  function RunCall(acc: Acc, net: Net, script: seq<Packet>): Told {
    match acc.phase
    case Lost => Told(Failure, acc.error, acc, script)
    case Ready => Told(Complete, 0, acc, script)
    case Initial => Dialed(acc, Begun(net.connectErrno), net, script)
    case Dialling => Dialed(acc, Resumed(acc.dial, net.socketErrno), net, script)
    case Banner1 => ReadBanner(acc, script)
    case Banner2 => ReadBanner(acc, script)
  }

  // ----- one call ---------------------------------------------------------------------------

  /** The line being read is not ended, and fits. */
  predicate Partial(got: seq<Byte>) {
    LF !in got && |got| <= LINE_SIZE
  }

  predicate AccOk(acc: Acc) {
    && (if acc.phase in {Banner1, Banner2} then Partial(acc.got) && |acc.got| < LINE_SIZE else acc.got == [])
    && (acc.phase == Dialling ==> acc.dial.stage == Connecting)
  }

  /** Whether there is anything more to call the connector for. */
  predicate GoesOn(t: Told) {
    t.status == NeedMore && (t.acc.phase == Dialling || t.script != [])
  }

  lemma {:induction false} ReadBannerRests(acc: Acc, script: seq<Packet>)
    requires acc.phase in {Banner1, Banner2} && AccOk(acc)
    ensures var t := ReadBanner(acc, script);
      && AccOk(t.acc) && |t.script| <= |script|
      && Rank(t.acc.phase) <= Rank(acc.phase) && t.acc.phase != Dialling
      && (t.status == NeedMore ==> t.acc.phase in {Banner1, Banner2} && (t.script == [] || |t.script| < |script|))
      && (t.status == Complete <==> t.acc.phase == Ready)
      && (t.status == Failure <==> t.acc.phase == Lost)
      && (t.status == Failure ==> t.acc.error == t.errno)
      && (t.status != Failure ==> t.errno == 0)
    decreases Rank(acc.phase)
  {
    LineCallIs(script, acc.got, LINE_SIZE, LF);
    LineCallRests(script, acc.got, LINE_SIZE, LF);
    var r := LineCall(script, acc.got, LINE_SIZE, LF);
    if r.status == Complete && acc.phase == Banner1 && IsBanner(r.got) {
      ReadBannerRests(Prepare(acc.(got := r.got), Banner2), r.script);
    }
  }

  /**
   Phases only move forward, the error that is reported is the one that is saved, and a connector
   that is ready or lost stays so, without touching the connection, and reports the same again.
   */
  lemma PhasesMoveForward(acc: Acc, net: Net, script: seq<Packet>)
    requires AccOk(acc)
    ensures var t := RunCall(acc, net, script);
      && AccOk(t.acc)
      && Rank(t.acc.phase) <= Rank(acc.phase)
      && (t.acc.phase == acc.phase ==> t.status == NeedMore || (t.acc == acc && t.script == script))
      && (t.status == Complete <==> t.acc.phase == Ready)
      && (t.status == Failure <==> t.acc.phase == Lost)
      && (t.status == Failure ==> t.errno == t.acc.error)
      && forall other, late ::
           t.acc.phase in {Ready, Lost} ==> RunCall(t.acc, other, late) == Told(t.status, t.errno, t.acc, late)
  {
    var t := RunCall(acc, net, script);
    if acc.phase in {Banner1, Banner2} {
      ReadBannerRests(acc, script);
    } else if acc.phase in {Initial, Dialling} {
      var d := if acc.phase == Initial then Begun(net.connectErrno) else Resumed(acc.dial, net.socketErrno);
      if d.status == Complete {
        ReadBannerRests(Prepare(acc.(phase := Dialling, dial := d.dial), Banner1), script);
      }
    }
  }

  // ----- all calls --------------------------------------------------------------------------

  /** The connector is called again and again, as long as there is something to call it for. */
  function RunAll(acc: Acc, net: Net, script: seq<Packet>): Told
    requires AccOk(acc)
    decreases Rank(acc.phase), |script|
  {
    PhasesMoveForward(acc, net, script);
    RunCallProgress(acc, net, script);
    var t := RunCall(acc, net, script);
    if GoesOn(t) then RunAll(t.acc, net, t.script) else t
  }

  lemma RunCallProgress(acc: Acc, net: Net, script: seq<Packet>)
    requires AccOk(acc)
    ensures var t := RunCall(acc, net, script);
      GoesOn(t) ==> Rank(t.acc.phase) < Rank(acc.phase) || (t.acc.phase == acc.phase && |t.script| < |script|)
  {
    if acc.phase in {Banner1, Banner2} {
      ReadBannerRests(acc, script);
    } else if acc.phase in {Initial, Dialling} {
      var d := if acc.phase == Initial then Begun(net.connectErrno) else Resumed(acc.dial, net.socketErrno);
      if d.status == Complete {
        ReadBannerRests(Prepare(acc.(phase := Dialling, dial := d.dial), Banner1), script);
      }
    }
  }

  /** What a stream of bytes amounts to, whatever the pieces it comes in. */
  datatype Goal = Goal(status: Status, errno: int, rest: seq<Byte>)

  datatype Line = Line(goal: Goal, bytes: seq<Byte>)

  /** The first line of a stream, of at most `LINE_SIZE` bytes with its end. */
  function FirstLine(s: seq<Byte>, loss: seq<int>): Line {
    var n := Find(s, LF);
    if n < |s| && n < LINE_SIZE then Line(Goal(Complete, 0, s[n + 1..]), s[..n + 1])
    else if |s| >= LINE_SIZE then Line(Goal(Failure, ENOMEM, s[LINE_SIZE..]), s[..LINE_SIZE])
    else if loss == [] then Line(Goal(NeedMore, 0, []), s)
    else Line(Goal(Failure, loss[0], []), s)
  }

  function Greeting(phase: Phase, s: seq<Byte>, loss: seq<int>): Goal
    requires phase in {Banner1, Banner2}
    decreases Rank(phase)
  {
    var l := FirstLine(s, loss);
    if l.goal.status != Complete || phase == Banner2 then l.goal
    else if IsBanner(l.bytes) then Greeting(Banner2, l.goal.rest, loss)
    else Goal(Failure, ENOPROTOOPT, l.goal.rest)
  }

  /** What a call leaves to be reached. */
  function GoalOf(t: Told): Goal
    requires t.status == NeedMore ==> t.acc.phase in {Banner1, Banner2}
  {
    if t.status == NeedMore then Greeting(t.acc.phase, t.acc.got + Stream(t.script), Loss(t.script))
    else Goal(t.status, t.errno, Stream(t.script))
  }

  lemma LineCallGoal(script: seq<Packet>, got: seq<Byte>)
    requires Partial(got) && |got| < LINE_SIZE
    ensures var r := LineCall(script, got, LINE_SIZE, LF);
      && Loss(r.script) == Loss(script)
      && FirstLine(got + Stream(script), Loss(script)) ==
           if r.status == NeedMore then FirstLine(r.got + Stream(r.script), Loss(script))
           else Line(Goal(r.status, if r.status == Failure then r.errno else 0, Stream(r.script)), r.got)
  {
    LineCallIs(script, got, LINE_SIZE, LF);
    var r := LineCall(script, got, LINE_SIZE, LF);
    var s, k := got + Stream(script), |r.got|;
    assert s[..k] == r.got && s[k..] == Stream(r.script);
    if r.status == Complete {
      assert s[..k - 1] == r.got[..k - 1];
      FindIs(s, LF, k - 1);
    } else {
      Before(s, k);
      if k == LINE_SIZE { assert s[..LINE_SIZE] == r.got; }
    }
  }

  lemma {:induction false} ReadBannerGoal(acc: Acc, script: seq<Packet>)
    requires acc.phase in {Banner1, Banner2} && AccOk(acc)
    ensures var t := ReadBanner(acc, script);
      && (t.status == NeedMore ==> t.acc.phase in {Banner1, Banner2})
      && GoalOf(t) == Greeting(acc.phase, acc.got + Stream(script), Loss(script))
    decreases Rank(acc.phase)
  {
    hide FirstLine, LineCall, IsBanner;
    LineCallGoal(script, acc.got);
    LineCallIs(script, acc.got, LINE_SIZE, LF);
    var r := LineCall(script, acc.got, LINE_SIZE, LF);
    if r.status == Complete && acc.phase == Banner1 && IsBanner(r.got) {
      ReadBannerGoal(Prepare(acc.(got := r.got), Banner2), r.script);
      assert [] + Stream(r.script) == Stream(r.script);
    }
  }

  /** Once there is nothing to wait for, a connector still waiting has a part of a line. */
  lemma DryGoal(t: Told)
    requires t.status == NeedMore && t.acc.phase in {Banner1, Banner2} && AccOk(t.acc) && t.script == []
    ensures GoalOf(t) == Goal(NeedMore, 0, [])
  {
    assert t.acc.got + Stream(t.script) == t.acc.got;
  }

  lemma {:induction false} BannerAllIs(acc: Acc, net: Net, script: seq<Packet>)
    requires acc.phase in {Banner1, Banner2} && AccOk(acc)
    ensures var t := RunAll(acc, net, script);
      Goal(t.status, t.errno, Stream(t.script)) == Greeting(acc.phase, acc.got + Stream(script), Loss(script))
    decreases Rank(acc.phase), |script|
  {
    hide Greeting, ReadBanner;
    PhasesMoveForward(acc, net, script);
    RunCallProgress(acc, net, script);
    ReadBannerRests(acc, script);
    ReadBannerGoal(acc, script);
    var t := ReadBanner(acc, script);
    if GoesOn(t) {
      BannerAllIs(t.acc, net, t.script);
    } else if t.status == NeedMore {
      DryGoal(t);
    }
  }

  /** The error connecting ends with, 0 if it succeeds. */
  function ConnectError(net: Net): int {
    if net.connectErrno in {EINPROGRESS, EAGAIN} then net.socketErrno else net.connectErrno
  }

  const START := Acc(Initial, 0, Dial(Error, 0), [])

  /** The outcome depends only on the bytes that arrive and on how the connection fares. */
  lemma ConsoleGoal(net: Net, script: seq<Packet>)
    ensures var t := RunAll(START, net, script);
      Goal(t.status, t.errno, Stream(t.script)) ==
        if ConnectError(net) != 0 then Goal(Failure, ConnectError(net), Stream(script))
        else Greeting(Banner1, Stream(script), Loss(script))
  {
    var t := RunCall(START, net, script);
    PhasesMoveForward(START, net, script);
    assert [] + Stream(script) == Stream(script);
    if net.connectErrno in {EINPROGRESS, EAGAIN} {
      var u := RunCall(t.acc, net, script);
      PhasesMoveForward(t.acc, net, script);
      assert RunAll(START, net, script) == RunAll(t.acc, net, script);
      if net.socketErrno == 0 {
        var acc := Acc(Banner1, 0, Dial(Completed, 0), []);
        assert u == RunCall(acc, net, script);
        BannerAllIs(acc, net, script);
      }
    } else if net.connectErrno == 0 {
      var acc := Acc(Banner1, 0, Dial(Completed, 0), []);
      assert t == RunCall(acc, net, script);
      BannerAllIs(acc, net, script);
    }
  }

  /** Two lines of at most 128 bytes each with their LF, the first beginning with the banner. */
  predicate Greets(s: seq<Byte>) {
    exists i, j | 0 <= i < j < |s| :: TwoLines(s, i, j)
  }

  predicate TwoLines(s: seq<Byte>, i: nat, j: nat)
    requires i < j < |s|
  {
    && s[i] == LF && LF !in s[..i] && i + 1 <= LINE_SIZE
    && s[j] == LF && LF !in s[i + 1..j] && j - i <= LINE_SIZE
    && IsBanner(s[..i])
  }

  lemma BannerInLine(s: seq<Byte>, i: nat)
    requires i < |s| && s[i] == LF
    ensures IsBanner(s[..i + 1]) <==> IsBanner(s[..i])
  {
    assert s[..i + 1] == s[..i] + [LF];
    assert forall k | 0 <= k < |BANNER| :: BANNER[k] != LF;
    if |BANNER| == i + 1 { assert s[..i + 1][i] != BANNER[i]; }
  }

  lemma GreetsWhenComplete(s: seq<Byte>, loss: seq<int>)
    requires Greeting(Banner1, s, loss).status == Complete
    ensures Greets(s)
  {
    hide Find, IsBanner, TwoLines;
    var i := Find(s, LF);
    assert i < |s|;
    var t := s[i + 1..];
    var k := Find(t, LF);
    assert k < |t|;
    BannerInLine(s, i);
    FoundLines(s, i, k);
  }

  lemma FoundLines(s: seq<Byte>, i: nat, k: nat)
    requires i == Find(s, LF) && i < |s| && k == Find(s[i + 1..], LF) && k < |s[i + 1..]|
    requires i + 1 <= LINE_SIZE && k + 1 <= LINE_SIZE && IsBanner(s[..i])
    ensures TwoLines(s, i, i + 1 + k)
  {
    assert s[i + 1..][..k] == s[i + 1..i + 1 + k];
    hide Find, IsBanner;
  }

  lemma CompleteWhenGreets(s: seq<Byte>, loss: seq<int>, i: nat, j: nat)
    requires i < j < |s| && TwoLines(s, i, j)
    ensures Greeting(Banner1, s, loss) == Goal(Complete, 0, s[j + 1..])
  {
    hide Find, IsBanner;
    FindIs(s, LF, i);
    var t := s[i + 1..];
    assert t[..j - i - 1] == s[i + 1..j];
    FindIs(t, LF, j - i - 1);
    assert t[j - i..] == s[j + 1..];
    BannerInLine(s, i);
  }

  /**
   For every network, every way the bytes may arrive, and every number of resumed calls: the
   console is ready exactly when connecting succeeds and the stream begins with the banner, two
   lines of at most 128 bytes; and it has then consumed exactly those two lines.
   */
  lemma ReadyExactly(net: Net, script: seq<Packet>)
    ensures var t, s := RunAll(START, net, script), Stream(script);
      && (t.status == Complete <==> ConnectError(net) == 0 && Greets(s))
      && (t.status == Complete ==> forall i, j | 0 <= i < j < |s| && TwoLines(s, i, j) :: Stream(t.script) == s[j + 1..])
  {
    hide Greeting, TwoLines, RunAll;
    ConsoleGoal(net, script);
    var s, loss := Stream(script), Loss(script);
    if Greeting(Banner1, s, loss).status == Complete { GreetsWhenComplete(s, loss); }
    forall i, j | 0 <= i < j < |s| && TwoLines(s, i, j) ensures Greeting(Banner1, s, loss) == Goal(Complete, 0, s[j + 1..]) {
      CompleteWhenGreets(s, loss, i, j);
    }
  }
}

/** The console connector of async-console.c. */
module AsyncConsole {
  import opened AsyncUtilsSpec
  import opened AsyncUtils
  import opened AsyncConsoleSpec

  /** The comparison with the banner sees no byte past the NUL that ended the line in place. */
  lemma CutBanner(buffer: seq<Byte>, pos: nat)
    requires 0 < pos <= |buffer| && buffer[pos - 1] == LF && |BANNER| <= |buffer|
    ensures Cut(buffer, pos)[..|BANNER|] == BANNER <==> IsBanner(buffer[..pos])
  {
    var cut, n := Cut(buffer, pos), |BANNER|;
    assert forall k | 0 <= k < n :: BANNER[k] != LF && BANNER[k] != CR && BANNER[k] != 0;
    if pos <= n {
      assert buffer[..pos][pos - 1] != BANNER[pos - 1];
      assert cut[..n][pos - 1] != BANNER[pos - 1];
    } else {
      assert buffer[..pos][..n] == buffer[..n];
      assert buffer[n - 1] == CR ==> buffer[..n][n - 1] != BANNER[n - 1] && cut[..n][n - 1] != BANNER[n - 1];
      assert forall k | 0 <= k < n - 1 :: cut[..n][k] == buffer[..n][k];
      assert buffer[n - 1] != CR ==> cut[..n] == buffer[..n];
    }
  }

  /** A line reader is told of a complete line only when it holds one. */
  lemma {:induction false} LineCallEnds(script: seq<Packet>, got: seq<Byte>, size: nat, eol: Byte)
    ensures var r := LineCall(script, got, size, eol);
      && got <= r.got
      && (r.status == Complete ==> 0 < |r.got| <= size && r.got[|r.got| - 1] == eol)
    decreases size - |got|
  {
    if |got| < size {
      var (reply, rest) := Recv(script, 1);
      if reply.Got? { LineCallEnds(rest, got + reply.bytes, size, eol); }
    }
  }

  lemma RunCallIs(acc: Acc, net: Net, script: seq<Packet>)
    ensures RunCall(acc, net, script) ==
      match acc.phase
      case Lost => Told(Failure, acc.error, acc, script)
      case Ready => Told(Complete, 0, acc, script)
      case Initial => Dialed(acc, Begun(net.connectErrno), net, script)
      case Dialling => Dialed(acc, Resumed(acc.dial, net.socketErrno), net, script)
      case Banner1 => ReadBanner(acc, script)
      case Banner2 => ReadBanner(acc, script)
  {
  }

  class AsyncConsoleConnector {
    const lbuff: array<Byte>
    const lreader: AsyncLineReader
    const connector: AsyncConnector
    var io: LoopIo
    var state: Phase
    var error: int

    ghost predicate Valid()
      reads this, lreader
    {
      && lreader.buffer == lbuff && lbuff.Length == LINE_SIZE && lreader.eol == LF
      && lreader.Valid()
      && (state in {Banner1, Banner2} ==> lreader.io == io)
    }

    function Abs(): Acc
      requires Valid()
      reads this, lreader, connector, lbuff
    {
      Acc(state, error, connector.Abs(), if state in {Banner1, Banner2} then lreader.Got() else [])
    }

    constructor (io: LoopIo)
      ensures Valid() && Abs() == START && this.io == io
      ensures fresh(lbuff) && fresh(lreader) && fresh(connector)
    {
      var buffer := new Byte[LINE_SIZE];
      var reader := new AsyncLineReader(buffer, io);
      var dialler := new AsyncConnector(io);
      this.lbuff, this.lreader, this.connector := buffer, reader, dialler;
      this.io, this.state, this.error := io, Initial, 0;
    }

    method PrepareLineReader(next: Phase)
      requires Valid() && next in {Banner1, Banner2}
      modifies this`state, lreader, io`wantRead
      ensures Valid() && state == next && lreader.Got() == []
    {
      state := next;
      lreader.Init(io);
    }

    /** It starts over, on another connection. */
    method Connect(io: LoopIo) returns (status: Status, errno: int)
      requires Valid()
      modifies this, lreader, connector, lbuff, io
      ensures Valid() && this.io == io
      ensures Told(status, errno, Abs(), io.script) ==
        RunCall(old(Abs()).(phase := Initial, got := []), Net(io.connectErrno, io.socketErrno), old(io.script))
    {
      state := Initial;
      this.io := io;
      status, errno := Run();
    }

    /** A banner line is read on; when it is complete it is cut, and the first one is checked. */
    method ReadLine() returns (status: Status, errno: int)
      requires Valid() && state in {Banner1, Banner2}
      modifies lreader`pos, lbuff, io`script, io`wantRead
      ensures Valid()
      ensures
        var r := LineCall(old(io.script), old(lreader.Got()), LINE_SIZE, LF);
        && io.script == r.script
        && if r.status != Complete then status == r.status && errno == r.errno && lreader.Got() == r.got
           else if state == Banner2 || IsBanner(r.got) then status == Complete
           else status == Failure && errno == ENOPROTOOPT
    {
      LineCallEnds(io.script, lreader.Got(), LINE_SIZE, LF);
      status, errno := lreader.Read();
      if status == Complete {
        ghost var was := lbuff[..];
        CutBanner(was, lreader.pos);
        var ok := lreader.GetLine();
        if !ok || (state == Banner1 && lbuff[..|BANNER|] != BANNER) {
          return Failure, ENOPROTOOPT;
        }
      }
    }

    method Run() returns (status: Status, errno: int)
      requires Valid() && (state != Initial ==> connector.io == io)
      modifies this`state, this`error, lreader, connector, lbuff, io
      ensures Valid()
      ensures Told(status, errno, Abs(), io.script) ==
        RunCall(old(Abs()), Net(io.connectErrno, io.socketErrno), old(io.script))
    {
      hide RunCall, Cut, LineCall, IsBanner;
      ghost var net := Net(io.connectErrno, io.socketErrno);
      while true
        invariant Valid() && (state != Initial ==> connector.io == io)
        invariant RunCall(Abs(), net, io.script) == RunCall(old(Abs()), net, old(io.script))
        decreases Rank(state)
      {
        RunCallIs(Abs(), net, io.script);
        match state {
          case Lost =>
            return Failure, error;
          case Initial =>
            state := Dialling;
            status, errno := connector.Init(io);
            if status == Failure { break; }
            if status == NeedMore { return NeedMore, 0; }
            PrepareLineReader(Banner1);
            RunCallIs(Abs(), net, io.script);
          case Dialling =>
            status, errno := connector.Run();
            if status == Failure { break; }
            if status == NeedMore { return NeedMore, 0; }
            PrepareLineReader(Banner1);
            RunCallIs(Abs(), net, io.script);
          case Banner1 =>
            status, errno := ReadLine();
            if status == Failure { break; }
            if status == NeedMore { return NeedMore, 0; }
            PrepareLineReader(Banner2);
            RunCallIs(Abs(), net, io.script);
          case Banner2 =>
            status, errno := ReadLine();
            if status == Failure { break; }
            if status == NeedMore { return NeedMore, 0; }
            state := Ready;
            return Complete, 0;
          case Ready =>
            return Complete, 0;
        }
      }
      state := Lost;
      error := errno;
      return Failure, errno;
    }
  }
}
