/**
 What a non-blocking socket brings, and how the readers of async-utils.c consume it.

 A script is everything the kernel will answer to recv: runs of bytes that arrive together, errors,
 and the end of the stream.  EAGAIN comes once and goes away; any other error, and the end, stay.
 Scripts differ in how the same bytes are cut up and in how often the reader has to wait.
 */
module AsyncUtilsSpec {
  type Byte = x: int | 0 <= x < 256

  datatype Status = Complete | NeedMore | Failure

  const EAGAIN := 11
  const ENOMEM := 12
  const ECONNRESET := 104

  type Chunk = b: seq<Byte> | b != [] witness [0]

  datatype Packet = Data(bytes: Chunk) | Errno(errno: int) | Hangup

  /** The bytes that arrive before the connection is lost. */
  function Stream(script: seq<Packet>): seq<Byte> {
    if script == [] then []
    else match script[0]
      case Data(b) => b + Stream(script[1..])
      case Errno(e) => if e == EAGAIN then Stream(script[1..]) else []
      case Hangup => []
  }

  /** The error with which the connection is lost, if it is. */
  function Loss(script: seq<Packet>): (r: seq<int>)
    ensures |r| <= 1
  {
    if script == [] then []
    else match script[0]
      case Data(_) => Loss(script[1..])
      case Errno(e) => if e == EAGAIN then Loss(script[1..]) else [e]
      case Hangup => [ECONNRESET]
  }

  /** At most `max` bytes, or the error that recv reports.  Nothing to come is the same as EAGAIN. */
  datatype Reply = Got(bytes: seq<Byte>) | Fault(errno: int) | Closed

  function Recv(script: seq<Packet>, max: nat): (r: (Reply, seq<Packet>))
    requires max > 0
    ensures r.0.Got? ==> 0 < |r.0.bytes| <= max
  {
    if script == [] then (Fault(EAGAIN), [])
    else match script[0]
      case Data(b) =>
        if |b| <= max then (Got(b), script[1..])
        else (Got(b[..max]), [Data(b[max..])] + script[1..])
      case Errno(e) => (Fault(e), if e == EAGAIN then script[1..] else script)
      case Hangup => (Closed, script)
  }

  lemma CutStream(script: seq<Packet>, max: nat)
    requires max > 0 && script != [] && script[0].Data? && |script[0].bytes| > max
    ensures var rest := [Data(script[0].bytes[max..])] + script[1..];
      Stream(script) == script[0].bytes[..max] + Stream(rest) && Loss(rest) == Loss(script)
  {
    var b := script[0].bytes;
    var rest := [Data(b[max..])] + script[1..];
    assert rest[1..] == script[1..];
    assert b == b[..max] + b[max..];
    assert b + Stream(script[1..]) == b[..max] + (b[max..] + Stream(script[1..]));
  }

  /** recv neither loses, nor repeats, nor reorders bytes, and does not hide how the stream ends. */
  lemma RecvConserves(script: seq<Packet>, max: nat)
    requires max > 0
    ensures var (reply, rest) := Recv(script, max);
      && Stream(script) == (if reply.Got? then reply.bytes else []) + Stream(rest)
      && Loss(rest) == Loss(script)
      && (reply.Closed? ==> Stream(script) == [] && Loss(script) == [ECONNRESET])
      && (reply.Fault? && reply.errno != EAGAIN ==> Stream(script) == [] && Loss(script) == [reply.errno])
      && |rest| <= |script|
      && (reply == Fault(EAGAIN) ==> rest == [] || |rest| < |script|)
  {
    var (reply, rest) := Recv(script, max);
    if script != [] && script[0].Data? && |script[0].bytes| > max {
      CutStream(script, max);
    } else if !reply.Got? {
      assert [] + Stream(rest) == Stream(rest);
    }
  }

  /** Where a reader stands after a call: what it has, and what is left in the script. */
  datatype Reading = Reading(status: Status, errno: int, got: seq<Byte>, script: seq<Packet>)

  /** One call of a reader that wants `size` bytes and has `got`. */
  function ReadCall(script: seq<Packet>, got: seq<Byte>, size: nat): Reading
    decreases size - |got|
  {
    if |got| >= size then Reading(Complete, 0, got, script)
    else
      var (reply, rest) := Recv(script, size - |got|);
      match reply
      case Closed => Reading(Failure, ECONNRESET, got, rest)
      case Fault(e) => if e == EAGAIN then Reading(NeedMore, 0, got, rest) else Reading(Failure, e, got, rest)
      case Got(b) => ReadCall(rest, got + b, size)
  }

  /** One call of a line reader with a buffer of `size` bytes, of which `got` are filled. */
  function LineCall(script: seq<Packet>, got: seq<Byte>, size: nat, eol: Byte): Reading
    decreases size - |got|
  {
    if |got| >= size then Reading(Failure, ENOMEM, got, script)
    else
      var (reply, rest) := Recv(script, 1);
      match reply
      case Closed => Reading(Failure, ECONNRESET, got, rest)
      case Fault(e) => if e == EAGAIN then Reading(NeedMore, 0, got, rest) else Reading(Failure, e, got, rest)
      case Got(b) =>
        if b[0] == eol then Reading(Complete, 0, got + b, rest) else LineCall(rest, got + b, size, eol)
  }

  lemma {:induction false} ReadCallRests(script: seq<Packet>, got: seq<Byte>, size: nat)
    ensures var r := ReadCall(script, got, size);
      |r.script| <= |script| && (r.status == NeedMore ==> r.script == [] || |r.script| < |script|)
    decreases size - |got|
  {
    if |got| < size {
      RecvConserves(script, size - |got|);
      var (reply, rest) := Recv(script, size - |got|);
      if reply.Got? { ReadCallRests(rest, got + reply.bytes, size); }
    }
  }

  lemma {:induction false} LineCallRests(script: seq<Packet>, got: seq<Byte>, size: nat, eol: Byte)
    ensures var r := LineCall(script, got, size, eol);
      |r.script| <= |script| && (r.status == NeedMore ==> r.script == [] || |r.script| < |script|)
    decreases size - |got|
  {
    if |got| < size {
      RecvConserves(script, 1);
      var (reply, rest) := Recv(script, 1);
      if reply.Got? { LineCallRests(rest, got + reply.bytes, size, eol); }
    }
  }

  /** A reader called again and again while it needs more and the script goes on. */
  function ReadAll(script: seq<Packet>, got: seq<Byte>, size: nat): Reading
    decreases |script|
  {
    ReadCallRests(script, got, size);
    var r := ReadCall(script, got, size);
    if r.status == NeedMore && r.script != [] then ReadAll(r.script, r.got, size) else r
  }

  function LineAll(script: seq<Packet>, got: seq<Byte>, size: nat, eol: Byte): Reading
    decreases |script|
  {
    LineCallRests(script, got, size, eol);
    var r := LineCall(script, got, size, eol);
    if r.status == NeedMore && r.script != [] then LineAll(r.script, r.got, size, eol) else r
  }

  // ----- what the calls add up to ---------------------------------------------------------

  /** The outcome of a reader that has run dry: the loss of the connection, or waiting. */
  predicate RanDry(r: Reading, s: seq<Byte>, loss: seq<int>) {
    && r.got == s
    && (if loss == [] then r.status == NeedMore else r.status == Failure && r.errno == loss[0])
  }

  /** Exactly the first `size` bytes, and not one more taken off the stream. */
  predicate ReadsBlock(r: Reading, s: seq<Byte>, loss: seq<int>, size: nat) {
    if |s| >= size then r.status == Complete && r.got == s[..size] && Stream(r.script) == s[size..]
    else RanDry(r, s, loss) && Stream(r.script) == []
  }

  /** Exactly the bytes through the first end of line, if it is among the first `size`. */
  predicate ReadsLine(r: Reading, s: seq<Byte>, loss: seq<int>, size: nat, eol: Byte) {
    var n := Find(s, eol);
    if n < |s| && n < size then r.status == Complete && r.got == s[..n + 1] && Stream(r.script) == s[n + 1..]
    else if |s| >= size then r.status == Failure && r.errno == ENOMEM && r.got == s[..size] && Stream(r.script) == s[size..]
    else RanDry(r, s, loss) && Stream(r.script) == []
  }

  /** The position of the first `c`, or the length. */
  function Find(s: seq<Byte>, c: Byte): (n: nat)
    ensures n <= |s| && (n < |s| ==> s[n] == c) && c !in s[..n]
  {
    if s == [] || s[0] == c then 0
    else
      var n := 1 + Find(s[1..], c);
      assert s[..n] == [s[0]] + s[1..][..n - 1];
      n
  }

  lemma Before(s: seq<Byte>, n: nat)
    requires n <= |s|
    ensures forall i | 0 <= i < n :: s[i] in s[..n]
  {
    forall i | 0 <= i < n ensures s[i] in s[..n] {
      assert s[..n][i] == s[i];
    }
  }

  lemma FindIs(s: seq<Byte>, c: Byte, n: nat)
    requires n < |s| && s[n] == c && c !in s[..n]
    ensures Find(s, c) == n
  {
    var m := Find(s, c);
    Before(s, n);
    Before(s, m);
  }

  /** A call ends, or it leaves a reader that has everything that came before the wait. */
  lemma {:induction false} ReadCallIs(script: seq<Packet>, got: seq<Byte>, size: nat)
    requires |got| <= size
    ensures var r := ReadCall(script, got, size);
      && Loss(r.script) == Loss(script)
      && r.got + Stream(r.script) == got + Stream(script)
      && |r.got| <= size && (r.status == Complete <==> |r.got| == size)
      && (r.status == NeedMore && r.script == [] ==> Loss(script) == [] && Stream(r.script) == [])
      && (r.status == Failure ==> Stream(r.script) == [] && Loss(script) == [r.errno])
    decreases size - |got|
  {
    if |got| < size {
      RecvConserves(script, size - |got|);
      var (reply, rest) := Recv(script, size - |got|);
      if reply.Got? {
        ReadCallIs(rest, got + reply.bytes, size);
        assert (got + reply.bytes) + Stream(rest) == got + (reply.bytes + Stream(rest));
      }
    }
  }

  lemma {:induction false} ReadAllIs(script: seq<Packet>, got: seq<Byte>, size: nat)
    requires |got| <= size
    ensures ReadsBlock(ReadAll(script, got, size), got + Stream(script), Loss(script), size)
    decreases |script|
  {
    ReadCallRests(script, got, size);
    ReadCallIs(script, got, size);
    var r := ReadCall(script, got, size);
    var s := got + Stream(script);
    if r.status == NeedMore && r.script != [] {
      ReadAllIs(r.script, r.got, size);
    } else if r.status == Complete {
      assert s[..size] == r.got && s[size..] == Stream(r.script);
    }
  }

  /**
   The fixed-size reader, for every way the bytes may arrive and however often it must wait: it
   ends with exactly the first `size` bytes and leaves the rest; failing that, it has all there was.
   */
  lemma ReaderIsExact(script: seq<Packet>, size: nat)
    ensures ReadsBlock(ReadAll(script, [], size), Stream(script), Loss(script), size)
  {
    ReadAllIs(script, [], size);
    assert [] + Stream(script) == Stream(script);
  }

  lemma {:induction false} LineCallIs(script: seq<Packet>, got: seq<Byte>, size: nat, eol: Byte)
    requires |got| <= size && eol !in got
    ensures var r := LineCall(script, got, size, eol);
      && Loss(r.script) == Loss(script)
      && r.got + Stream(r.script) == got + Stream(script)
      && (r.status == Complete ==> 0 < |r.got| <= size && r.got[|r.got| - 1] == eol && eol !in r.got[..|r.got| - 1])
      && (r.status != Complete ==> eol !in r.got && |r.got| <= size)
      && (r.status == NeedMore ==> |r.got| < size)
      && (r.status == NeedMore && r.script == [] ==> Loss(script) == [])
      && (r.status == Failure ==>
           if |r.got| == size then r.errno == ENOMEM else Stream(r.script) == [] && Loss(script) == [r.errno])
    decreases size - |got|
  {
    if |got| < size {
      RecvConserves(script, 1);
      var (reply, rest) := Recv(script, 1);
      if reply.Got? {
        var b := reply.bytes;
        assert (got + b) + Stream(rest) == got + (b + Stream(rest));
        if b[0] == eol { assert (got + b)[..|got|] == got; } else { LineCallIs(rest, got + b, size, eol); }
      }
    }
  }

  lemma {:induction false} LineAllIs(script: seq<Packet>, got: seq<Byte>, size: nat, eol: Byte)
    requires |got| <= size && eol !in got
    ensures ReadsLine(LineAll(script, got, size, eol), got + Stream(script), Loss(script), size, eol)
    decreases |script|
  {
    assert Stream([]) == [];
    hide LineCall, Find, Stream, Loss, ReadsLine;
    LineCallRests(script, got, size, eol);
    LineCallIs(script, got, size, eol);
    var r := LineCall(script, got, size, eol);
    if r.status == NeedMore && r.script != [] {
      LineAllIs(r.script, r.got, size, eol);
    } else if r.status == Complete {
      LineEnds(r, got + Stream(script), Loss(script), size, eol);
    } else {
      LineStops(r, got + Stream(script), Loss(script), size, eol);
    }
  }

  lemma LineEnds(r: Reading, s: seq<Byte>, loss: seq<int>, size: nat, eol: Byte)
    requires r.status == Complete && r.got + Stream(r.script) == s
    requires 0 < |r.got| <= size && r.got[|r.got| - 1] == eol && eol !in r.got[..|r.got| - 1]
    ensures ReadsLine(r, s, loss, size, eol)
  {
    hide Find, Stream;
    var k := |r.got|;
    assert s[..k] == r.got && s[k..] == Stream(r.script) && s[..k - 1] == r.got[..k - 1];
    FindIs(s, eol, k - 1);
  }

  lemma LineStops(r: Reading, s: seq<Byte>, loss: seq<int>, size: nat, eol: Byte)
    requires r.got + Stream(r.script) == s && eol !in r.got && |r.got| <= size
    requires r.status == NeedMore ==> |r.got| < size && Stream(r.script) == [] && loss == []
    requires r.status == Failure ==>
               if |r.got| == size then r.errno == ENOMEM else Stream(r.script) == [] && loss == [r.errno]
    requires r.status != Complete
    ensures ReadsLine(r, s, loss, size, eol)
  {
    hide Find, Stream;
    var k := |r.got|;
    assert s[..k] == r.got && s[k..] == Stream(r.script);
    Before(s, k);
  }

  /**
   The line reader, for every way the bytes may arrive: it ends with exactly the bytes through the
   first end of line and leaves the rest; or with ENOMEM after `size` bytes without one.
   */
  lemma LineReaderIsExact(script: seq<Packet>, size: nat, eol: Byte)
    ensures ReadsLine(LineAll(script, [], size, eol), Stream(script), Loss(script), size, eol)
  {
    LineAllIs(script, [], size, eol);
    assert [] + Stream(script) == Stream(script);
  }

  /** Two ways of delivering the same bytes make no difference. */
  lemma ChunksDoNotMatter(a: seq<Packet>, b: seq<Packet>, size: nat, eol: Byte)
    requires Stream(a) == Stream(b) && Loss(a) == Loss(b)
    ensures var r, q := ReadAll(a, [], size), ReadAll(b, [], size);
      r.status == q.status && r.got == q.got && Stream(r.script) == Stream(q.script) && (r.status == Failure ==> r.errno == q.errno)
    ensures var r, q := LineAll(a, [], size, eol), LineAll(b, [], size, eol);
      r.status == q.status && r.got == q.got && Stream(r.script) == Stream(q.script) && (r.status == Failure ==> r.errno == q.errno)
  {
    ReaderIsExact(a, size);
    ReaderIsExact(b, size);
    LineReaderIsExact(a, size, eol);
    LineReaderIsExact(b, size, eol);
  }

  // ----- the writer -----------------------------------------------------------------------

  /** Where a writer stands after a call.  To a writer only the lengths of the runs matter. */
  datatype Writing = Writing(status: Status, errno: int, pos: nat, script: seq<Packet>)

  function WriteCall(script: seq<Packet>, pos: nat, size: nat): Writing
    decreases size - pos
  {
    if pos >= size then Writing(Complete, 0, pos, script)
    else
      var (reply, rest) := Recv(script, size - pos);
      match reply
      case Closed => Writing(Failure, ECONNRESET, pos, rest)
      case Fault(e) => if e == EAGAIN then Writing(NeedMore, 0, pos, rest) else Writing(Failure, e, pos, rest)
      case Got(b) => WriteCall(rest, pos + |b|, size)
  }

  /** A writer fills the kernel's room as a reader fills its buffer. */
  lemma {:induction false} WriteCallReads(script: seq<Packet>, got: seq<Byte>, size: nat)
    ensures var r := ReadCall(script, got, size);
      WriteCall(script, |got|, size) == Writing(r.status, r.errno, |r.got|, r.script)
    decreases size - |got|
  {
    if |got| < size {
      var (reply, rest) := Recv(script, size - |got|);
      if reply.Got? { WriteCallReads(rest, got + reply.bytes, size); }
    }
  }

  lemma WriteCallRests(script: seq<Packet>, pos: nat, size: nat)
    ensures var w := WriteCall(script, pos, size);
      w.status == NeedMore ==> w.script == [] || |w.script| < |script|
  {
    var got := seq(pos, _ => 0);
    WriteCallReads(script, got, size);
    ReadCallRests(script, got, size);
  }

  function WriteAll(script: seq<Packet>, pos: nat, size: nat): Writing
    decreases |script|
  {
    WriteCallRests(script, pos, size);
    var w := WriteCall(script, pos, size);
    if w.status == NeedMore && w.script != [] then WriteAll(w.script, w.pos, size) else w
  }

  lemma {:induction false} WriteAllReads(script: seq<Packet>, got: seq<Byte>, size: nat)
    ensures var r := ReadAll(script, got, size);
      WriteAll(script, |got|, size) == Writing(r.status, r.errno, |r.got|, r.script)
    decreases |script|
  {
    WriteCallReads(script, got, size);
    WriteCallRests(script, |got|, size);
    var r := ReadCall(script, got, size);
    if r.status == NeedMore && r.script != [] { WriteAllReads(r.script, r.got, size); }
  }

  /**
   The writer, however little the kernel takes at a time: everything is written when the kernel has
   room for it before the connection is lost, and otherwise as much as there was room for.
   */
  lemma WriterIsExact(script: seq<Packet>, size: nat)
    ensures var w, room := WriteAll(script, 0, size), |Stream(script)|;
      if room >= size then w.status == Complete && w.pos == size && |Stream(w.script)| == room - size
      else
        && w.pos == room
        && (if Loss(script) == [] then w.status == NeedMore else w.status == Failure && w.errno == Loss(script)[0])
  {
    WriteAllReads(script, [], size);
    ReaderIsExact(script, size);
  }

  // ----- lines ----------------------------------------------------------------------------

  const LF: Byte := 10
  const CR: Byte := 13

  /** A line without its LF or CR LF. */
  function Bare(line: seq<Byte>): seq<Byte>
    requires line != [] && line[|line| - 1] == LF
  {
    var n := |line| - 1;
    if n > 0 && line[n - 1] == CR then line[..n - 1] else line[..n]
  }

  /** A buffer as a C string: the bytes before the first NUL. */
  function CString(buffer: seq<Byte>): seq<Byte> {
    buffer[..Find(buffer, 0)]
  }

  /** The buffer after its line has been ended by NUL in place. */
  function Cut(buffer: seq<Byte>, pos: nat): seq<Byte>
    requires 0 < pos <= |buffer| && buffer[pos - 1] == LF
  {
    var b := buffer[pos - 1 := 0];
    if pos > 1 && b[pos - 2] == CR then b[pos - 2 := 0] else b
  }

  /** Cutting in place yields the bare line, up to a NUL that the line itself may hold. */
  lemma CutIsBare(buffer: seq<Byte>, pos: nat)
    requires 0 < pos <= |buffer| && buffer[pos - 1] == LF
    ensures var line := Bare(buffer[..pos]);
      && |line| < |Cut(buffer, pos)| && Cut(buffer, pos)[..|line|] == line && Cut(buffer, pos)[|line|] == 0
      && CString(Cut(buffer, pos)) == CString(line)
      && (0 !in line ==> CString(Cut(buffer, pos)) == line)
  {
    var line := Bare(buffer[..pos]);
    var cut := Cut(buffer, pos);
    assert cut[..|line|] == line;
    var n := Find(line, 0);
    if n < |line| {
      assert cut[..n] == line[..n];
      FindIs(cut, 0, n);
    } else {
      assert cut[..n] == line;
      FindIs(cut, 0, n);
    }
  }
}
