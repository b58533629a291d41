/** The resumable readers and writers of async-utils.c, and its connector. */
module AsyncUtils {
  import opened AsyncUtilsSpec

  const EINPROGRESS := 115

  /** A watched descriptor: what the kernel will answer, what was sent, and what is watched for. */
  class LoopIo {
    var script: seq<Packet>
    var sent: seq<Byte>
    var wantRead: bool
    var wantWrite: bool
    const connectErrno: int // how connect answers; 0 if the connection is made at once
    const socketErrno: int  // the error pending on the socket once it has become writable

    constructor (script: seq<Packet>, connectErrno: int, socketErrno: int)
      ensures this.script == script && sent == [] && !wantRead && !wantWrite
      ensures this.connectErrno == connectErrno && this.socketErrno == socketErrno
    {
      this.script, sent, wantRead, wantWrite := script, [], false, false;
      this.connectErrno, this.socketErrno := connectErrno, socketErrno;
    }

    method Receive(max: nat) returns (reply: Reply)
      requires max > 0
      modifies this`script
      ensures (reply, script) == Recv(old(script), max)
    {
      var r := Recv(script, max);
      reply, script := r.0, r.1;
    }

    method Send(bytes: seq<Byte>) returns (reply: Reply)
      requires bytes != []
      modifies this`script, this`sent
      ensures (reply, script) == Recv(old(script), |bytes|)
      ensures sent == old(sent) + if reply.Got? then bytes[..|reply.bytes|] else []
    {
      var r := Recv(script, |bytes|);
      reply, script := r.0, r.1;
      if reply.Got? { sent := sent + bytes[..|reply.bytes|]; }
    }
  }

  class AsyncReader {
    const buffer: array<Byte>
    const io: LoopIo
    var pos: nat

    ghost predicate Valid()
      reads this
    {
      pos <= buffer.Length
    }

    function Got(): seq<Byte>
      requires Valid()
      reads this, buffer
    {
      buffer[..pos]
    }

    constructor (buffer: array<Byte>, io: LoopIo)
      modifies io`wantRead
      ensures Valid() && this.buffer == buffer && this.io == io && pos == 0
      ensures io.wantRead == (buffer.Length > 0 || old(io.wantRead))
    {
      this.buffer, this.io, pos := buffer, io, 0;
      new;
      if buffer.Length > 0 { io.wantRead := true; }
    }

    /** It is called again while it answers NeedMore; it is watched for input then. */
    method Read() returns (status: Status, errno: int)
      requires Valid()
      modifies this`pos, buffer, io`script, io`wantRead
      ensures Valid()
      ensures Reading(status, errno, Got(), io.script) == ReadCall(old(io.script), old(Got()), buffer.Length)
      ensures buffer[pos..] == old(buffer[..])[pos..]
      ensures status == NeedMore ==> io.wantRead
      ensures status == Complete && old(pos) < buffer.Length ==> !io.wantRead
    {
      hide Recv;
      if pos >= buffer.Length {
        return Complete, 0;
      }
      while true
        invariant pos < buffer.Length && old(pos) <= pos
        invariant ReadCall(io.script, Got(), buffer.Length) == ReadCall(old(io.script), old(Got()), buffer.Length)
        invariant buffer[pos..] == old(buffer[..])[pos..]
        decreases buffer.Length - pos
      {
        var reply := io.Receive(buffer.Length - pos);
        match reply {
          case Closed => return Failure, ECONNRESET;
          case Fault(e) =>
            if e == EAGAIN {
              io.wantRead := true;
              return NeedMore, 0;
            }
            return Failure, e;
          case Got(b) =>
            ghost var got := Got();
            forall i | 0 <= i < |b| { buffer[pos + i] := b[i]; }
            pos := pos + |b|;
            assert Got() == got + b;
        }
        if pos >= buffer.Length { break; }
      }
      io.wantRead := false;
      return Complete, 0;
    }
  }

  class AsyncWriter {
    const buffer: seq<Byte>
    const io: LoopIo
    var pos: nat

    ghost predicate Valid()
      reads this
    {
      pos <= |buffer|
    }

    constructor (buffer: seq<Byte>, io: LoopIo)
      modifies io`wantWrite
      ensures Valid() && this.buffer == buffer && this.io == io && pos == 0
      ensures io.wantWrite == (buffer != [] || old(io.wantWrite))
    {
      this.buffer, this.io, pos := buffer, io, 0;
      new;
      if |buffer| > 0 { io.wantWrite := true; }
    }

    /** What it sends is the next part of its buffer; it stops watching once all is sent. */
    method Write() returns (status: Status, errno: int)
      requires Valid()
      modifies this`pos, io`script, io`sent, io`wantWrite
      ensures Valid() && old(pos) <= pos
      ensures Writing(status, errno, pos, io.script) == WriteCall(old(io.script), old(pos), |buffer|)
      ensures io.sent == old(io.sent) + buffer[old(pos)..pos]
      ensures io.wantWrite == (old(io.wantWrite) && !(status == Complete && old(pos) < |buffer|))
    {
      hide Recv;
      if pos >= |buffer| {
        return Complete, 0;
      }
      while true
        invariant pos < |buffer| && old(pos) <= pos
        invariant WriteCall(io.script, pos, |buffer|) == WriteCall(old(io.script), old(pos), |buffer|)
        invariant io.sent == old(io.sent) + buffer[old(pos)..pos]
        invariant io.wantWrite == old(io.wantWrite)
        decreases |buffer| - pos
      {
        var reply := io.Send(buffer[pos..]);
        match reply {
          case Closed => return Failure, ECONNRESET;
          case Fault(e) =>
            if e == EAGAIN { return NeedMore, 0; }
            return Failure, e;
          case Got(b) =>
            assert buffer[old(pos)..pos] + buffer[pos..][..|b|] == buffer[old(pos)..pos + |b|];
            pos := pos + |b|;
        }
        if pos >= |buffer| { break; }
      }
      io.wantWrite := false;
      return Complete, 0;
    }
  }

  class AsyncLineReader {
    const buffer: array<Byte>
    const eol: Byte
    var io: LoopIo
    var pos: nat

    ghost predicate Valid()
      reads this
    {
      pos <= buffer.Length
    }

    function Got(): seq<Byte>
      requires Valid()
      reads this, buffer
    {
      buffer[..pos]
    }

    constructor (buffer: array<Byte>, io: LoopIo)
      ensures Valid() && this.buffer == buffer && this.io == io && pos == 0 && eol == LF
    {
      this.buffer, this.io, pos, eol := buffer, io, 0, LF;
    }

    /** It starts on a new line, and the bytes it has are forgotten. */
    method Init(io: LoopIo)
      modifies this`pos, this`io, io`wantRead
      ensures Valid() && pos == 0 && this.io == io
      ensures io.wantRead == (buffer.Length > 0 || old(io.wantRead))
    {
      this.io, pos := io, 0;
      if buffer.Length > 0 { io.wantRead := true; }
    }

    /** It stops at the end of the line, and at the end of its buffer. */
    method Read() returns (status: Status, errno: int)
      requires Valid()
      modifies this`pos, buffer, io`script, io`wantRead
      ensures Valid()
      ensures Reading(status, errno, Got(), io.script) == LineCall(old(io.script), old(Got()), buffer.Length, eol)
      ensures buffer[pos..] == old(buffer[..])[pos..]
      ensures status == NeedMore ==> io.wantRead
      ensures status == Complete ==> !io.wantRead
    {
      if pos >= buffer.Length {
        return Failure, ENOMEM;
      }
      while true
        invariant pos < buffer.Length && old(pos) <= pos
        invariant LineCall(io.script, Got(), buffer.Length, eol) == LineCall(old(io.script), old(Got()), buffer.Length, eol)
        invariant buffer[pos..] == old(buffer[..])[pos..]
        decreases buffer.Length - pos
      {
        var reply := io.Receive(1);
        match reply {
          case Closed => return Failure, ECONNRESET;
          case Fault(e) =>
            if e == EAGAIN {
              io.wantRead := true;
              return NeedMore, 0;
            }
            return Failure, e;
          case Got(b) =>
            ghost var got := Got();
            ghost var tail := buffer[pos..];
            buffer[pos] := b[0];
            pos := pos + 1;
            assert Got() == got + b;
            assert buffer[pos..] == tail[1..];
            if b[0] == eol {
              io.wantRead := false;
              return Complete, 0;
            }
        }
        if pos >= buffer.Length { break; }
      }
      io.wantRead := false;
      return Failure, ENOMEM;
    }

    /** The line with its end, or nothing if there is none. */
    method GetLineRaw() returns (ok: bool, length: nat)
      requires Valid()
      ensures ok <==> pos > 0
      ensures ok ==> length == pos
    {
      if pos == 0 || pos > buffer.Length { return false, 0; }
      return true, pos;
    }

    /** The line as a C string, ended in place; nothing if it is not complete. */
    method GetLine() returns (ok: bool)
      requires Valid()
      modifies buffer
      ensures ok <==> pos > 0 && (eol == LF ==> old(buffer[pos - 1]) == LF)
      ensures buffer[..] == if ok && eol == LF then Cut(old(buffer[..]), pos) else old(buffer[..])
    {
      if pos == 0 || pos > buffer.Length { return false; }
      var p := pos - 1;
      if eol == LF {
        if buffer[p] != LF { return false; }
        buffer[p] := 0;
        if p > 0 {
          p := p - 1;
          if buffer[p] == CR { buffer[p] := 0; }
        }
      }
      return true;
    }
  }

  datatype Stage = Error | Connecting | Completed

  /** Where a connector stands: its stage, and the error it saved. */
  datatype Dial = Dial(stage: Stage, error: int)

  /** How a connection that is begun or awaited turns out. */
  datatype Dialled = Dialled(status: Status, errno: int, dial: Dial)

  function Begun(connectErrno: int): Dialled {
    if connectErrno == 0 then Dialled(Complete, 0, Dial(Completed, 0))
    else if connectErrno in {EINPROGRESS, EAGAIN} then Dialled(NeedMore, 0, Dial(Connecting, 0))
    else Dialled(Failure, connectErrno, Dial(Error, connectErrno))
  }

  function Resumed(dial: Dial, socketErrno: int): Dialled {
    match dial.stage
    case Error => Dialled(Failure, dial.error, dial)
    case Connecting =>
      if socketErrno == 0 then Dialled(Complete, 0, Dial(Completed, 0))
      else Dialled(Failure, socketErrno, Dial(Error, socketErrno))
    case Completed => Dialled(Complete, 0, dial)
  }

  class AsyncConnector {
    var io: LoopIo
    var stage: Stage
    var error: int

    function Abs(): Dial
      reads this
    {
      Dial(stage, error)
    }

    constructor (io: LoopIo)
      ensures this.io == io && stage == Error && error == 0
    {
      this.io, stage, error := io, Error, 0;
    }

    method Init(io: LoopIo) returns (status: Status, errno: int)
      modifies this, io`wantWrite
      ensures this.io == io
      ensures Dialled(status, errno, Abs()) == Begun(io.connectErrno)
      ensures io.wantWrite == (status == NeedMore || old(io.wantWrite))
    {
      this.io, error := io, 0;
      var e := io.connectErrno;
      if e == 0 {
        stage := Completed;
        return Complete, 0;
      }
      if e == EINPROGRESS || e == EAGAIN {
        stage := Connecting;
        io.wantWrite := true;
        return NeedMore, 0;
      }
      error, stage := e, Error;
      return Failure, e;
    }

    method Run() returns (status: Status, errno: int)
      modifies this`stage, this`error, io`wantWrite
      ensures Dialled(status, errno, Abs()) == Resumed(old(Abs()), io.socketErrno)
      ensures io.wantWrite == (old(io.wantWrite) && old(stage) != Connecting)
    {
      match stage
      case Error => return Failure, error;
      case Connecting =>
        io.wantWrite := false;
        error := io.socketErrno;
        if error == 0 {
          stage := Completed;
          return Complete, 0;
        }
        stage := Error;
        return Failure, error;
      case Completed => return Complete, 0;
    }

    /** A connection in progress is given up; it is told whether there was one. */
    method Stop() returns (stopped: bool)
      modifies this`stage, io`wantWrite
      ensures stopped <==> old(stage) == Connecting
      ensures stage == if stopped then Completed else old(stage)
      ensures io.wantWrite == (old(io.wantWrite) && !stopped)
    {
      if stage == Connecting {
        io.wantWrite := false;
        stage := Completed;
        return true;
      }
      return false;
    }
  }
}
