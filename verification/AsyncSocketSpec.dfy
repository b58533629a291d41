/** Enumerations shared by the asynchronous I/O code. */
module AsyncIoCommon {
  datatype State =
    | Queued | Started | Continues | Retrying | Succeeded
    | Failed | TimedOut | Cancelled | Finished

  datatype Action = Done | Abort | Retry

  datatype Option<T> = None | Some(value: T)
}

/**
 What one asynchronous socket, its I/O descriptors and its client do, as a function on values.

 The client is an oracle: a tape of decisions that its callbacks read from left to right, each
 callback up to its answer.  Quantifying over tapes quantifies over client behaviours.  I/O
 descriptors are known by serial number; the record of a destroyed descriptor is retained, marked
 as not live, so that statements can be made about everything that was ever queued.

 Some bookkeeping has no counterpart in the program: who holds each reference (`clientRefs`, `held`),
 the notifications sent to each descriptor's callback (`notes`), the bytes moved over the current
 connection (`inBytes`, `outBytes`, `readLog`, `writeLog`), how many connectors know the socket
 (`attempts`), and what is queued from before the connection (`since`, `orphaned`).
 */
module AsyncSocketSpec {
  import opened AsyncIoCommon

  type Byte = x: int | 0 <= x < 256

  /** One call of a descriptor's callback: the event, the client's answer, and the progress made. */
  datatype Note = Note(event: State, answer: Action, transferred: nat)

  datatype Io = Io(
    isRead: bool,
    buffer: seq<Byte>,
    transferred: nat,
    state: State,
    refCount: int,
    timerOn: bool,
    live: bool,
    accepted: bool,     // it was put in a queue, rather than refused on a disconnected socket
    notes: seq<Note>,
    clientRefs: int,    // references the client took and has not dropped
    held: int,          // references held by engine code that is running
    kept: bool)         // the client took a reference at some time

  /** What a callback does before it answers, and the answer.  It may do it to any descriptor. */
  datatype Decision =
    | QueueIo(isRead: bool, buffer: seq<Byte>)
    | KeepSocket
    | DropSocket
    | KeepIo(k: nat)
    | DropIo(k: nat)
    | StopTimer(k: nat)
    | Answer(action: Action)

  datatype Pass = NoPass | ReadPass | WritePass

  datatype Sock = Sock(
    ios: map<nat, Io>,
    next: nat,
    readers: seq<nat>,
    writers: seq<nat>,
    connected: bool,
    wantRead: bool,
    wantWrite: bool,
    reconnect: bool,     // the reconnection timer is running
    refCount: int,
    freed: bool,
    clientRefs: int,
    held: int,
    fault: bool,         // an assertion on a reference count failed, perhaps that of a freed socket
    pass: Pass,          // which cancellation loop is running
    attempts: nat,       // connectors that will report to the socket
    since: nat,          // what was queued before has outlived a connection that was closed
    orphaned: bool,      // something did, and was not cancelled since
    tape: seq<Decision>,
    inBytes: seq<Byte>,  // received over the current connection
    outBytes: seq<Byte>, // sent over the current connection
    readLog: seq<nat>,   // readers queued on the current connection, in queue order
    writeLog: seq<nat>)

  /** What the kernel answers to one recv or send; for send only the number of bytes matters. */
  datatype Outcome = Moved(bytes: seq<Byte>) | WouldBlock | Error

  const BLANK := Io(true, [], 0, Queued, 0, false, false, false, [], 0, 0, false)

  function At(s: Sock, k: nat): Io {
    if k in s.ios then s.ios[k] else BLANK
  }

  function Put(s: Sock, k: nat, io: Io): Sock {
    s.(ios := s.ios[k := io])
  }

  function Queue(s: Sock, isRead: bool): seq<nat> {
    if isRead then s.readers else s.writers
  }

  function SetQueue(s: Sock, isRead: bool, q: seq<nat>): Sock {
    if isRead then s.(readers := q) else s.(writers := q)
  }

  function Log(s: Sock, isRead: bool): seq<nat> {
    if isRead then s.readLog else s.writeLog
  }

  function Moves(s: Sock, isRead: bool): seq<Byte> {
    if isRead then s.inBytes else s.outBytes
  }

  function Want(s: Sock, isRead: bool): bool {
    if isRead then s.wantRead else s.wantWrite
  }

  /** loopIo_wantRead and its three siblings; there is a LoopIo exactly while connected. */
  function SetWant(s: Sock, isRead: bool, on: bool): Sock {
    if !s.connected then s
    else if isRead then s.(wantRead := on)
    else s.(wantWrite := on)
  }

  function QueueSize(s: Sock): nat {
    |s.readers| + |s.writers|
  }

  /** Recursion through the client ends: the tape gets shorter, or no queue gets longer. */
  predicate Shrinks(s: Sock, r: Sock) {
    |r.tape| < |s.tape| || (|r.tape| == |s.tape| && QueueSize(r) <= QueueSize(s))
  }

  // ----- reference counting and the client ------------------------------------------------

  function IoRef(s: Sock, k: nat): Sock {
    var io := At(s, k);
    Put(s, k, io.(refCount := io.refCount + 1, held := io.held + 1)).(fault := s.fault || io.refCount <= 0)
  }

  function SockRef(s: Sock): Sock {
    s.(refCount := s.refCount + 1, held := s.held + 1, fault := s.fault || s.refCount <= 0)
  }

  function StopIoTimer(s: Sock, k: nat): (r: Sock)
    ensures r.tape == s.tape && QueueSize(r) == QueueSize(s)
  {
    Put(s, k, At(s, k).(timerOn := false))
  }

  /** Client code that runs inside a callback. */
  function Client(s: Sock): (r: (Sock, Action))
    ensures Shrinks(s, r.0)
    decreases |s.tape|, QueueSize(s), 0
  {
    if s.tape == [] then (s, Done)
    else
      var d, t := s.tape[0], s.(tape := s.tape[1..]);
      if d.Answer? then (t, d.action) else Client(Decide(t, d))
  }

  /** One decision other than an answer. */
  function Decide(s: Sock, d: Decision): (r: Sock)
    requires !d.Answer?
    ensures |r.tape| <= |s.tape|
    decreases |s.tape|, QueueSize(s), 7
  {
    match d
    case QueueIo(isRead, buffer) => Enqueue(s, isRead, buffer)
    case KeepSocket => KeepSock(s)
    case DropSocket => DropSock(s)
    case KeepIo(k) => Keep(s, k)
    case DropIo(k) => ReleaseIo(s, k)
    case StopTimer(k) => if At(s, k).live then StopIoTimer(s, k) else s
  }

  /** async_socket_reference by the client. */
  function KeepSock(s: Sock): Sock {
    s.(refCount := s.refCount + 1, clientRefs := s.clientRefs + 1, fault := s.fault || s.refCount <= 0)
  }

  /** async_socket_release by the client, of a reference that it has. */
  function DropSock(s: Sock): (r: Sock)
    ensures |r.tape| <= |s.tape|
    decreases |s.tape|, QueueSize(s), 6
  {
    if s.clientRefs <= 0 then s
    else SockRelease(s.(clientRefs := s.clientRefs - 1, held := s.held + 1))
  }

  /** async_socket_io_reference by the client, which must not call it on a finished descriptor. */
  function Keep(s: Sock, k: nat): (r: Sock)
    ensures r.tape == s.tape && QueueSize(r) == QueueSize(s)
  {
    var io := At(s, k);
    if io.refCount <= 0 then s
    else Put(s, k, io.(refCount := io.refCount + 1, clientRefs := io.clientRefs + 1, kept := true))
  }

  /** async_socket_io_release by the client, of a reference that it has. */
  function ReleaseIo(s: Sock, k: nat): (r: Sock)
    ensures |r.tape| <= |s.tape|
    decreases |s.tape|, QueueSize(s), 6
  {
    var io := At(s, k);
    if !io.live || io.clientRefs <= 0 then s else IoRelease(Lent(s, k), k)
  }

  /** A reference of the client to descriptor `k` is in the hands of running code. */
  function Lent(s: Sock, k: nat): (r: Sock)
    ensures r.tape == s.tape && QueueSize(r) == QueueSize(s)
  {
    var io := At(s, k);
    Put(s, k, io.(clientRefs := io.clientRefs - 1, held := io.held + 1))
  }

  /** Calls the callback of descriptor `k`. */
  function Notify(s: Sock, k: nat, event: State): (r: (Sock, Action))
    ensures Shrinks(s, r.0)
    decreases |s.tape|, QueueSize(s), 1
  {
    var (t, a) := Client(s);
    var io := At(t, k);
    (Put(t, k, io.(notes := io.notes + [Note(event, a, io.transferred)])), a)
  }

  /** Running code lets go of descriptor `k`. */
  function Unref(s: Sock, k: nat): (r: Sock)
    ensures r.tape == s.tape && QueueSize(r) == QueueSize(s)
  {
    var io := At(s, k);
    Put(s, k, io.(refCount := io.refCount - 1, held := io.held - 1)).(fault := s.fault || io.refCount <= 0)
  }

  /** Drops a reference that running code holds on descriptor `k`; the last one destroys it. */
  function IoRelease(s: Sock, k: nat): (r: Sock)
    ensures Shrinks(s, r)
    decreases |s.tape|, QueueSize(s), 5
  {
    var t := Unref(s, k);
    if At(t, k).refCount != 0 then t
    else
      var u := Notify(t, k, Finished).0;
      SockRelease(Bury(u, k))
  }

  /** The descriptor is freed or recycled; the socket reference it had is now in hand. */
  function Bury(s: Sock, k: nat): (r: Sock)
    ensures r.tape == s.tape && QueueSize(r) == QueueSize(s)
  {
    Put(s, k, At(s, k).(live := false, timerOn := false)).(held := s.held + 1)
  }

  /** Drops a reference that running code holds on the socket; the last one destroys it. */
  function SockRelease(s: Sock): (r: Sock)
    ensures Shrinks(s, r)
    decreases |s.tape|, QueueSize(s), 4
  {
    var t := s.(refCount := s.refCount - 1, held := s.held - 1, fault := s.fault || s.refCount <= 0);
    if t.refCount != 0 then t
    else Close(CancelAll(t)).(freed := true)
  }

  /** Cancels everything in one queue, first to last. */
  function CancelQueue(s: Sock, isRead: bool): (r: Sock)
    ensures Shrinks(s, r)
    decreases |s.tape|, QueueSize(s), 2
  {
    var q := Queue(s, isRead);
    if q == [] then s
    else
      var t := StopIoTimer(Unlink(s, isRead, 0), q[0]);
      var u := Notify(t, q[0], Cancelled).0;
      CancelQueue(IoRelease(u, q[0]), isRead)
  }

  function CancelAll(s: Sock): (r: Sock)
    ensures Shrinks(s, r)
    decreases |s.tape|, QueueSize(s), 3
  {
    var t := SetWant(SetWant(s.(reconnect := false), false, false), true, false);
    var u := CancelQueue(t.(pass := ReadPass), true);
    CancelQueue(u.(pass := WritePass), false).(pass := NoPass, orphaned := false)
  }

  function Close(s: Sock): Sock {
    if !s.connected then s
    else s.(connected := false, wantRead := false, wantWrite := false, since := s.next,
            orphaned := s.readers != [] || s.writers != [])
  }

  /** Takes position `i` out of a queue; the reference the queue had is now in hand. */
  function Unlink(s: Sock, isRead: bool, i: nat): Sock
    requires i < |Queue(s, isRead)|
  {
    var q := Queue(s, isRead);
    var io := At(s, q[i]);
    SetQueue(Put(s, q[i], io.(held := io.held + 1)), isRead, q[..i] + q[i + 1..])
  }

  // ----- queueing -------------------------------------------------------------------------

  function RwNew(s: Sock, isRead: bool, buffer: seq<Byte>): Sock {
    Put(s, s.next, Io(isRead, buffer, 0, Queued, 1, true, true, false, [], 0, 1, false))
    .(next := s.next + 1, refCount := s.refCount + 1, fault := s.fault || s.refCount <= 0)
  }

  /** The creator's reference becomes the queue's. */
  function Append(s: Sock, isRead: bool, k: nat): Sock {
    var io := At(s, k);
    var t := SetQueue(Put(s, k, io.(held := io.held - 1, accepted := true)), isRead, Queue(s, isRead) + [k]);
    if isRead then t.(readLog := s.readLog + [k]) else t.(writeLog := s.writeLog + [k])
  }

  /** async_socket_read_abs and async_socket_write_abs. */
  function Enqueue(s: Sock, isRead: bool, buffer: seq<Byte>): (r: Sock)
    ensures |r.tape| <= |s.tape|
    decreases |s.tape|, QueueSize(s), 6
  {
    var k := s.next;
    var t := RwNew(s, isRead, buffer);
    if t.connected then SetWant(Append(t, isRead, k), isRead, true)
    else
      var u := Notify(t, k, Failed).0;
      IoRelease(u, k)
  }
}
