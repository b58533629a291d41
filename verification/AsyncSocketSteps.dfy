/** The looper's callbacks and the client's calls, as functions on the values of AsyncSocketSpec. */
module AsyncSocketSteps {
  import opened AsyncIoCommon
  import opened AsyncSocketSpec

  // ----- one readable or writable event ---------------------------------------------------

  /** Takes the first descriptor out of a queue and drops the queue's reference. */
  function Advance(s: Sock, isRead: bool): Sock {
    var q := Queue(s, isRead);
    if q == [] then s else IoRelease(Unlink(s, isRead, 0), q[0])
  }

  /** Interest follows the queue, if there is still a connection. */
  function Rearm(s: Sock, isRead: bool): Sock {
    SetWant(s, isRead, Queue(s, isRead) != [])
  }

  /** The descriptor's own account of a try: started the first time, continues from then on. */
  function Bump(s: Sock, k: nat): Sock {
    var io := At(s, k);
    Put(s, k, io.(state := if io.state == Queued then Started else Continues))
  }

  /** Stops the timer and reports one of the events that settle an I/O. */
  function Report(s: Sock, k: nat, event: State): (Sock, Action) {
    Notify(StopIoTimer(s, k), k, event)
  }

  /** The bytes one recv or send moves: the kernel never moves more than asked for. */
  function Chunk(io: Io, bytes: seq<Byte>): (chunk: seq<Byte>)
    ensures chunk != [] ==> io.transferred + |chunk| <= |io.buffer|
  {
    var room := |io.buffer| - io.transferred;
    var n := if |bytes| <= room then |bytes| else room;
    if n <= 0 then []
    else if io.isRead then bytes[..n]
    else io.buffer[io.transferred..io.transferred + n]
  }

  function Transfer(s: Sock, isRead: bool, k: nat, chunk: seq<Byte>): Sock
    requires At(s, k).transferred + |chunk| <= |At(s, k).buffer|
  {
    var io := At(s, k);
    var done := io.transferred + |chunk|;
    var t := Put(s, k, io.(transferred := done,
                           buffer := if isRead then io.buffer[..io.transferred] + chunk + io.buffer[done..] else io.buffer));
    if isRead then t.(inBytes := s.inBytes + chunk) else t.(outBytes := s.outBytes + chunk)
  }

  function Disconnected(s: Sock): Sock {
    var (t, a) := Client(Close(CancelAll(s)));
    if a == Retry then CancelAll(t).(reconnect := true) else t
  }

  /** After the client let the try go ahead: what recv or send answered.  The flag is success. */
  function Attempt(s: Sock, isRead: bool, k: nat, outcome: Outcome): (Sock, bool) {
    match outcome
    case WouldBlock => (IoRelease(SetWant(s, isRead, true), k), true)
    case Error =>
      var (t, a) := Report(s, k, Failed);
      (IoRelease(if a != Retry then Rearm(Advance(t, isRead), isRead) else t, k), false)
    case Moved(bytes) =>
      var chunk := Chunk(At(s, k), bytes);
      if chunk == [] then (IoRelease(Disconnected(s), k), false)
      else
        var t := Transfer(s, isRead, k, chunk);
        var u := if At(t, k).transferred == |At(t, k).buffer| then Report(Advance(t, isRead), k, Succeeded).0 else t;
        (IoRelease(Rearm(u, isRead), k), true)
  }

  /** _on_async_socket_recv and _on_async_socket_send. */
  function Ready(s: Sock, isRead: bool, outcome: Outcome): (Sock, bool) {
    var q := Queue(s, isRead);
    if q == [] then (SetWant(s, isRead, false), true)
    else
      var k := q[0];
      var t := Bump(IoRef(s, k), k);
      var (u, a) := Notify(t, k, At(t, k).state);
      if a == Abort then (IoRelease(Rearm(Advance(u, isRead), isRead), k), true)
      else Attempt(u, isRead, k, outcome)
  }

  /** _on_async_socket_io: writing is skipped when reading failed. */
  function LooperIo(s: Sock, readable: Option<Outcome>, writable: Option<Outcome>): Sock {
    var t := SockRef(s);
    var (u, ok) := if readable.Some? then Ready(t, true, readable.value) else (t, true);
    SockRelease(if ok && writable.Some? then Ready(u, false, writable.value).0 else u)
  }

  /** The state in which a try finds that there is no connection any more. */
  function LostAt(s: Sock, isRead: bool, outcome: Outcome): Option<Sock> {
    var q := Queue(s, isRead);
    if q == [] then None
    else
      var k := q[0];
      var t := Bump(IoRef(s, k), k);
      var (u, a) := Notify(t, k, At(t, k).state);
      if a != Abort && outcome.Moved? && Chunk(At(u, k), outcome.bytes) == [] then Some(u) else None
  }

  /** The state in which one of the two tries of an event does, if one does. */
  function Loses(s: Sock, readable: Option<Outcome>, writable: Option<Outcome>): Option<Sock> {
    var t := SockRef(s);
    var (u, ok) := if readable.Some? then Ready(t, true, readable.value) else (t, true);
    if readable.Some? && LostAt(t, true, readable.value).Some? then LostAt(t, true, readable.value)
    else if ok && writable.Some? then LostAt(u, false, writable.value)
    else None
  }

  // ----- time-outs ------------------------------------------------------------------------

  function Position(q: seq<nat>, k: nat): (i: nat)
    ensures i <= |q|
    ensures k !in q[..i]
    ensures i < |q| ==> q[i] == k
  {
    if q == [] || q[0] == k then 0 else 1 + Position(q[1..], k)
  }

  /** Drops descriptor `k` from a queue, wherever it is, if it is there. */
  function RemoveIo(s: Sock, isRead: bool, k: nat): Sock {
    var i := Position(Queue(s, isRead), k);
    if i == |Queue(s, isRead)| then s else IoRelease(Unlink(s, isRead, i), k)
  }

  function IoTimedOut(s: Sock, k: nat): Sock {
    var (t, a) := Notify(IoRef(StopIoTimer(s, k), k), k, TimedOut);
    IoRelease(if a != Retry then RemoveIo(t, At(t, k).isRead, k) else t, k)
  }

  // ----- connection -----------------------------------------------------------------------

  /** The connector's file descriptor becomes the socket's. */
  function Accept(s: Sock): Sock {
    s.(connected := true, wantRead := false, wantWrite := false,
       inBytes := [], outBytes := [], readLog := s.readers, writeLog := s.writers)
  }

  /**
   _on_connector_events: a client that does not answer DONE discards a fresh connection, and one that
   does not answer RETRY is done with the attempt.  The first thing that is done is to take a
   reference; on a socket that was destroyed this is where the assertion fails.
   */
  function ConnectorEvent(s: Sock, event: State): (Sock, Action) {
    if s.refCount <= 0 then (s.(fault := true), Abort)
    else
      var t := SockRef(s);
      var (u, a) := Client(if event == Succeeded then Accept(t) else t);
      var v := if event == Succeeded && a != Done then Close(u) else u;
      (SockRelease(if a != Retry then Forgotten(v) else v), a)
  }

  /** A connector let go of the socket. */
  function Forgotten(s: Sock): Sock {
    s.(attempts := if s.attempts > 0 then s.attempts - 1 else 0)
  }

  /** async_socket_connect; what its connector reports, even at once, are connector events. */
  function Attempted(s: Sock): Sock {
    s.(attempts := s.attempts + 1)
  }

  function Disconnect(s: Sock): Sock {
    Close(CancelAll(s))
  }

  function Reconnect(s: Sock): Sock {
    CancelAll(Disconnect(s)).(reconnect := true)
  }

  /** _on_async_socket_reconnect. */
  function OnReconnect(s: Sock): Sock {
    SockRelease(Attempted(SockRef(s.(reconnect := false))))
  }

  // ----- runs -----------------------------------------------------------------------------

  datatype Event =
    | CallQueue(isRead: bool, buffer: seq<Byte>)
    | CallKeep
    | CallDrop
    | CallKeepIo(k: nat)
    | CallDropIo(k: nat)
    | CallConnect
    | CallDisconnect
    | CallReconnect
    | LoopIo(readable: Option<Outcome>, writable: Option<Outcome>)
    | LoopTimer(k: nat)
    | LoopReconnect
    | Connector(event: State)

  /**
   When the program around the socket may do what `e` says.  A client calls while it has a
   reference, drops only references that it has, and lets no second connection be made while there
   is one; the looper watches a connection, and fires timers that run; a connector reports until it
   has let go of the socket, whether or not the socket is still there.
   */
  predicate Enabled(s: Sock, e: Event) {
    match e
    case CallQueue(_, _) => s.clientRefs > 0
    case CallKeep => s.clientRefs > 0
    case CallDrop => s.clientRefs > 0
    case CallKeepIo(k) => At(s, k).live && At(s, k).refCount > 0
    case CallDropIo(k) => At(s, k).live && At(s, k).clientRefs > 0
    case CallConnect => s.clientRefs > 0
    case CallDisconnect => s.clientRefs > 0
    case CallReconnect => s.clientRefs > 0
    case LoopIo(_, _) => s.connected
    case LoopTimer(k) => At(s, k).live && At(s, k).timerOn
    case LoopReconnect => s.reconnect
    case Connector(event) =>
      s.attempts > 0 && (event == Succeeded ==> !s.connected) &&
      event in {Started, Continues, Retrying, Failed, Succeeded}
  }

  /** The reference a client calls with stays in use until the call returns. */
  function Lend(s: Sock): Sock {
    s.(clientRefs := s.clientRefs - 1, held := s.held + 1)
  }

  function Return(s: Sock): Sock {
    s.(clientRefs := s.clientRefs + 1, held := s.held - 1)
  }

  function Step(s: Sock, e: Event): Sock {
    match e
    case CallQueue(isRead, buffer) => Return(Enqueue(Lend(s), isRead, buffer))
    case CallKeep => KeepSock(s)
    case CallDrop => DropSock(s)
    case CallKeepIo(k) => Keep(s, k)
    case CallDropIo(k) => ReleaseIo(s, k)
    case CallConnect => Attempted(s)
    case CallDisconnect => Return(Disconnect(Lend(s)))
    case CallReconnect => Return(Reconnect(Lend(s)))
    case LoopIo(readable, writable) => LooperIo(s, readable, writable)
    case LoopTimer(k) => IoTimedOut(s, k)
    case LoopReconnect => OnReconnect(s)
    case Connector(event) => ConnectorEvent(s, event).0
  }

  /** A new socket with one client reference, and the decisions its client will make. */
  function New(tape: seq<Decision>): Sock {
    Sock(map[], 0, [], [], false, false, false, false, 1, false, 1, 0, false, NoPass, 0, 0, false, tape, [], [], [], [])
  }

  /** What comes of an event; one that is not enabled does not happen, and nothing does after a fault. */
  function Next(s: Sock, e: Event): Sock {
    if Enabled(s, e) && !s.fault then Step(s, e) else s
  }

  /** Any sequence of events. */
  function Run(s: Sock, es: seq<Event>): Sock
    decreases |es|
  {
    if es == [] then s else Next(Run(s, es[..|es| - 1]), es[|es| - 1])
  }
}
