/** Runs that show that the conditions of the theorems cannot be dropped. */
module AsyncSocketRuns {
  import opened AsyncIoCommon
  import opened AsyncSocketSpec
  import opened AsyncSocketSteps
  import opened AsyncSocketInvariant
  import opened AsyncSocketCallbacks
  import opened AsyncSocketCancel
  import opened AsyncSocketSafety
  import opened AsyncSocketTheorems

  /** A new descriptor, on a connected socket. */
  function Waiting(isRead: bool, buffer: seq<Byte>): Io {
    Io(isRead, buffer, 0, Queued, 1, true, true, true, [], 0, 0, false)
  }

  lemma ReaderJoins(s: Sock, buffer: seq<Byte>)
    requires s.connected && s.refCount > 0 && !s.fault
    ensures Enqueue(s, true, buffer) ==
            s.(ios := s.ios[s.next := Waiting(true, buffer)], next := s.next + 1, refCount := s.refCount + 1,
               readers := s.readers + [s.next], readLog := s.readLog + [s.next], wantRead := true)
  {
    hide Enqueue, Notify, IoRelease;
    EnqueueIs(s, true, buffer);
    var io := Waiting(true, buffer);
    assert s.ios[s.next := io.(held := 1, accepted := false)][s.next := io] == s.ios[s.next := io];
  }

  lemma WriterJoins(s: Sock, buffer: seq<Byte>)
    requires s.connected && s.refCount > 0 && !s.fault
    ensures Enqueue(s, false, buffer) ==
            s.(ios := s.ios[s.next := Waiting(false, buffer)], next := s.next + 1, refCount := s.refCount + 1,
               writers := s.writers + [s.next], writeLog := s.writeLog + [s.next], wantWrite := true)
  {
    hide Enqueue, Notify, IoRelease;
    EnqueueIs(s, false, buffer);
    var io := Waiting(false, buffer);
    assert s.ios[s.next := io.(held := 1, accepted := false)][s.next := io] == s.ios[s.next := io];
  }

  // ----- a disconnection leaves a reader behind --------------------------------------------

  /** A writer is queued; when it is cancelled its client queues a reader; the socket connects again. */
  const LOST_TAPE: seq<Decision> :=
    [QueueIo(false, [0]), Answer(Done), QueueIo(true, [0]), Answer(Done), Answer(Done), Answer(Done)]

  const LOST_RUN: seq<Event> := [CallConnect, Connector(Succeeded), CallDisconnect, CallConnect, Connector(Succeeded)]

  /** A reader waits on a connection, and the looper does not watch for it. */
  predicate WaitsInVain(s: Sock) {
    s.connected && s.readers != [] && !s.wantRead && !s.fault
  }

  lemma LostWakeUp()
    ensures WaitsInVain(Run(New(LOST_TAPE), LOST_RUN))
  {
    hide Run, Step, Enabled, OneWriter, OneOrphan, WaitsInVain;
    var s, es := New(LOST_TAPE), LOST_RUN;
    RunNone(s, es);
    Connects(s);
    Taken(s, es, 0);
    FirstConnection(Run(s, es[..1]));
    Taken(s, es, 1);
    Disconnection(Run(s, es[..2]));
    Taken(s, es, 2);
    Reconnection(Run(s, es[..3]));
    Taken(s, es, 3);
    SecondConnection(Run(s, es[..4]));
    Taken(s, es, 4);
  }

  /** A connected socket with one writer, and the rest of the tape. */
  predicate OneWriter(s: Sock) {
    && s.connected && s.next == 1 && s.readers == [] && s.writers == [0] && s.tape == LOST_TAPE[2..]
    && 0 in s.ios && s.ios[0] == Io(false, [0], 0, Queued, 1, true, true, true, [], 0, 0, false)
    && s.clientRefs == 1 && s.held == 0 && s.refCount == 2 && s.pass == NoPass && !s.fault && s.attempts == 0
  }

  lemma FirstConnection(s: Sock)
    requires s == New(LOST_TAPE).(attempts := 1)
    ensures var r := Step(s, Connector(Succeeded)); OneWriter(r) && Enabled(s, Connector(Succeeded)) && !s.fault && !r.fault
  {
    hide Client, Enqueue;
    var t := Accept(SockRef(s));
    ClientIs(t);
    var d := t.(tape := LOST_TAPE[1..]);
    WriterJoins(d, [0]);
    var u := Decide(d, LOST_TAPE[0]);
    ClientIs(u);
    assert LOST_TAPE[1..][1..] == LOST_TAPE[2..];
  }

  /** The reader that was queued while the writer was cancelled is queued on a closed connection. */
  predicate OneOrphan(s: Sock) {
    && !s.connected && s.readers == [1] && s.writers == [] && s.tape == [Answer(Done)]
    && s.clientRefs == 1 && s.held == 0 && s.refCount == 2 && !s.wantRead && !s.fault
  }

  lemma Disconnection(s: Sock)
    requires OneWriter(s)
    ensures var r := Step(s, CallDisconnect); OneOrphan(r) && r.attempts == 0 && Enabled(s, CallDisconnect) && !s.fault && !r.fault
  {
    hide CancelAll, CancelQueue, OneWriter;
    CancelAllIs(Lend(s));
    var w := Begin(Lend(s)).(pass := WritePass);
    OneWriterBegins(s);
    OneCancelled(w);
    assert LOST_TAPE[5..] == [Answer(Done)];
  }

  lemma OneWriterBegins(s: Sock)
    requires OneWriter(s)
    ensures var w := Begin(Lend(s));
            CancelQueue(w, true) == w && Writing(w.(pass := WritePass)) && s.clientRefs > 0 && !s.fault
  {
    hide CancelQueue;
    CancelNone(Begin(Lend(s)), true);
  }

  predicate Writing(w: Sock) {
    && w.connected && w.next == 1 && w.readers == [] && w.writers == [0] && w.tape == LOST_TAPE[2..]
    && 0 in w.ios && w.ios[0] == Io(false, [0], 0, Queued, 1, true, true, true, [], 0, 0, false)
    && w.clientRefs == 0 && w.held == 1 && w.refCount == 2 && !w.fault && w.pass == WritePass && w.attempts == 0
  }

  lemma OneCancelled(w: Sock)
    requires Writing(w)
    ensures var r := CancelQueue(w, false);
            && r.connected && r.readers == [1] && r.writers == [] && r.tape == LOST_TAPE[5..]
            && r.clientRefs == 0 && r.held == 1 && r.refCount == 2 && !r.fault && r.attempts == 0
  {
    hide CancelQueue, Notify, IoRelease;
    CancelIs(w, false);
    var x := StopIoTimer(Unlink(w, false, 0), 0);
    assert w.writers[..0] + w.writers[1..] == [];
    CancelledWriter(x);
    var u := Notify(x, 0, Cancelled).0;
    FinishedWriter(u);
    CancelNone(IoRelease(u, 0), false);
  }

  predicate Cancelling(s: Sock) {
    && s.connected && s.next == 1 && s.readers == [] && s.writers == [] && s.tape == LOST_TAPE[2..]
    && 0 in s.ios && s.ios[0] == Io(false, [0], 0, Queued, 1, false, true, true, [], 0, 1, false)
    && s.clientRefs == 0 && s.held == 1 && s.refCount == 2 && !s.fault && s.pass == WritePass && s.attempts == 0
  }

  predicate WriterTold(s: Sock) {
    && s.connected && s.readers == [1] && s.writers == [] && s.tape == LOST_TAPE[4..]
    && 0 in s.ios && s.ios[0].refCount == 1
    && s.clientRefs == 0 && s.held == 1 && s.refCount == 3 && !s.fault && s.attempts == 0
  }

  lemma CancelledWriter(s: Sock)
    requires Cancelling(s)
    ensures WriterTold(Notify(s, 0, Cancelled).0)
  {
    hide Notify, Client, Enqueue;
    var d := LOST_TAPE[2];
    var t := s.(tape := s.tape[1..]);
    ClientIs(s);
    ReaderJoins(t, [0]);
    var u := Decide(t, d);
    ClientIs(u);
    assert s.tape[1..][1..] == LOST_TAPE[4..];
    NotifyIs(s, 0, Cancelled);
  }

  lemma FinishedWriter(s: Sock)
    requires WriterTold(s)
    ensures var r := IoRelease(s, 0);
            && r.connected && r.readers == [1] && r.writers == [] && r.tape == LOST_TAPE[5..]
            && r.clientRefs == 0 && r.held == 1 && r.refCount == 2 && !r.fault && r.attempts == 0
  {
    hide Notify, Client, IoRelease;
    IoReleaseIs(s, 0);
    var t := Put(s, 0, Dropped(s.ios[0]));
    ClientIs(t);
    NotifyIs(t, 0, Finished);
    assert t.tape[1..] == LOST_TAPE[5..];
  }

  lemma Reconnection(s: Sock)
    requires OneOrphan(s) && s.attempts == 0
    ensures var r := Step(s, CallConnect);
            && Enabled(s, CallConnect) && r.readers != [] && r.attempts == 1 && !r.connected && !r.wantRead && r.refCount == 2
            && r.tape == [Answer(Done)] && !r.fault && !s.fault
  {
    hide Step, Enabled;
    Connects(s);
  }

  lemma SecondConnection(s: Sock)
    requires s.readers != [] && s.attempts == 1 && !s.connected && s.refCount == 2 && s.tape == [Answer(Done)] && !s.fault
    ensures WaitsInVain(Step(s, Connector(Succeeded))) && Enabled(s, Connector(Succeeded))
  {
    hide Client;
    var t := Accept(SockRef(s));
    ClientIs(t);
  }

  // ----- so does a connection that is discarded --------------------------------------------

  /** The client queues a reader when it hears of a connection, which it then discards. */
  const DISCARD_TAPE: seq<Decision> := [QueueIo(true, [0]), Answer(Abort), Answer(Done)]

  const DISCARD_RUN: seq<Event> := [CallConnect, Connector(Succeeded), CallConnect, Connector(Succeeded)]

  lemma LostByDiscarding()
    ensures WaitsInVain(Run(New(DISCARD_TAPE), DISCARD_RUN))
  {
    hide Run, Step, Enabled, OneLeft, WaitsInVain;
    var s, es := New(DISCARD_TAPE), DISCARD_RUN;
    RunNone(s, es);
    Connects(s);
    Taken(s, es, 0);
    Discarded(Run(s, es[..1]));
    Taken(s, es, 1);
    ConnectsAgain(Run(s, es[..2]));
    Taken(s, es, 2);
    SecondConnection(Run(s, es[..3]));
    Taken(s, es, 3);
  }

  predicate OneLeft(s: Sock) {
    && !s.connected && s.readers == [0] && s.tape == [Answer(Done)] && s.clientRefs == 1 && s.refCount == 2
    && !s.wantRead && !s.fault && s.attempts == 0
  }

  lemma Discarded(s: Sock)
    requires s == New(DISCARD_TAPE).(attempts := 1)
    ensures var r := Step(s, Connector(Succeeded)); OneLeft(r) && Enabled(s, Connector(Succeeded)) && !s.fault && !r.fault
  {
    hide Client, Enqueue;
    var t := Accept(SockRef(s));
    ClientIs(t);
    var d := t.(tape := DISCARD_TAPE[1..]);
    ReaderJoins(d, [0]);
    var u := Decide(d, DISCARD_TAPE[0]);
    ClientIs(u);
    assert DISCARD_TAPE[1..][1..] == [Answer(Done)];
  }

  lemma ConnectsAgain(s: Sock)
    requires OneLeft(s)
    ensures var r := Step(s, CallConnect);
            && Enabled(s, CallConnect) && r.readers != [] && r.attempts == 1 && !r.connected && r.refCount == 2
            && r.tape == [Answer(Done)] && !r.fault && !s.fault
  {
    hide Step, Enabled;
    Connects(s);
  }

  // ----- a time-out after the end ----------------------------------------------------------

  /** The client keeps a writer and aborts it when it hears that it has started. */
  const LATE_TAPE: seq<Decision> := [Answer(Done), KeepIo(0), Answer(Abort), Answer(Done), Answer(Done)]

  const LATE_RUN: seq<Event> :=
    [CallConnect, Connector(Succeeded), CallQueue(false, [0]), LoopIo(None, Some(WouldBlock)), LoopTimer(0), CallDropIo(0)]

  /** The I/O is over when it is aborted, and yet its callback hears of a time-out. */
  lemma LateTimeOut()
    ensures var s := Run(New(LATE_TAPE), LATE_RUN);
            0 in s.ios && s.ios[0].notes == [Note(Started, Abort, 0), Note(TimedOut, Done, 0), Note(Finished, Done, 0)]
  {
    hide Run, Step, Enabled, Accepted, Listed, Kept, Overdue;
    var s, es := New(LATE_TAPE), LATE_RUN;
    RunNone(s, es);
    Connects(s);
    Taken(s, es, 0);
    AcceptsFirst(Run(s, es[..1]));
    Taken(s, es, 1);
    Lists(Run(s, es[..2]));
    Taken(s, es, 2);
    Aborts(Run(s, es[..3]));
    Taken(s, es, 3);
    TimesOut(Run(s, es[..4]));
    Taken(s, es, 4);
    Ends(Run(s, es[..5]));
    Taken(s, es, 5);
  }

  predicate Sole(s: Sock, io: Io) {
    0 in s.ios && s.ios[0] == io && s.held == 0 && s.clientRefs == 1 && s.refCount == 2 && !s.fault && s.connected && s.readers == []
  }

  predicate Accepted(s: Sock) {
    && s.connected && s.readers == [] && s.writers == [] && s.next == 0 && s.ios == map[] && s.held == 0 && s.clientRefs == 1
    && s.refCount == 1 && !s.fault && s.tape == LATE_TAPE[1..]
  }

  lemma AcceptsFirst(s: Sock)
    requires s == New(LATE_TAPE).(attempts := 1)
    ensures Accepted(Step(s, Connector(Succeeded))) && Enabled(s, Connector(Succeeded)) && !s.fault
    ensures !Step(s, Connector(Succeeded)).fault
  {
    hide Client;
    ClientIs(Accept(SockRef(s)));
  }

  predicate Listed(s: Sock) {
    Sole(s, Io(false, [0], 0, Queued, 1, true, true, true, [], 0, 0, false)) && s.writers == [0] && s.tape == LATE_TAPE[1..]
  }

  lemma Lists(s: Sock)
    requires Accepted(s)
    ensures Enabled(s, CallQueue(false, [0])) && Listed(Step(s, CallQueue(false, [0]))) && !Step(s, CallQueue(false, [0])).fault && !s.fault
  {
    hide Enqueue;
    WriterJoins(Lend(s), [0]);
  }

  predicate Kept(s: Sock) {
    Sole(s, Io(false, [0], 0, Started, 1, true, true, true, [Note(Started, Abort, 0)], 1, 0, true))
    && s.writers == [] && s.tape == LATE_TAPE[3..]
  }

  lemma Aborts(s: Sock)
    requires Listed(s)
    ensures var e := LoopIo(None, Some(WouldBlock)); Enabled(s, e) && Kept(Step(s, e)) && !Step(s, e).fault && !s.fault
  {
    hide Notify, IoRelease, Rearm, SockRelease, Advance;
    var t := Bump(IoRef(SockRef(s), 0), 0);
    StartsAbort(t);
    var u := Notify(t, 0, Started).0;
    LeavesAbort(u);
    SockReleaseMore(IoRelease(Rearm(Advance(u, false), false), 0));
  }

  /** The descriptor while its callback runs. */
  predicate InCallback(s: Sock, io: Io) {
    0 in s.ios && s.ios[0] == io && s.held == 1 && s.clientRefs == 1 && s.refCount == 3 && !s.fault && s.connected && s.readers == []
  }

  lemma StartsAbort(t: Sock)
    requires InCallback(t, Io(false, [0], 0, Started, 2, true, true, true, [], 0, 1, false)) && t.tape == LATE_TAPE[1..] && t.writers == [0]
    ensures var (u, a) := Notify(t, 0, Started);
            && a == Abort && InCallback(u, Io(false, [0], 0, Started, 3, true, true, true, [Note(Started, Abort, 0)], 1, 1, true))
            && u.writers == [0] && u.tape == LATE_TAPE[3..]
  {
    hide Notify, Client;
    ClientIs(t);
    var d := t.(tape := LATE_TAPE[1..][1..]);
    ClientIs(Keep(d, 0));
    assert LATE_TAPE[1..][1..][1..] == LATE_TAPE[3..];
    NotifyIs(t, 0, Started);
  }

  lemma LeavesAbort(u: Sock)
    requires InCallback(u, Io(false, [0], 0, Started, 3, true, true, true, [Note(Started, Abort, 0)], 1, 1, true)) && u.writers == [0]
    ensures var r := IoRelease(Rearm(Advance(u, false), false), 0);
            && InCallback(r, Io(false, [0], 0, Started, 1, true, true, true, [Note(Started, Abort, 0)], 1, 0, true))
            && r.writers == [] && r.tape == u.tape
  {
    hide IoRelease;
    var x := Unlink(u, false, 0);
    assert u.writers[..0] + u.writers[1..] == [];
    IoReleaseIs(x, 0);
    var y := Rearm(IoRelease(x, 0), false);
    IoReleaseIs(y, 0);
  }

  lemma SockReleaseMore(s: Sock)
    requires s.refCount > 1 && !s.fault
    ensures SockRelease(s) == s.(refCount := s.refCount - 1, held := s.held - 1)
  {
    hide CancelAll;
  }

  predicate Overdue(s: Sock) {
    Sole(s, Io(false, [0], 0, Started, 1, false, true, true, [Note(Started, Abort, 0), Note(TimedOut, Done, 0)], 1, 0, true))
    && s.writers == [] && s.tape == LATE_TAPE[4..]
  }

  lemma TimesOut(s: Sock)
    requires Kept(s)
    ensures Enabled(s, LoopTimer(0)) && Overdue(Step(s, LoopTimer(0))) && !Step(s, LoopTimer(0)).fault && !s.fault
  {
    hide Client, Notify, IoRelease;
    var t := IoRef(StopIoTimer(s, 0), 0);
    ClientIs(t);
    NotifyIs(t, 0, TimedOut);
    assert LATE_TAPE[3..][1..] == LATE_TAPE[4..];
    IoReleaseIs(Notify(t, 0, TimedOut).0, 0);
  }

  lemma Ends(s: Sock)
    requires Overdue(s)
    ensures Enabled(s, CallDropIo(0)) && !s.fault
    ensures var r := Step(s, CallDropIo(0));
            0 in r.ios && r.ios[0].notes == [Note(Started, Abort, 0), Note(TimedOut, Done, 0), Note(Finished, Done, 0)]
  {
    hide Client, Notify, IoRelease, SockRelease;
    var t := Lent(s, 0);
    IoReleaseIs(t, 0);
    var d := Put(t, 0, Dropped(t.ios[0]));
    ClientIs(d);
    NotifyIs(d, 0, Finished);
    SockReleaseMore(Bury(Notify(d, 0, Finished).0, 0));
  }
}
