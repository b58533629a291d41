/** What every reachable state of a socket satisfies, and how the primitive updates keep it. */
module AsyncSocketInvariant {
  import opened AsyncIoCommon
  import opened AsyncSocketSpec

  // ----- the life of one descriptor -------------------------------------------------------

  /**
   What a descriptor's callback has been told so far.  After `Ended` the timer may still run (the
   client aborted the I/O, or it was refused on a disconnected socket); after `Settled` it may not.
   */
  datatype Phase = Fresh | Running | Ended | Settled | Gone | Broken

  function After(p: Phase, n: Note, accepted: bool, size: nat, kept: bool): Phase {
    match p
    case Fresh =>
      if !accepted then (if n.event == Failed then Ended else Broken)
      else if n.event == Started then (if n.answer == Abort then Ended else Running)
      else if n.event == TimedOut then (if n.answer == Retry then Fresh else Settled)
      else if n.event == Cancelled then Settled
      else Broken
    case Running =>
      if n.event == Continues then (if n.answer == Abort then Ended else Running)
      else if n.event == TimedOut || n.event == Failed then (if n.answer == Retry then Running else Settled)
      else if n.event == Cancelled || (n.event == Succeeded && n.transferred == size) then Settled
      else Broken
    case Ended =>
      if n.event == Finished then Gone
      else if n.event == TimedOut && kept then Settled
      else Broken
    case Settled => if n.event == Finished then Gone else Broken
    case Gone => Broken
    case Broken => Broken
  }

  function PhaseOf(notes: seq<Note>, accepted: bool, size: nat, kept: bool): Phase {
    if notes == [] then Fresh
    else After(PhaseOf(notes[..|notes| - 1], accepted, size, kept), notes[|notes| - 1], accepted, size, kept)
  }

  function Stage(io: Io): Phase {
    PhaseOf(io.notes, io.accepted, |io.buffer|, io.kept)
  }

  predicate Active(p: Phase) {
    p == Fresh || p == Running
  }

  /** The reference count of a descriptor is accounted for, and its state fits what was notified. */
  predicate Local(io: Io, queued: bool) {
    && io.refCount == (if queued then 1 else 0) + io.clientRefs + io.held
    && io.clientRefs >= 0 && io.held >= 0
    && (io.clientRefs > 0 ==> io.kept)
    && io.transferred <= |io.buffer|
    && (io.state == Queued ==> io.transferred == 0)
    && io.state in {Queued, Started, Continues}
    && Stage(io) != Broken
    && (io.live <==> Stage(io) != Gone)
    && (!io.live ==> io.refCount == 0 && !io.timerOn)
    && (Stage(io) == Settled ==> !io.timerOn)
    && (queued ==> io.accepted)
    && (io.held == 0 && io.live ==> (queued <==> Active(Stage(io))))
    && (io.held == 0 && queued ==> (io.state == Queued <==> Stage(io) == Fresh))
    && (io.held == 0 && queued ==> io.transferred < |io.buffer| || io.buffer == [])
  }

  // ----- the whole socket -----------------------------------------------------------------

  type Ios = map<nat, Io>

  predicate RecordsOk(ios: Ios, next: nat, readers: seq<nat>, writers: seq<nat>) {
    forall k | k in ios :: k < next && Local(ios[k], k in readers || k in writers)
  }

  predicate Increasing(q: seq<nat>) {
    forall i, j | 0 <= i < j < |q| :: q[i] < q[j]
  }

  /** A queue holds descriptors of its kind in the order of queueing; only the first has started. */
  predicate QueueOk(ios: Ios, q: seq<nat>, isRead: bool, connected: bool) {
    && Increasing(q)
    && (forall k | k in q :: k in ios && ios[k].isRead == isRead)
    && (forall k | k in q && k != q[0] :: ios[k].state == Queued)
    && (!connected && q != [] ==> ios[q[0]].transferred == 0)
  }

  function Slice(io: Io): seq<Byte> {
    if io.transferred <= |io.buffer| then io.buffer[..io.transferred] else []
  }

  /** The transferred parts of the buffers of the descriptors in `log`, in order. */
  function Flat(ios: Ios, log: seq<nat>): seq<Byte> {
    if log == [] then []
    else Flat(ios, log[..|log| - 1]) + (var k := log[|log| - 1]; if k in ios then Slice(ios[k]) else [])
  }

  /** Everything queued on this connection is in its log; nothing behind the first has moved. */
  predicate LogOk(ios: Ios, q: seq<nat>, log: seq<nat>, isRead: bool) {
    && Increasing(log)
    && (forall k | k in log :: k in ios && ios[k].isRead == isRead)
    && (forall k | k in q :: k in log)
    && (q != [] ==> forall k | k in log && k > q[0] :: ios[k].transferred == 0)
  }

  /** The bytes moved over this connection are those in the buffers, in queue order. */
  predicate BytesOk(ios: Ios, q: seq<nat>, log: seq<nat>, moved: seq<Byte>, isRead: bool) {
    LogOk(ios, q, log, isRead) && Flat(ios, log) == moved
  }

  function Live(ios: Ios): set<nat> {
    set k | k in ios && ios[k].live
  }

  /** A socket is referenced by its client, its descriptors and the callbacks that run. */
  predicate CountOk(ios: Ios, refCount: int, clientRefs: int, held: int) {
    clientRefs >= 0 && held >= 0 && refCount == clientRefs + |Live(ios)| + held
  }

  /** Something was queued after the last connection was closed. */
  predicate Current(q: seq<nat>, since: nat) {
    q != [] && q[|q| - 1] >= since
  }

  /** Something was queued before that, and outlived the connection. */
  predicate Stranded(q: seq<nat>, since: nat) {
    q != [] && q[0] < since
  }

  predicate Strays(s: Sock) {
    Stranded(s.readers, s.since) || Stranded(s.writers, s.since)
  }

  /**
   The looper watches for what was queued on this connection, as far as the cancellation loops that
   may be running allow.
   */
  predicate Awake(s: Sock) {
    && s.since <= s.next
    && (s.connected && s.pass != ReadPass && Current(s.readers, s.since) ==> s.wantRead)
    && (s.connected && s.pass == NoPass && Current(s.writers, s.since) ==> s.wantWrite)
    && (!s.connected ==> !Current(s.readers, s.since) && !Current(s.writers, s.since) && !s.wantRead && !s.wantWrite)
    && (Strays(s) ==> s.orphaned)
  }

  predicate Inv(s: Sock) {
    && RecordsOk(s.ios, s.next, s.readers, s.writers)
    && QueueOk(s.ios, s.readers, true, s.connected)
    && QueueOk(s.ios, s.writers, false, s.connected)
    && BytesOk(s.ios, s.readers, s.readLog, s.inBytes, true)
    && BytesOk(s.ios, s.writers, s.writeLog, s.outBytes, false)
    && CountOk(s.ios, s.refCount, s.clientRefs, s.held)
    && Awake(s)
    && !s.fault
    && (s.freed <==> s.refCount == 0)
    && (s.freed ==> !s.connected && !s.reconnect)
  }

  predicate InQueue(s: Sock, k: nat) {
    k in s.readers || k in s.writers
  }

  // ----- phases ---------------------------------------------------------------------------

  lemma {:induction false} PhaseKept(notes: seq<Note>, accepted: bool, size: nat)
    requires PhaseOf(notes, accepted, size, false) != Broken
    ensures PhaseOf(notes, accepted, size, true) == PhaseOf(notes, accepted, size, false)
  {
    if notes != [] {
      PhaseKept(notes[..|notes| - 1], accepted, size);
    }
  }

  lemma PhaseSnoc(notes: seq<Note>, n: Note, accepted: bool, size: nat, kept: bool)
    ensures PhaseOf(notes + [n], accepted, size, kept) == After(PhaseOf(notes, accepted, size, kept), n, accepted, size, kept)
  {
    assert (notes + [n])[..|notes|] == notes;
  }

  // ----- bytes ----------------------------------------------------------------------------

  lemma {:induction false} FlatSame(a: Ios, b: Ios, log: seq<nat>)
    requires forall k | k in log :: k in a && k in b && Slice(a[k]) == Slice(b[k])
    ensures Flat(a, log) == Flat(b, log)
  {
    if log != [] {
      FlatSame(a, b, log[..|log| - 1]);
    }
  }

  /** Bytes added to a descriptor are added at the end when nothing behind it has any. */
  lemma {:induction false} FlatGrow(a: Ios, b: Ios, log: seq<nat>, k: nat, chunk: seq<Byte>)
    requires Increasing(log) && k in log
    requires forall j | j in log :: j in a && j in b && (j != k ==> Slice(a[j]) == Slice(b[j]))
    requires Slice(b[k]) == Slice(a[k]) + chunk
    requires forall j | j in log && j > k :: Slice(a[j]) == []
    ensures Flat(b, log) == Flat(a, log) + chunk
  {
    var n := |log| - 1;
    var init, last := log[..n], log[n];
    FrontOf(log);
    FlatLast(a, log);
    FlatLast(b, log);
    hide *;
    if last == k {
      FlatSame(a, b, init);
      Regroup(Flat(a, init), Slice(a[k]), chunk);
    } else {
      FlatGrow(a, b, init, k, chunk);
      Regroup(Flat(a, init), [], chunk);
      Regroup(Flat(a, init), chunk, []);
    }
  }

  lemma Regroup(x: seq<Byte>, y: seq<Byte>, z: seq<Byte>)
    ensures x + (y + z) == x + y + z && x + [] == x
  {
  }

  lemma FrontOf(log: seq<nat>)
    requires Increasing(log) && log != []
    ensures var init, last := log[..|log| - 1], log[|log| - 1];
      && last in log && Increasing(init)
      && (forall j | j in init :: j in log && j < last)
      && (forall j | j in log :: j in init || j == last)
  {
    var n := |log| - 1;
    forall j | j in log ensures j in log[..n] || j == log[n] {
      var i :| 0 <= i < |log| && log[i] == j;
      if i < n { assert log[..n][i] == j; }
    }
  }

  lemma FlatLast(ios: Ios, log: seq<nat>)
    requires log != [] && log[|log| - 1] in ios
    ensures Flat(ios, log) == Flat(ios, log[..|log| - 1]) + Slice(ios[log[|log| - 1]])
  {
  }

  lemma {:induction false} FlatEmpty(ios: Ios, log: seq<nat>)
    requires forall k | k in log :: k in ios && Slice(ios[k]) == []
    ensures Flat(ios, log) == []
  {
    if log != [] {
      FlatEmpty(ios, log[..|log| - 1]);
    }
  }

  // ----- primitive updates ----------------------------------------------------------------

  lemma PutRecords(ios: Ios, next: nat, readers: seq<nat>, writers: seq<nat>, k: nat, io: Io)
    requires RecordsOk(ios, next, readers, writers) && k < next && Local(io, k in readers || k in writers)
    ensures RecordsOk(ios[k := io], next, readers, writers)
  {
  }

  lemma PutQueue(ios: Ios, q: seq<nat>, isRead: bool, connected: bool, k: nat, io: Io)
    requires QueueOk(ios, q, isRead, connected)
    requires k in q ==> io.isRead == isRead && io.transferred == ios[k].transferred && (io.state == ios[k].state || k == q[0])
    ensures QueueOk(ios[k := io], q, isRead, connected)
  {
  }

  lemma PutBytes(ios: Ios, q: seq<nat>, log: seq<nat>, moved: seq<Byte>, isRead: bool, k: nat, io: Io)
    requires BytesOk(ios, q, log, moved, isRead)
    requires k in log ==> io.isRead == ios[k].isRead && io.buffer == ios[k].buffer && io.transferred == ios[k].transferred
    ensures BytesOk(ios[k := io], q, log, moved, isRead)
  {
    FlatSame(ios, ios[k := io], log);
  }

  /** What the invariant says about one descriptor. */
  lemma About(s: Sock, k: nat)
    requires Inv(s) && k in s.ios
    ensures k < s.next && Local(s.ios[k], InQueue(s, k))
    ensures k in s.readers ==> s.ios[k].isRead
    ensures k in s.writers ==> !s.ios[k].isRead
    ensures Increasing(s.readers) && Increasing(s.writers)
  {
  }

  lemma QueuedAre(s: Sock, isRead: bool)
    requires Inv(s)
    ensures forall k | k in Queue(s, isRead) :: k in s.ios && s.ios[k].isRead == isRead && s.ios[k].live
  {
  }

  /** Serial numbers are given out once. */
  lemma AboutNext(s: Sock)
    requires Inv(s)
    ensures forall k: nat | k in s.ios :: k < s.next
    ensures forall k: nat | k in s.readers || k in s.writers :: k in s.ios && k < s.next
    ensures forall k: nat | k in s.readLog || k in s.writeLog :: k in s.ios && k < s.next
  {
  }

  /** A record may change as long as it stays accounted for and no bytes or positions change. */
  lemma PutOk(s: Sock, k: nat, io: Io)
    requires Inv(s) && k in s.ios && Local(io, InQueue(s, k))
    requires io.isRead == s.ios[k].isRead && io.live == s.ios[k].live
    requires io.buffer == s.ios[k].buffer && io.transferred == s.ios[k].transferred
    requires io.state == s.ios[k].state || Front(s, k)
    ensures Inv(Put(s, k, io))
  {
    hide RecordsOk, QueueOk, BytesOk, Local, Live;
    About(s, k);
    PutRecords(s.ios, s.next, s.readers, s.writers, k, io);
    PutQueue(s.ios, s.readers, true, s.connected, k, io);
    PutQueue(s.ios, s.writers, false, s.connected, k, io);
    PutBytes(s.ios, s.readers, s.readLog, s.inBytes, true, k, io);
    PutBytes(s.ios, s.writers, s.writeLog, s.outBytes, false, k, io);
    LiveSame(s.ios, k, io);
  }

  /** `k` may be first in its queue, but not behind another descriptor. */
  predicate Front(s: Sock, k: nat) {
    (k in s.readers ==> s.readers[0] == k) && (k in s.writers ==> s.writers[0] == k)
  }

  lemma WantOk(s: Sock, isRead: bool, on: bool)
    requires Inv(s) && (on || Queue(s, isRead) == [])
    ensures Inv(SetWant(s, isRead, on))
  {
  }

  lemma RwNewOk(s: Sock, isRead: bool, buffer: seq<Byte>)
    requires Inv(s) && s.refCount > 0
    ensures Inv(RwNew(s, isRead, buffer))
  {
    hide RecordsOk, QueueOk, BytesOk;
    var t, k := RwNew(s, isRead, buffer), s.next;
    AboutNext(s);
    assert k !in s.ios;
    assert Live(t.ios) == Live(s.ios) + {k};
    NewRecords(s.ios, s.next, s.readers, s.writers, t.ios[k]);
    PutQueue(s.ios, s.readers, true, s.connected, k, t.ios[k]);
    PutQueue(s.ios, s.writers, false, s.connected, k, t.ios[k]);
    PutBytes(s.ios, s.readers, s.readLog, s.inBytes, true, k, t.ios[k]);
    PutBytes(s.ios, s.writers, s.writeLog, s.outBytes, false, k, t.ios[k]);
  }

  lemma NewRecords(ios: Ios, next: nat, readers: seq<nat>, writers: seq<nat>, io: Io)
    requires RecordsOk(ios, next, readers, writers) && Local(io, next in readers || next in writers)
    ensures RecordsOk(ios[next := io], next + 1, readers, writers)
  {
  }

  /** A descriptor that nobody has been told about yet. */
  predicate Untold(io: Io, isRead: bool) {
    io.isRead == isRead && io.transferred == 0 && io.state == Queued && io.refCount == 1 && io.live &&
    io.notes == [] && io.clientRefs == 0 && io.held == 1
  }

  lemma AppendOk(s: Sock, isRead: bool, k: nat)
    requires Inv(s) && s.connected && k in s.ios && Untold(s.ios[k], isRead) && !InQueue(s, k) && k >= s.since
    requires forall j | j in Queue(s, isRead) :: j < k
    requires forall j | j in Log(s, isRead) :: j < k
    ensures Inv(SetWant(Append(s, isRead, k), isRead, true))
  {
    hide RecordsOk, QueueOk, BytesOk, Local, Live;
    About(s, k);
    AppendLocal(s.ios[k], isRead);
    AboutNext(s);
    var io := s.ios[k].(held := 0, accepted := true);
    LiveSame(s.ios, k, io);
    AppendQueue(s.ios, Queue(s, isRead), isRead, k, io);
    AppendBytes(s.ios, Queue(s, isRead), Log(s, isRead), Moves(s, isRead), isRead, k, io);
    PutQueue(s.ios, Queue(s, !isRead), !isRead, true, k, io);
    PutBytes(s.ios, Queue(s, !isRead), Log(s, !isRead), Moves(s, !isRead), !isRead, k, io);
    AppendRecords(s.ios, s.next, Queue(s, isRead), Queue(s, !isRead), k, io);
    var t := Append(s, isRead, k);
    SwapRecords(t.ios, s.next, Queue(t, isRead), Queue(t, !isRead));
  }

  lemma AppendLocal(io: Io, isRead: bool)
    requires Untold(io, isRead) && Local(io, false)
    ensures Local(io.(held := 0, accepted := true), true)
  {
  }

  lemma SwapRecords(ios: Ios, next: nat, a: seq<nat>, b: seq<nat>)
    requires RecordsOk(ios, next, a, b)
    ensures RecordsOk(ios, next, b, a)
  {
  }

  lemma AppendRecords(ios: Ios, next: nat, q: seq<nat>, other: seq<nat>, k: nat, io: Io)
    requires RecordsOk(ios, next, q, other) || RecordsOk(ios, next, other, q)
    requires k < next && Local(io, true)
    ensures RecordsOk(ios[k := io], next, q + [k], other)
  {
    assert (q + [k])[|q|] == k;
  }

  lemma AppendIncreasing(q: seq<nat>, k: nat)
    requires Increasing(q) && forall j | j in q :: j < k
    ensures Increasing(q + [k])
  {
    forall i, j | 0 <= i < j < |q + [k]|
      ensures (q + [k])[i] < (q + [k])[j]
    {
      assert q[i] in q;
    }
  }

  lemma AppendQueue(ios: Ios, q: seq<nat>, isRead: bool, k: nat, io: Io)
    requires QueueOk(ios, q, isRead, true) && io.isRead == isRead && io.state == Queued
    requires forall j | j in q :: j < k
    ensures QueueOk(ios[k := io], q + [k], isRead, true)
  {
    AppendIncreasing(q, k);
    assert (q + [k])[0] == if q == [] then k else q[0];
    assert forall j | j in q + [k] :: j in q || j == k;
  }

  lemma AppendLog(ios: Ios, q: seq<nat>, log: seq<nat>, isRead: bool, k: nat, io: Io)
    requires LogOk(ios, q, log, isRead) && io.isRead == isRead && io.transferred == 0
    requires forall j | j in log :: j < k
    ensures LogOk(ios[k := io], q + [k], log + [k], isRead)
  {
    AppendIncreasing(log, k);
    assert (q + [k])[0] == if q == [] then k else q[0];
    assert forall j | j in log + [k] :: j in log || j == k;
    assert (log + [k])[|log|] == k;
  }

  lemma AppendBytes(ios: Ios, q: seq<nat>, log: seq<nat>, moved: seq<Byte>, isRead: bool, k: nat, io: Io)
    requires BytesOk(ios, q, log, moved, isRead) && io.isRead == isRead && io.transferred == 0
    requires forall j | j in log :: j < k
    ensures BytesOk(ios[k := io], q + [k], log + [k], moved, isRead)
  {
    AppendLog(ios, q, log, isRead, k, io);
    FlatSame(ios, ios[k := io], log);
    FlatSnoc(ios[k := io], log, k);
  }

  lemma FlatSnoc(ios: Ios, log: seq<nat>, k: nat)
    requires k in ios && ios[k].transferred == 0
    ensures Flat(ios, log + [k]) == Flat(ios, log)
  {
    assert (log + [k])[..|log|] == log;
  }

  lemma UnlinkOk(s: Sock, isRead: bool, i: nat)
    requires Inv(s) && i < |Queue(s, isRead)|
    ensures Inv(Unlink(s, isRead, i))
  {
    hide Current, Stranded, RecordsOk, QueueOk, BytesOk, Local, Increasing, Live;
    var q, k, other := Queue(s, isRead), Queue(s, isRead)[i], Queue(s, !isRead);
    QueuedAre(s, isRead);
    About(s, k);
    var r := q[..i] + q[i + 1..];
    var io := s.ios[k].(held := s.ios[k].held + 1);
    UnlinkLocal(s.ios[k]);
    UnlinkMembers(q, i);
    LiveSame(s.ios, k, io);
    UnlinkRecords(s.ios, s.next, q, r, other, k, io);
    UnlinkQueue(s.ios, s.next, s.readers, s.writers, q, i, isRead, s.connected, io);
    UnlinkBytes(s.ios, q, i, Log(s, isRead), Moves(s, isRead), isRead, io);
    UnlinkEnds(q, i, s.since);
    PutQueue(s.ios, other, !isRead, s.connected, k, io);
    PutBytes(s.ios, other, Log(s, !isRead), Moves(s, !isRead), !isRead, k, io);
    SwapRecords(s.ios[k := io], s.next, r, other);
  }

  lemma UnlinkLocal(io: Io)
    requires Local(io, true)
    ensures Local(io.(held := io.held + 1), false)
  {
  }

  lemma UnlinkInQueue(s: Sock, isRead: bool, i: nat, j: nat)
    requires Inv(s) && i < |Queue(s, isRead)|
    ensures InQueue(Unlink(s, isRead, i), j) <==> InQueue(s, j) && j != Queue(s, isRead)[i]
  {
    QueuedAre(s, isRead);
    About(s, Queue(s, isRead)[i]);
    hide RecordsOk, QueueOk, BytesOk, Local, Increasing;
    UnlinkMembers(Queue(s, isRead), i);
  }

  lemma UnlinkMembers(q: seq<nat>, i: nat)
    requires Increasing(q) && i < |q|
    ensures Increasing(q[..i] + q[i + 1..])
    ensures q[i] !in q[..i] + q[i + 1..]
    ensures forall j | j != q[i] :: j in q[..i] + q[i + 1..] <==> j in q
  {
    var r := q[..i] + q[i + 1..];
    forall j | j != q[i]
      ensures j in r <==> j in q
    {
      if j in q {
        var n :| 0 <= n < |q| && q[n] == j;
        assert r[if n < i then n else n - 1] == j;
      }
    }
  }

  lemma UnlinkEnds(q: seq<nat>, i: nat, since: nat)
    requires Increasing(q) && i < |q|
    ensures var r := q[..i] + q[i + 1..];
            (Current(r, since) ==> Current(q, since)) && (Stranded(r, since) ==> Stranded(q, since))
  {
    var r := q[..i] + q[i + 1..];
    if r != [] {
      assert r[0] == q[if i == 0 then 1 else 0];
      assert r[|r| - 1] == q[if i == |r| then |r| - 1 else |r|];
    }
  }

  lemma UnlinkRecords(ios: Ios, next: nat, q: seq<nat>, r: seq<nat>, other: seq<nat>, k: nat, io: Io)
    requires RecordsOk(ios, next, q, other) || RecordsOk(ios, next, other, q)
    requires k < next && Local(io, false) && k !in r && k !in other
    requires forall j | j != k :: j in r <==> j in q
    ensures RecordsOk(ios[k := io], next, r, other)
  {
  }

  lemma UnlinkQueue(ios: Ios, next: nat, readers: seq<nat>, writers: seq<nat>,
                    q: seq<nat>, i: nat, isRead: bool, connected: bool, io: Io)
    requires QueueOk(ios, q, isRead, connected) && i < |q| && RecordsOk(ios, next, readers, writers)
    ensures QueueOk(ios[q[i] := io], q[..i] + q[i + 1..], isRead, connected)
  {
    UnlinkMembers(q, i);
    var r := q[..i] + q[i + 1..];
    if r != [] {
      assert r[0] == q[if i == 0 then 1 else 0];
    }
  }

  lemma UnlinkBytes(ios: Ios, q: seq<nat>, i: nat, log: seq<nat>, moved: seq<Byte>, isRead: bool, io: Io)
    requires BytesOk(ios, q, log, moved, isRead) && i < |q| && Increasing(q)
    requires io.isRead == isRead && io.buffer == ios[q[i]].buffer && io.transferred == ios[q[i]].transferred
    ensures BytesOk(ios[q[i] := io], q[..i] + q[i + 1..], log, moved, isRead)
  {
    UnlinkMembers(q, i);
    var r := q[..i] + q[i + 1..];
    if r != [] {
      assert r[0] == q[if i == 0 then 1 else 0];
    }
    FlatSame(ios, ios[q[i] := io], log);
  }

  lemma LiveSame(ios: Ios, k: nat, io: Io)
    requires k in ios && ios[k].live == io.live
    ensures Live(ios[k := io]) == Live(ios)
  {
  }

  lemma LiveLess(ios: Ios, k: nat, io: Io)
    requires k in ios && ios[k].live && !io.live
    ensures |Live(ios[k := io])| == |Live(ios)| - 1
  {
    assert Live(ios[k := io]) == Live(ios) - {k};
  }

  /** The last notification, and the end of the descriptor. */
  lemma BuryOk(s: Sock, k: nat, note: Note)
    requires Inv(s) && k in s.ios && s.ios[k].live && s.ios[k].refCount == 0 && note.event == Finished
    ensures Inv(Bury(Put(s, k, s.ios[k].(notes := s.ios[k].notes + [note])), k))
  {
    hide RecordsOk, QueueOk, BytesOk, Local, Increasing, Live;
    About(s, k);
    var io := s.ios[k];
    var dead := io.(notes := io.notes + [note], live := false, timerOn := false);
    BuryLocal(io, InQueue(s, k), note);
    BuryRecord(s, k, note);
    PutRecords(s.ios, s.next, s.readers, s.writers, k, dead);
    PutQueue(s.ios, s.readers, true, s.connected, k, dead);
    PutQueue(s.ios, s.writers, false, s.connected, k, dead);
    PutBytes(s.ios, s.readers, s.readLog, s.inBytes, true, k, dead);
    PutBytes(s.ios, s.writers, s.writeLog, s.outBytes, false, k, dead);
    LiveLess(s.ios, k, dead);
  }

  lemma BuryRecord(s: Sock, k: nat, note: Note)
    requires k in s.ios
    ensures Bury(Put(s, k, s.ios[k].(notes := s.ios[k].notes + [note])), k)
         == Put(s, k, s.ios[k].(notes := s.ios[k].notes + [note], live := false, timerOn := false)).(held := s.held + 1)
  {
    var told := s.ios[k].(notes := s.ios[k].notes + [note]);
    var dead := told.(live := false, timerOn := false);
    assert s.ios[k := told][k := dead] == s.ios[k := dead];
  }

  lemma BuryLocal(io: Io, queued: bool, note: Note)
    requires Local(io, queued) && io.live && io.refCount == 0 && note.event == Finished
    ensures Local(io.(notes := io.notes + [note], live := false, timerOn := false), queued)
  {
    PhaseSnoc(io.notes, note, io.accepted, |io.buffer|, io.kept);
  }

  lemma CloseOk(s: Sock)
    requires Inv(s)
    requires s.readers != [] ==> s.ios[s.readers[0]].transferred == 0
    requires s.writers != [] ==> s.ios[s.writers[0]].transferred == 0
    ensures Inv(Close(s))
  {
    CloseQueue(s.ios, s.readers, true, s.connected);
    CloseQueue(s.ios, s.writers, false, s.connected);
    CloseAwake(s);
    hide RecordsOk, QueueOk, BytesOk, CountOk, Awake;
  }

  lemma CloseQueue(ios: Ios, q: seq<nat>, isRead: bool, connected: bool)
    requires QueueOk(ios, q, isRead, connected) && (q != [] ==> ios[q[0]].transferred == 0)
    ensures QueueOk(ios, q, isRead, false)
  {
  }

  /** What is queued was queued before the connection is closed. */
  lemma CloseAwake(s: Sock)
    requires Inv(s)
    ensures Awake(Close(s))
  {
    AboutNext(s);
    NoneSince(s.readers, s.next);
    NoneSince(s.writers, s.next);
    hide Inv, Current, Awake;
    ClosedAwake(s);
  }

  lemma NoneSince(q: seq<nat>, next: nat)
    requires forall k | k in q :: k < next
    ensures !Current(q, next)
  {
    assert q != [] ==> q[|q| - 1] in q;
  }

  lemma ClosedAwake(s: Sock)
    requires Awake(s) && !Current(s.readers, s.next) && !Current(s.writers, s.next)
    ensures Awake(Close(s))
  {
    hide Current;
  }

  /** The first descriptor of a queue moves bytes. */
  lemma TransferOk(s: Sock, isRead: bool, k: nat, io: Io, chunk: seq<Byte>)
    requires Inv(s) && s.connected && Queue(s, isRead) != [] && Queue(s, isRead)[0] == k
    requires k in s.ios && s.ios[k].held > 0 && s.ios[k].state != Queued
    requires io == s.ios[k].(buffer := io.buffer, transferred := io.transferred)
    requires |io.buffer| == |s.ios[k].buffer| && io.transferred <= |io.buffer|
    requires Slice(io) == Slice(s.ios[k]) + chunk
    ensures Inv(Gained(s, isRead, k, io, chunk))
  {
    hide RecordsOk, QueueOk, BytesOk, Local, Increasing, Live, Slice;
    QueuedAre(s, isRead);
    About(s, k);
    TransferLocal(s.ios[k], io, InQueue(s, k));
    LiveSame(s.ios, k, io);
    PutRecords(s.ios, s.next, s.readers, s.writers, k, io);
    TransferQueue(s.ios, Queue(s, isRead), isRead, k, io);
    TransferBytes(s.ios, Queue(s, isRead), Log(s, isRead), Moves(s, isRead), isRead, k, io, chunk);
    TransferOther(s, !isRead, k, io);
  }

  /** The effect of a transfer, without how a buffer changes. */
  function Gained(s: Sock, isRead: bool, k: nat, io: Io, chunk: seq<Byte>): Sock {
    if isRead then Put(s, k, io).(inBytes := s.inBytes + chunk) else Put(s, k, io).(outBytes := s.outBytes + chunk)
  }

  lemma TransferLocal(io: Io, moved: Io, queued: bool)
    requires Local(io, queued) && io.held > 0 && io.state != Queued
    requires moved == io.(buffer := moved.buffer, transferred := moved.transferred)
    requires |moved.buffer| == |io.buffer| && moved.transferred <= |moved.buffer|
    ensures Local(moved, queued)
  {
  }

  lemma TransferQueue(ios: Ios, q: seq<nat>, isRead: bool, k: nat, io: Io)
    requires QueueOk(ios, q, isRead, true) && q != [] && k == q[0] && io.isRead == isRead
    ensures QueueOk(ios[k := io], q, isRead, true)
  {
  }

  lemma TransferBytes(ios: Ios, q: seq<nat>, log: seq<nat>, moved: seq<Byte>, isRead: bool, k: nat, io: Io, chunk: seq<Byte>)
    requires BytesOk(ios, q, log, moved, isRead) && q != [] && q[0] == k && k in ios && io.isRead == isRead
    requires Slice(io) == Slice(ios[k]) + chunk
    ensures BytesOk(ios[k := io], q, log, moved + chunk, isRead)
  {
    FlatGrow(ios, ios[k := io], log, k, chunk);
  }

  /** Descriptors of the other direction: `k` is neither in their queue nor in their log. */
  lemma TransferOther(s: Sock, isRead: bool, k: nat, io: Io)
    requires QueueOk(s.ios, Queue(s, isRead), isRead, true) && BytesOk(s.ios, Queue(s, isRead), Log(s, isRead), Moves(s, isRead), isRead)
    requires k in s.ios && s.ios[k].isRead != isRead
    ensures QueueOk(s.ios[k := io], Queue(s, isRead), isRead, true)
    ensures BytesOk(s.ios[k := io], Queue(s, isRead), Log(s, isRead), Moves(s, isRead), isRead)
  {
    FlatSame(s.ios, s.ios[k := io], Log(s, isRead));
  }
}
