/** The cancellation loops: what they leave of the descriptors that were queued. */
module AsyncSocketCancel {
  import opened AsyncIoCommon
  import opened AsyncSocketSpec
  import opened AsyncSocketInvariant
  import opened AsyncSocketCallbacks

  /** The descriptor had its ending; code that ran when it was cancelled still refers to it. */
  predicate Over(a: Io, b: Io) {
    && b.held == a.held && b.isRead == a.isRead && b.buffer == a.buffer && b.transferred == a.transferred
    && Stage(b) in {Settled, Gone} && HeardLast(a.notes, Cancelled, a.transferred, b)
    && (a.held == 0 ==> Stable(b))
    && (a.held > 0 ==> b.live)
  }

  lemma OverEvolves(a: Io, b: Io, c: Io)
    requires Over(a, b) && Evolves(b, c)
    ensures Over(a, c)
  {
    hide Stage;
  }

  lemma EvolvesOver(a: Io, b: Io, c: Io)
    requires Evolves(a, b) && Active(Stage(b)) && Over(b, c)
    ensures Over(a, c)
  {
    hide Stage;
  }

  predicate ActiveQueue(s: Sock, isRead: bool) {
    forall k | k in Queue(s, isRead) :: k in s.ios && Active(Stage(s.ios[k]))
  }

  /** The first descriptor of a queue was cancelled. */
  predicate FirstGone(s: Sock, r: Sock, isRead: bool, k: nat) {
    && s.next <= r.next && r.held == s.held && SameConnection(s, r)
    && IosGrow(s.ios, r.ios, Some(k)) && k in s.ios && k in r.ios && Over(s.ios[k], r.ios[k])
    && Queue(s, isRead) != []
    && QueueGrows(Queue(s, isRead)[1..], Queue(r, isRead), s.next)
    && QueueGrows(Queue(s, !isRead), Queue(r, !isRead), s.next)
  }

  /** Every descriptor of a queue was cancelled, also those that were put in it meanwhile. */
  predicate Cancels(s: Sock, r: Sock, isRead: bool) {
    && s.next <= r.next && r.held == s.held && SameConnection(s, r)
    && Queue(r, isRead) == [] && QueueGrows(Queue(s, !isRead), Queue(r, !isRead), s.next)
    && (forall k | k in s.ios :: k in r.ios && (if k in Queue(s, isRead) then Over(s.ios[k], r.ios[k]) else Evolves(s.ios[k], r.ios[k])))
    && (forall k | k in r.ios && k !in s.ios :: Stable(r.ios[k]) && r.ios[k].transferred == 0)
  }

  lemma CancelFits(io: Io)
    requires Local(io, true) && Active(Stage(io))
    ensures Fits(io.(held := io.held + 1, timerOn := false), Cancelled)
  {
  }

  lemma CancelledAtRest(s: Sock, u: Sock, k: nat, a: Action)
    requires Inv(s) && Notified(s, u, k, Cancelled, a) && !InQueue(s, k) && Active(Stage(s.ios[k])) && s.ios[k].accepted
    ensures AtRest(u.ios[k], InQueue(u, k)) && Stage(u.ios[k]) == Settled && u.ios[k].held == s.ios[k].held && u.ios[k].live == s.ios[k].live
  {
    hide Inv, Grows, SameConnection, InQueue, PhaseOf;
    GrowsInQueue(s, u, Some(k), k);
    CancelledIs(s.ios[k], u.ios[k], a);
  }

  lemma CancelledIs(io: Io, u: Io, a: Action)
    requires Active(Stage(io)) && io.accepted && u.live && Evolves(io, u.(notes := io.notes))
    requires Stage(u) == After(Stage(io), Note(Cancelled, a, io.transferred), io.accepted, |io.buffer|, io.kept)
    ensures AtRest(u, false) && Stage(u) == Settled && u.held == io.held && u.live == io.live
  {
    hide Stage;
  }

  lemma DroppedOver(a: Io, u: Io, b: Io, x: Action)
    requires Local(a, true) && u.held == a.held + 1 && u.isRead == a.isRead && u.buffer == a.buffer && u.transferred == a.transferred
    requires Stage(u) == Settled && u.live && Local(u, false) && Local(b, false)
    requires b.isRead == u.isRead && b.buffer == u.buffer && b.transferred == u.transferred
    requires if u.refCount > 1 then b == Dropped(u) else !b.live
    requires u.notes == a.notes + [Note(Cancelled, x, a.transferred)] && Heard(u.notes, b)
    ensures Over(a, b)
  {
  }

  lemma UnlinkShape(s: Sock, isRead: bool)
    requires Queue(s, isRead) != [] && Queue(s, isRead)[0] in s.ios
    ensures var k := Queue(s, isRead)[0];
            var t := StopIoTimer(Unlink(s, isRead, 0), k);
            t.ios == s.ios[k := s.ios[k].(held := s.ios[k].held + 1, timerOn := false)]
            && Queue(t, isRead) == Queue(s, isRead)[1..] && Queue(t, !isRead) == Queue(s, !isRead)
            && t.next == s.next && t.held == s.held && SameConnection(s, t) && t.tape == s.tape
            && (InQueue(t, k) <==> InQueue(Unlink(s, isRead, 0), k))
  {
    var k, q := Queue(s, isRead)[0], Queue(s, isRead);
    assert q[..0] + q[1..] == q[1..];
    var io := s.ios[k].(held := s.ios[k].held + 1);
    assert s.ios[k := io][k := io.(timerOn := false)] == s.ios[k := io.(timerOn := false)];
  }

  lemma UnlinkGrows(s: Sock, isRead: bool)
    requires Inv(s) && Queue(s, isRead) != []
    ensures var k := Queue(s, isRead)[0];
            var t := StopIoTimer(Unlink(s, isRead, 0), k);
            Inv(t) && k in s.ios && Local(s.ios[k], true) && s.ios[k].live && !InQueue(t, k) && k in t.ios && t.ios[k].held > 0
  {
    hide Inv, Local, Called, Increasing, StopIoTimer, SameConnection;
    var k := Queue(s, isRead)[0];
    QueuedAre(s, isRead);
    About(s, k);
    UnlinkShape(s, isRead);
    UnlinkOk(s, isRead, 0);
    UnlinkInQueue(s, isRead, 0, k);
    UnlinkKeeps(s, isRead);
    HeldMore(s.ios[k]);
    hide Unlink;
    StopOk(Unlink(s, isRead, 0), k);
  }

  lemma HeldMore(io: Io)
    requires Local(io, true)
    ensures io.held + 1 > 0
  {
  }

  lemma UnlinkKeeps(s: Sock, isRead: bool)
    requires Queue(s, isRead) != []
    ensures Queue(s, isRead)[0] in Unlink(s, isRead, 0).ios
  {
  }

  lemma {:induction false} CancelFirst(s: Sock, isRead: bool)
    requires Inv(s) && s.held > 0 && Queue(s, isRead) != [] && ActiveQueue(s, isRead)
    ensures var k := Queue(s, isRead)[0];
            var u := Notify(StopIoTimer(Unlink(s, isRead, 0), k), k, Cancelled).0;
            Inv(IoRelease(u, k)) && FirstGone(s, IoRelease(u, k), isRead, k)
            && Inv(u) && k in u.ios && u.ios[k].live && u.ios[k].held > 0 && AtRest(u.ios[k], InQueue(u, k))
  {
    hide Inv, Local, Stage, SameConnection, Notify, IoRelease, Unlink, StopIoTimer, IosGrow, QueueGrows, Over, Evolves, Fits, AtRest, Accepts;
    var k := Queue(s, isRead)[0];
    UnlinkGrows(s, isRead);
    UnlinkShape(s, isRead);
    var t := StopIoTimer(Unlink(s, isRead, 0), k);
    CancelFits(s.ios[k]);
    NotifyOk(t, k, Cancelled);
    var (u, a) := Notify(t, k, Cancelled);
    UnlinkedStage(s.ios[k], t.ios[k]);
    CancelledAtRest(t, u, k, a);
    IoReleaseOk(u, k);
    var v := IoRelease(u, k);
    FirstOver(s, t, u, v, k, a);
    FirstFrame(s, t, u, v, isRead, k, a);
  }

  lemma UnlinkedStage(a: Io, b: Io)
    requires b == a.(held := b.held, timerOn := b.timerOn)
    ensures Stage(b) == Stage(a) && (Local(a, true) ==> a.accepted && a.held >= 0)
  {
  }

  lemma FirstOver(s: Sock, t: Sock, u: Sock, v: Sock, k: nat, a: Action)
    requires k in s.ios && k in t.ios && Local(s.ios[k], true) && !InQueue(t, k) && Inv(t) && Inv(u) && Inv(v)
    requires t.ios[k] == s.ios[k].(held := s.ios[k].held + 1, timerOn := false)
    requires Notified(t, u, k, Cancelled, a) && Stage(u.ios[k]) == Settled && Released(u, v, k)
    ensures Over(s.ios[k], v.ios[k])
  {
    GrowsInQueue(t, u, Some(k), k);
    GrowsInQueue(u, v, Some(k), k);
    About(u, k);
    About(v, k);
    hide Inv, Local, Grows, SameConnection, Over, Heard;
    DroppedOver(s.ios[k], u.ios[k], v.ios[k], a);
  }

  lemma FirstFrame(s: Sock, t: Sock, u: Sock, v: Sock, isRead: bool, k: nat, a: Action)
    requires k in s.ios && t.ios == s.ios[k := At(t, k)] && t.next == s.next && t.held == s.held && SameConnection(s, t) && s.held > 0
    requires Queue(s, isRead) != [] && Queue(t, isRead) == Queue(s, isRead)[1..] && Queue(t, !isRead) == Queue(s, !isRead)
    requires Notified(t, u, k, Cancelled, a) && Released(u, v, k) && Over(s.ios[k], v.ios[k])
    ensures FirstGone(s, v, isRead, k)
  {
    hide Over, Evolves, Stable, SameConnection, Grows;
    FirstKept(t, u, v, k, a);
    GrowsTrans(t, u, v, Some(k));
    SameTrans(t, u, v);
    SameTrans(s, t, v);
    FirstGrows(s, t, v, isRead, k);
  }

  lemma FirstKept(t: Sock, u: Sock, v: Sock, k: nat, a: Action)
    requires Notified(t, u, k, Cancelled, a) && Released(u, v, k) && t.held > 0
    ensures Grows(t, u, Some(k)) && Grows(u, v, Some(k)) && SameConnection(t, u) && SameConnection(u, v)
    ensures k in t.ios && k in v.ios
  {
    hide IosGrow, QueueGrows, SameConnection, Evolves;
  }

  lemma FirstGrows(s: Sock, t: Sock, v: Sock, isRead: bool, k: nat)
    requires k in s.ios && t.ios == s.ios[k := At(t, k)] && t.next == s.next && t.held == s.held && SameConnection(s, v)
    requires Queue(s, isRead) != [] && Queue(t, isRead) == Queue(s, isRead)[1..] && Queue(t, !isRead) == Queue(s, !isRead)
    requires Grows(t, v, Some(k)) && k in v.ios && Over(s.ios[k], v.ios[k])
    ensures FirstGone(s, v, isRead, k)
  {
    hide Over, Evolves, Stable, SameConnection, QueueGrows;
  }

  // ----- whole queues ---------------------------------------------------------------------

  lemma {:induction false} CancelQueueOk(s: Sock, isRead: bool)
    requires Inv(s) && s.held > 0 && ActiveQueue(s, isRead)
    ensures Inv(CancelQueue(s, isRead)) && Cancels(s, CancelQueue(s, isRead), isRead)
    decreases |s.tape|, QueueSize(s), 2
  {
    hide Inv, Stage, SameConnection, Notify, IoRelease, Unlink, StopIoTimer, FirstGone, Cancels;
    if Queue(s, isRead) == [] {
      CancelsNone(s, isRead);
    } else {
      var k := Queue(s, isRead)[0];
      CancelFirst(s, isRead);
      QueuedAre(s, isRead);
      UnlinkShape(s, isRead);
      var t := StopIoTimer(Unlink(s, isRead, 0), k);
      var u := Notify(t, k, Cancelled).0;
      var v := IoRelease(u, k);
      FirstGoneActive(s, v, isRead, k);
      CancelQueueOk(v, isRead);
      CancelsTrans(s, v, CancelQueue(v, isRead), isRead, k);
    }
  }

  lemma CancelsNone(s: Sock, isRead: bool)
    requires Queue(s, isRead) == []
    ensures Cancels(s, s, isRead)
  {
    EvolvesRefl(s);
    hide Evolves;
  }

  lemma FirstNotAgain(s: Sock, isRead: bool)
    requires Inv(s) && Queue(s, isRead) != []
    ensures forall j | j in Queue(s, isRead)[1..] :: j != Queue(s, isRead)[0] && j in Queue(s, isRead)
  {
    hide RecordsOk, BytesOk, CountOk, Awake;
  }

  lemma FirstGoneActive(s: Sock, v: Sock, isRead: bool, k: nat)
    requires Inv(s) && Inv(v) && ActiveQueue(s, isRead) && FirstGone(s, v, isRead, k) && Queue(s, isRead)[0] == k
    ensures ActiveQueue(v, isRead) && v.held == s.held && k !in Queue(v, isRead)
  {
    hide Inv, Stage, Over, SameConnection, Evolves;
    AboutNext(s);
    FirstNotAgain(s, isRead);
    QueuedAre(s, isRead);
    QueuedAre(v, isRead);
    forall j | j in Queue(v, isRead)
      ensures j in v.ios && Active(Stage(v.ios[j])) && j != k
    {
      if j !in s.ios {
        StableActive(v, j);
      } else {
        assert j in Queue(s, isRead)[1..];
        EvolvesStage(s.ios[j], v.ios[j]);
      }
    }
  }

  lemma EvolvesStage(a: Io, b: Io)
    requires Evolves(a, b) && b.live
    ensures a.live && Stage(b) == Stage(a)
  {
    hide Stage;
  }

  lemma StableActive(s: Sock, j: nat)
    requires Inv(s) && InQueue(s, j) && j in s.ios && s.ios[j].held == 0
    ensures Active(Stage(s.ios[j]))
  {
    About(s, j);
  }

  lemma CancelsTrans(s: Sock, v: Sock, r: Sock, isRead: bool, k: nat)
    requires Inv(s) && FirstGone(s, v, isRead, k) && Queue(s, isRead)[0] == k && k !in Queue(v, isRead)
    requires Cancels(v, r, isRead) && ActiveQueue(v, isRead)
    ensures Cancels(s, r, isRead)
  {
    hide Inv, Over, Stable, SameConnection, Evolves, Stage;
    AboutNext(s);
    SameTrans(s, v, r);
    forall j | j in s.ios
      ensures j in r.ios && (if j in Queue(s, isRead) then Over(s.ios[j], r.ios[j]) else Evolves(s.ios[j], r.ios[j]))
    {
      FirstInQueue(s, v, isRead, k, j);
      if j == k {
        OverEvolves(s.ios[j], v.ios[j], r.ios[j]);
      } else if j in Queue(s, isRead) {
        EvolvesOver(s.ios[j], v.ios[j], r.ios[j]);
      } else {
        EvolvesTrans(s.ios[j], v.ios[j], r.ios[j]);
      }
    }
    forall j | j in r.ios && j !in s.ios
      ensures Stable(r.ios[j]) && r.ios[j].transferred == 0
    {
      if j in v.ios {
        CancelsStable(v, r, isRead, j);
      }
    }
  }

  /** What is at rest is so after cancellation, too. */
  lemma CancelsStable(s: Sock, r: Sock, isRead: bool, j: nat)
    requires Cancels(s, r, isRead) && j in s.ios && Stable(s.ios[j])
    ensures Stable(r.ios[j]) && r.ios[j].transferred == s.ios[j].transferred
  {
    hide Over, Stable, SameConnection, Evolves;
    if j in Queue(s, isRead) {
      OverStable(s.ios[j], r.ios[j]);
    } else {
      EvolvesStable(s.ios[j], r.ios[j]);
      EvolvesMoves(s.ios[j], r.ios[j]);
    }
  }

  lemma OverStable(a: Io, b: Io)
    requires Stable(a) && Over(a, b)
    ensures Stable(b) && b.transferred == a.transferred
  {
  }

  lemma FirstInQueue(s: Sock, v: Sock, isRead: bool, k: nat, j: nat)
    requires Inv(s) && FirstGone(s, v, isRead, k) && Queue(s, isRead)[0] == k && j in s.ios
    ensures j in Queue(v, isRead) <==> j in Queue(s, isRead) && j != k
  {
    hide Inv, Over, SameConnection, IosGrow;
    AboutNext(s);
    FirstNotAgain(s, isRead);
    var q, r := Queue(s, isRead), Queue(v, isRead);
    if j in q && j != k {
      var i :| 0 <= i < |q| && q[i] == j;
      assert q[1..][i - 1] == j;
      assert r[i - 1] == j;
    }
  }

  /** Everything that was queued is over; only readers queued by cancelled writers are queued now. */
  predicate CancelsAll(s: Sock, r: Sock) {
    && s.next <= r.next && r.held == s.held && r.connected == s.connected && r.freed == s.freed
    && r.since == s.since && r.attempts == s.attempts && r.pass == NoPass && !r.orphaned && !r.reconnect && SameBytes(s, r)
    && r.writers == [] && (forall k | k in r.readers :: k in r.ios && k !in s.ios && k >= s.next)
    && (forall k | k in s.ios :: k in r.ios && (if InQueue(s, k) then Over(s.ios[k], r.ios[k]) else Evolves(s.ios[k], r.ios[k])))
    && (forall k | k in r.ios && k !in s.ios :: Stable(r.ios[k]) && r.ios[k].transferred == 0)
  }

  /** The loops as they run: interest is off, and they know which of them runs. */
  function Begin(s: Sock): Sock {
    SetWant(SetWant(s.(reconnect := false), false, false), true, false).(pass := ReadPass)
  }

  lemma BeginOk(s: Sock)
    requires Inv(s)
    ensures Inv(Begin(s)) && Begin(s).ios == s.ios && Begin(s).readers == s.readers && Begin(s).writers == s.writers
    ensures Begin(s).next == s.next && Begin(s).held == s.held && Begin(s).connected == s.connected
    ensures Begin(s).freed == s.freed && Begin(s).since == s.since && Begin(s).attempts == s.attempts
    ensures SameBytes(s, Begin(s)) && !Begin(s).reconnect
  {
    hide RecordsOk, QueueOk, BytesOk, CountOk;
  }

  lemma PassOk(s: Sock)
    requires Inv(s) && s.readers == []
    ensures Inv(s.(pass := WritePass))
  {
    hide RecordsOk, QueueOk, BytesOk, CountOk;
  }

  /** Nothing that is queued is older than the connection when the loops have ended. */
  lemma EndOk(s: Sock)
    requires Inv(s) && s.pass == WritePass && s.writers == [] && forall k | k in s.readers :: k >= s.since
    ensures Inv(s.(pass := NoPass, orphaned := false))
  {
    hide RecordsOk, QueueOk, BytesOk, CountOk, Awake;
    EndAwake(s);
  }

  lemma EndAwake(s: Sock)
    requires Awake(s) && s.pass == WritePass && s.writers == [] && forall k | k in s.readers :: k >= s.since
    ensures Awake(s.(pass := NoPass, orphaned := false))
  {
    assert s.readers != [] ==> s.readers[0] in s.readers;
  }

  lemma WritersActive(s: Sock, u: Sock)
    requires Inv(s) && Inv(u) && ActiveQueue(s, false) && Cancels(s, u, true)
    ensures ActiveQueue(u, false)
  {
    hide Inv, Stage, Over, SameConnection, Evolves;
    AboutNext(s);
    QueuedAre(s, true);
    QueuedAre(s, false);
    QueuedAre(u, false);
    forall j | j in u.writers
      ensures Active(Stage(u.ios[j]))
    {
      if j !in s.ios {
        StableActive(u, j);
      } else {
        assert j in s.writers;
        EvolvesStage(s.ios[j], u.ios[j]);
      }
    }
  }

  lemma CancelAllOk(s: Sock)
    requires Inv(s) && s.held > 0 && ActiveQueue(s, true) && ActiveQueue(s, false)
    ensures Inv(CancelAll(s)) && CancelsAll(s, CancelAll(s))
  {
    hide Inv, Stage, SameConnection, Cancels, CancelQueue, CancelAll, Begin, ActiveQueue;
    BeginOk(s);
    var t := Begin(s);
    BeginActive(s, t);
    CancelQueueOk(t, true);
    var w := CancelQueue(t, true);
    WritersActive(t, w);
    CancelsEmpty(t, w, true);
    PassOk(w);
    var u := w.(pass := WritePass);
    PassActive(w);
    CancelQueueOk(u, false);
    var v := CancelQueue(u, false);
    CancelsEmpty(u, v, false);
    CancelsNew(s, t, u, v);
    EndOk(v);
    CancelAllIs(s);
    BothCancel(s, t, w, v);
  }

  /** The readers that are queued at the end were queued while writers were cancelled. */
  lemma CancelsNew(s: Sock, t: Sock, u: Sock, v: Sock)
    requires t.next == s.next && t.since == s.since && Inv(s)
    requires Cancels(t, u.(pass := t.pass), true) && Cancels(u, v, false)
    ensures forall k | k in v.readers :: k >= s.next && k >= v.since
  {
    SinceNext(s);
    hide Inv, Over, Stable, Evolves;
  }

  lemma BeginActive(s: Sock, t: Sock)
    requires t.ios == s.ios && t.readers == s.readers && t.writers == s.writers && ActiveQueue(s, true) && ActiveQueue(s, false)
    ensures ActiveQueue(t, true) && ActiveQueue(t, false)
  {
  }

  lemma PassActive(s: Sock)
    requires ActiveQueue(s, false)
    ensures ActiveQueue(s.(pass := WritePass), false)
  {
  }

  lemma CancelAllIs(s: Sock)
    ensures CancelAll(s) == CancelQueue(CancelQueue(Begin(s), true).(pass := WritePass), false).(pass := NoPass, orphaned := false)
  {
    hide CancelQueue;
  }

  lemma CancelsEmpty(s: Sock, r: Sock, isRead: bool)
    requires Cancels(s, r, isRead)
    ensures Queue(r, isRead) == [] && r.held == s.held && r.pass == s.pass
  {
  }

  lemma BothCancel(s: Sock, t: Sock, u: Sock, v: Sock)
    requires Inv(s) && t.ios == s.ios && t.readers == s.readers && t.writers == s.writers && t.next == s.next && t.held == s.held
    requires t.connected == s.connected && t.freed == s.freed && t.since == s.since && t.attempts == s.attempts
    requires SameBytes(s, t) && !t.reconnect
    requires Cancels(t, u, true) && Cancels(u.(pass := WritePass), v, false) && Inv(v)
    requires ActiveQueue(u, false)
    requires forall k | k in v.readers :: k >= s.next
    ensures CancelsAll(s, v.(pass := NoPass, orphaned := false))
  {
    hide Inv, Over, Stable, Stage, Evolves;
    AboutNext(s);
    QueuedAre(s, true);
    QueuedAre(s, false);
    QueuedAre(v, true);
    var r := v.(pass := NoPass, orphaned := false);
    forall k | k in s.ios
      ensures k in r.ios && (if InQueue(s, k) then Over(s.ios[k], r.ios[k]) else Evolves(s.ios[k], r.ios[k]))
    {
      WritersKept(t, u, k);
      if k in s.readers {
        OverEvolves(s.ios[k], u.ios[k], r.ios[k]);
      } else if k in s.writers {
        EvolvesOver(s.ios[k], u.ios[k], r.ios[k]);
      } else {
        EvolvesTrans(s.ios[k], u.ios[k], r.ios[k]);
      }
    }
    forall k | k in r.ios && k !in s.ios
      ensures Stable(r.ios[k]) && r.ios[k].transferred == 0
    {
      if k in u.ios {
        CancelsStable(u.(pass := WritePass), v, false, k);
      }
    }
  }

  lemma WritersKept(s: Sock, u: Sock, k: nat)
    requires Cancels(s, u, true) && k in s.ios && k < s.next
    ensures k in u.writers <==> k in s.writers
  {
    if k in s.writers {
      var i :| 0 <= i < |s.writers| && s.writers[i] == k;
      assert u.writers[i] == k;
    }
  }

  // ----- the functions, one step unfolded -------------------------------------------------

  lemma CancelIs(s: Sock, isRead: bool)
    requires Queue(s, isRead) != []
    ensures var k := Queue(s, isRead)[0];
            CancelQueue(s, isRead)
            == CancelQueue(IoRelease(Notify(StopIoTimer(Unlink(s, isRead, 0), k), k, Cancelled).0, k), isRead)
  {
  }

  /** The states through which one round of the loop goes. */
  lemma CancelFirstIs(s: Sock, isRead: bool)
    requires Inv(s) && s.held > 0 && Queue(s, isRead) != [] && ActiveQueue(s, isRead)
    ensures var k := Queue(s, isRead)[0];
            var t := StopIoTimer(Unlink(s, isRead, 0), k);
            var u := Notify(t, k, Cancelled).0;
            var v := IoRelease(u, k);
            && Inv(t) && t.tape == s.tape && QueueSize(t) == QueueSize(s) - 1 && k in t.ios && t.ios[k].held > 0
            && Inv(u) && k in u.ios && u.ios[k].live && u.ios[k].held > 0 && AtRest(u.ios[k], InQueue(u, k))
            && Inv(v) && v.held > 0 && ActiveQueue(v, isRead) && CancelQueue(v, isRead) == CancelQueue(s, isRead)
  {
    hide Inv, ActiveQueue, AtRest, Local, FirstGone, InQueue, SameConnection;
    hide CancelQueue, Notify, IoRelease, Unlink, StopIoTimer;
    var k := Queue(s, isRead)[0];
    QueuedAre(s, isRead);
    CancelFirst(s, isRead);
    UnlinkGrows(s, isRead);
    UnlinkShape(s, isRead);
    CancelIs(s, isRead);
    FirstGoneActive(s, IoRelease(Notify(StopIoTimer(Unlink(s, isRead, 0), k), k, Cancelled).0, k), isRead, k);
  }

  /** What holds between the two loops. */
  lemma CancelSteps(s: Sock)
    requires (s.readers == [] && s.writers == []) || (Inv(s) && s.held > 0 && ActiveQueue(s, true) && ActiveQueue(s, false))
    ensures var t := Begin(s); var u := CancelQueue(t, true);
            && (Queue(t, true) == [] || (Inv(t) && t.held > 0 && ActiveQueue(t, true)))
            && (var w := u.(pass := WritePass); Queue(w, false) == [] || (Inv(w) && w.held > 0 && ActiveQueue(w, false)))
  {
    hide Inv, Stage, SameConnection, Cancels, Begin;
    if s.readers == [] && s.writers == [] {
      BeginQueues(s);
    } else {
      hide CancelQueue;
      BeginOk(s);
      var t := Begin(s);
      CancelQueueOk(t, true);
      WritersActive(t, CancelQueue(t, true));
      CancelsEmpty(t, CancelQueue(t, true), true);
      PassOk(CancelQueue(t, true));
    }
  }

  lemma BeginQueues(s: Sock)
    ensures Begin(s).readers == s.readers && Begin(s).writers == s.writers && Begin(s).tape == s.tape
  {
  }

  lemma EnqueueIs(s: Sock, isRead: bool, buffer: seq<Byte>)
    ensures var t := RwNew(s, isRead, buffer);
            Enqueue(s, isRead, buffer)
            == if s.connected then SetWant(Append(t, isRead, s.next), isRead, true) else IoRelease(Notify(t, s.next, Failed).0, s.next)
  {
  }

  lemma EnqueueSteps(s: Sock, isRead: bool, buffer: seq<Byte>, who: Option<nat>)
    requires Inv(s) && Anchored(s, who)
    ensures var t := RwNew(s, isRead, buffer); var u := Notify(t, s.next, Failed).0;
            && Inv(t) && s.refCount > 0 && QueueSize(t) == QueueSize(s) && t.tape == s.tape && t.connected == s.connected
            && (!s.connected ==> Inv(u) && s.next in u.ios && u.ios[s.next].live && u.ios[s.next].held == 1
                                 && AtRest(u.ios[s.next], InQueue(u, s.next)))
  {
    hide Inv, Notify, Fits, Local, Stage, Released, Notified, AtRest, Increasing;
    AnchorHolds(s, who);
    NoFault(s);
    RwNewOk(s, isRead, buffer);
    AboutNext(s);
    NewFits(s, isRead, buffer);
    var t, k := RwNew(s, isRead, buffer), s.next;
    NotifyOk(t, k, Failed);
    var (u, a) := Notify(t, k, Failed);
    Refused(t, u, k, a);
  }
}
