/**
 What a client can do to a socket from inside a callback, and what dropping references does: every
 function through which client code runs keeps the invariant and changes nothing it should not.
 */
module AsyncSocketCallbacks {
  import opened AsyncIoCommon
  import opened AsyncSocketSpec
  import opened AsyncSocketInvariant

  // ----- relations between the states before and after ------------------------------------

  /** A descriptor at rest: no running code refers to it, and it is alive only if referenced. */
  predicate Stable(io: Io) {
    io.held == 0 && (io.live ==> io.refCount > 0)
  }

  /**
   What callbacks do to a descriptor that the engine is not telling anything: its client takes and
   drops references and stops the timer.  It ends only if its client had the last reference.
   */
  predicate Evolves(a: Io, b: Io) {
    && b.isRead == a.isRead && b.buffer == a.buffer && b.transferred == a.transferred && b.state == a.state
    && b.accepted == a.accepted && b.held == a.held && (a.kept ==> b.kept) && (b.timerOn ==> a.timerOn)
    && if b.live == a.live then Lasts(a, b) else Dies(a, b)
  }

  predicate Lasts(a: Io, b: Io) {
    && b.notes == a.notes && Stage(b) == Stage(a) && b.refCount - b.clientRefs == a.refCount - a.clientRefs
    && (a.refCount <= 0 ==> b.refCount == a.refCount)
    && (b.live && a.refCount > 0 ==> b.refCount > 0)
  }

  predicate Dies(a: Io, b: Io) {
    && a.live && a.held == 0 && a.refCount > 0 && a.refCount == a.clientRefs && b.refCount == 0 && Stage(b) == Gone
    && Heard(a.notes, b)
  }

  /** The callback was told this, and that the descriptor is finished if it is. */
  predicate Heard(told: seq<Note>, io: Io) {
    if io.live then io.notes == told
    else |io.notes| == |told| + 1 && io.notes[..|told|] == told && io.notes[|told|].event == Finished
  }

  /** It heard of `event` last. */
  predicate HeardLast(told: seq<Note>, event: State, transferred: nat, io: Io) {
    exists b: Action :: Heard(told + [Note(event, b, transferred)], io)
  }

  lemma EvolvesTrans(a: Io, b: Io, c: Io)
    requires Evolves(a, b) && Evolves(b, c)
    ensures Evolves(a, c)
  {
    hide Stage;
  }

  lemma EvolvesStable(a: Io, b: Io)
    requires Evolves(a, b) && Stable(a)
    ensures Stable(b)
  {
  }

  /** Descriptor `who` may have been changed in any way; the new ones are at rest. */
  predicate IosGrow(s: Ios, r: Ios, who: Option<nat>) {
    && (forall k | k in s :: k in r && (who != Some(k) ==> Evolves(s[k], r[k])))
    && (forall k | k in r && k !in s :: Stable(r[k]) && r[k].transferred == 0)
  }

  /** New descriptors were put behind the old ones. */
  predicate QueueGrows(q: seq<nat>, r: seq<nat>, next: nat) {
    q <= r && forall k | k in r :: k in q || k >= next
  }

  predicate SameConnection(s: Sock, r: Sock) {
    && r.connected == s.connected && r.pass == s.pass && r.freed == s.freed && r.orphaned == s.orphaned
    && r.inBytes == s.inBytes && r.outBytes == s.outBytes && r.reconnect == s.reconnect
    && r.since == s.since && r.attempts == s.attempts
    && (s.wantRead ==> r.wantRead) && (s.wantWrite ==> r.wantWrite)
  }

  /** The common part of what callbacks and releases do. */
  predicate Grows(s: Sock, r: Sock, who: Option<nat>) {
    && s.next <= r.next && r.held == s.held
    && IosGrow(s.ios, r.ios, who)
    && QueueGrows(s.readers, r.readers, s.next) && QueueGrows(s.writers, r.writers, s.next)
  }

  /** What client code does in a callback. */
  predicate Called(s: Sock, r: Sock) {
    Grows(s, r, None) && SameConnection(s, r)
  }

  lemma CalledRefl(s: Sock)
    ensures Called(s, s)
  {
    hide Stage;
  }

  lemma IosTrans(s: Ios, t: Ios, r: Ios, who: Option<nat>)
    requires IosGrow(s, t, who) && IosGrow(t, r, who) && (who.Some? ==> who.value in s)
    ensures IosGrow(s, r, who)
  {
    hide Evolves, Stable;
    forall k | k in s
      ensures k in r && (who != Some(k) ==> Evolves(s[k], r[k]))
    {
      if who != Some(k) {
        EvolvesTrans(s[k], t[k], r[k]);
      }
    }
    forall k | k in r && k !in s
      ensures Stable(r[k]) && r[k].transferred == 0
    {
      if k in t {
        EvolvesStable(t[k], r[k]);
        EvolvesMoves(t[k], r[k]);
      }
    }
  }

  lemma EvolvesMoves(a: Io, b: Io)
    requires Evolves(a, b)
    ensures b.transferred == a.transferred
  {
  }

  lemma GrowsTrans(s: Sock, t: Sock, r: Sock, who: Option<nat>)
    requires Grows(s, t, who) && Grows(t, r, who) && (who.Some? ==> who.value in s.ios)
    ensures Grows(s, r, who)
  {
    IosTrans(s.ios, t.ios, r.ios, who);
    hide IosGrow;
  }

  lemma CalledTrans(s: Sock, t: Sock, r: Sock)
    requires Called(s, t) && Called(t, r)
    ensures Called(s, r)
  {
    hide IosGrow, QueueGrows;
    GrowsTrans(s, t, r, None);
  }

  /** What evolves like the others may also be looked at alone. */
  lemma CalledGrows(s: Sock, r: Sock, k: nat)
    requires Called(s, r) && k in s.ios
    ensures Grows(s, r, Some(k)) && SameConnection(s, r) && k in r.ios && Evolves(s.ios[k], r.ios[k])
  {
    hide Evolves, Stable, QueueGrows;
  }

  /** A callback does not change who is queued among the descriptors there were. */
  lemma GrowsInQueue(s: Sock, r: Sock, who: Option<nat>, k: nat)
    requires Inv(s) && Grows(s, r, who) && k in s.ios
    ensures k in r.ios && InQueue(r, k) == InQueue(s, k)
  {
    About(s, k);
    hide Inv, IosGrow;
    assert forall j | j in s.readers :: j in r.readers by {
      forall j | j in s.readers ensures j in r.readers { var i :| 0 <= i < |s.readers| && s.readers[i] == j; assert r.readers[i] == j; }
    }
    assert forall j | j in s.writers :: j in r.writers by {
      forall j | j in s.writers ensures j in r.writers { var i :| 0 <= i < |s.writers| && s.writers[i] == j; assert r.writers[i] == j; }
    }
  }

  /**
   Something other than the client's own references keeps the socket alive during a callback: running
   code, or a descriptor that running code refers to, or one that is about to be freed.
   */
  predicate Anchored(s: Sock, who: Option<nat>) {
    match who
    case Some(k) => k in s.ios && s.ios[k].live && (s.ios[k].held > 0 || s.ios[k].refCount == 0)
    case None => s.held > 0
  }

  lemma AnchorGrows(s: Sock, r: Sock, who: Option<nat>)
    requires Anchored(s, who) && Grows(s, r, None)
    ensures Anchored(r, who)
    ensures who.Some? ==> who.value in r.ios && r.ios[who.value].live
  {
    hide Stage;
  }

  /** A socket that is anchored is not destroyed. */
  lemma AnchorKeeps(s: Sock, r: Sock, who: Option<nat>)
    requires Anchored(s, who) && Grows(s, r, None) && Inv(r)
    ensures !r.freed
  {
    AnchorGrows(s, r, who);
    AnchorHolds(r, who);
    hide Inv, Anchored, Grows;
  }

  lemma AnchorHolds(s: Sock, who: Option<nat>)
    requires Inv(s) && Anchored(s, who)
    ensures s.refCount > s.clientRefs && !s.freed
  {
    hide RecordsOk, QueueOk, BytesOk, Awake;
    if who.Some? {
      assert who.value in Live(s.ios);
    }
  }

  // ----- small steps ----------------------------------------------------------------------

  lemma KeepLocal(io: Io, queued: bool)
    requires Local(io, queued) && io.refCount > 0
    ensures Local(io.(refCount := io.refCount + 1, clientRefs := io.clientRefs + 1, kept := true), queued)
  {
    if !io.kept {
      PhaseKept(io.notes, io.accepted, |io.buffer|);
    }
  }

  lemma KeepEvolves(io: Io, queued: bool)
    requires Local(io, queued) && io.refCount > 0
    ensures Evolves(io, io.(refCount := io.refCount + 1, clientRefs := io.clientRefs + 1, kept := true))
  {
    if !io.kept {
      PhaseKept(io.notes, io.accepted, |io.buffer|);
    }
    hide PhaseOf;
  }

  lemma PutCalled(s: Sock, k: nat, io: Io)
    requires k in s.ios && Evolves(s.ios[k], io)
    ensures Called(s, Put(s, k, io))
  {
    CalledRefl(s);
    hide Evolves, Stable;
    EvolvesRefl(s);
  }

  lemma EvolvesRefl(s: Sock)
    ensures forall k | k in s.ios :: Evolves(s.ios[k], s.ios[k])
  {
    hide Stage;
  }

  lemma KeepOk(s: Sock, k: nat)
    requires Inv(s)
    ensures Inv(Keep(s, k)) && Called(s, Keep(s, k))
  {
    hide Inv, Local, Called, Evolves;
    if k in s.ios && s.ios[k].refCount > 0 {
      About(s, k);
      var io := s.ios[k];
      var kept := io.(refCount := io.refCount + 1, clientRefs := io.clientRefs + 1, kept := true);
      KeepLocal(io, InQueue(s, k));
      KeepEvolves(io, InQueue(s, k));
      PutOk(s, k, kept);
      PutCalled(s, k, kept);
    } else {
      CalledRefl(s);
    }
  }

  lemma StopLocal(io: Io, queued: bool)
    requires Local(io, queued)
    ensures Local(io.(timerOn := false), queued)
  {
  }

  lemma StopOk(s: Sock, k: nat)
    requires Inv(s) && k in s.ios
    ensures Inv(StopIoTimer(s, k)) && Called(s, StopIoTimer(s, k))
  {
    hide Inv, Local, Called, Stage;
    About(s, k);
    StopLocal(s.ios[k], InQueue(s, k));
    StopStage(s.ios[k]);
    PutOk(s, k, s.ios[k].(timerOn := false));
    PutCalled(s, k, s.ios[k].(timerOn := false));
  }

  lemma StopStage(io: Io)
    ensures Stage(io.(timerOn := false)) == Stage(io)
  {
  }

  /** Adding and dropping a reference of the client to the socket while another keeps it alive. */
  lemma SockRefsOk(s: Sock, n: int)
    requires Inv(s) && s.refCount > 0 && s.clientRefs + n >= 0 && s.refCount + n > 0
    ensures Inv(s.(refCount := s.refCount + n, clientRefs := s.clientRefs + n))
  {
    hide RecordsOk, QueueOk, BytesOk, Live;
  }

  /** Running code takes a reference to the socket, or drops one that is not the last. */
  lemma SockHeldOk(s: Sock, n: int)
    requires Inv(s) && s.refCount > 0 && s.held + n >= 0 && s.refCount + n > 0
    ensures Inv(s.(refCount := s.refCount + n, held := s.held + n))
  {
    hide RecordsOk, QueueOk, BytesOk, Live;
  }

  lemma DropSockOk(s: Sock, who: Option<nat>)
    requires Inv(s) && Anchored(s, who)
    ensures Inv(DropSock(s)) && Called(s, DropSock(s))
  {
    hide Inv, DropSock, Anchored, Called;
    AnchorHolds(s, who);
    NoFault(s);
    DropSockIs(s);
    if s.clientRefs > 0 {
      SockRefsOk(s, -1);
      DropCalled(s);
    } else {
      CalledRefl(s);
    }
  }

  lemma DropCalled(s: Sock)
    ensures Called(s, s.(refCount := s.refCount - 1, clientRefs := s.clientRefs - 1))
  {
    CalledRefl(s);
    hide IosGrow, QueueGrows;
  }

  lemma DropSockIs(s: Sock)
    requires s.refCount > s.clientRefs && !s.fault
    ensures DropSock(s) == if s.clientRefs > 0 then s.(refCount := s.refCount - 1, clientRefs := s.clientRefs - 1) else s
  {
    if s.clientRefs > 0 {
      SockReleaseHeld(s.(clientRefs := s.clientRefs - 1, held := s.held + 1));
    }
    hide SockRelease;
  }

  // ----- notifications --------------------------------------------------------------------

  /** Whatever the client answers, telling it `event` now continues the descriptor's life. */
  predicate Fits(io: Io, event: State) {
    forall a: Action :: Accepts(io, Note(event, a, io.transferred))
  }

  predicate Accepts(io: Io, note: Note) {
    var p := After(Stage(io), note, io.accepted, |io.buffer|, io.kept);
    && p != Broken && p != Gone
    && (p == Settled ==> !io.timerOn)
    && io.live && io.held > 0
  }

  function Told(io: Io, note: Note): Io {
    io.(notes := io.notes + [note])
  }

  lemma ToldLocal(io: Io, queued: bool, note: Note)
    requires Local(io, queued) && Accepts(io, note)
    ensures Local(Told(io, note), queued)
    ensures Stage(Told(io, note)) == After(Stage(io), note, io.accepted, |io.buffer|, io.kept)
  {
    PhaseSnoc(io.notes, note, io.accepted, |io.buffer|, io.kept);
  }

  lemma EvolvedFits(a: Io, b: Io, note: Note)
    requires Evolves(a, b) && b.live && Accepts(a, note)
    ensures Accepts(b, note)
    ensures After(Stage(b), note, b.accepted, |b.buffer|, b.kept) == After(Stage(a), note, a.accepted, |a.buffer|, a.kept)
  {
    hide Stage;
  }

  /** Descriptor `k` was told `event`, and the client answered `a`. */
  predicate Notified(s: Sock, r: Sock, k: nat, event: State, a: Action) {
    && Grows(s, r, Some(k)) && SameConnection(s, r)
    && k in s.ios && k in r.ios
    && r.ios[k].live && Evolves(s.ios[k], r.ios[k].(notes := s.ios[k].notes))
    && r.ios[k].notes == s.ios[k].notes + [Note(event, a, s.ios[k].transferred)]
    && Stage(r.ios[k]) == After(Stage(s.ios[k]), Note(event, a, s.ios[k].transferred),
                                s.ios[k].accepted, |s.ios[k].buffer|, s.ios[k].kept)
  }

  lemma {:induction false} NotifyOk(s: Sock, k: nat, event: State)
    requires Inv(s) && k in s.ios && Fits(s.ios[k], event)
    ensures Inv(Notify(s, k, event).0) && Notified(s, Notify(s, k, event).0, k, event, Notify(s, k, event).1)
    decreases |s.tape|, QueueSize(s), 1
  {
    hide Inv, Local, Grows, SameConnection, Accepts, Stage, Fits, Notify, Client, Called, Evolves, Anchored;
    var (c, a) := Client(s);
    FitsAnchors(s, k, event);
    ClientOk(s, Some(k));
    NotifyIs(s, k, event);
    var note := Note(event, a, s.ios[k].transferred);
    FitsAccepts(s.ios[k], event, a);
    CalledGrows(s, c, k);
    CalledAnchor(s, c, k);
    EvolvesMoves(s.ios[k], c.ios[k]);
    About(c, k);
    EvolvedFits(s.ios[k], c.ios[k], note);
    ToldLocal(c.ios[k], InQueue(c, k), note);
    ToldEvolves(s.ios[k], c.ios[k], note);
    PutOk(c, k, Told(c.ios[k], note));
    PutGrows(s, c, k, Told(c.ios[k], note));
  }

  lemma CalledAnchor(s: Sock, r: Sock, k: nat)
    requires Anchored(s, Some(k)) && Called(s, r)
    ensures r.ios[k].live
  {
    AnchorGrows(s, r, Some(k));
  }

  lemma ToldEvolves(a: Io, b: Io, note: Note)
    requires Evolves(a, b) && b.live
    ensures Evolves(a, Told(b, note).(notes := a.notes)) && Told(b, note).notes == a.notes + [note] && a.live
  {
    assert Told(b, note).(notes := a.notes) == b;
    hide Stage;
  }

  lemma NotifyIs(s: Sock, k: nat, event: State)
    ensures var (c, a) := Client(s);
            Notify(s, k, event) == (Put(c, k, Told(At(c, k), Note(event, a, At(c, k).transferred))), a)
  {
  }

  lemma FitsAccepts(io: Io, event: State, a: Action)
    requires Fits(io, event)
    ensures Accepts(io, Note(event, a, io.transferred))
  {
  }

  lemma FitsAnchors(s: Sock, k: nat, event: State)
    requires k in s.ios && Fits(s.ios[k], event)
    ensures Anchored(s, Some(k))
  {
    assert Accepts(s.ios[k], Note(event, Done, s.ios[k].transferred));
  }

  lemma PutGrows(s: Sock, r: Sock, k: nat, io: Io)
    requires Grows(s, r, Some(k)) && SameConnection(s, r) && k in s.ios
    ensures Grows(s, Put(r, k, io), Some(k)) && SameConnection(s, Put(r, k, io))
  {
  }

  // ----- releases -------------------------------------------------------------------------

  function Dropped(io: Io): Io {
    io.(refCount := io.refCount - 1, held := io.held - 1)
  }

  /** Code may let go of a descriptor that is queued if it is active, and over if it is not. */
  predicate AtRest(io: Io, queued: bool) {
    && (queued <==> Active(Stage(io)))
    && (queued ==> (io.state == Queued <==> Stage(io) == Fresh) && (io.transferred < |io.buffer| || io.buffer == []))
  }

  lemma DropLocal(io: Io, queued: bool)
    requires Local(io, queued) && io.live && io.held > 0 && (io.held == 1 ==> AtRest(io, queued))
    ensures Local(Dropped(io), queued)
  {
  }

  predicate KeepsData(a: Io, b: Io) {
    && b.isRead == a.isRead && b.buffer == a.buffer && b.transferred == a.transferred && b.state == a.state
    && b.accepted == a.accepted && (a.kept ==> b.kept) && (b.timerOn ==> a.timerOn)
  }

  /** No byte went over the connection. */
  predicate SameBytes(s: Sock, r: Sock) {
    r.inBytes == s.inBytes && r.outBytes == s.outBytes
  }

  /** A reference on `k` was dropped: the descriptor has one reference less, or is gone. */
  predicate Released(s: Sock, r: Sock, k: nat) {
    && Grows(s, r, Some(k)) && (r.freed || SameConnection(s, r)) && (r.freed ==> s.held == 0 && r.pass == NoPass && !r.orphaned)
    && k in s.ios && k in r.ios
    && SameBytes(s, r) && r.attempts == s.attempts && KeepsData(s.ios[k], r.ios[k]) && Heard(s.ios[k].notes, r.ios[k])
    && (if s.ios[k].refCount > 1 then r.ios[k] == Dropped(s.ios[k]) else !r.ios[k].live)
  }

  lemma {:induction false} IoReleaseOk(s: Sock, k: nat)
    requires Inv(s) && k in s.ios && s.ios[k].live && s.ios[k].held > 0
    requires s.ios[k].held == 1 ==> AtRest(s.ios[k], InQueue(s, k))
    ensures Inv(IoRelease(s, k)) && Released(s, IoRelease(s, k), k)
    decreases |s.tape|, QueueSize(s), 5
  {
    hide Inv, Local, AtRest, Grows, SameConnection, Released, IoRelease, Notify, Client, SockRelease, Bury;
    About(s, k);
    NoFault(s);
    HeldCounts(s.ios[k], InQueue(s, k));
    IoReleaseIs(s, k);
    DropOk(s, k);
    if s.ios[k].refCount == 1 {
      LastIoReleaseOk(s, Put(s, k, Dropped(s.ios[k])), k);
    }
  }

  lemma DropOk(s: Sock, k: nat)
    requires Inv(s) && k in s.ios && s.ios[k].live && s.ios[k].held > 0
    requires s.ios[k].held == 1 ==> AtRest(s.ios[k], InQueue(s, k))
    ensures var t := Put(s, k, Dropped(s.ios[k]));
            Inv(t) && Grows(s, t, Some(k)) && SameConnection(s, t) && (s.ios[k].refCount > 1 ==> Released(s, t, k))
  {
    hide Inv, Local, AtRest, Grows, SameConnection, Released, Increasing, Front;
    About(s, k);
    DropLocal(s.ios[k], InQueue(s, k));
    PutOk(s, k, Dropped(s.ios[k]));
    GrowsRefl(s, k);
    PutGrows(s, s, k, Dropped(s.ios[k]));
    DropReleased(s, k);
  }

  lemma DropReleased(s: Sock, k: nat)
    requires Inv(s) && k in s.ios && s.ios[k].live && Grows(s, Put(s, k, Dropped(s.ios[k])), Some(k))
    ensures s.ios[k].refCount > 1 ==> Released(s, Put(s, k, Dropped(s.ios[k])), k)
  {
    NoFault(s);
    hide Inv, Grows;
  }

  /** The descriptor as its last notification leaves it. */
  function Buried(c: Sock, k: nat, a: Action): Io {
    Told(At(c, k), Note(Finished, a, At(c, k).transferred)).(live := false, timerOn := false)
  }

  /** The socket then: it has one descriptor less, and a reference in hand. */
  function Cleared(c: Sock, k: nat, a: Action): Sock {
    Put(c, k, Buried(c, k, a)).(held := c.held + 1)
  }

  lemma BuriedIs(t: Sock, k: nat)
    ensures var (c, a) := Client(t);
            k in c.ios ==> Bury(Notify(t, k, Finished).0, k) == Cleared(c, k, a)
  {
    NotifyIs(t, k, Finished);
    hide Notify, Client;
    var (c, a) := Client(t);
    if k in c.ios {
      BuryRecord(c, k, Note(Finished, a, c.ios[k].transferred));
    }
  }

  lemma {:induction false} LastIoReleaseOk(s: Sock, t: Sock, k: nat)
    requires Inv(s) && k in s.ios && s.ios[k].live && s.ios[k].held > 0 && s.ios[k].refCount == 1
    requires t == Put(s, k, Dropped(s.ios[k])) && Inv(t) && Grows(s, t, Some(k)) && SameConnection(s, t) && !s.freed
    ensures var r := SockRelease(Bury(Notify(t, k, Finished).0, k)); Inv(r) && Released(s, r, k)
    decreases |s.tape|, QueueSize(s), 4
  {
    hide Inv, Local, Grows, SameConnection, Notify, Client, SockRelease, Bury, Called, Evolves, Released, Cleared;
    LastCalled(s, t, k);
    var (c, a) := Client(t);
    BuriedIs(t, k);
    SockReleaseOk(Cleared(c, k, a));
    LastReleased(s, c, k, a);
  }

  /** What the client leaves of a descriptor to which nothing refers any more. */
  lemma {:induction false} LastCalled(s: Sock, t: Sock, k: nat)
    requires Inv(s) && k in s.ios && s.ios[k].live && s.ios[k].held > 0 && s.ios[k].refCount == 1
    requires t == Put(s, k, Dropped(s.ios[k])) && Inv(t) && Grows(s, t, Some(k)) && SameConnection(s, t)
    ensures var (c, a) := Client(t);
            && Inv(c) && Grows(s, c, Some(k)) && SameConnection(s, c) && k in c.ios && KeepsData(s.ios[k], c.ios[k])
            && c.ios[k].live && c.ios[k].refCount == 0 && c.ios[k].notes == s.ios[k].notes
            && Inv(Cleared(c, k, a)) && Cleared(c, k, a).held > 0
    decreases |s.tape|, QueueSize(s), 3
  {
    hide Inv, Local, Grows, SameConnection, Client, Bury, Called, Evolves, Cleared;
    ClientOk(t, Some(k));
    var (c, a) := Client(t);
    CalledGrows(t, c, k);
    CalledAnchor(t, c, k);
    GrowsTrans(s, t, c, Some(k));
    SameTrans(s, t, c);
    EvolvesLast(s.ios[k], t.ios[k], c.ios[k]);
    ClearedOk(c, k, a);
  }

  lemma EvolvesLast(s: Io, t: Io, c: Io)
    requires t == Dropped(s) && s.refCount == 1 && Evolves(t, c)
    ensures KeepsData(s, c) && c.refCount == 0 && c.notes == s.notes
  {
    hide Stage;
  }

  lemma ClearedOk(c: Sock, k: nat, a: Action)
    requires Inv(c) && k in c.ios && c.ios[k].live && c.ios[k].refCount == 0
    ensures Inv(Cleared(c, k, a)) && Cleared(c, k, a).held > 0
  {
    hide Inv, Bury;
    BuryOk(c, k, Note(Finished, a, c.ios[k].transferred));
    BuryRecord(c, k, Note(Finished, a, c.ios[k].transferred));
    NoFault(c);
  }

  lemma LastReleased(s: Sock, c: Sock, k: nat, a: Action)
    requires k in s.ios && s.ios[k].refCount == 1 && Grows(s, c, Some(k)) && SameConnection(s, c)
    requires k in c.ios && KeepsData(s.ios[k], c.ios[k]) && c.ios[k].notes == s.ios[k].notes && !s.freed
    requires SockReleased(Cleared(c, k, a), SockRelease(Cleared(c, k, a)))
    ensures Released(s, SockRelease(Cleared(c, k, a)), k)
  {
    hide Grows, SameConnection, SockRelease;
    var v := Put(c, k, Buried(c, k, a));
    PutGrows(s, c, k, Buried(c, k, a));
    SockReleasedGrows(s, v, SockRelease(v.(held := v.held + 1)), k);
  }

  /** The states in which a descriptor hears that it is finished, and after that. */
  lemma LastSteps(s: Sock, k: nat)
    requires Inv(s) && k in s.ios && s.ios[k].live && s.ios[k].held > 0 && s.ios[k].refCount == 1
    requires s.ios[k].held == 1 ==> AtRest(s.ios[k], InQueue(s, k))
    ensures var t := Put(s, k, Dropped(s.ios[k]));
            var n := Notify(t, k, Finished).0;
            && Inv(t) && k in n.ios && n.ios[k].live && !InQueue(n, k)
            && Inv(Bury(n, k)) && Bury(n, k).held > 0
  {
    hide Inv, Local, AtRest, Grows, SameConnection, Notify, Client, Bury, Released;
    DropOk(s, k);
    var t := Put(s, k, Dropped(s.ios[k]));
    LastCalled(s, t, k);
    BuriedIs(t, k);
    NotifyIs(t, k, Finished);
    hide Cleared;
    var (c, a) := Client(t);
    About(c, k);
    ZeroRefs(c.ios[k], InQueue(c, k));
    BuriedHeld(Notify(t, k, Finished).0, k);
  }

  lemma ZeroRefs(io: Io, queued: bool)
    requires Local(io, queued) && io.refCount == 0
    ensures !queued
  {
  }

  lemma BuriedHeld(s: Sock, k: nat)
    ensures Bury(s, k).held == s.held + 1 && Bury(s, k).tape == s.tape && QueueSize(Bury(s, k)) == QueueSize(s)
  {
  }

  lemma NoFault(s: Sock)
    requires Inv(s)
    ensures !s.fault && (s.freed ==> s.refCount == 0 && !s.connected && Live(s.ios) == {} && s.held == 0)
    ensures forall k | k in s.ios && s.ios[k].live :: !s.freed
    ensures s.held >= 0 && s.clientRefs >= 0
  {
    hide RecordsOk, QueueOk, BytesOk;
    assert s.freed ==> |Live(s.ios)| == 0;
    assert forall k | k in s.ios && s.ios[k].live :: k in Live(s.ios);
  }

  lemma SameTrans(s: Sock, t: Sock, r: Sock)
    requires SameConnection(s, t) && SameConnection(t, r)
    ensures SameConnection(s, r)
  {
  }

  lemma SockReleasedGrows(s: Sock, v: Sock, r: Sock, k: nat)
    requires Grows(s, v, Some(k)) && SameConnection(s, v) && SockReleased(v.(held := v.held + 1), r) && !s.freed
    ensures Grows(s, r, Some(k)) && (r.freed || SameConnection(s, r)) && (r.freed ==> s.held == 0 && r.pass == NoPass && !r.orphaned)
    ensures r.ios == v.ios && SameBytes(s, r) && r.attempts == s.attempts
  {
  }

  lemma HeldCounts(io: Io, queued: bool)
    requires Local(io, queued)
    ensures io.refCount >= io.held
  {
  }

  lemma GrowsRefl(s: Sock, k: nat)
    requires k in s.ios
    ensures Grows(s, s, Some(k)) && SameConnection(s, s)
  {
  }

  lemma IoReleaseIs(s: Sock, k: nat)
    requires k in s.ios && s.ios[k].refCount > 0 && !s.fault
    ensures var t := Put(s, k, Dropped(s.ios[k]));
            IoRelease(s, k) == if s.ios[k].refCount > 1 then t else SockRelease(Bury(Notify(t, k, Finished).0, k))
  {
    hide Unref, Put, At, Notify, SockRelease, Bury;
    UnrefIs(s, k);
  }

  /** The states through which a release goes. */
  lemma IoReleaseSteps(s: Sock, k: nat)
    requires Inv(s) && k in s.ios && s.ios[k].live && s.ios[k].held > 0
    requires s.ios[k].held == 1 ==> AtRest(s.ios[k], InQueue(s, k))
    ensures var t := Put(s, k, Dropped(s.ios[k]));
            var n := Notify(t, k, Finished).0;
            && s.ios[k].refCount >= 1
            && IoRelease(s, k) == (if s.ios[k].refCount > 1 then t else SockRelease(Bury(n, k)))
            && (s.ios[k].refCount == 1 ==>
                  Inv(t) && k in n.ios && n.ios[k].live && !InQueue(n, k) && Inv(Bury(n, k)) && Bury(n, k).held > 0)
  {
    hide Inv, Local, AtRest, Notify, SockRelease, IoRelease, Bury;
    About(s, k);
    HeldCounts(s.ios[k], InQueue(s, k));
    NoFault(s);
    IoReleaseIs(s, k);
    if s.ios[k].refCount == 1 {
      LastSteps(s, k);
    }
  }

  lemma IoRefIs(s: Sock, k: nat)
    requires k in s.ios && s.ios[k].refCount > 0
    ensures IoRef(s, k) == Put(s, k, s.ios[k].(refCount := s.ios[k].refCount + 1, held := s.ios[k].held + 1))
  {
    assert At(s, k) == s.ios[k] && (s.fault || s.ios[k].refCount <= 0) == s.fault;
    hide At;
  }

  lemma UnrefIs(s: Sock, k: nat)
    requires k in s.ios && s.ios[k].refCount > 0 && !s.fault
    ensures Unref(s, k) == Put(s, k, Dropped(s.ios[k])) && At(Unref(s, k), k).refCount == s.ios[k].refCount - 1
  {
  }

  // ----- the last references --------------------------------------------------------------

  lemma CancelAllIdle(s: Sock)
    requires s.readers == [] && s.writers == []
    ensures CancelAll(s) == SetWant(SetWant(s.(reconnect := false), false, false), true, false).(pass := NoPass, orphaned := false)
  {
    var t := SetWant(SetWant(s.(reconnect := false), false, false), true, false);
    assert t.readers == [] && t.writers == [];
    hide CancelQueue, SetWant, Client, Notify, IoRelease, SockRelease, Unlink, Close, Decide, Enqueue, DropSock, ReleaseIo;
    CancelNone(t.(pass := ReadPass), true);
    CancelNone(t.(pass := WritePass), false);
  }

  lemma CancelNone(s: Sock, isRead: bool)
    requires Queue(s, isRead) == []
    ensures CancelQueue(s, isRead) == s
  {
  }

  lemma QueuedCount(q: seq<nat>, live: set<nat>)
    requires forall k | k in q :: k in live
    ensures q == [] || |live| > 0
  {
    if q != [] {
      assert q[0] in live;
    }
  }

  /** A socket whose last reference is dropped has no descriptors and empty queues. */
  lemma LastReference(s: Sock)
    requires Inv(s) && s.held > 0 && s.refCount == 1
    ensures Live(s.ios) == {} && s.readers == [] && s.writers == [] && s.clientRefs == 0 && s.held == 1
  {
    QueuedAre(s, true);
    QueuedAre(s, false);
    hide RecordsOk, QueueOk, BytesOk;
    QueuedCount(s.readers, Live(s.ios));
    QueuedCount(s.writers, Live(s.ios));
  }

  /** The socket after its last reference was dropped, which calls no callback. */
  function Destroyed(s: Sock): Sock {
    s.(refCount := 0, held := 0, reconnect := false, connected := false, wantRead := false, wantWrite := false,
       since := if s.connected then s.next else s.since, orphaned := false, pass := NoPass, freed := true)
  }

  lemma SockReleaseIs(s: Sock)
    requires Inv(s) && s.held > 0
    ensures s.refCount > 1 ==> SockRelease(s) == s.(refCount := s.refCount - 1, held := s.held - 1)
    ensures s.refCount == 1 ==> SockRelease(s) == Destroyed(s)
    ensures s.refCount >= 1
  {
    hide Inv, SockRelease, Destroyed;
    NoFault(s);
    HeldRefs(s);
    if s.refCount == 1 {
      LastReference(s);
      UnconnectedWants(s);
      SockReleaseLast(s);
    } else {
      SockReleaseHeld(s);
    }
  }

  lemma UnconnectedWants(s: Sock)
    requires Inv(s)
    ensures !s.connected ==> !s.wantRead && !s.wantWrite
  {
    hide RecordsOk, QueueOk, BytesOk, CountOk, Current, Stranded;
  }

  lemma HeldRefs(s: Sock)
    requires Inv(s)
    ensures s.refCount >= s.held && (s.held > 0 ==> s.refCount > 0)
  {
    hide RecordsOk, QueueOk, BytesOk, Live, Awake;
  }

  lemma SockReleaseHeld(s: Sock)
    requires s.refCount > 1 && !s.fault
    ensures SockRelease(s) == s.(refCount := s.refCount - 1, held := s.held - 1)
  {
    hide CancelAll, Close;
  }

  lemma SockReleaseLast(s: Sock)
    requires s.refCount == 1 && s.held == 1 && !s.fault && s.readers == [] && s.writers == []
    requires !s.connected ==> !s.wantRead && !s.wantWrite
    ensures SockRelease(s) == Destroyed(s)
  {
    CancelAllIdle(s.(refCount := 0, held := 0));
    hide CancelAll;
  }

  predicate SockReleased(s: Sock, r: Sock) {
    r == s.(refCount := s.refCount - 1, held := s.held - 1) || (r == Destroyed(s) && s.held == 1 && s.readers == [] && s.writers == [])
  }

  lemma SockReleaseOk(s: Sock)
    requires Inv(s) && s.held > 0
    ensures Inv(SockRelease(s)) && SockReleased(s, SockRelease(s))
  {
    hide Inv, SockRelease, Destroyed;
    SockReleaseIs(s);
    if s.refCount == 1 {
      DestroyedOk(s);
      LastReference(s);
    } else {
      SockHeldOk(s, -1);
    }
  }

  lemma ReleaseFacts(s: Sock)
    requires Inv(s) && s.held > 0
    ensures s.refCount >= 1 && !s.fault && (s.refCount == 1 ==> s.readers == [] && s.writers == [])
  {
    SockReleaseIs(s);
    if s.refCount == 1 {
      LastReference(s);
    }
    hide RecordsOk, QueueOk, BytesOk, CountOk;
  }

  /** A client's reference in the hands of running code. */
  lemma LentOk(s: Sock)
    requires Inv(s) && s.clientRefs > 0
    ensures Inv(s.(clientRefs := s.clientRefs - 1, held := s.held + 1)) && s.held >= 0
  {
    NoFault(s);
    hide RecordsOk, QueueOk, BytesOk, Live;
  }

  lemma DestroyedOk(s: Sock)
    requires Inv(s) && s.held > 0 && s.refCount == 1
    ensures Inv(Destroyed(s))
  {
    LastReference(s);
    hide RecordsOk, BytesOk, Live;
  }

  // ----- the client, and everything it can set off ----------------------------------------

  lemma {:induction false} ClientOk(s: Sock, who: Option<nat>)
    requires Inv(s) && Anchored(s, who)
    ensures Inv(Client(s).0) && Called(s, Client(s).0)
    decreases |s.tape|, QueueSize(s), 0
  {
    hide Inv, Called, Anchored, Decide;
    ClientIs(s);
    hide Client;
    if s.tape == [] {
      CalledRefl(s);
    } else {
      var d, t := s.tape[0], s.(tape := s.tape[1..]);
      TapeOk(s, who, t.tape);
      if !d.Answer? {
        DecideOk(t, d, who);
        var u := Decide(t, d);
        AnchorCalled(t, u, who);
        ClientOk(u, who);
        CalledTrans(t, u, Client(u).0);
        CalledTrans(s, t, Client(u).0);
      }
    }
  }

  lemma ClientIs(s: Sock)
    ensures Client(s) ==
            if s.tape == [] then (s, Done)
            else
              var d, t := s.tape[0], s.(tape := s.tape[1..]);
              if d.Answer? then (t, d.action) else Client(Decide(t, d))
  {
  }

  /** The states through which the client goes with one decision. */
  lemma ClientSteps(s: Sock, who: Option<nat>)
    requires Inv(s) && Anchored(s, who) && s.tape != []
    ensures var d, t := s.tape[0], s.(tape := s.tape[1..]);
            && Inv(t) && Anchored(t, who)
            && Client(s) == (if d.Answer? then (t, d.action) else Client(Decide(t, d)))
            && (!d.Answer? ==> var u := Decide(t, d); Inv(u) && Anchored(u, who) && |u.tape| < |s.tape|)
  {
    hide Inv, Called, Anchored, Decide;
    ClientIs(s);
    hide Client;
    var d, t := s.tape[0], s.(tape := s.tape[1..]);
    TapeOk(s, who, t.tape);
    if !d.Answer? {
      DecideOk(t, d, who);
      AnchorCalled(t, Decide(t, d), who);
    }
  }

  lemma TapeOk(s: Sock, who: Option<nat>, tape: seq<Decision>)
    requires Inv(s) && Anchored(s, who)
    ensures Inv(s.(tape := tape)) && Anchored(s.(tape := tape), who) && Called(s, s.(tape := tape))
  {
    CalledRefl(s);
    hide RecordsOk, QueueOk, BytesOk, CountOk, IosGrow;
  }

  lemma AnchorCalled(s: Sock, r: Sock, who: Option<nat>)
    requires Anchored(s, who) && Called(s, r)
    ensures Anchored(r, who)
  {
    AnchorGrows(s, r, who);
  }

  lemma {:induction false} DecideOk(s: Sock, d: Decision, who: Option<nat>)
    requires Inv(s) && Anchored(s, who) && !d.Answer?
    ensures Inv(Decide(s, d)) && Called(s, Decide(s, d))
    decreases |s.tape|, QueueSize(s), 7
  {
    hide Inv, Called, Anchored, Enqueue, KeepSock, DropSock, Keep, ReleaseIo, StopIoTimer;
    match d
    case QueueIo(isRead, buffer) => EnqueueOk(s, isRead, buffer, who);
    case KeepSocket => KeepSockOk(s, who);
    case DropSocket => DropSockOk(s, who);
    case KeepIo(k) => KeepOk(s, k);
    case DropIo(k) => ReleaseIoOk(s, k, who);
    case StopTimer(k) => if At(s, k).live { StopOk(s, k); } else { CalledRefl(s); }
  }

  lemma KeepSockOk(s: Sock, who: Option<nat>)
    requires Inv(s) && Anchored(s, who)
    ensures Inv(KeepSock(s)) && Called(s, KeepSock(s))
  {
    AnchorHolds(s, who);
    NoFault(s);
    CalledRefl(s);
    hide RecordsOk, QueueOk, BytesOk, Live, IosGrow, QueueGrows;
  }

  // ----- the client drops a descriptor ----------------------------------------------------

  lemma LentLocal(a: Io, b: Io, queued: bool)
    requires Local(a, queued) && a.live && a.clientRefs > 0 && b == a.(clientRefs := a.clientRefs - 1, held := a.held + 1)
    ensures Local(b, queued) && b.held > 0 && (b.held == 1 ==> AtRest(b, queued)) && Stage(b) == Stage(a)
  {
  }

  /** A reference of the client in the hands of running code, which may let go of it. */
  lemma LentIo(s: Sock, k: nat)
    requires Inv(s) && k in s.ios && s.ios[k].live && s.ios[k].clientRefs > 0
    ensures var t := Lent(s, k);
            && Inv(t) && k in t.ios && t.ios[k].live && t.ios[k].held > 0
            && t.ios[k] == s.ios[k].(clientRefs := s.ios[k].clientRefs - 1, held := s.ios[k].held + 1)
            && (t.ios[k].held == 1 ==> AtRest(t.ios[k], InQueue(t, k)))
  {
    hide Inv, Local, AtRest, Stage, Lent, Put, InQueue;
    var io := s.ios[k].(clientRefs := s.ios[k].clientRefs - 1, held := s.ios[k].held + 1);
    LentIs(s, k, io);
    AboutLocal(s, k);
    LentLocal(s.ios[k], io, InQueue(s, k));
    PutLent(s, k, io);
  }

  lemma AboutLocal(s: Sock, k: nat)
    requires Inv(s) && k in s.ios
    ensures Local(s.ios[k], InQueue(s, k))
  {
    About(s, k);
    hide Inv, Local, Increasing;
  }

  lemma LentIs(s: Sock, k: nat, io: Io)
    requires k in s.ios && io == s.ios[k].(clientRefs := s.ios[k].clientRefs - 1, held := s.ios[k].held + 1)
    ensures Lent(s, k) == Put(s, k, io) && Lent(s, k).ios == s.ios[k := io] && k in Lent(s, k).ios && Lent(s, k).ios[k] == io
    ensures InQueue(Lent(s, k), k) == InQueue(s, k)
  {
  }

  lemma PutLent(s: Sock, k: nat, io: Io)
    requires Inv(s) && k in s.ios && Local(io, InQueue(s, k))
    requires io == s.ios[k].(clientRefs := io.clientRefs, held := io.held)
    ensures Inv(Put(s, k, io))
  {
    hide Inv, Local, InQueue;
    PutOk(s, k, io);
  }

  lemma LentShape(s: Sock, k: nat)
    requires k in s.ios
    ensures var t := Lent(s, k); Grows(s, t, Some(k)) && SameConnection(s, t) && t.tape == s.tape && QueueSize(t) == QueueSize(s)
  {
    GrowsRefl(s, k);
    PutGrows(s, s, k, Lent(s, k).ios[k]);
    hide Grows, SameConnection;
  }

  lemma {:induction false} ReleaseIoOk(s: Sock, k: nat, who: Option<nat>)
    requires Inv(s) && Anchored(s, who)
    ensures Inv(ReleaseIo(s, k)) && Called(s, ReleaseIo(s, k))
    decreases |s.tape|, QueueSize(s), 6
  {
    hide Inv, Called, Grows, SameConnection, AtRest, IoRelease, Lent, Local, Released, Anchored;
    if k in s.ios && s.ios[k].live && s.ios[k].clientRefs > 0 {
      var t := Lent(s, k);
      LentIo(s, k);
      LentShape(s, k);
      IoReleaseOk(t, k);
      ReleasedCalled(s, t, IoRelease(t, k), k, who);
    } else {
      CalledRefl(s);
    }
  }

  lemma ReleasedCalled(s: Sock, t: Sock, r: Sock, k: nat, who: Option<nat>)
    requires Inv(s) && Anchored(s, who) && k in s.ios && s.ios[k].live && s.ios[k].clientRefs > 0
    requires Grows(s, t, Some(k)) && SameConnection(s, t) && k in t.ios
    requires t.ios[k] == s.ios[k].(clientRefs := s.ios[k].clientRefs - 1, held := s.ios[k].held + 1)
    requires Inv(r) && Released(t, r, k)
    ensures Called(s, r)
  {
    hide Inv, Local, Grows, SameConnection, Evolves, Anchored;
    About(s, k);
    About(r, k);
    ReleasedEvolves(s.ios[k], InQueue(s, k), t.ios[k], r.ios[k], InQueue(r, k));
    GrowsTrans(s, t, r, Some(k));
    GrowsAll(s, r, k);
    AnchorKeeps(s, r, who);
    SameTrans(s, t, r);
  }

  lemma ReleasedEvolves(a: Io, queued: bool, t: Io, b: Io, stays: bool)
    requires Local(a, queued) && a.live && a.clientRefs > 0 && t == a.(clientRefs := a.clientRefs - 1, held := a.held + 1)
    requires Local(b, stays) && KeepsData(t, b) && Heard(t.notes, b) && (if t.refCount > 1 then b == Dropped(t) else !b.live)
    ensures Evolves(a, b)
  {
    hide PhaseOf;
  }

  lemma GrowsAll(s: Sock, r: Sock, k: nat)
    requires Grows(s, r, Some(k)) && k in s.ios && k in r.ios && Evolves(s.ios[k], r.ios[k])
    ensures Grows(s, r, None)
  {
    hide Evolves, Stable, QueueGrows;
  }

  // ----- queueing -------------------------------------------------------------------------

  /** Queueing adds one descriptor, or fails it at once when there is no connection. */
  lemma {:induction false} EnqueueOk(s: Sock, isRead: bool, buffer: seq<Byte>, who: Option<nat>)
    requires Inv(s) && Anchored(s, who)
    ensures Inv(Enqueue(s, isRead, buffer)) && Called(s, Enqueue(s, isRead, buffer))
    decreases |s.tape|, QueueSize(s), 6
  {
    hide Inv, Called, Increasing, Notify, IoRelease, Append, SetWant, Fits, Local, Stage, Released, Notified, Anchored;
    var t, k := RwNew(s, isRead, buffer), s.next;
    AnchorHolds(s, who);
    NoFault(s);
    RwNewOk(s, isRead, buffer);
    AboutNext(s);
    SinceNext(s);
    if s.connected {
      AppendOk(t, isRead, k);
      AppendCalled(s, isRead, buffer);
    } else {
      NewFits(s, isRead, buffer);
      NotifyOk(t, k, Failed);
      var (u, a) := Notify(t, k, Failed);
      Refused(t, u, k, a);
      IoReleaseOk(u, k);
      RefusedCalled(s, isRead, buffer, u, IoRelease(u, k), a, who);
    }
  }

  lemma SinceNext(s: Sock)
    requires Inv(s)
    ensures s.since <= s.next
  {
    hide RecordsOk, QueueOk, BytesOk, CountOk;
  }

  lemma AppendCalled(s: Sock, isRead: bool, buffer: seq<Byte>)
    requires s.connected && s.next !in s.ios
    ensures Called(s, SetWant(Append(RwNew(s, isRead, buffer), isRead, s.next), isRead, true))
  {
    EvolvesRefl(s);
    hide Evolves;
  }

  lemma NewFits(s: Sock, isRead: bool, buffer: seq<Byte>)
    ensures Fits(RwNew(s, isRead, buffer).ios[s.next], Failed)
  {
  }

  lemma Refused(t: Sock, u: Sock, k: nat, a: Action)
    requires Notified(t, u, k, Failed, a) && Untold(t.ios[k], t.ios[k].isRead) && !t.ios[k].accepted && Inv(t) && Inv(u)
    ensures k in u.ios && u.ios[k].live && u.ios[k].held == 1 && AtRest(u.ios[k], InQueue(u, k))
  {
    About(u, k);
  }

  lemma RefusedCalled(s: Sock, isRead: bool, buffer: seq<Byte>, u: Sock, r: Sock, a: Action, who: Option<nat>)
    requires Inv(s) && Inv(r) && Anchored(s, who) && !s.freed
    requires Notified(RwNew(s, isRead, buffer), u, s.next, Failed, a) && Released(u, r, s.next)
    ensures Called(s, r)
  {
    hide Inv, Local, Grows, SameConnection, Notified, Released, Anchored;
    var t, k := RwNew(s, isRead, buffer), s.next;
    RefusedGrows(t, u, r, k, a);
    NewGrows(s, isRead, buffer);
    RefusedStable(t, u, r, k, a);
    GrowsOnto(s, t, r, k);
    AnchorKeeps(s, r, who);
    SameTrans(s, t, r);
  }

  lemma NewGrows(s: Sock, isRead: bool, buffer: seq<Byte>)
    requires Inv(s)
    ensures var t := RwNew(s, isRead, buffer);
            s.next !in s.ios && t.next == s.next + 1 && t.held == s.held && t.readers == s.readers && t.writers == s.writers &&
            t.ios == s.ios[s.next := t.ios[s.next]] && SameConnection(s, t) && !t.ios[s.next].accepted &&
            Untold(t.ios[s.next], isRead)
  {
    AboutNext(s);
    hide Inv;
  }

  lemma RefusedGrows(t: Sock, u: Sock, r: Sock, k: nat, a: Action)
    requires Notified(t, u, k, Failed, a) && Released(u, r, k)
    ensures Grows(t, r, Some(k)) && (r.freed || SameConnection(t, r)) && (r.freed ==> t.held == 0)
  {
    GrowsTrans(t, u, r, Some(k));
    if !r.freed { SameTrans(t, u, r); }
    hide Grows, SameConnection, Released, Notified;
  }

  lemma RefusedStable(t: Sock, u: Sock, r: Sock, k: nat, a: Action)
    requires Notified(t, u, k, Failed, a) && Released(u, r, k) && k in t.ios && t.ios[k].held == 1 && t.ios[k].transferred == 0
    requires t.ios[k].refCount == 1 && Inv(r)
    ensures k in r.ios && Stable(r.ios[k]) && r.ios[k].transferred == 0
  {
    About(r, k);
    hide Inv, Grows;
  }

  lemma GrowsOnto(s: Sock, t: Sock, r: Sock, k: nat)
    requires Grows(t, r, Some(k)) && k !in s.ios && t.ios == s.ios[k := At(t, k)] && k in r.ios
    requires t.readers == s.readers && t.writers == s.writers && t.next >= s.next && t.held == s.held
    requires Stable(r.ios[k]) && r.ios[k].transferred == 0
    ensures Grows(s, r, None)
  {
  }
}
