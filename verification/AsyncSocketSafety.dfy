/** Every looper callback and every call of the client keeps the invariant, and leaves no frame behind. */
module AsyncSocketSafety {
  import opened AsyncIoCommon
  import opened AsyncSocketSpec
  import opened AsyncSocketSteps
  import opened AsyncSocketInvariant
  import opened AsyncSocketCallbacks
  import opened AsyncSocketCancel

  /** No code is running, except perhaps code that works on `who`. */
  predicate Quiet(s: Sock, who: Option<nat>) {
    s.pass == NoPass && forall j | j in s.ios && who != Some(j) :: Stable(s.ios[j])
  }

  /** One callback works on descriptor `k`. */
  predicate Busy(s: Sock, k: nat) {
    Inv(s) && Quiet(s, Some(k)) && k in s.ios && s.ios[k].live && s.ios[k].held == 1
  }

  /** Descriptor `k` is first in its queue and its try goes on. */
  predicate Trying(s: Sock, isRead: bool, k: nat) {
    && Busy(s, k) && Queue(s, isRead) != [] && Queue(s, isRead)[0] == k
    && Stage(s.ios[k]) == Running && s.ios[k].state != Queued
    && (s.ios[k].transferred < |s.ios[k].buffer| || s.ios[k].buffer == [])
  }

  /** Descriptor `k` had its ending and is in no queue. */
  predicate Leaving(s: Sock, k: nat) {
    Busy(s, k) && !InQueue(s, k) && !Active(Stage(s.ios[k]))
  }

  /** Whether there is a connection, what is queued from before it, who is to report one, and the timer. */
  predicate SameLink(s: Sock, r: Sock) {
    r.connected == s.connected && r.since == s.since && r.orphaned == s.orphaned && r.attempts == s.attempts && r.reconnect == s.reconnect
  }

  lemma QuietGrows(s: Sock, r: Sock, k: nat)
    requires Quiet(s, Some(k)) && Grows(s, r, Some(k)) && r.pass == s.pass
    ensures Quiet(r, Some(k))
  {
    hide Evolves, Stable;
    forall j | j in r.ios && j != k
      ensures Stable(r.ios[j])
    {
      if j in s.ios {
        EvolvesStable(s.ios[j], r.ios[j]);
      }
    }
  }

  // ----- letting go -----------------------------------------------------------------------

  lemma LetGo(s: Sock, k: nat)
    requires Busy(s, k) && AtRest(s.ios[k], InQueue(s, k))
    ensures var r := IoRelease(s, k);
            Inv(r) && Quiet(r, None) && r.held == s.held && (r.orphaned ==> s.orphaned)
    ensures s.held > 0 ==> SameConnection(s, IoRelease(s, k))
  {
    hide Inv, AtRest, IoRelease, SameConnection, IosGrow, QueueGrows, Stage;
    IoReleaseOk(s, k);
    var r := IoRelease(s, k);
    About(r, k);
    SamePass(s, r);
    LetGoStable(s, r, k);
  }

  lemma LetGoStable(s: Sock, r: Sock, k: nat)
    requires Quiet(s, Some(k)) && Released(s, r, k) && s.ios[k].held == 1 && r.pass == NoPass && Local(r.ios[k], InQueue(r, k))
    ensures Quiet(r, None)
  {
    QuietGrows(s, r, k);
    assert Stable(r.ios[k]);
    hide Stable;
  }

  lemma SamePass(s: Sock, r: Sock)
    ensures SameConnection(s, r) ==> r.pass == s.pass && SameLink(s, r)
  {
  }

  lemma LeavingAtRest(s: Sock, k: nat)
    requires Leaving(s, k)
    ensures AtRest(s.ios[k], InQueue(s, k))
  {
  }

  lemma TryingAtRest(s: Sock, isRead: bool, k: nat)
    requires Trying(s, isRead, k)
    ensures AtRest(s.ios[k], InQueue(s, k))
  {
    hide Inv, Quiet;
  }

  // ----- the parts of one try -------------------------------------------------------------

  lemma StartTry(s: Sock, isRead: bool)
    requires Inv(s) && Quiet(s, None) && Queue(s, isRead) != []
    ensures var k := Queue(s, isRead)[0];
            var t := Bump(IoRef(s, k), k);
            Busy(t, k) && Inv(t) && k in s.ios && s.ios[k].refCount > 0 && Queue(t, isRead) == Queue(s, isRead) && Fits(t.ios[k], t.ios[k].state)
            && t.ios[k].state in {Started, Continues} && t.held == s.held && SameConnection(s, t)
            && (t.ios[k].transferred < |t.ios[k].buffer| || t.ios[k].buffer == [])
            && After(Stage(t.ios[k]), Note(t.ios[k].state, Done, t.ios[k].transferred), t.ios[k].accepted, |t.ios[k].buffer|, t.ios[k].kept) == Running
  {
    hide Inv, Increasing, SameConnection;
    var k := Queue(s, isRead)[0];
    QueuedAre(s, isRead);
    About(s, k);
    HeadFront(s, isRead);
    var io := s.ios[k];
    StartLocal(io);
    hide Local, Fits, Stage, Active, Front;
    PutOk(s, k, Bumped(io));
    NoFault(s);
    BumpIs(s, k);
    SameRefl(s, Put(s, k, Bumped(io)));
  }

  lemma SameRefl(s: Sock, t: Sock)
    requires t == s.(ios := t.ios)
    ensures SameConnection(s, t)
  {
  }

  function Bumped(io: Io): Io {
    io.(refCount := io.refCount + 1, held := io.held + 1, state := if io.state == Queued then Started else Continues)
  }

  lemma BumpIs(s: Sock, k: nat)
    requires k in s.ios && s.ios[k].refCount > 0 && !s.fault
    ensures Bump(IoRef(s, k), k) == Put(s, k, Bumped(s.ios[k]))
  {
    var io := s.ios[k].(refCount := s.ios[k].refCount + 1, held := s.ios[k].held + 1);
    assert s.ios[k := io][k := Bumped(s.ios[k])] == s.ios[k := Bumped(s.ios[k])];
  }

  lemma StartLocal(io: Io)
    requires Local(io, true) && io.held == 0 && io.live
    ensures Local(Bumped(io), true) && Fits(Bumped(io), Bumped(io).state) && io.refCount > 0
    ensures After(Stage(Bumped(io)), Note(Bumped(io).state, Done, io.transferred), io.accepted, |io.buffer|, io.kept) == Running
    ensures io.transferred < |io.buffer| || io.buffer == []
  {
  }

  lemma HeadFront(s: Sock, isRead: bool)
    requires Inv(s) && Queue(s, isRead) != []
    ensures Front(s, Queue(s, isRead)[0]) && Queue(s, isRead)[0] !in Queue(s, !isRead)
  {
    QueuedAre(s, isRead);
    QueuedAre(s, !isRead);
    hide Inv;
  }

  /** The client answered that it is informed; unless it aborted, the try goes on. */
  lemma InformTry(s: Sock, isRead: bool)
    requires Inv(s) && Quiet(s, None) && Queue(s, isRead) != []
    ensures var k := Queue(s, isRead)[0];
            var t := Bump(IoRef(s, k), k);
            var (u, a) := Notify(t, k, t.ios[k].state);
            && Inv(t) && k in s.ios && s.ios[k].refCount > 0
            && Inv(u) && SameConnection(s, u) && u.held == s.held
            && (a != Abort ==> Trying(u, isRead, k))
            && (a == Abort ==> Busy(u, k) && Stage(u.ios[k]) == Ended && Queue(u, isRead) != [] && Queue(u, isRead)[0] == k)
  {
    hide Inv, Local, Fits, Bump, IoRef, Notify, Stable, SameConnection, Stage, Quiet;
    var k := Queue(s, isRead)[0];
    StartTry(s, isRead);
    var t := Bump(IoRef(s, k), k);
    NotifyOk(t, k, t.ios[k].state);
    var (u, a) := Notify(t, k, t.ios[k].state);
    SameTrans(s, t, u);
    SamePass(t, u);
    QuietGrows(t, u, k);
  }

  /** Taking a descriptor out of its queue drops the queue's reference; the callback's remains. */
  lemma DetachOk(s: Sock, isRead: bool, i: nat, k: nat)
    requires Busy(s, k) && i < |Queue(s, isRead)| && Queue(s, isRead)[i] == k
    ensures var r := IoRelease(Unlink(s, isRead, i), k);
            Busy(r, k) && !InQueue(r, k) && r.ios[k] == s.ios[k].(refCount := s.ios[k].refCount - 1)
            && SameConnection(s, r) && r.held == s.held
  {
    hide Inv, Local, SameConnection, IoRelease, Unlink, IosGrow, Stable, AtRest, Increasing;
    UnlinkOk(s, isRead, i);
    UnlinkInQueue(s, isRead, i, k);
    UnlinkAt(s, isRead, i, k);
    var t := Unlink(s, isRead, i);
    About(t, k);
    HeldCounts(t.ios[k], false);
    IoReleaseOk(t, k);
    var r := IoRelease(t, k);
    NoFault(r);
    GrowsInQueue(t, r, Some(k), k);
    SameTrans(s, t, r);
    SamePass(s, r);
    QuietGrows(t, r, k);
  }

  lemma UnlinkAt(s: Sock, isRead: bool, i: nat, k: nat)
    requires i < |Queue(s, isRead)| && Queue(s, isRead)[i] == k && k in s.ios && Quiet(s, Some(k))
    ensures var t := Unlink(s, isRead, i);
            t.ios == s.ios[k := s.ios[k].(held := s.ios[k].held + 1)] && t.held == s.held && SameConnection(s, t) && Quiet(t, Some(k))
  {
  }

  lemma AdvanceOk(s: Sock, isRead: bool, k: nat)
    requires Busy(s, k) && Queue(s, isRead) != [] && Queue(s, isRead)[0] == k
    ensures var r := Advance(s, isRead);
            Busy(r, k) && !InQueue(r, k) && r.ios[k] == s.ios[k].(refCount := s.ios[k].refCount - 1)
            && SameConnection(s, r) && r.held == s.held
  {
    hide Busy, SameConnection, IoRelease, Unlink;
    DetachOk(s, isRead, 0, k);
  }

  lemma RearmOk(s: Sock, isRead: bool, k: nat)
    requires Leaving(s, k)
    ensures var r := Rearm(s, isRead);
            Leaving(r, k) && r.held == s.held && SameLink(s, r)
  {
    hide Inv, Stage;
    WantOk(s, isRead, Queue(s, isRead) != []);
  }

  /** Ends a callback on a descriptor that is out of its queue. */
  lemma EndTry(s: Sock, isRead: bool, k: nat)
    requires Leaving(s, k) && s.held > 0
    ensures var r := IoRelease(Rearm(s, isRead), k);
            Inv(r) && Quiet(r, None) && r.held == s.held && SameLink(s, r)
  {
    hide Leaving, Rearm, IoRelease, Quiet, Inv, SameConnection;
    RearmOk(s, isRead, k);
    var t := Rearm(s, isRead);
    LeavingAtRest(t, k);
    assert Busy(t, k) by { LeavingBusy(t, k); }
    LetGo(t, k);
    SamePass(t, IoRelease(t, k));
  }

  lemma LeavingBusy(s: Sock, k: nat)
    requires Leaving(s, k)
    ensures Busy(s, k)
  {
  }

  lemma Aborted(s: Sock, isRead: bool, k: nat)
    requires Busy(s, k) && Queue(s, isRead) != [] && Queue(s, isRead)[0] == k && Stage(s.ios[k]) == Ended && s.held > 0
    ensures var r := IoRelease(Rearm(Advance(s, isRead), isRead), k);
            Inv(r) && Quiet(r, None) && r.held == s.held && SameLink(s, r)
  {
    hide Rearm, Advance, IoRelease, Inv, Quiet, SameConnection, Stage;
    AdvanceOk(s, isRead, k);
    var t := Advance(s, isRead);
    SamePass(s, t);
    RefOnly(s, t, k);
    EndTry(t, isRead, k);
  }

  lemma RefOnly(s: Sock, t: Sock, k: nat)
    requires k in s.ios && k in t.ios && t.ios[k] == s.ios[k].(refCount := s.ios[k].refCount - 1)
    ensures Stage(t.ios[k]) == Stage(s.ios[k])
  {
  }

  lemma Blocked(s: Sock, isRead: bool, k: nat)
    requires Trying(s, isRead, k) && s.connected && s.held > 0
    ensures var r := IoRelease(SetWant(s, isRead, true), k);
            Inv(r) && Quiet(r, None) && r.held == s.held && SameLink(s, r)
  {
    hide Inv, Stage, IoRelease, SameConnection;
    WantOk(s, isRead, true);
    var t := SetWant(s, isRead, true);
    assert Trying(t, isRead, k);
    TryingAtRest(t, isRead, k);
    LetGo(t, k);
    SamePass(t, IoRelease(t, k));
  }

  // ----- reports --------------------------------------------------------------------------

  /** A report to the descriptor a callback works on, whether it is queued or not. */
  lemma ReportOk(s: Sock, k: nat, event: State)
    requires Busy(s, k) && Fits(s.ios[k].(timerOn := false), event)
    ensures var (r, a) := Report(s, k, event);
            && Busy(r, k) && Notified(StopIoTimer(s, k), r, k, event, a) && SameConnection(s, r) && r.held == s.held
            && InQueue(r, k) == InQueue(s, k)
  {
    hide Inv, Local, Fits, Notify, Stable, SameConnection, Stage, IosGrow;
    StopOk(s, k);
    StopIs(s, k);
    var t := StopIoTimer(s, k);
    NotifyOk(t, k, event);
    var (r, a) := Notify(t, k, event);
    GrowsInQueue(t, r, Some(k), k);
    SameTrans(s, t, r);
    SamePass(t, r);
    SamePass(s, t);
    CalledGrows(s, t, k);
    hide StopIoTimer;
    QuietGrows(s, t, k);
    QuietGrows(t, r, k);
  }

  lemma StopIs(s: Sock, k: nat)
    requires k in s.ios
    ensures StopIoTimer(s, k) == s.(ios := s.ios[k := s.ios[k].(timerOn := false)])
  {
  }

  lemma StageOf(io: Io)
    ensures Stage(io.(timerOn := false)) == Stage(io)
  {
  }

  lemma FailedFits(io: Io)
    requires Stage(io) == Running && io.live && io.held > 0
    ensures Fits(io.(timerOn := false), Failed)
  {
  }

  lemma SucceededFits(io: Io)
    requires Stage(io) == Running && io.live && io.held > 0 && io.transferred == |io.buffer| && io.accepted
    ensures Fits(io.(timerOn := false), Succeeded)
  {
  }

  lemma Erred(s: Sock, isRead: bool, k: nat)
    requires Trying(s, isRead, k) && s.held > 0
    ensures var (t, a) := Report(s, k, Failed);
            var r := IoRelease(if a != Retry then Rearm(Advance(t, isRead), isRead) else t, k);
            Inv(r) && Quiet(r, None) && r.held == s.held && SameLink(s, r)
  {
    hide Inv, Local, Fits, Report, SameConnection, Stage, IosGrow, Advance, Rearm, IoRelease, Quiet;
    FailedFits(s.ios[k]);
    ReportOk(s, k, Failed);
    var (t, a) := Report(s, k, Failed);
    ReportedHead(s, t, isRead, k, Failed, a);
    SamePass(s, t);
    if a != Retry {
      AdvanceOk(t, isRead, k);
      var u := Advance(t, isRead);
      SamePass(t, u);
      RefOnly(t, u, k);
      EndTry(u, isRead, k);
    } else {
      TryingAtRest(t, isRead, k);
      LetGo(t, k);
      SamePass(t, IoRelease(t, k));
    }
  }

  /** After a report the descriptor is where it was, with its progress, and its phase moved on. */
  lemma ReportedHead(s: Sock, t: Sock, isRead: bool, k: nat, event: State, a: Action)
    requires k in s.ios && Notified(StopIoTimer(s, k), t, k, event, a)
    ensures Queue(s, isRead) != [] ==> Queue(t, isRead) != [] && Queue(t, isRead)[0] == Queue(s, isRead)[0]
    ensures t.ios[k].transferred == s.ios[k].transferred && t.ios[k].buffer == s.ios[k].buffer && t.ios[k].state == s.ios[k].state
    ensures Stage(t.ios[k]) == After(Stage(s.ios[k]), Note(event, a, s.ios[k].transferred), s.ios[k].accepted, |s.ios[k].buffer|, s.ios[k].kept)
  {
    StopIs(s, k);
    StageOf(s.ios[k]);
    hide IosGrow, SameConnection;
  }

  // ----- transfers ------------------------------------------------------------------------

  lemma TransferIs(s: Sock, isRead: bool, k: nat, chunk: seq<Byte>)
    requires k in s.ios && s.ios[k].transferred + |chunk| <= |s.ios[k].buffer|
    requires !isRead ==> chunk == s.ios[k].buffer[s.ios[k].transferred..s.ios[k].transferred + |chunk|]
    ensures var r := Transfer(s, isRead, k, chunk);
            k in r.ios && r == Gained(s, isRead, k, r.ios[k], chunk)
            && r.ios[k] == s.ios[k].(buffer := r.ios[k].buffer, transferred := s.ios[k].transferred + |chunk|)
            && |r.ios[k].buffer| == |s.ios[k].buffer| && Slice(r.ios[k]) == Slice(s.ios[k]) + chunk
  {
  }

  lemma Transferred(s: Sock, isRead: bool, k: nat, bytes: seq<Byte>)
    requires Trying(s, isRead, k) && s.connected && Chunk(s.ios[k], bytes) != [] && s.ios[k].isRead == isRead
    ensures var t := Transfer(s, isRead, k, Chunk(s.ios[k], bytes));
            && Busy(t, k) && Queue(t, isRead) == Queue(s, isRead) && SameLink(s, t) && t.held == s.held
            && Stage(t.ios[k]) == Running && t.ios[k].state != Queued && t.ios[k].transferred <= |t.ios[k].buffer| && t.ios[k].accepted
  {
    hide Inv, Stage, Transfer, Slice;
    var chunk := Chunk(s.ios[k], bytes);
    TransferIs(s, isRead, k, chunk);
    var t := Transfer(s, isRead, k, chunk);
    About(s, k);
    TransferOk(s, isRead, k, t.ios[k], chunk);
    DataStage(s.ios[k], t.ios[k]);
    assert k in Queue(s, isRead);
  }

  lemma DataStage(a: Io, b: Io)
    requires b == a.(buffer := b.buffer, transferred := b.transferred) && |b.buffer| == |a.buffer|
    ensures Stage(b) == Stage(a)
  {
  }

  /** The I/O is complete: it leaves the queue first, and is reported then. */
  lemma Completed(s: Sock, isRead: bool, k: nat)
    requires Busy(s, k) && Queue(s, isRead) != [] && Queue(s, isRead)[0] == k && s.held > 0
    requires Stage(s.ios[k]) == Running && s.ios[k].transferred == |s.ios[k].buffer| && s.ios[k].accepted
    ensures var r := IoRelease(Rearm(Report(Advance(s, isRead), k, Succeeded).0, isRead), k);
            Inv(r) && Quiet(r, None) && r.held == s.held && SameLink(s, r)
  {
    hide Inv, Local, Fits, Report, SameConnection, Stage, IosGrow, Advance, Rearm, IoRelease, Quiet;
    AdvanceOk(s, isRead, k);
    var t := Advance(s, isRead);
    RefOnly(s, t, k);
    SucceededFits(t.ios[k]);
    ReportOk(t, k, Succeeded);
    var (u, a) := Report(t, k, Succeeded);
    ReportedHead(t, u, isRead, k, Succeeded, a);
    SamePass(s, t);
    SamePass(t, u);
    EndTry(u, isRead, k);
  }

  /** There is more to move: the descriptor stays first and interest stays on. */
  lemma Progressed(s: Sock, isRead: bool, k: nat)
    requires Trying(s, isRead, k) && s.held > 0
    ensures var r := IoRelease(Rearm(s, isRead), k);
            Inv(r) && Quiet(r, None) && r.held == s.held && SameLink(s, r)
  {
    hide Inv, Stage, IoRelease, SameConnection;
    WantOk(s, isRead, true);
    var t := Rearm(s, isRead);
    assert Trying(t, isRead, k);
    TryingAtRest(t, isRead, k);
    LetGo(t, k);
    SamePass(t, IoRelease(t, k));
  }

  // ----- disconnection --------------------------------------------------------------------

  /** Every queued descriptor is active, also the one a callback works on. */
  predicate Cancellable(s: Sock, who: Option<nat>) {
    && Inv(s) && Quiet(s, who) && s.held > 0
    && (who.Some? ==> Busy(s, who.value) && (InQueue(s, who.value) <==> Active(Stage(s.ios[who.value]))))
  }

  lemma CancellableActive(s: Sock, who: Option<nat>, isRead: bool)
    requires Cancellable(s, who)
    ensures ActiveQueue(s, isRead)
  {
    hide Inv, Stage;
    QueuedAre(s, isRead);
    forall j | j in Queue(s, isRead)
      ensures j in s.ios && Active(Stage(s.ios[j]))
    {
      if who != Some(j) {
        StableActive(s, j);
      }
    }
  }

  lemma CancelQuiet(s: Sock, who: Option<nat>)
    requires Cancellable(s, who)
    ensures var r := CancelAll(s);
            && Inv(r) && Quiet(r, who) && r.held == s.held && r.connected == s.connected && CancelsAll(s, r)
            && (who.Some? ==> Leaving(r, who.value))
  {
    hide Inv, Stage, CancelAll, Stable, Evolves, Over, CancelsAll, ActiveQueue;
    CancellableActive(s, who, true);
    CancellableActive(s, who, false);
    CancelAllOk(s);
    CanceledQuiet(s, CancelAll(s), who);
    if who.Some? {
      CanceledLeaving(s, CancelAll(s), who.value);
    }
  }

  lemma CanceledQuiet(s: Sock, r: Sock, who: Option<nat>)
    requires Quiet(s, who) && CancelsAll(s, r)
    ensures Quiet(r, who) && r.held == s.held && r.connected == s.connected
  {
    hide Stable, Evolves, Over;
    forall j | j in r.ios && who != Some(j)
      ensures Stable(r.ios[j])
    {
      if j in s.ios {
        if InQueue(s, j) {
          RestOver(s.ios[j], r.ios[j]);
        } else {
          EvolvesStable(s.ios[j], r.ios[j]);
        }
      }
    }
  }

  lemma CanceledLeaving(s: Sock, r: Sock, k: nat)
    requires Busy(s, k) && (InQueue(s, k) <==> Active(Stage(s.ios[k]))) && CancelsAll(s, r) && Inv(r) && Quiet(r, Some(k))
    ensures Leaving(r, k)
  {
    hide Inv, Stage;
    About(s, k);
  }

  lemma RestOver(a: Io, b: Io)
    requires Stable(a) && Over(a, b)
    ensures Stable(b)
  {
  }

  lemma CancelClose(s: Sock, who: Option<nat>)
    requires Cancellable(s, who)
    ensures var r := Close(CancelAll(s));
            Inv(r) && Quiet(r, who) && r.held == s.held && !r.connected && (who.Some? ==> Leaving(r, who.value))
  {
    hide Inv, Stage, CancelAll, Over, Stable, Evolves;
    CancelQuiet(s, who);
    CloseOk(CancelAll(s));
  }

  lemma ClientQuiet(s: Sock, who: Option<nat>)
    requires Inv(s) && Quiet(s, who) && s.held > 0 && (who.Some? ==> Leaving(s, who.value))
    ensures var r := Client(s).0;
            && Inv(r) && Quiet(r, who) && r.held == s.held && SameConnection(s, r) && Called(s, r)
            && (who.Some? ==> Leaving(r, who.value))
  {
    hide Inv, Stage, Client, Stable, Evolves, SameConnection, QueueGrows;
    ClientOk(s, None);
    var r := Client(s).0;
    SamePass(s, r);
    forall j | j in r.ios && who != Some(j)
      ensures Stable(r.ios[j])
    {
      if j in s.ios {
        EvolvesStable(s.ios[j], r.ios[j]);
      }
    }
    if who.Some? {
      GrowsInQueue(s, r, None, who.value);
      HeldEvolves(s.ios[who.value], r.ios[who.value]);
    }
  }

  lemma HeldEvolves(a: Io, b: Io)
    requires Evolves(a, b) && a.held > 0
    ensures b.live == a.live && Stage(b) == Stage(a) && b.held == a.held
  {
    hide Stage;
  }

  /** The connection was lost, and a client that answers RETRY has the timer started. */
  predicate Severed(s: Sock, r: Sock) {
    !r.connected && r.attempts == s.attempts && (r.reconnect <==> Client(Disconnect(s)).1 == Retry)
  }

  lemma DisconnectedOk(s: Sock, k: nat)
    requires Cancellable(s, Some(k))
    ensures var r := Disconnected(s);
            Leaving(r, k) && r.held == s.held && Severed(s, r)
  {
    hide Inv, Stage, Client, CancelAll, Close, Quiet, SameConnection, CancelsAll;
    CancelQuiet(s, Some(k));
    CancelClose(s, Some(k));
    var t := Close(CancelAll(s));
    CanceledLink(s, CancelAll(s));
    ClientQuiet(t, Some(k));
    var (u, a) := Client(t);
    SamePass(t, u);
    if a == Retry {
      CancelQuiet(u, Some(k));
      CanceledLink(u, CancelAll(u));
      TimerRuns(CancelAll(u), k);
    }
  }

  /** Cancelling stops the timer, and closing has nothing to do with it. */
  lemma CanceledLink(s: Sock, r: Sock)
    requires CancelsAll(s, r)
    ensures r.connected == s.connected && r.attempts == s.attempts && !r.reconnect
    ensures Close(r).attempts == r.attempts && Close(r).reconnect == r.reconnect && !Close(r).connected
  {
    hide Over, Evolves, Stable;
  }

  /** The reconnection timer is nobody else's business. */
  lemma TimerRuns(s: Sock, k: nat)
    requires Leaving(s, k)
    ensures Leaving(s.(reconnect := true), k)
  {
    Referenced(s);
    hide RecordsOk, QueueOk, BytesOk, CountOk, Stable, Stage;
  }

  // ----- the looper's callbacks -----------------------------------------------------------

  lemma AttemptOk(s: Sock, isRead: bool, k: nat, outcome: Outcome)
    requires Trying(s, isRead, k) && s.connected && s.held > 0
    ensures var (r, ok) := Attempt(s, isRead, k, outcome);
            && Inv(r) && Quiet(r, None) && r.held == s.held && r.attempts == s.attempts
            && (if outcome.Moved? && Chunk(s.ios[k], outcome.bytes) == [] then !ok && Severed(s, r) else SameLink(s, r))
  {
    hide Inv, Stage, IoRelease, SetWant, Report, Rearm, Advance, Disconnected, Transfer, Quiet, Chunk, SameConnection, Severed;
    match outcome
    case WouldBlock => Blocked(s, isRead, k);
    case Error => Erred(s, isRead, k);
    case Moved(bytes) =>
      var chunk := Chunk(s.ios[k], bytes);
      QueuedAre(s, isRead);
      if chunk == [] {
        TryingCancellable(s, isRead, k);
        DisconnectedOk(s, k);
        var t := Disconnected(s);
        LeavingAtRest(t, k);
        LetGo(t, k);
        SeveredSame(s, t, IoRelease(t, k));
      } else {
        Transferred(s, isRead, k, bytes);
        var t := Transfer(s, isRead, k, chunk);
        if t.ios[k].transferred == |t.ios[k].buffer| {
          Completed(t, isRead, k);
        } else {
          Progressed(t, isRead, k);
        }
      }
  }

  lemma SeveredSame(s: Sock, t: Sock, r: Sock)
    requires Severed(s, t) && SameConnection(t, r)
    ensures Severed(s, r) && r.attempts == s.attempts
  {
    hide Client, Disconnect;
  }

  lemma TryingCancellable(s: Sock, isRead: bool, k: nat)
    requires Trying(s, isRead, k) && s.held > 0
    ensures Cancellable(s, Some(k))
  {
    hide Inv, Stage;
  }

  lemma ReadyOk(s: Sock, isRead: bool, outcome: Outcome)
    requires Inv(s) && Quiet(s, None) && s.connected && s.held > 0
    ensures var (r, ok) := Ready(s, isRead, outcome);
            && Inv(r) && Quiet(r, None) && r.held == s.held && r.attempts == s.attempts
            && (if LostAt(s, isRead, outcome).Some? then !ok && Severed(LostAt(s, isRead, outcome).value, r) else SameLink(s, r))
  {
    hide Inv, Stage, IoRelease, SetWant, Rearm, Advance, Chunk, Attempt, Notify, Bump, IoRef, Quiet, SameConnection, Severed;
    if Queue(s, isRead) == [] {
      WantOk(s, isRead, false);
      WantFrame(s, isRead, false);
    } else {
      var k := Queue(s, isRead)[0];
      InformTry(s, isRead);
      StartKeeps(s, k);
      var t := Bump(IoRef(s, k), k);
      var (u, a) := Notify(t, k, t.ios[k].state);
      SamePass(s, u);
      if a == Abort {
        Aborted(u, isRead, k);
      } else {
        AttemptOk(u, isRead, k, outcome);
      }
    }
  }

  lemma StartKeeps(s: Sock, k: nat)
    ensures k in Bump(IoRef(s, k), k).ios
  {
  }

  lemma WantFrame(s: Sock, isRead: bool, on: bool)
    ensures SetWant(s, isRead, on).ios == s.ios && SetWant(s, isRead, on).pass == s.pass
    ensures Quiet(s, None) ==> Quiet(SetWant(s, isRead, on), None)
    ensures SetWant(s, isRead, on).held == s.held && SameLink(s, SetWant(s, isRead, on))
  {
  }

  /** Nothing runs. */
  predicate Idle(s: Sock) {
    Inv(s) && Quiet(s, None) && s.held == 0
  }

  lemma Referenced(s: Sock)
    requires Inv(s)
    ensures s.connected ==> s.refCount > 0
    ensures s.clientRefs > 0 ==> s.refCount > 0
    ensures forall k | k in s.ios && s.ios[k].live :: s.refCount > 0
  {
    NoFault(s);
    hide RecordsOk, QueueOk, BytesOk, Live;
  }

  lemma SockRefOk(s: Sock)
    requires Idle(s) && s.refCount > 0
    ensures var t := SockRef(s); Inv(t) && Quiet(t, None) && t.held == 1 && t.refCount > 0 && SameLink(s, t) && t.ios == s.ios
  {
    NoFault(s);
    SockHeldOk(s, 1);
    hide Inv;
  }

  /** The last line of a callback. */
  lemma SockDone(s: Sock)
    requires Inv(s) && Quiet(s, None) && s.held == 1
    ensures Idle(SockRelease(s)) && (SockRelease(s).orphaned ==> s.orphaned)
  {
    hide Inv, SockRelease, Stable;
    SockReleaseOk(s);
  }

  lemma LooperIoOk(s: Sock, readable: Option<Outcome>, writable: Option<Outcome>)
    requires Idle(s) && s.connected
    ensures Idle(LooperIo(s, readable, writable))
    ensures Loses(s, readable, writable).None? ==> LooperIo(s, readable, writable).orphaned ==> s.orphaned
  {
    hide Inv, Quiet, Ready, LostAt, SockRelease, SockRef;
    Referenced(s);
    SockRefOk(s);
    var t := SockRef(s);
    var (u, ok) := if readable.Some? then Ready(t, true, readable.value) else (t, true);
    if readable.Some? {
      ReadyOk(t, true, readable.value);
    }
    if ok && writable.Some? {
      ReadyOk(u, false, writable.value);
    }
    SockDone(if ok && writable.Some? then Ready(u, false, writable.value).0 else u);
  }

  // ----- time-outs ------------------------------------------------------------------------

  /** A running timer belongs to a descriptor that is queued, or that its client keeps. */
  lemma TimerFits(io: Io, queued: bool)
    requires Local(io, queued) && Stable(io) && io.live && io.timerOn
    ensures Fits(io.(refCount := io.refCount + 1, held := 1, timerOn := false), TimedOut)
    ensures Local(io.(refCount := io.refCount + 1, held := 1, timerOn := false), queued)
    ensures io.refCount > 0
  {
  }

  lemma TimerIs(s: Sock, k: nat)
    requires k in s.ios && s.ios[k].refCount > 0 && !s.fault && s.ios[k].held == 0
    ensures IoRef(StopIoTimer(s, k), k) == Put(s, k, s.ios[k].(refCount := s.ios[k].refCount + 1, held := 1, timerOn := false))
  {
    var io := s.ios[k].(timerOn := false);
    StopIs(s, k);
    assert StopIoTimer(s, k).ios[k] == io;
    hide StopIoTimer;
    PutTwice(s.ios, k, io, io.(refCount := io.refCount + 1, held := 1));
  }

  lemma PutTwice(ios: Ios, k: nat, a: Io, b: Io)
    ensures ios[k := a][k := b] == ios[k := b]
  {
  }

  /** After the client heard of the time-out: the descriptor is settled, or goes on as it was. */
  lemma TimedOutStage(io: Io, queued: bool, u: Io, a: Action)
    requires Local(io, queued) && Stable(io) && io.live && io.timerOn
    requires Stage(u) == After(Stage(io), Note(TimedOut, a, io.transferred), io.accepted, |io.buffer|, io.kept)
    requires u.state == io.state && u.transferred == io.transferred && u.buffer == io.buffer
    ensures if a == Retry && queued then AtRest(u, true) else Stage(u) == Settled
  {
  }

  lemma StartTimeOut(s: Sock, k: nat)
    requires Idle(s) && k in s.ios && s.ios[k].live && s.ios[k].timerOn
    ensures var t := IoRef(StopIoTimer(s, k), k);
            && Busy(t, k) && s.ios[k].refCount > 0 && Fits(t.ios[k], TimedOut) && t.held == 0 && t.readers == s.readers && t.writers == s.writers && SameLink(s, t)
            && t.ios[k] == s.ios[k].(refCount := s.ios[k].refCount + 1, held := 1, timerOn := false)
  {
    hide Inv, Local, Fits, Stage, IoRef, StopIoTimer, InQueue, Stable;
    AboutLocal(s, k);
    NoFault(s);
    StableHeld(s, k);
    var io := s.ios[k];
    var t := io.(refCount := io.refCount + 1, held := 1, timerOn := false);
    TimerFits(io, InQueue(s, k));
    TimerIs(s, k);
    PutLive(s, k, t);
    PutQuiet(s, k, t);
  }

  lemma PutLive(s: Sock, k: nat, io: Io)
    requires Inv(s) && k in s.ios && Local(io, InQueue(s, k))
    requires io == s.ios[k].(refCount := io.refCount, held := io.held, timerOn := io.timerOn)
    ensures Inv(Put(s, k, io))
  {
    hide Inv, Local, InQueue;
    PutOk(s, k, io);
  }

  lemma PutQuiet(s: Sock, k: nat, io: Io)
    requires Quiet(s, None)
    ensures Quiet(Put(s, k, io), Some(k)) && SameLink(s, Put(s, k, io)) && InQueue(Put(s, k, io), k) == InQueue(s, k)
  {
    hide Stable;
  }

  lemma InformTimeOut(s: Sock, k: nat)
    requires Idle(s) && k in s.ios && s.ios[k].live && s.ios[k].timerOn
    ensures var (t, a) := Notify(IoRef(StopIoTimer(s, k), k), k, TimedOut);
            && Busy(t, k) && t.held == 0 && SameLink(s, t) && InQueue(t, k) == InQueue(s, k) && t.ios[k].isRead == s.ios[k].isRead
            && (if a == Retry && InQueue(t, k) then AtRest(t.ios[k], true) else Stage(t.ios[k]) == Settled)
  {
    hide Inv, Local, Fits, Stage, Notify, IoRef, StopIoTimer, IosGrow, SameConnection, AtRest, Increasing, Stable;
    About(s, k);
    StartTimeOut(s, k);
    var t := IoRef(StopIoTimer(s, k), k);
    RefStage(s.ios[k], t.ios[k]);
    NotifyOk(t, k, TimedOut);
    var (u, a) := Notify(t, k, TimedOut);
    GrowsInQueue(t, u, Some(k), k);
    TimedOutStage(s.ios[k], InQueue(s, k), u.ios[k], a);
    SamePass(t, u);
    QuietGrows(t, u, k);
  }

  lemma RefStage(a: Io, b: Io)
    requires b == a.(refCount := b.refCount, held := b.held, timerOn := b.timerOn)
    ensures Stage(b) == Stage(a)
  {
  }

  lemma PositionFinds(q: seq<nat>, k: nat)
    ensures k in q <==> Position(q, k) < |q|
  {
  }

  /** A descriptor that is over is taken out of its queue, if it is in there. */
  lemma RemoveOk(s: Sock, k: nat)
    requires Busy(s, k) && Stage(s.ios[k]) == Settled
    ensures var r := RemoveIo(s, s.ios[k].isRead, k);
            Leaving(r, k) && r.held == s.held && SameLink(s, r)
  {
    hide Inv, Stage, Unlink, IoRelease, Stable, SameConnection, Position;
    var isRead := s.ios[k].isRead;
    PositionFinds(Queue(s, isRead), k);
    QueuedAre(s, !isRead);
    var i := Position(Queue(s, isRead), k);
    if i < |Queue(s, isRead)| {
      DetachOk(s, isRead, i, k);
      SamePass(s, IoRelease(Unlink(s, isRead, i), k));
      RefOnly(s, IoRelease(Unlink(s, isRead, i), k), k);
    }
  }

  lemma IoTimedOutOk(s: Sock, k: nat)
    requires Idle(s) && k in s.ios && s.ios[k].live && s.ios[k].timerOn
    ensures Idle(IoTimedOut(s, k)) && (IoTimedOut(s, k).orphaned ==> s.orphaned)
  {
    hide Inv, Stage, Notify, IoRef, StopIoTimer, RemoveIo, IoRelease, Quiet, AtRest, SameConnection;
    InformTimeOut(s, k);
    var (t, a) := Notify(IoRef(StopIoTimer(s, k), k), k, TimedOut);
    if a != Retry {
      RemoveOk(t, k);
      var u := RemoveIo(t, t.ios[k].isRead, k);
      LeavingAtRest(u, k);
      LetGo(u, k);
    } else {
      if !InQueue(t, k) {
        LeavingAtRest(t, k);
      }
      LetGo(t, k);
    }
  }

  // ----- the connection -------------------------------------------------------------------

  lemma AcceptOk(s: Sock)
    requires Inv(s) && Quiet(s, None) && !s.connected && s.refCount > 0
    ensures Inv(Accept(s)) && Quiet(Accept(s), None)
  {
    hide RecordsOk, QueueOk, BytesOk, CountOk, Stable;
    AcceptBytes(s, true);
    AcceptBytes(s, false);
    ConnectedQueue(s.ios, s.readers, true);
    ConnectedQueue(s.ios, s.writers, false);
  }

  lemma ConnectedQueue(ios: Ios, q: seq<nat>, isRead: bool)
    requires QueueOk(ios, q, isRead, false)
    ensures QueueOk(ios, q, isRead, true)
  {
  }

  lemma AcceptBytes(s: Sock, isRead: bool)
    requires Inv(s) && !s.connected
    ensures BytesOk(s.ios, Queue(s, isRead), Queue(s, isRead), [], isRead)
  {
    QueueStates(s, isRead);
    hide Inv, BytesOk;
    NoBytes(s.ios, Queue(s, isRead), isRead);
  }

  lemma NoBytes(ios: Ios, q: seq<nat>, isRead: bool)
    requires Increasing(q) && forall k | k in q :: k in ios && ios[k].isRead == isRead && ios[k].transferred == 0
    ensures BytesOk(ios, q, q, [], isRead)
  {
    FlatEmpty(ios, q);
    hide Flat;
  }

  /** Nothing that is queued on a closed connection has moved a byte. */
  lemma QueueStates(s: Sock, isRead: bool)
    requires Inv(s)
    ensures Increasing(Queue(s, isRead))
    ensures forall k | k in Queue(s, isRead) :: k in s.ios && s.ios[k].isRead == isRead && (!s.connected ==> s.ios[k].transferred == 0)
  {
    var q := Queue(s, isRead);
    assert QueueOk(s.ios, q, isRead, s.connected);
    forall k | k in q
      ensures s.ios[k].state == Queued ==> s.ios[k].transferred == 0
    {
      About(s, k);
    }
    hide Inv;
  }

  /** What a fresh connection has queued has moved nothing yet, so it can be closed at once. */
  lemma DiscardOk(s: Sock, u: Sock)
    requires Inv(s) && !s.connected && s.refCount > 0 && Inv(u) && Called(Accept(s), u) && Quiet(u, None)
    ensures Inv(Close(u)) && Quiet(Close(u), None) && Close(u).held == u.held
  {
    FreshHead(s, u, true);
    FreshHead(s, u, false);
    hide Inv, Called, Stable;
    CloseOk(u);
  }

  lemma FreshHead(s: Sock, u: Sock, isRead: bool)
    requires Inv(s) && !s.connected && Inv(u) && Called(Accept(s), u)
    ensures Queue(u, isRead) != [] ==> Queue(u, isRead)[0] in u.ios && u.ios[Queue(u, isRead)[0]].transferred == 0
  {
    hide Inv, Increasing, Evolves, Stable, SameConnection;
    QueuedAre(u, isRead);
    QueueStates(s, isRead);
    AboutNext(s);
    var q, r := Queue(s, isRead), Queue(u, isRead);
    if r != [] {
      assert r[0] in r;
      if r[0] in q {
        EvolvesMoves(s.ios[r[0]], u.ios[r[0]]);
      }
    }
  }

  lemma ConnectorEventOk(s: Sock, event: State)
    requires Idle(s) && s.refCount > 0 && (event == Succeeded ==> !s.connected)
    ensures Idle(ConnectorEvent(s, event).0)
    ensures event != Succeeded ==> ConnectorEvent(s, event).0.orphaned ==> s.orphaned
  {
    hide Inv, Client, Accept, Close, SockRelease, SockRef, SameConnection, Called, Stable, Forgotten;
    SockRefOk(s);
    var t := SockRef(s);
    if event == Succeeded {
      AcceptOk(t);
      AcceptHeld(t);
      ClientQuiet(Accept(t), None);
      var (u, a) := Client(Accept(t));
      DiscardOk(t, u);
      ReportEnds(if a != Done then Close(u) else u, a);
    } else {
      ClientQuiet(t, None);
      var (u, a) := Client(t);
      SamePass(t, u);
      ReportEnds(u, a);
    }
  }

  /** The end of a report: the connector is let go of unless the client retries. */
  lemma ReportEnds(s: Sock, a: Action)
    requires Inv(s) && Quiet(s, None) && s.held == 1
    ensures var r := SockRelease(if a != Retry then Forgotten(s) else s);
            Idle(r) && (r.orphaned ==> s.orphaned)
  {
    hide Inv, SockRelease, Forgotten, Quiet;
    if a != Retry {
      ForgottenOk(s);
      SockDone(Forgotten(s));
    } else {
      SockDone(s);
    }
  }

  lemma ForgottenOk(s: Sock)
    requires Inv(s) && Quiet(s, None)
    ensures var r := Forgotten(s); Inv(r) && Quiet(r, None) && r.held == s.held && r.orphaned == s.orphaned
  {
    AttemptsOk(s, Forgotten(s).attempts);
    hide Inv, Quiet;
  }

  /** Who is to report a connection is nobody else's business. */
  lemma AttemptsOk(s: Sock, n: nat)
    requires Inv(s) && Quiet(s, None)
    ensures Inv(s.(attempts := n)) && Quiet(s.(attempts := n), None)
  {
    hide RecordsOk, QueueOk, BytesOk, CountOk, Awake, Stable;
    assert Awake(s.(attempts := n)) by { AwakeSame(s, n); }
  }

  lemma AwakeSame(s: Sock, n: nat)
    requires Awake(s)
    ensures Awake(s.(attempts := n))
  {
  }

  lemma AcceptHeld(s: Sock)
    ensures Accept(s).held == s.held
  {
  }

  // ----- calls of the client --------------------------------------------------------------

  lemma LendOk(s: Sock)
    requires Idle(s) && s.clientRefs > 0
    ensures Inv(Lend(s)) && Quiet(Lend(s), None) && Lend(s).held == 1 && Anchored(Lend(s), None) && Lend(s).orphaned == s.orphaned
  {
    NoFault(s);
    hide RecordsOk, QueueOk, BytesOk, Live;
  }

  lemma ReturnOk(s: Sock)
    requires Inv(s) && Quiet(s, None) && s.held == 1
    ensures Idle(Return(s))
  {
    hide RecordsOk, QueueOk, BytesOk, Live;
  }

  lemma CallQueueOk(s: Sock, isRead: bool, buffer: seq<Byte>)
    requires Idle(s) && s.clientRefs > 0
    ensures var r := Return(Enqueue(Lend(s), isRead, buffer)); Idle(r) && (r.orphaned ==> s.orphaned)
  {
    hide Inv, Lend, Enqueue, Stable, SameConnection, Evolves, Anchored;
    LendOk(s);
    EnqueueOk(Lend(s), isRead, buffer, None);
    var t := Enqueue(Lend(s), isRead, buffer);
    SamePass(Lend(s), t);
    CalledQuiet(Lend(s), t);
    ReturnOk(t);
  }

  lemma CalledQuiet(s: Sock, r: Sock)
    requires Quiet(s, None) && Called(s, r)
    ensures Quiet(r, None) && r.held == s.held
  {
    hide Stable, Evolves, QueueGrows;
    forall j | j in r.ios
      ensures Stable(r.ios[j])
    {
      if j in s.ios {
        EvolvesStable(s.ios[j], r.ios[j]);
      }
    }
  }

  lemma CallDisconnectOk(s: Sock)
    requires Idle(s) && s.clientRefs > 0
    ensures Idle(Return(Disconnect(Lend(s))))
    ensures var r := Return(Reconnect(Lend(s))); Idle(r) && !r.orphaned
  {
    hide Inv, Lend, CancelAll, Close, Stable, Evolves, Over;
    LendOk(s);
    CancelClose(Lend(s), None);
    var t := Disconnect(Lend(s));
    ReturnOk(t);
    CancelQuiet(t, None);
    CanceledReferenced(t);
    ReconnectRuns(CancelAll(t));
    ReturnOk(CancelAll(t).(reconnect := true));
  }

  lemma CanceledReferenced(s: Sock)
    requires Cancellable(s, None)
    ensures CancelAll(s).refCount > 0
  {
    hide Inv, CancelAll, Stable, Evolves, Over;
    CancelQuiet(s, None);
    NoFault(CancelAll(s));
    HeldRefs(CancelAll(s));
  }

  lemma ReconnectRuns(s: Sock)
    requires Inv(s) && Quiet(s, None) && s.refCount > 0
    ensures Inv(s.(reconnect := true)) && Quiet(s.(reconnect := true), None)
  {
    hide RecordsOk, QueueOk, BytesOk, CountOk, Current, Stranded, Stable;
  }

  lemma CallKeepIoOk(s: Sock, k: nat)
    requires Idle(s)
    ensures Idle(Keep(s, k)) && (Keep(s, k).orphaned ==> s.orphaned)
  {
    hide Inv, Keep, SameConnection, Called, Quiet;
    KeepOk(s, k);
    CalledQuiet(s, Keep(s, k));
    CalledSame(s, Keep(s, k));
  }

  lemma CalledSame(s: Sock, r: Sock)
    requires Called(s, r)
    ensures SameLink(s, r)
  {
    hide Grows;
  }

  lemma CallDropIoOk(s: Sock, k: nat)
    requires Idle(s) && At(s, k).live && At(s, k).clientRefs > 0
    ensures Idle(ReleaseIo(s, k)) && (ReleaseIo(s, k).orphaned ==> s.orphaned)
  {
    hide Inv, AtRest, IoRelease, Busy, Lent, InQueue;
    LendIoOk(s, k);
    LetGo(Lent(s, k), k);
  }

  lemma LendIoOk(s: Sock, k: nat)
    requires Idle(s) && k in s.ios && s.ios[k].live && s.ios[k].clientRefs > 0
    ensures var t := Lent(s, k);
            Busy(t, k) && AtRest(t.ios[k], InQueue(t, k)) && t.held == 0 && t.orphaned == s.orphaned
  {
    LentShape(s, k);
    SamePass(s, Lent(s, k));
    hide Inv, Local, AtRest, Lent, Stable, IosGrow, QueueGrows, SameConnection, InQueue;
    assert s.ios[k].held == 0 by { StableHeld(s, k); }
    LentIo(s, k);
    QuietGrows(s, Lent(s, k), k);
  }

  lemma StableHeld(s: Sock, k: nat)
    requires Quiet(s, None) && k in s.ios
    ensures s.ios[k].held == 0
  {
  }

  lemma CallRefsOk(s: Sock)
    requires Idle(s) && s.clientRefs > 0
    ensures Idle(KeepSock(s)) && (KeepSock(s).orphaned ==> s.orphaned)
    ensures Idle(DropSock(s)) && (DropSock(s).orphaned ==> s.orphaned)
  {
    hide RecordsOk, QueueOk, BytesOk, Live, SockRelease, Awake, Stable;
    Referenced(s);
    NoFault(s);
    SockRefsOk(s, 1);
    LendOk(s);
    SockDone(Lend(s));
  }

  lemma LoopReconnectOk(s: Sock)
    requires Idle(s) && s.reconnect
    ensures Idle(OnReconnect(s)) && (OnReconnect(s).orphaned ==> s.orphaned)
  {
    hide Inv, SockRelease, SockRef, Quiet;
    TimerReferenced(s);
    ReconnectStops(s);
    var t := s.(reconnect := false);
    SockRefOk(t);
    AttemptsOk(SockRef(t), SockRef(t).attempts + 1);
    SockDone(Attempted(SockRef(t)));
  }

  /** The timer is stopped before a socket is destroyed. */
  lemma TimerReferenced(s: Sock)
    requires Inv(s) && s.reconnect
    ensures s.refCount > 0
  {
    hide RecordsOk, QueueOk, BytesOk, Live;
  }

  lemma ReconnectStops(s: Sock)
    requires Inv(s) && Quiet(s, None)
    ensures Inv(s.(reconnect := false)) && Quiet(s.(reconnect := false), None)
  {
    hide RecordsOk, QueueOk, BytesOk, CountOk, Current, Stranded, Stable;
  }

  // ----- every run ------------------------------------------------------------------------

  /** Events that close a connection. */
  predicate Closes(s: Sock, e: Event) {
    match e
    case CallDisconnect => s.connected
    case LoopIo(readable, writable) => Loses(s, readable, writable).Some?
    case Connector(event) => event == Succeeded && s.refCount > 0
    case _ => false
  }

  /** The event comes from a connector, and the socket that it knows is gone. */
  predicate Strikes(s: Sock, e: Event) {
    s.freed && e.Connector?
  }

  /** An event leaves the socket in order, unless it reaches one that is gone. */
  lemma StepOk(s: Sock, e: Event)
    requires Idle(s) && Enabled(s, e)
    ensures if Strikes(s, e) then Step(s, e) == s.(fault := true) else Idle(Step(s, e))
    ensures Step(s, e).orphaned ==> s.orphaned || Closes(s, e)
  {
    hide Inv, Quiet, Enqueue, Lend, Return, Disconnect, Reconnect, KeepSock, DropSock, Keep, ReleaseIo, LooperIo, IoTimedOut,
         ConnectorEvent, Loses, OnReconnect, SockRelease, SockRef;
    match e
    case CallQueue(isRead, buffer) => CallQueueOk(s, isRead, buffer);
    case CallKeep => CallRefsOk(s);
    case CallDrop => CallRefsOk(s);
    case CallKeepIo(k) => CallKeepIoOk(s, k);
    case CallDropIo(k) => CallDropIoOk(s, k);
    case CallConnect => AttemptsOk(s, s.attempts + 1);
    case CallDisconnect => CallDisconnectOk(s); if !s.connected { UnconnectedStays(s); }
    case CallReconnect => CallDisconnectOk(s);
    case LoopIo(readable, writable) => LooperIoOk(s, readable, writable);
    case LoopTimer(k) => IoTimedOutOk(s, k);
    case LoopReconnect => LoopReconnectOk(s);
    case Connector(event) => ReportOrStrike(s, event);
  }

  /** Without a connection there is nothing to close. */
  lemma UnconnectedStays(s: Sock)
    requires Idle(s) && s.clientRefs > 0 && !s.connected
    ensures !Return(Disconnect(Lend(s))).orphaned
  {
    hide Inv, CancelAll, Stable, Evolves, Over;
    LendOk(s);
    CancelQuiet(Lend(s), None);
  }

  lemma ReportOrStrike(s: Sock, event: State)
    requires Idle(s) && Enabled(s, Connector(event))
    ensures var r := ConnectorEvent(s, event).0;
            && (if s.freed then r == s.(fault := true) else Idle(r))
            && (r.orphaned ==> s.orphaned || (event == Succeeded && s.refCount > 0))
  {
    FreedIs(s);
    if s.refCount > 0 {
      ConnectorEventOk(s, event);
    }
    hide Inv, Quiet, Client, Accept, Close, SockRelease, SockRef, Forgotten;
  }

  lemma FreedIs(s: Sock)
    requires Inv(s)
    ensures s.freed <==> s.refCount <= 0
  {
    NoFault(s);
    HeldRefs(s);
    hide RecordsOk, QueueOk, BytesOk, Live;
  }

  lemma NewOk(tape: seq<Decision>)
    ensures Idle(New(tape))
  {
  }

  /** The socket as it is or, if a report reached it too late, as it was before. */
  function Sound(s: Sock): Sock {
    s.(fault := false)
  }

  /** A fault is a report to a socket that was destroyed while a connector still knew it. */
  predicate Ordered(s: Sock) {
    Idle(Sound(s)) && (s.fault ==> s.freed && s.attempts > 0)
  }

  lemma NextOk(s: Sock, e: Event)
    requires Ordered(s)
    ensures Ordered(Next(s, e))
  {
    hide Idle, Step, Enabled, Strikes;
    if Enabled(s, e) && !s.fault {
      assert Sound(s) == s;
      StepOk(s, e);
      if Strikes(s, e) {
        StrikesIs(s, e);
        assert Sound(Step(s, e)) == s;
      } else {
        IdleSound(Step(s, e));
      }
    }
  }

  lemma StrikesIs(s: Sock, e: Event)
    requires Strikes(s, e) && Enabled(s, e)
    ensures s.freed && s.attempts > 0
  {
  }

  lemma IdleSound(s: Sock)
    ensures Idle(s) ==> !s.fault && Sound(s) == s
  {
    hide RecordsOk, QueueOk, BytesOk, CountOk, Awake, Quiet;
  }

  lemma {:induction false} RunOk(s: Sock, es: seq<Event>)
    requires Idle(s)
    ensures Ordered(Run(s, es))
    decreases |es|
  {
    hide Idle, Next;
    if es == [] {
      IdleSound(s);
    } else {
      RunOk(s, es[..|es| - 1]);
      NextOk(Run(s, es[..|es| - 1]), es[|es| - 1]);
    }
  }
}
