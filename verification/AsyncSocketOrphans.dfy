/**
 When closing a connection leaves I/O behind.  What was queued before a connection was closed, and was
 not cancelled, is still queued when the next connection is made, and nobody watches that connection
 for it.  Each way to close a connection does so under a condition on what the client decides in the
 callbacks, and it does not under any other.
 */
module AsyncSocketOrphans {
  import opened AsyncIoCommon
  import opened AsyncSocketSpec
  import opened AsyncSocketSteps
  import opened AsyncSocketInvariant
  import opened AsyncSocketCallbacks
  import opened AsyncSocketCancel
  import opened AsyncSocketSafety
  import opened AsyncSocketTheorems

  // ----- how many descriptors the client queues -------------------------------------------

  /** How many of the client's decisions queue a reader, or a writer. */
  function Enqueues(ds: seq<Decision>, isRead: bool): nat {
    if ds == [] then 0 else (if ds[0].QueueIo? && ds[0].isRead == isRead then 1 else 0) + Enqueues(ds[1..], isRead)
  }

  lemma {:induction false} EnqueuesSum(a: seq<Decision>, b: seq<Decision>, isRead: bool)
    ensures Enqueues(a + b, isRead) == Enqueues(a, isRead) + Enqueues(b, isRead)
  {
    if a == [] {
      assert a + b == b;
    } else {
      assert (a + b)[1..] == a[1..] + b;
      EnqueuesSum(a[1..], b, isRead);
    }
  }

  lemma EnqueuesOne(d: Decision, isRead: bool)
    ensures Enqueues([d], isRead) == if d.QueueIo? && d.isRead == isRead then 1 else 0
  {
    assert [d][1..] == [];
  }

  /** The decisions taken between two states. */
  function Used(s: Sock, r: Sock): seq<Decision> {
    if |r.tape| <= |s.tape| then s.tape[..|s.tape| - |r.tape|] else []
  }

  /** The tape was read on, and as many descriptors joined a queue as the decisions say. */
  predicate Joined(s: Sock, r: Sock, isRead: bool) {
    && s.tape == Used(s, r) + r.tape
    && |Queue(r, isRead)| == |Queue(s, isRead)| + Enqueues(Used(s, r), isRead)
    && (Enqueues(Used(s, r), isRead) == 0 ==> Want(r, isRead) ==> Want(s, isRead))
  }

  lemma JoinedTrans(s: Sock, t: Sock, r: Sock, isRead: bool)
    requires Joined(s, t, isRead) && Joined(t, r, isRead)
    ensures Joined(s, r, isRead)
  {
    assert s.tape == Used(s, t) + Used(t, r) + r.tape;
    assert Used(s, r) == Used(s, t) + Used(t, r);
    EnqueuesSum(Used(s, t), Used(t, r), isRead);
    hide Enqueues;
  }

  lemma JoinedSame(s: Sock, r: Sock, isRead: bool)
    requires r.tape == s.tape && |Queue(r, isRead)| == |Queue(s, isRead)| && (Want(r, isRead) ==> Want(s, isRead))
    ensures Joined(s, r, isRead)
  {
    assert Used(s, r) == [];
  }

  /** One decision, and what it set off. */
  predicate Decided(s: Sock, d: Decision, r: Sock, isRead: bool) {
    && s.tape == Used(s, r) + r.tape
    && |Queue(r, isRead)| == |Queue(s, isRead)| + Enqueues([d], isRead) + Enqueues(Used(s, r), isRead)
    && (Enqueues([d], isRead) == 0 && Enqueues(Used(s, r), isRead) == 0 ==> Want(r, isRead) ==> Want(s, isRead))
  }

  lemma JoinedDecided(s: Sock, d: Decision, r: Sock, isRead: bool)
    requires Joined(s, r, isRead) && !d.QueueIo?
    ensures Decided(s, d, r, isRead)
  {
    EnqueuesOne(d, isRead);
    hide Enqueues;
  }

  lemma DecidedJoined(s: Sock, d: Decision, t: Sock, r: Sock, isRead: bool)
    requires s.tape != [] && s.tape[0] == d && t == s.(tape := s.tape[1..]) && Decided(t, d, r, isRead)
    ensures Joined(s, r, isRead)
  {
    assert s.tape == [d] + Used(t, r) + r.tape;
    assert Used(s, r) == [d] + Used(t, r);
    EnqueuesSum([d], Used(t, r), isRead);
    hide Enqueues;
  }

  lemma EnqueueShape(s: Sock, isRead: bool, buffer: seq<Byte>)
    requires s.connected
    ensures var r := Enqueue(s, isRead, buffer);
            && r.tape == s.tape && |Queue(r, isRead)| == |Queue(s, isRead)| + 1
            && Queue(r, !isRead) == Queue(s, !isRead) && Want(r, !isRead) == Want(s, !isRead)
  {
    EnqueueIs(s, isRead, buffer);
    hide Enqueue, Notify, IoRelease;
  }

  lemma EnqueueDecided(s: Sock, d: Decision, isRead: bool)
    requires s.connected && d.QueueIo?
    ensures Decided(s, d, Enqueue(s, d.isRead, d.buffer), isRead)
  {
    hide Enqueue, Decided, Enqueues;
    EnqueueShape(s, d.isRead, d.buffer);
    EnqueuesOne(d, isRead);
    DecidedSame(s, d, Enqueue(s, d.isRead, d.buffer), isRead);
  }

  lemma DecidedSame(s: Sock, d: Decision, r: Sock, isRead: bool)
    requires r.tape == s.tape && |Queue(r, isRead)| == |Queue(s, isRead)| + Enqueues([d], isRead)
    requires Enqueues([d], isRead) == 0 ==> Want(r, isRead) ==> Want(s, isRead)
    ensures Decided(s, d, r, isRead)
  {
    assert Used(s, r) == [];
  }

  /** Taking references and stopping timers is nothing to the queues. */
  lemma QuietJoins(s: Sock, d: Decision, isRead: bool)
    requires d.KeepSocket? || d.KeepIo? || d.StopTimer?
    ensures Joined(s, Decide(s, d), isRead)
  {
    hide Enqueue, DropSock, ReleaseIo, Joined;
    JoinedSame(s, Decide(s, d), isRead);
  }

  lemma DropJoins(s: Sock, isRead: bool)
    requires s.refCount > s.clientRefs && !s.fault
    ensures Joined(s, DropSock(s), isRead)
  {
    hide DropSock, Joined;
    DropSockIs(s);
    JoinedSame(s, DropSock(s), isRead);
  }

  lemma {:induction false} DecideJoins(s: Sock, d: Decision, who: Option<nat>, isRead: bool)
    requires Inv(s) && Anchored(s, who) && s.connected && !d.Answer?
    ensures Decided(s, d, Decide(s, d), isRead)
    decreases |s.tape|, QueueSize(s), 7
  {
    hide Inv, Anchored, Joined, Decided, ReleaseIo, Enqueue, DropSock, Keep, KeepSock, StopIoTimer;
    if d.QueueIo? {
      EnqueueDecided(s, d, isRead);
    } else {
      if d.DropSocket? {
        AnchorHolds(s, who);
        NoFault(s);
        DropJoins(s, isRead);
      } else if d.DropIo? {
        ReleaseIoJoins(s, d.k, isRead);
      } else {
        QuietJoins(s, d, isRead);
      }
      JoinedDecided(s, d, Decide(s, d), isRead);
    }
  }

  lemma {:induction false} ClientJoins(s: Sock, who: Option<nat>, isRead: bool)
    requires Inv(s) && Anchored(s, who) && s.connected
    ensures Joined(s, Client(s).0, isRead)
    decreases |s.tape|, QueueSize(s), 0
  {
    hide Inv, Anchored, Decide, Called, SameConnection, Joined, Decided;
    ClientIs(s);
    hide Client;
    if s.tape == [] {
      JoinedSame(s, s, isRead);
    } else {
      var d, t := s.tape[0], s.(tape := s.tape[1..]);
      if d.Answer? {
        AnswerJoins(s, isRead);
      } else {
        TapeOk(s, who, t.tape);
        DecideJoins(t, d, who, isRead);
        DecideOk(t, d, who);
        var u := Decide(t, d);
        AnchorCalled(t, u, who);
        CalledSame(t, u);
        ClientJoins(u, who, isRead);
        DecidedJoined(s, d, t, u, isRead);
        JoinedTrans(s, u, Client(u).0, isRead);
      }
    }
  }

  lemma AnswerJoins(s: Sock, isRead: bool)
    requires s.tape != [] && s.tape[0].Answer?
    ensures Joined(s, s.(tape := s.tape[1..]), isRead)
  {
    assert Used(s, s.(tape := s.tape[1..])) == [s.tape[0]];
    EnqueuesOne(s.tape[0], isRead);
  }

  lemma {:induction false} NotifyJoins(s: Sock, k: nat, event: State, isRead: bool)
    requires Inv(s) && Anchored(s, Some(k)) && s.connected
    ensures Joined(s, Notify(s, k, event).0, isRead)
    decreases |s.tape|, QueueSize(s), 1
  {
    hide Inv, Client, Joined, Anchored;
    NotifyIs(s, k, event);
    ClientJoins(s, Some(k), isRead);
    hide Notify;
    JoinedSame(Client(s).0, Notify(s, k, event).0, isRead);
    JoinedTrans(s, Client(s).0, Notify(s, k, event).0, isRead);
  }

  lemma {:induction false} ReleaseIoJoins(s: Sock, k: nat, isRead: bool)
    requires Inv(s) && s.connected
    ensures Joined(s, ReleaseIo(s, k), isRead)
    decreases |s.tape|, QueueSize(s), 6
  {
    hide Inv, Joined, AtRest, IoRelease, Lent, Grows, SameConnection;
    if At(s, k).live && At(s, k).clientRefs > 0 {
      LentIo(s, k);
      LentShape(s, k);
      LentQueues(s, k, isRead);
      IoReleaseJoins(Lent(s, k), k, isRead);
      JoinedTrans(s, Lent(s, k), IoRelease(Lent(s, k), k), isRead);
    } else {
      JoinedSame(s, s, isRead);
    }
  }

  lemma LentQueues(s: Sock, k: nat, isRead: bool)
    ensures Joined(s, Lent(s, k), isRead) && Lent(s, k).connected == s.connected
  {
    JoinedSame(s, Lent(s, k), isRead);
    hide Joined;
  }

  lemma {:induction false} IoReleaseJoins(s: Sock, k: nat, isRead: bool)
    requires Inv(s) && k in s.ios && s.ios[k].live && s.ios[k].held > 0 && s.connected
    requires s.ios[k].held == 1 ==> AtRest(s.ios[k], InQueue(s, k))
    ensures Joined(s, IoRelease(s, k), isRead)
    decreases |s.tape|, QueueSize(s), 5
  {
    hide Inv, Local, AtRest, Notify, SockRelease, Bury, IoRelease, Joined, Grows, Released;
    About(s, k);
    HeldCounts(s.ios[k], InQueue(s, k));
    NoFault(s);
    IoReleaseIs(s, k);
    DropOk(s, k);
    var t := Put(s, k, Dropped(s.ios[k]));
    JoinedSame(s, t, isRead);
    if s.ios[k].refCount == 1 {
      LastSteps(s, k);
      NotifyJoins(t, k, Finished, isRead);
      var n := Notify(t, k, Finished).0;
      EndJoins(n, k, isRead);
      JoinedTrans(s, t, n, isRead);
      JoinedTrans(s, n, IoRelease(s, k), isRead);
    }
  }

  /** The end of a descriptor, and even that of the socket, changes no queue. */
  lemma EndJoins(n: Sock, k: nat, isRead: bool)
    requires Inv(Bury(n, k)) && Bury(n, k).held > 0
    ensures Joined(n, SockRelease(Bury(n, k)), isRead)
  {
    SockReleaseIs(Bury(n, k));
    hide Inv, SockRelease, Joined;
    JoinedSame(n, SockRelease(Bury(n, k)), isRead);
  }

  // ----- cancelling ------------------------------------------------------------------------

  /** While the writers are cancelled, the queue of readers grows by the readers queued meanwhile. */
  lemma {:induction false} CancelWritersJoins(s: Sock)
    requires Inv(s) && s.held > 0 && ActiveQueue(s, false) && s.connected
    ensures Joined(s, CancelQueue(s, false), true)
    decreases |s.tape|, QueueSize(s)
  {
    hide Inv, ActiveQueue, AtRest, InQueue, Notify, IoRelease, Unlink, StopIoTimer, CancelQueue, FirstGone, SameConnection, Joined, Anchored;
    if s.writers == [] {
      CancelNone(s, false);
      JoinedSame(s, s, true);
    } else {
      var k := s.writers[0];
      CancelFirstIs(s, false);
      UnlinkAnchors(s, k);
      FirstConnected(s, k);
      var t := StopIoTimer(Unlink(s, false, 0), k);
      var u := Notify(t, k, Cancelled).0;
      NotifyJoins(t, k, Cancelled, true);
      IoReleaseJoins(u, k, true);
      var v := IoRelease(u, k);
      CancelWritersJoins(v);
      JoinedTrans(s, t, u, true);
      JoinedTrans(s, u, v, true);
      JoinedTrans(s, v, CancelQueue(v, false), true);
    }
  }

  lemma UnlinkAnchors(s: Sock, k: nat)
    requires Inv(s) && s.writers != [] && s.writers[0] == k
    ensures var t := StopIoTimer(Unlink(s, false, 0), k);
            Anchored(t, Some(k)) && t.connected == s.connected && Joined(s, t, true)
  {
    UnlinkGrows(s, false);
    UnlinkShape(s, false);
    var t := StopIoTimer(Unlink(s, false, 0), k);
    hide Inv, Joined, Local, Unlink, StopIoTimer;
    JoinedSame(s, t, true);
  }

  lemma FirstConnected(s: Sock, k: nat)
    requires Inv(s) && s.held > 0 && ActiveQueue(s, false) && s.connected && s.writers != [] && s.writers[0] == k
    ensures var u := Notify(StopIoTimer(Unlink(s, false, 0), k), k, Cancelled).0;
            u.connected && u.held == s.held && IoRelease(u, k).connected
  {
    hide Inv, Local, Stage, Notify, IoRelease, Unlink, StopIoTimer, IosGrow, QueueGrows, Over, Fits, AtRest, ActiveQueue, Evolves;
    CancelFirst(s, false);
    UnlinkGrows(s, false);
    UnlinkShape(s, false);
    CancelFirstActive(s, k);
    NotifyOk(StopIoTimer(Unlink(s, false, 0), k), k, Cancelled);
  }

  lemma CancelFirstActive(s: Sock, k: nat)
    requires Inv(s) && ActiveQueue(s, false) && s.writers != [] && s.writers[0] == k && k in s.ios && Local(s.ios[k], true)
    ensures Fits(StopIoTimer(Unlink(s, false, 0), k).ios[k], Cancelled)
  {
    UnlinkShape(s, false);
    CancelFits(s.ios[k]);
    hide Inv, Local, Fits;
  }

  /** What the client decides while the writers are cancelled. */
  function WritersPass(s: Sock): seq<Decision> {
    var u := CancelQueue(Begin(s), true).(pass := WritePass);
    Used(u, CancelQueue(u, false))
  }

  /** Cancelling everything leaves the readers that are queued while the writers are cancelled. */
  lemma CancelAllLeaves(s: Sock, who: Option<nat>)
    requires Cancellable(s, who) && s.connected
    ensures |CancelAll(s).readers| == Enqueues(WritersPass(s), true) && CancelAll(s).writers == []
  {
    hide Inv, Stage, SameConnection, Cancels, CancelQueue, Begin, ActiveQueue, CancelAll, Quiet, Joined;
    CancellableActive(s, who, true);
    CancellableActive(s, who, false);
    BeginOk(s);
    var t := Begin(s);
    BeginActive(s, t);
    CancelQueueOk(t, true);
    var w := CancelQueue(t, true);
    WritersActive(t, w);
    CancelsEmpty(t, w, true);
    CancelsConnected(t, w, true);
    PassOk(w);
    PassActive(w);
    var u := w.(pass := WritePass);
    CancelWritersJoins(u);
    CancelQueueOk(u, false);
    CancelsEmpty(u, CancelQueue(u, false), false);
    CancelAllIs(s);
    JoinedLeaves(u, CancelQueue(u, false));
  }

  lemma CancelsConnected(s: Sock, r: Sock, isRead: bool)
    requires Cancels(s, r, isRead)
    ensures r.connected == s.connected
  {
  }

  lemma JoinedLeaves(u: Sock, v: Sock)
    requires Joined(u, v, true) && u.readers == []
    ensures |v.readers| == Enqueues(Used(u, v), true)
  {
  }

  // ----- what is left behind ---------------------------------------------------------------

  /** Something outlives the connection if and only if `so`. */
  predicate Strands(r: Sock, so: bool) {
    (so ==> Strays(r)) && (!so ==> !r.orphaned && !Strays(r))
  }

  lemma CloseStrands(s: Sock)
    requires Inv(s) && s.connected
    ensures Strands(Close(s), s.readers != [] || s.writers != [])
  {
    AboutNext(s);
    hide Inv;
    assert s.readers != [] ==> s.readers[0] in s.readers;
    assert s.writers != [] ==> s.writers[0] in s.writers;
  }

  /** Callbacks strand nothing, and do not bring back what is stranded. */
  lemma CalledStrands(s: Sock, r: Sock, so: bool)
    requires Inv(s) && QueueGrows(s.readers, r.readers, s.next) && QueueGrows(s.writers, r.writers, s.next) && SameConnection(s, r)
    ensures Strands(r, so) <==> Strands(s, so)
    ensures Strays(r) <==> Strays(s)
  {
    SinceNext(s);
    hide Inv;
    HeadSame(s.readers, r.readers, s.next, s.since);
    HeadSame(s.writers, r.writers, s.next, s.since);
    hide QueueGrows, Stranded;
  }

  lemma HeadSame(q: seq<nat>, r: seq<nat>, next: nat, since: nat)
    requires QueueGrows(q, r, next) && since <= next
    ensures Stranded(r, since) <==> Stranded(q, since)
  {
    if q != [] {
      assert r[0] == q[0];
    } else if r != [] {
      assert r[0] in r;
    }
  }

  lemma ReleasedStrands(s: Sock)
    requires Inv(s) && s.held > 0
    ensures var r := SockRelease(s); (Strays(r) <==> Strays(s)) && (r.orphaned ==> s.orphaned)
  {
    SockReleaseIs(s);
    if s.refCount == 1 {
      LastReference(s);
    }
    hide Inv, SockRelease;
  }

  /** Disconnecting strands exactly the readers that are queued while the writers are cancelled. */
  lemma DisconnectStrands(s: Sock, who: Option<nat>)
    requires Cancellable(s, who)
    ensures Strands(Disconnect(s), s.connected && Enqueues(WritersPass(s), true) > 0)
    ensures s.connected ==> |Disconnect(s).readers| == Enqueues(WritersPass(s), true) && Disconnect(s).writers == []
  {
    hide Cancellable, CancelAll, WritersPass, Inv;
    CancelKeeps(s, who);
    if s.connected {
      CancelAllLeaves(s, who);
      CloseStrands(CancelAll(s));
    } else {
      NoStrays(CancelAll(s));
    }
  }

  lemma CancelKeeps(s: Sock, who: Option<nat>)
    requires Cancellable(s, who)
    ensures var r := CancelAll(s); Inv(r) && r.connected == s.connected && !r.orphaned
  {
    CancelQuiet(s, who);
    hide Cancellable, CancelAll, Inv;
  }

  lemma NoStrays(s: Sock)
    requires Inv(s) && !s.orphaned
    ensures !Strays(s)
  {
    hide RecordsOk, QueueOk, BytesOk, CountOk;
  }

  /**
   Discarding a fresh connection strands what was queued already and what the client queues when it
   hears of the connection; accepting it strands nothing new.
   */
  lemma DiscardStrands(s: Sock)
    requires Idle(s) && s.refCount > 0 && !s.connected
    ensures var t := Accept(SockRef(s));
            var (u, a) := Client(t);
            var r := ConnectorEvent(s, Succeeded).0;
            if a == Done then (Strays(r) <==> Strays(s)) && (r.orphaned ==> s.orphaned)
            else Strands(r, s.readers != [] || s.writers != [] || Enqueues(Used(t, u), true) + Enqueues(Used(t, u), false) > 0)
  {
    hide Inv, Client, Accept, Close, SockRelease, SockRef, SameConnection, Called, Stable, Forgotten, Joined, Strays, Enqueues;
    SockRefOk(s);
    AcceptOk(SockRef(s));
    AcceptHeld(SockRef(s));
    AcceptKeeps(s);
    var t := Accept(SockRef(s));
    ClientQuiet(t, None);
    var (u, a) := Client(t);
    if a == Done {
      CalledIs(t, u);
      CalledStrands(t, u, false);
      ForgottenStrands(u);
    } else {
      ClientJoins(t, None, true);
      ClientJoins(t, None, false);
      SamePass(t, u);
      CloseStrands(u);
      DiscardOk(SockRef(s), u);
      BothJoined(t, u);
      ForgottenStrands(Close(u));
    }
  }

  lemma AcceptKeeps(s: Sock)
    ensures var t := Accept(SockRef(s));
            && (Strays(t) <==> Strays(s)) && t.orphaned == s.orphaned && t.connected && t.readers == s.readers && t.writers == s.writers
  {
  }

  lemma CalledIs(s: Sock, r: Sock)
    requires Called(s, r)
    ensures QueueGrows(s.readers, r.readers, s.next) && QueueGrows(s.writers, r.writers, s.next) && r.orphaned == s.orphaned
  {
    hide IosGrow, QueueGrows;
  }

  lemma BothJoined(s: Sock, r: Sock)
    requires Joined(s, r, true) && Joined(s, r, false)
    ensures r.readers != [] || r.writers != [] <==>
            s.readers != [] || s.writers != [] || Enqueues(Used(s, r), true) + Enqueues(Used(s, r), false) > 0
  {
    hide Enqueues, Used;
  }

  /** Nor does the end of a report. */
  lemma ForgottenStrands(s: Sock)
    requires Inv(s) && s.held > 0 && Quiet(s, None)
    ensures var r := SockRelease(s); (Strays(r) <==> Strays(s)) && (r.orphaned ==> s.orphaned)
    ensures var r := SockRelease(Forgotten(s)); (Strays(r) <==> Strays(s)) && (r.orphaned ==> s.orphaned)
  {
    ReleasedStrands(s);
    ForgottenOk(s);
    hide Inv, SockRelease;
    ReleasedStrands(Forgotten(s));
  }

  /** The client answers the loss of a connection with RETRY, or a cancelled writer queues no reader. */
  predicate Harmless(s: Sock) {
    Enqueues(WritersPass(s), true) == 0 || Client(Disconnect(s)).1 == Retry
  }

  /**
   Losing the connection strands what disconnecting does, unless the client answers RETRY: then
   everything is cancelled once more.
   */
  lemma LostStrands(s: Sock, k: nat)
    requires Cancellable(s, Some(k)) && s.connected
    ensures Strands(Disconnected(s), !Harmless(s))
  {
    hide Cancellable, Inv, Client, CancelAll, Close, Quiet, SameConnection, CancelsAll, WritersPass, Enqueues, Leaving, Called, Strands;
    DisconnectStrands(s, Some(k));
    CancelClose(s, Some(k));
    var t := Disconnect(s);
    AfterClose(s, t, k);
    var (u, a) := Client(t);
    CalledIs(t, u);
    CalledStrands(t, u, Enqueues(WritersPass(s), true) > 0);
    if a == Retry {
      CancelKeeps(u, Some(k));
      NoStrays(CancelAll(u));
      Retried(CancelAll(u));
    } else {
      StrandsSame(u, Enqueues(WritersPass(s), true) > 0, !Harmless(s));
    }
  }

  lemma StrandsSame(s: Sock, a: bool, b: bool)
    requires Strands(s, a) && a == b
    ensures Strands(s, b)
  {
  }

  lemma Retried(s: Sock)
    requires !s.orphaned && !Strays(s)
    ensures Strands(s.(reconnect := true), false)
  {
  }

  lemma AfterClose(s: Sock, t: Sock, k: nat)
    requires Cancellable(s, Some(k)) && Inv(t) && Quiet(t, Some(k)) && t.held == s.held && Leaving(t, k)
    ensures var u := Client(t).0;
            Inv(u) && Called(t, u) && SameConnection(t, u) && Cancellable(u, Some(k))
  {
    hide Inv, Client, Called, SameConnection, Stage, Stable;
    ClientQuiet(t, Some(k));
  }

  /** A try that finds that the connection is gone. */
  lemma TryStrands(s: Sock, isRead: bool, k: nat)
    requires Trying(s, isRead, k) && s.connected && s.held > 0
    ensures Strands(IoRelease(Disconnected(s), k), !Harmless(s))
  {
    hide Trying, Leaving, Busy, Inv, Quiet, AtRest, Disconnected, IoRelease, Strands, Strays, Harmless, Released, InQueue;
    TryingCancellable(s, isRead, k);
    LostStrands(s, k);
    DisconnectedOk(s, k);
    var t := Disconnected(s);
    LeavingAtRest(t, k);
    LeavingHeld(t, k);
    IoReleaseOk(t, k);
    ReleasedKeeps(t, IoRelease(t, k), k);
    CalledStrands(t, IoRelease(t, k), !Harmless(s));
  }

  lemma LeavingHeld(s: Sock, k: nat)
    requires Leaving(s, k)
    ensures Inv(s) && k in s.ios && s.ios[k].live && s.ios[k].held == 1
  {
    hide Inv, Quiet;
  }

  lemma ReleasedKeeps(s: Sock, r: Sock, k: nat)
    requires Released(s, r, k) && s.held > 0
    ensures QueueGrows(s.readers, r.readers, s.next) && QueueGrows(s.writers, r.writers, s.next) && SameConnection(s, r)
  {
    hide IosGrow, QueueGrows, SameConnection;
  }

  lemma ReadyStrands(s: Sock, isRead: bool, outcome: Outcome)
    requires Inv(s) && Quiet(s, None) && s.connected && s.held > 0 && LostAt(s, isRead, outcome).Some?
    ensures Strands(Ready(s, isRead, outcome).0, !Harmless(LostAt(s, isRead, outcome).value))
  {
    hide Inv, Quiet, Stage, IoRelease, Disconnected, Notify, Bump, IoRef, Chunk, Strands, Harmless, SameConnection, SetWant, Rearm, Advance;
    var k := Queue(s, isRead)[0];
    InformTry(s, isRead);
    StartKeeps(s, k);
    var t := Bump(IoRef(s, k), k);
    var (u, a) := Notify(t, k, t.ios[k].state);
    SamePass(s, u);
    TryStrands(u, isRead, k);
  }

  lemma LooperStrands(s: Sock, readable: Option<Outcome>, writable: Option<Outcome>)
    requires Idle(s) && s.connected && Loses(s, readable, writable).Some?
    ensures Strands(LooperIo(s, readable, writable), !Harmless(Loses(s, readable, writable).value))
  {
    hide Inv, Quiet, Ready, LostAt, SockRelease, SockRef, Strands, Strays, Harmless;
    Referenced(s);
    SockRefOk(s);
    var t := SockRef(s);
    var (u, ok) := if readable.Some? then Ready(t, true, readable.value) else (t, true);
    if readable.Some? {
      ReadyOk(t, true, readable.value);
    }
    if readable.Some? && LostAt(t, true, readable.value).Some? {
      ReadyStrands(t, true, readable.value);
      StrandsReleased(u, !Harmless(LostAt(t, true, readable.value).value));
    } else {
      ReadyOk(u, false, writable.value);
      ReadyStrands(u, false, writable.value);
      StrandsReleased(Ready(u, false, writable.value).0, !Harmless(LostAt(u, false, writable.value).value));
    }
  }

  lemma StrandsReleased(s: Sock, so: bool)
    requires Inv(s) && s.held > 0 && Strands(s, so)
    ensures Strands(SockRelease(s), so)
  {
    ReleasedStrands(s);
    hide Inv, SockRelease, Strays;
  }

  // ----- every run -------------------------------------------------------------------------

  /**
   What a client must not do if nobody shall wait in vain: queue a reader while its writers are
   cancelled by a disconnection, or by the loss of the connection unless it asks for another one; or
   queue anything on a connection that it then discards.
   */
  predicate Careless(s: Sock, e: Event) {
    match e
    case CallDisconnect => s.connected && Enqueues(WritersPass(Lend(s)), true) > 0
    case LoopIo(readable, writable) =>
      Loses(s, readable, writable).Some? && !Harmless(Loses(s, readable, writable).value)
    case Connector(event) =>
      event == Succeeded && s.refCount > 0 &&
      (var t := Accept(SockRef(s));
       var (u, a) := Client(t);
       a != Done && Enqueues(Used(t, u), true) + Enqueues(Used(t, u), false) > 0)
    case _ => false
  }

  /** An event strands something exactly if the client is careless. */
  lemma StepStrands(s: Sock, e: Event)
    requires Idle(s) && Enabled(s, e) && !s.orphaned
    ensures Careless(s, e) ==> Strays(Step(s, e))
    ensures !Careless(s, e) ==> !Step(s, e).orphaned
  {
    hide Idle, Step, Careless, Strays;
    StepOk(s, e);
    if Closes(s, e) {
      match e {
      case CallDisconnect => DisconnectCareless(s);
      case LoopIo(readable, writable) => LooperCareless(s, readable, writable);
      case Connector(event) => DiscardCareless(s);
      }
    } else if Careless(s, e) {
      CarelessCloses(s, e);
    }
  }

  lemma DisconnectCareless(s: Sock)
    requires Idle(s) && s.clientRefs > 0 && s.connected && !s.orphaned
    ensures Careless(s, CallDisconnect) ==> Strays(Step(s, CallDisconnect))
    ensures !Careless(s, CallDisconnect) ==> !Step(s, CallDisconnect).orphaned
  {
    hide Inv, Quiet, Disconnect, Lend, WritersPass, Enqueues;
    LendOk(s);
    DisconnectStrands(Lend(s), None);
    LendConnected(s);
  }

  lemma LendConnected(s: Sock)
    ensures Lend(s).connected == s.connected
  {
  }

  lemma LooperCareless(s: Sock, readable: Option<Outcome>, writable: Option<Outcome>)
    requires Idle(s) && s.connected && Loses(s, readable, writable).Some?
    ensures var e := LoopIo(readable, writable);
            (Careless(s, e) ==> Strays(Step(s, e))) && (!Careless(s, e) ==> !Step(s, e).orphaned)
  {
    hide Idle, LooperIo, Loses, Harmless, Strays;
    LooperStrands(s, readable, writable);
  }

  lemma DiscardCareless(s: Sock)
    requires Idle(s) && s.refCount > 0 && !s.connected && !s.orphaned
    ensures var e := Connector(Succeeded);
            (Careless(s, e) ==> Strays(Step(s, e))) && (!Careless(s, e) ==> !Step(s, e).orphaned)
  {
    NothingQueued(s);
    DiscardStrands(s);
    hide Idle, ConnectorEvent, Client, Accept, SockRef, Enqueues, Used, Strays;
  }

  /** On a closed connection only what was stranded is queued. */
  lemma NothingQueued(s: Sock)
    requires Inv(s) && !s.connected && !s.orphaned
    ensures s.readers == [] && s.writers == []
  {
    EndsAgree(s, true);
    EndsAgree(s, false);
    hide RecordsOk, QueueOk, BytesOk, CountOk, Current, Stranded;
  }

  lemma CarelessCloses(s: Sock, e: Event)
    requires Careless(s, e)
    ensures Closes(s, e)
  {
    hide Harmless, Loses, Client, WritersPass;
  }

  /** At event `i` of a run the client was careless. */
  predicate CarelessAt(tape: seq<Decision>, es: seq<Event>, i: nat) {
    i < |es| && var s := Run(New(tape), es[..i]); !s.fault && Enabled(s, es[i]) && Careless(s, es[i])
  }

  predicate StraysAt(tape: seq<Decision>, es: seq<Event>, i: nat) {
    i <= |es| && Strays(Run(New(tape), es[..i]))
  }

  /** An orphan goes back to carelessness, which stranded something at once. */
  lemma {:induction false} FirstCareless(tape: seq<Decision>, es: seq<Event>, n: nat) returns (i: nat)
    requires n <= |es| && Run(New(tape), es[..n]).orphaned
    ensures i < n && CarelessAt(tape, es, i) && StraysAt(tape, es, i + 1)
  {
    hide Run, Next, Ordered, Idle, Enabled, Careless, Strays;
    NeverYet(tape, es);
    var s := Run(New(tape), es[..n - 1]);
    if s.orphaned {
      i := FirstCareless(tape, es, n - 1);
    } else {
      i := n - 1;
      NextIs(New(tape), es, i);
      NewOk(tape);
      RunOk(New(tape), es[..i]);
      NextStrands(s, es[i]);
    }
  }

  lemma NeverYet(tape: seq<Decision>, es: seq<Event>)
    ensures !Run(New(tape), es[..0]).orphaned
  {
  }

  lemma NextStrands(s: Sock, e: Event)
    requires Ordered(s) && !s.orphaned
    ensures if !s.fault && Enabled(s, e) && Careless(s, e) then Strays(Next(s, e)) else !Next(s, e).orphaned
  {
    hide Idle, Enabled, Careless, Strays, Step;
    if !s.fault && Enabled(s, e) {
      assert Sound(s) == s;
      StepStrands(s, e);
    }
  }

  /** In a run something is stranded if and only if the client is careless at some time. */
  lemma StrandedExactly(tape: seq<Decision>, es: seq<Event>)
    ensures (exists i: nat :: StraysAt(tape, es, i)) <==> (exists i: nat :: CarelessAt(tape, es, i))
  {
    hide Run, Ordered, CarelessAt, StraysAt;
    forall i: nat | StraysAt(tape, es, i)
      ensures exists j: nat :: CarelessAt(tape, es, j)
    {
      StraysOrphaned(tape, es, i);
      var j := FirstCareless(tape, es, i);
    }
    forall i: nat | CarelessAt(tape, es, i)
      ensures exists j: nat :: StraysAt(tape, es, j)
    {
      CarelessStrands(tape, es, i);
    }
  }

  lemma StraysOrphaned(tape: seq<Decision>, es: seq<Event>, i: nat)
    requires StraysAt(tape, es, i)
    ensures i <= |es| && Run(New(tape), es[..i]).orphaned
  {
    hide Run;
    RunSound(tape, es[..i]);
    hide RecordsOk, QueueOk, BytesOk, CountOk, Quiet, Ordered, Stranded, Current;
  }

  lemma CarelessStrands(tape: seq<Decision>, es: seq<Event>, i: nat)
    requires CarelessAt(tape, es, i)
    ensures exists j: nat :: StraysAt(tape, es, j)
  {
    hide Run, Next, Ordered, Idle, Enabled, Careless, Strays;
    var s := Run(New(tape), es[..i]);
    if s.orphaned {
      var j := FirstCareless(tape, es, i);
      assert StraysAt(tape, es, j + 1);
    } else {
      NextIs(New(tape), es, i);
      NewOk(tape);
      RunOk(New(tape), es[..i]);
      NextStrands(s, es[i]);
      assert StraysAt(tape, es, i + 1);
    }
  }

  /** Who is never careless never waits in vain. */
  lemma CarefulIsWoken(tape: seq<Decision>, es: seq<Event>)
    requires forall i: nat | i < |es| :: !CarelessAt(tape, es, i)
    ensures var s := Run(New(tape), es);
            && (s.connected && s.readers != [] ==> s.wantRead)
            && (s.connected && s.writers != [] ==> s.wantWrite)
            && (!s.connected ==> s.readers == [] && s.writers == [])
  {
    StrandedExactly(tape, es);
    NoLostWakeUp(tape, es);
    hide Run, CarelessAt, Strays;
    assert es[..|es|] == es;
    assert StraysAt(tape, es, |es|) <==> Strays(Run(New(tape), es));
    forall i: nat | CarelessAt(tape, es, i)
      ensures false
    {
      CarelessBound(tape, es, i);
    }
  }

  lemma CarelessBound(tape: seq<Decision>, es: seq<Event>, i: nat)
    requires CarelessAt(tape, es, i)
    ensures i < |es|
  {
  }

  // ----- the wake-up that is missed --------------------------------------------------------

  /**
   What was stranded waits on the next connection, and the looper watches for it if and only if the
   client queues something of the same kind when it accepts the connection.
   */
  lemma MissedExactly(s: Sock, isRead: bool)
    requires Idle(s) && s.refCount > 0 && !s.connected && Queue(s, isRead) != []
    ensures var t := Accept(SockRef(s));
            var (u, a) := Client(t);
            var r := ConnectorEvent(s, Succeeded).0;
            a == Done ==> r.connected && Queue(r, isRead) != [] && Queue(r, isRead)[0] == Queue(s, isRead)[0]
                          && (Want(r, isRead) <==> Enqueues(Used(t, u), isRead) > 0)
  {
    hide Inv, Client, Accept, Close, SockRelease, SockRef, SameConnection, Called, Stable, Forgotten, Joined, Enqueues, Used, Awake;
    SockRefOk(s);
    AcceptOk(SockRef(s));
    AcceptHeld(SockRef(s));
    AcceptKeeps(s);
    var t := Accept(SockRef(s));
    ClientQuiet(t, None);
    ClientJoins(t, None, isRead);
    var (u, a) := Client(t);
    SamePass(t, u);
    CalledIs(t, u);
    NewSince(s, t, u, isRead);
    WaitingHeld(u, isRead);
    WaitingForgotten(u, isRead);
  }

  /** The queue grew exactly if the looper watches now. */
  lemma NewSince(s: Sock, t: Sock, u: Sock, isRead: bool)
    requires t == Accept(SockRef(s)) && Joined(t, u, isRead) && Inv(t) && Inv(u) && SameConnection(t, u)
    requires QueueGrows(Queue(t, isRead), Queue(u, isRead), t.next) && Queue(s, isRead) != [] && t.pass == NoPass
    ensures Queue(u, isRead) != [] && Queue(u, isRead)[0] == Queue(s, isRead)[0]
    ensures Want(u, isRead) <==> Enqueues(Used(t, u), isRead) > 0
  {
    SinceNext(t);
    AboutNext(t);
    hide RecordsOk, QueueOk, BytesOk, CountOk, Enqueues, Used;
    var q, r := Queue(t, isRead), Queue(u, isRead);
    assert r[0] == q[0];
    if |r| > |q| {
      LastNew(t, u, isRead);
    }
  }

  lemma LastNew(t: Sock, u: Sock, isRead: bool)
    requires Inv(t) && Inv(u) && QueueGrows(Queue(t, isRead), Queue(u, isRead), t.next) && |Queue(u, isRead)| > |Queue(t, isRead)|
    ensures Current(Queue(u, isRead), t.since)
  {
    SinceNext(t);
    QueueStates(u, isRead);
    hide Inv, Current, Increasing, QueueGrows;
    GrownLast(Queue(t, isRead), Queue(u, isRead), t.next, t.since);
  }

  lemma GrownLast(q: seq<nat>, r: seq<nat>, next: nat, since: nat)
    requires QueueGrows(q, r, next) && Increasing(r) && |r| > |q| && since <= next
    ensures Current(r, since)
  {
    var last := r[|r| - 1];
    assert last in r;
    assert forall i | 0 <= i < |q| :: q[i] == r[i] && r[i] < last;
  }

  lemma WaitingHeld(s: Sock, isRead: bool)
    requires Inv(s) && s.held > 0 && Queue(s, isRead) != []
    ensures var r := SockRelease(s);
            r.connected == s.connected && Queue(r, isRead) == Queue(s, isRead) && Want(r, isRead) == Want(s, isRead)
  {
    SockReleaseIs(s);
    if s.refCount == 1 {
      LastReference(s);
    }
    hide Inv, SockRelease;
  }

  lemma WaitingForgotten(s: Sock, isRead: bool)
    requires Inv(s) && s.held > 0 && Quiet(s, None) && Queue(s, isRead) != []
    ensures var r := SockRelease(Forgotten(s));
            r.connected == s.connected && Queue(r, isRead) == Queue(s, isRead) && Want(r, isRead) == Want(s, isRead)
  {
    ForgottenOk(s);
    hide Inv, SockRelease;
    WaitingHeld(Forgotten(s), isRead);
  }
}
