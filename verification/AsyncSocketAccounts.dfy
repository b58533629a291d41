/**
 What callbacks do is what the client decided in them, no more and no less: the references it took and
 dropped, on the socket and on every descriptor, and the timers it stopped, can be told from the
 decisions that were read from the tape, however deeply the callbacks were nested.
 */
module AsyncSocketAccounts {
  import opened AsyncIoCommon
  import opened AsyncSocketSpec
  import opened AsyncSocketSteps
  import opened AsyncSocketInvariant
  import opened AsyncSocketCallbacks
  import opened AsyncSocketCancel
  import opened AsyncSocketSafety
  import opened AsyncSocketTheorems
  import opened AsyncSocketOrphans

  // ----- what decisions come to -----------------------------------------------------------

  /** The client's references to the socket; it drops only what it has. */
  function SockRefs(ds: seq<Decision>, n: int): int {
    if ds == [] then n
    else
      var m := SockRefs(ds[..|ds| - 1], n);
      match ds[|ds| - 1]
      case KeepSocket => m + 1
      case DropSocket => if m > 0 then m - 1 else m
      case _ => m
  }

  /** Its references to a descriptor. */
  function IoRefs(ds: seq<Decision>, k: nat, n: int): int {
    if ds == [] then n
    else
      var m := IoRefs(ds[..|ds| - 1], k, n);
      var d := ds[|ds| - 1];
      if d == KeepIo(k) then m + 1 else if d == DropIo(k) && m > 0 then m - 1 else m
  }

  /** Descriptor `a` became `b` by these decisions, unless it is gone. */
  predicate Accounts(ds: seq<Decision>, k: nat, a: Io, b: Io) {
    b.live ==>
      && a.live && (b.timerOn <==> a.timerOn && StopTimer(k) !in ds)
      && (b.refCount > 0 ==> a.refCount > 0 && b.clientRefs == IoRefs(ds, k, a.clientRefs))
  }

  predicate Traced(ds: seq<Decision>, s: Sock, r: Sock) {
    && r.clientRefs == SockRefs(ds, s.clientRefs)
    && forall k | k in s.ios :: k in r.ios && Accounts(ds, k, s.ios[k], r.ios[k])
  }

  lemma {:induction false} SockRefsSum(a: seq<Decision>, b: seq<Decision>, n: int)
    ensures SockRefs(a + b, n) == SockRefs(b, SockRefs(a, n))
    decreases |b|
  {
    if b == [] {
      assert a + b == a;
    } else {
      assert (a + b)[..|a + b| - 1] == a + b[..|b| - 1];
      SockRefsSum(a, b[..|b| - 1], n);
    }
  }

  lemma {:induction false} IoRefsSum(a: seq<Decision>, b: seq<Decision>, k: nat, n: int)
    ensures IoRefs(a + b, k, n) == IoRefs(b, k, IoRefs(a, k, n))
    decreases |b|
  {
    if b == [] {
      assert a + b == a;
    } else {
      assert (a + b)[..|a + b| - 1] == a + b[..|b| - 1];
      IoRefsSum(a, b[..|b| - 1], k, n);
    }
  }

  lemma AccountsTrans(a: seq<Decision>, b: seq<Decision>, k: nat, x: Io, y: Io, z: Io)
    requires Accounts(a, k, x, y) && Accounts(b, k, y, z)
    ensures Accounts(a + b, k, x, z)
  {
    IoRefsSum(a, b, k, x.clientRefs);
    hide IoRefs;
  }

  lemma TracedTrans(a: seq<Decision>, b: seq<Decision>, s: Sock, t: Sock, r: Sock)
    requires Traced(a, s, t) && Traced(b, t, r)
    ensures Traced(a + b, s, r)
  {
    hide Accounts, SockRefs;
    SockRefsSum(a, b, s.clientRefs);
    forall k | k in s.ios ensures k in r.ios && Accounts(a + b, k, s.ios[k], r.ios[k]) {
      AccountsTrans(a, b, k, s.ios[k], t.ios[k], r.ios[k]);
    }
  }

  /** Nothing was decided, or it changed nothing. */
  predicate Still(a: Io, b: Io) {
    b.live ==> a.live && b.timerOn == a.timerOn && (b.refCount > 0 ==> a.refCount > 0 && b.clientRefs == a.clientRefs)
  }

  lemma TracedStill(s: Sock, r: Sock)
    requires r.clientRefs == s.clientRefs && forall k | k in s.ios :: k in r.ios && Still(s.ios[k], r.ios[k])
    ensures Traced([], s, r)
  {
  }

  lemma TracedNone(s: Sock, r: Sock)
    requires r.clientRefs == s.clientRefs && r.ios == s.ios
    ensures Traced([], s, r)
  {
    TracedStill(s, r);
  }

  /** Only one descriptor has changed. */
  lemma TracedAt(ds: seq<Decision>, s: Sock, r: Sock, k: nat)
    requires k in s.ios && k in r.ios && r.ios == s.ios[k := r.ios[k]] && r.clientRefs == SockRefs(ds, s.clientRefs)
    requires Accounts(ds, k, s.ios[k], r.ios[k]) && forall j | j in s.ios && j != k :: Accounts(ds, j, s.ios[j], s.ios[j])
    ensures Traced(ds, s, r)
  {
    hide Accounts, SockRefs;
  }

  /** One was added. */
  lemma TracedMore(s: Sock, r: Sock, k: nat)
    requires k !in s.ios && k in r.ios && r.ios == s.ios[k := r.ios[k]] && r.clientRefs == s.clientRefs
    ensures Traced([], s, r)
  {
    hide Accounts, SockRefs;
    NoneOne(s.clientRefs, 0);
    forall j | j in s.ios ensures Accounts([], j, s.ios[j], s.ios[j]) {
      StillAccounts(j, s.ios[j]);
    }
  }

  lemma StillAccounts(k: nat, io: Io)
    ensures Accounts([], k, io, io) && Accounts([], k, io, io.(live := false, timerOn := false))
  {
  }

  // ----- the decisions ----------------------------------------------------------------------

  /** One decision, with what it set off. */
  lemma TracedOne(d: Decision, n: int, k: nat)
    ensures SockRefs([d], n) == if d == KeepSocket then n + 1 else if d == DropSocket && n > 0 then n - 1 else n
    ensures IoRefs([d], k, n) == if d == KeepIo(k) then n + 1 else if d == DropIo(k) && n > 0 then n - 1 else n
  {
    assert [d][..0] == [];
    assert SockRefs([], n) == n && IoRefs([], k, n) == n;
  }

  lemma KeepSockTraced(s: Sock)
    ensures Traced([KeepSocket], s, KeepSock(s))
  {
    hide SockRefs, IoRefs;
    TracedOne(KeepSocket, s.clientRefs, 0);
    forall k | k in s.ios ensures Accounts([KeepSocket], k, s.ios[k], s.ios[k]) {
      TracedOne(KeepSocket, s.ios[k].clientRefs, k);
    }
  }

  lemma DropSockTraced(s: Sock)
    requires s.refCount > s.clientRefs && !s.fault
    ensures Traced([DropSocket], s, DropSock(s))
  {
    hide SockRefs, IoRefs, DropSock, Accounts, Traced;
    DropSockIs(s);
    DroppedTraced(s, DropSock(s));
  }

  /** No descriptor knows how many references the client has to the socket. */
  lemma DroppedTraced(s: Sock, r: Sock)
    requires r.ios == s.ios && r.clientRefs == if s.clientRefs > 0 then s.clientRefs - 1 else s.clientRefs
    ensures Traced([DropSocket], s, r)
  {
    hide SockRefs, IoRefs, Accounts;
    TracedOne(DropSocket, s.clientRefs, 0);
    forall k | k in s.ios ensures Accounts([DropSocket], k, s.ios[k], s.ios[k]) {
      SockAccounts(s.ios[k], k);
    }
  }

  lemma SockAccounts(io: Io, k: nat)
    ensures Accounts([DropSocket], k, io, io)
  {
    hide SockRefs, IoRefs;
    TracedOne(DropSocket, io.clientRefs, k);
  }

  lemma KeepTraced(s: Sock, k: nat)
    ensures Traced([KeepIo(k)], s, Keep(s, k))
  {
    hide SockRefs, IoRefs, Accounts, Traced, Keep;
    TracedOne(KeepIo(k), s.clientRefs, 0);
    forall j | j in s.ios ensures j != k ==> Accounts([KeepIo(k)], j, s.ios[j], s.ios[j]) {
      KeepAccounts(s.ios[j], k, j);
    }
    KeepIs(s, k);
    if k in s.ios {
      KeepAccounts(s.ios[k], k, k);
      TracedAt([KeepIo(k)], s, Keep(s, k), k);
    } else {
      TracedAs([KeepIo(k)], s);
    }
  }

  /** Nothing has changed. */
  lemma TracedAs(ds: seq<Decision>, s: Sock)
    requires s.clientRefs == SockRefs(ds, s.clientRefs) && forall j | j in s.ios :: Accounts(ds, j, s.ios[j], s.ios[j])
    ensures Traced(ds, s, s)
  {
    hide Accounts, SockRefs;
  }

  lemma KeepIs(s: Sock, k: nat)
    ensures k !in s.ios ==> Keep(s, k) == s
    ensures k in s.ios ==>
      var io, r := s.ios[k], Keep(s, k);
      && k in r.ios && r.ios == s.ios[k := r.ios[k]] && r.clientRefs == s.clientRefs
      && r.ios[k] == if io.refCount > 0 then io.(refCount := io.refCount + 1, clientRefs := io.clientRefs + 1, kept := true) else io
  {
  }

  lemma KeepAccounts(io: Io, k: nat, j: nat)
    ensures Accounts([KeepIo(k)], j, io,
                     if j == k && io.refCount > 0 then io.(refCount := io.refCount + 1, clientRefs := io.clientRefs + 1, kept := true) else io)
  {
    hide SockRefs, IoRefs;
    TracedOne(KeepIo(k), io.clientRefs, j);
  }

  lemma StopTraced(s: Sock, k: nat)
    requires Inv(s)
    ensures Traced([StopTimer(k)], s, if At(s, k).live then StopIoTimer(s, k) else s)
  {
    hide SockRefs, IoRefs, Inv, Accounts, Traced, StopIoTimer;
    TracedOne(StopTimer(k), s.clientRefs, 0);
    forall j | j in s.ios ensures j != k ==> Accounts([StopTimer(k)], j, s.ios[j], s.ios[j]) {
      StopAccounts(s.ios[j], k, j);
    }
    if At(s, k).live {
      StopAccounts(s.ios[k], k, k);
      StopIs(s, k);
      TracedAt([StopTimer(k)], s, StopIoTimer(s, k), k);
    } else {
      if k in s.ios {
        StopAccounts(s.ios[k], k, k);
      }
      TracedAs([StopTimer(k)], s);
    }
  }

  lemma StopAccounts(io: Io, k: nat, j: nat)
    ensures Accounts([StopTimer(k)], j, io, if j == k then io.(timerOn := false) else io)
    ensures !io.live ==> Accounts([StopTimer(k)], j, io, io)
  {
    hide SockRefs, IoRefs;
    TracedOne(StopTimer(k), io.clientRefs, j);
  }

  // ----- everything that client code sets off -----------------------------------------------

  lemma QueueTraced(d: Decision, s: Sock, r: Sock)
    requires d.QueueIo? && Traced([], s, r)
    ensures Traced([d], s, r)
  {
    hide SockRefs, IoRefs, Accounts;
    TracedOne(d, s.clientRefs, 0);
    NoneOne(s.clientRefs, 0);
    forall k | k in s.ios ensures k in r.ios && Accounts([d], k, s.ios[k], r.ios[k]) {
      QueueAccounts(d, k, s.ios[k], r.ios[k]);
    }
  }

  lemma NoneOne(n: int, k: nat)
    ensures SockRefs([], n) == n && IoRefs([], k, n) == n
  {
  }

  lemma QueueAccounts(d: Decision, k: nat, a: Io, b: Io)
    requires d.QueueIo? && Accounts([], k, a, b)
    ensures Accounts([d], k, a, b)
  {
    hide SockRefs, IoRefs;
    TracedOne(d, a.clientRefs, k);
    NoneOne(a.clientRefs, k);
  }

  /** The decisions that a call or callback read from the tape are those it acted upon. */
  predicate Tracked(s: Sock, r: Sock) {
    s.tape == Used(s, r) + r.tape && Traced(Used(s, r), s, r)
  }

  lemma TrackedTrans(s: Sock, t: Sock, r: Sock)
    requires Tracked(s, t) && Tracked(t, r)
    ensures Tracked(s, r)
  {
    hide Traced;
    assert s.tape == Used(s, t) + Used(t, r) + r.tape;
    assert Used(s, r) == Used(s, t) + Used(t, r);
    TracedTrans(Used(s, t), Used(t, r), s, t, r);
  }

  lemma TrackedStill(s: Sock, r: Sock)
    requires r.tape == s.tape && Traced([], s, r)
    ensures Tracked(s, r)
  {
    hide Traced;
    assert Used(s, r) == [];
  }

  /** One decision, already read, and what it set off. */
  predicate Acted(d: Decision, s: Sock, r: Sock) {
    s.tape == Used(s, r) + r.tape && Traced([d] + Used(s, r), s, r)
  }

  lemma ActedOnly(d: Decision, s: Sock, r: Sock)
    requires r.tape == s.tape && Traced([d], s, r)
    ensures Acted(d, s, r)
  {
    hide Traced;
    assert Used(s, r) == [] && [d] + [] == [d];
  }

  lemma ActedThen(d: Decision, s: Sock, t: Sock, r: Sock)
    requires t.tape == s.tape && Traced([d], s, t) && Tracked(t, r)
    ensures Acted(d, s, r)
  {
    hide Traced;
    assert Used(s, r) == Used(t, r);
    TracedTrans([d], Used(t, r), s, t, r);
  }

  lemma ActedTracked(s: Sock, d: Decision, t: Sock, r: Sock)
    requires s.tape != [] && s.tape[0] == d && t == s.(tape := s.tape[1..]) && Acted(d, t, r)
    ensures Tracked(s, r)
  {
    hide Traced;
    assert s.tape == [d] + Used(t, r) + r.tape;
    assert Used(s, r) == [d] + Used(t, r);
    TracedTape(s, t, [d] + Used(t, r), r);
  }

  lemma TracedTape(s: Sock, t: Sock, ds: seq<Decision>, r: Sock)
    requires t.ios == s.ios && t.clientRefs == s.clientRefs && Traced(ds, t, r)
    ensures Traced(ds, s, r)
  {
    hide Accounts;
  }

  /** Reading the answer. */
  lemma AnswerTracked(s: Sock)
    requires s.tape != [] && s.tape[0].Answer?
    ensures Tracked(s, s.(tape := s.tape[1..]))
  {
    hide SockRefs, IoRefs, Accounts;
    var d, r := s.tape[0], s.(tape := s.tape[1..]);
    assert Used(s, r) == [d];
    TracedOne(d, s.clientRefs, 0);
    forall k | k in s.ios ensures Accounts([d], k, s.ios[k], s.ios[k]) {
      AnswerAccounts(d, k, s.ios[k]);
    }
  }

  lemma AnswerAccounts(d: Decision, k: nat, io: Io)
    requires d.Answer?
    ensures Accounts([d], k, io, io)
  {
    hide SockRefs, IoRefs;
    TracedOne(d, io.clientRefs, k);
  }

  lemma {:induction false} ClientTracked(s: Sock, who: Option<nat>)
    requires Inv(s) && Anchored(s, who)
    ensures Tracked(s, Client(s).0)
    decreases |s.tape|, QueueSize(s), 0
  {
    hide Inv, Anchored, Decide, Called, Tracked, Acted, Traced;
    ClientIs(s);
    hide Client;
    if s.tape == [] {
      TracedNone(s, s);
      TrackedStill(s, s);
    } else {
      var d, t := s.tape[0], s.(tape := s.tape[1..]);
      if d.Answer? {
        AnswerTracked(s);
      } else {
        TapeOk(s, who, t.tape);
        DecideActed(t, d, who);
        DecideOk(t, d, who);
        var u := Decide(t, d);
        AnchorCalled(t, u, who);
        ClientTracked(u, who);
        ActedTracked(s, d, t, u);
        TrackedTrans(s, u, Client(u).0);
      }
    }
  }

  lemma {:induction false} DecideActed(s: Sock, d: Decision, who: Option<nat>)
    requires Inv(s) && Anchored(s, who) && !d.Answer?
    ensures Acted(d, s, Decide(s, d))
    decreases |s.tape|, QueueSize(s), 7
  {
    hide Inv, Anchored, Acted, Traced, ReleaseIo, Enqueue, DropSock, Keep, KeepSock, StopIoTimer;
    match d
    case QueueIo(isRead, buffer) => EnqueueActed(s, d, who);
    case KeepSocket => KeepSockTraced(s); KeepTape(s, 0); ActedOnly(d, s, KeepSock(s));
    case DropSocket =>
      AnchorHolds(s, who);
      NoFault(s);
      DropSockTraced(s);
      DropSockIs(s);
      ActedOnly(d, s, DropSock(s));
    case KeepIo(k) => KeepTraced(s, k); KeepTape(s, k); ActedOnly(d, s, Keep(s, k));
    case DropIo(k) => ReleaseIoActed(s, k);
    case StopTimer(k) => StopTraced(s, k); KeepTape(s, k); ActedOnly(d, s, if At(s, k).live then StopIoTimer(s, k) else s);
  }

  lemma KeepTape(s: Sock, k: nat)
    ensures KeepSock(s).tape == s.tape && Keep(s, k).tape == s.tape && StopIoTimer(s, k).tape == s.tape
  {
  }

  lemma {:induction false} NotifyTracked(s: Sock, k: nat, event: State)
    requires Inv(s) && Anchored(s, Some(k))
    ensures Tracked(s, Notify(s, k, event).0)
    decreases |s.tape|, QueueSize(s), 1
  {
    hide Inv, Client, Tracked, Anchored, Called;
    NotifyIs(s, k, event);
    ClientTracked(s, Some(k));
    ClientOk(s, Some(k));
    CalledAnchorIn(s, Client(s).0, k);
    hide Notify;
    TellTracked(Client(s).0, k, Note(event, Client(s).1, At(Client(s).0, k).transferred));
    TrackedTrans(s, Client(s).0, Notify(s, k, event).0);
  }

  lemma CalledAnchorIn(s: Sock, r: Sock, k: nat)
    requires Anchored(s, Some(k)) && Called(s, r)
    ensures k in r.ios
  {
    AnchorGrows(s, r, Some(k));
  }

  lemma TellTracked(s: Sock, k: nat, note: Note)
    requires k in s.ios
    ensures Tracked(s, Put(s, k, Told(At(s, k), note)))
  {
    hide Tracked, Traced;
    TracedStill(s, Put(s, k, Told(At(s, k), note)));
    TrackedStill(s, Put(s, k, Told(At(s, k), note)));
  }

  lemma {:induction false} ReleaseIoActed(s: Sock, k: nat)
    requires Inv(s)
    ensures Acted(DropIo(k), s, ReleaseIo(s, k))
    decreases |s.tape|, QueueSize(s), 6
  {
    hide Inv, Tracked, Acted, Traced, AtRest, IoRelease, Lent, Grows, SameConnection;
    if k in s.ios && s.ios[k].live && s.ios[k].clientRefs > 0 {
      LentIo(s, k);
      LentShape(s, k);
      LentTraced(s, k);
      IoReleaseTracked(Lent(s, k), k);
      ActedThen(DropIo(k), s, Lent(s, k), IoRelease(Lent(s, k), k));
    } else {
      DropNothing(s, k);
      ActedOnly(DropIo(k), s, s);
    }
  }

  lemma LentTraced(s: Sock, k: nat)
    requires k in s.ios && s.ios[k].live && s.ios[k].clientRefs > 0
    ensures Traced([DropIo(k)], s, Lent(s, k))
  {
    hide SockRefs, IoRefs, Accounts, Traced, Lent;
    TracedOne(DropIo(k), s.clientRefs, 0);
    forall j | j in s.ios ensures j != k ==> Accounts([DropIo(k)], j, s.ios[j], s.ios[j]) {
      DropAccounts(s.ios[j], k, j);
    }
    DropAccounts(s.ios[k], k, k);
    LentIs(s, k, s.ios[k].(clientRefs := s.ios[k].clientRefs - 1, held := s.ios[k].held + 1));
    LentRefs(s, k);
    TracedAt([DropIo(k)], s, Lent(s, k), k);
  }

  lemma LentRefs(s: Sock, k: nat)
    ensures Lent(s, k).clientRefs == s.clientRefs
  {
  }

  lemma DropAccounts(io: Io, k: nat, j: nat)
    ensures Accounts([DropIo(k)], j, io,
                     if j == k && io.clientRefs > 0 then io.(clientRefs := io.clientRefs - 1, held := io.held + 1) else io)
    ensures !io.live ==> Accounts([DropIo(k)], j, io, io)
  {
    hide SockRefs, IoRefs;
    TracedOne(DropIo(k), io.clientRefs, j);
  }

  lemma DropNothing(s: Sock, k: nat)
    requires !(k in s.ios && s.ios[k].live && s.ios[k].clientRefs > 0)
    ensures Traced([DropIo(k)], s, s)
  {
    hide SockRefs, IoRefs, Accounts;
    TracedOne(DropIo(k), s.clientRefs, 0);
    forall j | j in s.ios ensures Accounts([DropIo(k)], j, s.ios[j], s.ios[j]) {
      DropAccounts(s.ios[j], k, j);
    }
  }

  lemma {:induction false} IoReleaseTracked(s: Sock, k: nat)
    requires Inv(s) && k in s.ios && s.ios[k].live && s.ios[k].held > 0
    requires s.ios[k].held == 1 ==> AtRest(s.ios[k], InQueue(s, k))
    ensures Tracked(s, IoRelease(s, k))
    decreases |s.tape|, QueueSize(s), 5
  {
    hide Inv, Local, AtRest, Notify, SockRelease, Bury, IoRelease, Tracked, Traced, Grows, Released, Anchored;
    About(s, k);
    HeldCounts(s.ios[k], InQueue(s, k));
    NoFault(s);
    IoReleaseIs(s, k);
    DropOk(s, k);
    var t := Put(s, k, Dropped(s.ios[k]));
    DropTracked(s, k);
    if s.ios[k].refCount == 1 {
      LastSteps(s, k);
      DyingAnchored(s, k);
      NotifyTracked(t, k, Finished);
      var n := Notify(t, k, Finished).0;
      EndTracked(n, k);
      TrackedTrans(s, t, n);
      TrackedTrans(s, n, IoRelease(s, k));
    }
  }

  lemma DyingAnchored(s: Sock, k: nat)
    requires k in s.ios && s.ios[k].live && s.ios[k].refCount == 1
    ensures Anchored(Put(s, k, Dropped(s.ios[k])), Some(k))
  {
  }

  lemma DropTracked(s: Sock, k: nat)
    requires k in s.ios && s.ios[k].live && s.ios[k].refCount > 0
    ensures Tracked(s, Put(s, k, Dropped(s.ios[k])))
  {
    hide Tracked, Traced;
    TracedStill(s, Put(s, k, Dropped(s.ios[k])));
    TrackedStill(s, Put(s, k, Dropped(s.ios[k])));
  }

  lemma EndTracked(n: Sock, k: nat)
    requires k in n.ios && Inv(Bury(n, k)) && Bury(n, k).held > 0
    ensures Tracked(n, SockRelease(Bury(n, k)))
  {
    hide Inv, SockRelease, Tracked, Traced, Bury;
    var u := Bury(n, k);
    BuryTracked(n, k);
    SockReleaseIs(u);
    TracedNone(u, SockRelease(u));
    TrackedStill(u, SockRelease(u));
    TrackedTrans(n, u, SockRelease(u));
  }

  lemma BuryTracked(n: Sock, k: nat)
    requires k in n.ios
    ensures Tracked(n, Bury(n, k))
  {
    hide Tracked, Traced, Bury, Accounts, SockRefs, IoRefs;
    BuryIs(n, k);
    NoneOne(n.clientRefs, 0);
    forall j | j in n.ios ensures Accounts([], j, n.ios[j], n.ios[j]) {
      StillAccounts(j, n.ios[j]);
    }
    StillAccounts(k, n.ios[k]);
    TracedAt([], n, Bury(n, k), k);
    TrackedStill(n, Bury(n, k));
  }

  lemma BuryIs(n: Sock, k: nat)
    requires k in n.ios
    ensures var u := Bury(n, k);
            u.ios == n.ios[k := n.ios[k].(live := false, timerOn := false)] && u.clientRefs == n.clientRefs && u.tape == n.tape
  {
  }

  lemma {:induction false} EnqueueActed(s: Sock, d: Decision, who: Option<nat>)
    requires Inv(s) && Anchored(s, who) && d.QueueIo?
    ensures Acted(d, s, Enqueue(s, d.isRead, d.buffer))
    decreases |s.tape|, QueueSize(s), 6
  {
    hide Inv, Increasing, Notify, IoRelease, Append, SetWant, RwNew, Anchored, AtRest, Acted, Traced, Tracked, InQueue;
    var t, k := RwNew(s, d.isRead, d.buffer), s.next;
    EnqueueSteps(s, d.isRead, d.buffer, who);
    EnqueueIs(s, d.isRead, d.buffer);
    hide Enqueue;
    NewTraced(s, d);
    if s.connected {
      AppendTraced(s, d);
      ActedOnly(d, s, Enqueue(s, d.isRead, d.buffer));
    } else {
      NotifyTracked(t, k, Failed);
      IoReleaseTracked(Notify(t, k, Failed).0, k);
      TrackedTrans(t, Notify(t, k, Failed).0, Enqueue(s, d.isRead, d.buffer));
      ActedThen(d, s, t, Enqueue(s, d.isRead, d.buffer));
    }
  }

  lemma NewTraced(s: Sock, d: Decision)
    requires d.QueueIo? && Inv(s)
    ensures var t := RwNew(s, d.isRead, d.buffer); Traced([d], s, t) && t.tape == s.tape && Anchored(t, Some(s.next))
  {
    AboutNext(s);
    hide Inv;
    TracedStill(s, RwNew(s, d.isRead, d.buffer));
    hide Traced;
    QueueTraced(d, s, RwNew(s, d.isRead, d.buffer));
  }

  lemma AppendIs(s: Sock, isRead: bool, buffer: seq<Byte>)
    ensures var k, r := s.next, SetWant(Append(RwNew(s, isRead, buffer), isRead, s.next), isRead, true);
            k in r.ios && r.ios == s.ios[k := r.ios[k]] && r.clientRefs == s.clientRefs && r.tape == s.tape
  {
  }

  lemma AppendTraced(s: Sock, d: Decision)
    requires d.QueueIo? && Inv(s)
    ensures var r := SetWant(Append(RwNew(s, d.isRead, d.buffer), d.isRead, s.next), d.isRead, true);
            Traced([d], s, r) && r.tape == s.tape
  {
    AboutNext(s);
    hide Inv;
    var r := SetWant(Append(RwNew(s, d.isRead, d.buffer), d.isRead, s.next), d.isRead, true);
    AppendIs(s, d.isRead, d.buffer);
    hide Traced, Append, RwNew, SetWant;
    TracedMore(s, r, s.next);
    QueueTraced(d, s, r);
  }

  /**
   What a callback does, for every client: its references to the socket, and to every descriptor that is
   still in use, are what its decisions make of those it had; a timer still runs exactly if none of them
   stopped it; and each queue of a connected socket has as many more descriptors as were put in it.
   */
  lemma CallbackDoes(s: Sock, who: Option<nat>)
    requires Inv(s) && Anchored(s, who)
    ensures var r := Client(s).0;
            var ds := Used(s, r);
            && s.tape == ds + r.tape && r.clientRefs == SockRefs(ds, s.clientRefs)
            && (forall k | k in s.ios :: k in r.ios &&
                 (r.ios[k].live ==>
                    && (r.ios[k].timerOn <==> s.ios[k].timerOn && StopTimer(k) !in ds)
                    && (r.ios[k].refCount > 0 ==> r.ios[k].clientRefs == IoRefs(ds, k, s.ios[k].clientRefs))))
            && (s.connected ==> forall isRead :: |Queue(r, isRead)| == |Queue(s, isRead)| + Enqueues(ds, isRead))
  {
    hide Inv, Anchored, Client, SockRefs, IoRefs, Enqueues;
    ClientTracked(s, who);
    if s.connected {
      ClientJoins(s, who, true);
      ClientJoins(s, who, false);
    }
  }

  /** A reference that the client takes or drops by a call is the same as one it takes or drops in a callback. */
  function Asked(e: Event): Option<Decision> {
    match e
    case CallKeep => Some(KeepSocket)
    case CallDrop => Some(DropSocket)
    case CallKeepIo(k) => Some(KeepIo(k))
    case CallDropIo(k) => Some(DropIo(k))
    case _ => None
  }

  lemma CallDoes(s: Sock, e: Event)
    requires Idle(s) && Enabled(s, e) && Asked(e).Some?
    ensures var r := Step(s, e);
            var ds := [Asked(e).value] + Used(s, r);
            && s.tape == Used(s, r) + r.tape && r.clientRefs == SockRefs(ds, s.clientRefs)
            && (forall k | k in s.ios :: k in r.ios &&
                 (r.ios[k].live ==>
                    && (r.ios[k].timerOn <==> s.ios[k].timerOn && StopTimer(k) !in ds)
                    && (r.ios[k].refCount > 0 ==> r.ios[k].clientRefs == IoRefs(ds, k, s.ios[k].clientRefs))))
  {
    hide Inv, Quiet, SockRefs, IoRefs, DropSock, ReleaseIo, Keep, KeepSock;
    match e
    case CallKeep => KeepSockTraced(s); KeepTape(s, 0); ActedOnly(KeepSocket, s, KeepSock(s));
    case CallDrop => CallDropTraced(s); ActedOnly(DropSocket, s, DropSock(s));
    case CallKeepIo(k) => KeepTraced(s, k); KeepTape(s, k); ActedOnly(KeepIo(k), s, Keep(s, k));
    case CallDropIo(k) => ReleaseIoActed(s, k);
  }

  lemma CallDropTraced(s: Sock)
    requires Idle(s) && s.clientRefs > 0
    ensures Traced([DropSocket], s, DropSock(s)) && DropSock(s).tape == s.tape
  {
    hide Inv, SockRelease, Traced, Quiet, Lend;
    LendOk(s);
    SockReleaseIs(Lend(s));
    LendKeeps(s);
    LentOut(s);
    DropIsLent(s);
    DroppedTraced(s, SockRelease(Lend(s)));
  }

  lemma LentOut(s: Sock)
    requires s.clientRefs > 0
    ensures Lend(s).clientRefs == s.clientRefs - 1 && Step(s, CallDrop) == DropSock(s)
  {
    hide SockRelease;
  }
}
