/** What holds in every run of a socket, for every client and every network. */
module AsyncSocketTheorems {
  import opened AsyncIoCommon
  import opened AsyncSocketSpec
  import opened AsyncSocketSteps
  import opened AsyncSocketInvariant
  import opened AsyncSocketCallbacks
  import opened AsyncSocketCancel
  import opened AsyncSocketSafety

  // ----- the story of one descriptor ------------------------------------------------------

  /** The notifications that end an I/O.  A refused I/O fails whatever its client answers. */
  predicate Ending(n: Note, accepted: bool) {
    || n.event == Succeeded || n.event == Cancelled
    || (n.event == Failed && (n.answer != Retry || !accepted))
    || (n.event == TimedOut && n.answer != Retry)
    || ((n.event == Started || n.event == Continues) && n.answer == Abort)
  }

  predicate Calm(notes: seq<Note>, accepted: bool) {
    forall n | n in notes :: !Ending(n, accepted) && n.event != Finished
  }

  /** One ending, after which a client that kept the descriptor may still hear of a time-out. */
  predicate EndedOnce(notes: seq<Note>, accepted: bool, kept: bool) {
    var n := |notes|;
    || (n >= 1 && Ending(notes[n - 1], accepted) && Calm(notes[..n - 1], accepted))
    || (kept && n >= 2 && notes[n - 1].event == TimedOut && Ending(notes[n - 2], accepted) && Calm(notes[..n - 2], accepted))
  }

  /** Exactly one ending, exactly one FINISHED, nothing after it. */
  predicate Concluded(notes: seq<Note>, accepted: bool, kept: bool) {
    notes != [] && notes[|notes| - 1].event == Finished && EndedOnce(notes[..|notes| - 1], accepted, kept)
  }

  function Starts(notes: seq<Note>): nat {
    if notes == [] then 0 else Starts(notes[..|notes| - 1]) + (if notes[|notes| - 1].event == Started then 1 else 0)
  }

  /** STARTED comes once, and before every CONTINUES; success means that everything was moved. */
  predicate WellTold(notes: seq<Note>, size: nat) {
    forall i | 0 <= i < |notes| ::
      && (notes[i].event == Started ==> Starts(notes[..i]) == 0)
      && (notes[i].event == Continues ==> Starts(notes[..i]) == 1)
      && (notes[i].event == Succeeded ==> notes[i].transferred == size)
  }

  /** What a phase says about the notifications that led to it. */
  predicate Story(p: Phase, notes: seq<Note>, accepted: bool, kept: bool) {
    match p
    case Fresh => Calm(notes, accepted) && Starts(notes) == 0
    case Running => Calm(notes, accepted) && Starts(notes) == 1 && accepted
    case Ended => notes != [] && Ending(notes[|notes| - 1], accepted) && Calm(notes[..|notes| - 1], accepted)
    case Settled => EndedOnce(notes, accepted, kept)
    case Gone => Concluded(notes, accepted, kept)
    case Broken => true
  }

  lemma CalmMore(notes: seq<Note>, n: Note, accepted: bool)
    requires Calm(notes, accepted) && !Ending(n, accepted) && n.event != Finished
    ensures Calm(notes + [n], accepted)
  {
    assert forall m | m in notes + [n] :: m in notes || m == n;
  }

  lemma StartsMore(notes: seq<Note>, n: Note)
    ensures Starts(notes + [n]) == Starts(notes) + (if n.event == Started then 1 else 0)
  {
    assert (notes + [n])[..|notes|] == notes;
  }

  lemma FromActive(p: Phase, notes: seq<Note>, n: Note, accepted: bool, size: nat, kept: bool)
    requires Active(p) && Story(p, notes, accepted, kept) && After(p, n, accepted, size, kept) != Broken
    ensures Story(After(p, n, accepted, size, kept), notes + [n], accepted, kept)
  {
    var more := notes + [n];
    assert more[..|notes|] == notes;
    StartsMore(notes, n);
    hide Calm, Starts;
    if Active(After(p, n, accepted, size, kept)) {
      CalmMore(notes, n, accepted);
    }
  }

  lemma FromEnding(p: Phase, notes: seq<Note>, n: Note, accepted: bool, size: nat, kept: bool)
    requires p in {Ended, Settled, Gone} && Story(p, notes, accepted, kept) && After(p, n, accepted, size, kept) != Broken
    ensures Story(After(p, n, accepted, size, kept), notes + [n], accepted, kept)
  {
    var more := notes + [n];
    assert more[..|notes|] == notes;
    if p == Ended {
      assert more[..|more| - 2] == notes[..|notes| - 1];
    }
    hide Calm, Ending;
  }

  lemma WellToldMore(p: Phase, notes: seq<Note>, n: Note, accepted: bool, size: nat, kept: bool)
    requires p != Broken && Story(p, notes, accepted, kept) && WellTold(notes, size) && After(p, n, accepted, size, kept) != Broken
    ensures WellTold(notes + [n], size)
  {
    var more := notes + [n];
    assert more[..|notes|] == notes;
    assert forall i | 0 <= i < |notes| :: more[i] == notes[i] && more[..i] == notes[..i];
    hide Calm, Ending, EndedOnce, Concluded;
  }

  lemma {:induction false} PhaseStory(notes: seq<Note>, accepted: bool, size: nat, kept: bool)
    requires PhaseOf(notes, accepted, size, kept) != Broken
    ensures Story(PhaseOf(notes, accepted, size, kept), notes, accepted, kept) && WellTold(notes, size)
  {
    hide Story, WellTold, After;
    if notes == [] {
      NoStory(accepted, size, kept);
    } else {
      var init, last := notes[..|notes| - 1], notes[|notes| - 1];
      assert notes == init + [last];
      var p := PhaseOf(init, accepted, size, kept);
      hide PhaseOf;
      BrokenStays(last, accepted, size, kept);
      PhaseStory(init, accepted, size, kept);
      WellToldMore(p, init, last, accepted, size, kept);
      if Active(p) {
        FromActive(p, init, last, accepted, size, kept);
      } else {
        FromEnding(p, init, last, accepted, size, kept);
      }
    }
  }

  lemma NoStory(accepted: bool, size: nat, kept: bool)
    ensures Story(Fresh, [], accepted, kept) && WellTold([], size)
  {
  }

  lemma BrokenStays(n: Note, accepted: bool, size: nat, kept: bool)
    ensures After(Broken, n, accepted, size, kept) == Broken
  {
  }

  /** A run leaves a socket in order, apart from a report that came too late. */
  lemma RunSound(tape: seq<Decision>, es: seq<Event>)
    ensures var s := Run(New(tape), es);
            Ordered(s) && Inv(Sound(s)) && Quiet(Sound(s), None) && Sound(s).held == 0
  {
    hide Run, Inv, Quiet;
    NewOk(tape);
    RunOk(New(tape), es);
  }

  /**
   In every run: a descriptor that is gone had exactly one ending and then was finished; one that
   is alive and was never kept by its client had no ending yet.
   */
  lemma EveryIoEndsOnce(tape: seq<Decision>, es: seq<Event>, k: nat)
    ensures var s := Run(New(tape), es);
            k in s.ios ==>
              var io := s.ios[k];
              && WellTold(io.notes, |io.buffer|)
              && (!io.live ==> Concluded(io.notes, io.accepted, io.kept))
              && (io.live && !io.kept ==> InQueue(s, k) && Calm(io.notes, io.accepted))
              && (io.live && !InQueue(s, k) ==> EndedOnce(io.notes, io.accepted, io.kept))
  {
    hide Run, Inv, Quiet;
    RunSound(tape, es);
    var s := Sound(Run(New(tape), es));
    if k in s.ios {
      About(s, k);
      StableAt(s, k);
      var io := s.ios[k];
      PhaseStory(io.notes, io.accepted, |io.buffer|, io.kept);
    }
  }

  lemma StableAt(s: Sock, k: nat)
    requires Quiet(s, None) && k in s.ios
    ensures Stable(s.ios[k])
  {
  }

  // ----- reference counts -----------------------------------------------------------------

  /** Between callbacks every reference is the client's, a queue's, or a descriptor's. */
  lemma ReferencesAreCounted(tape: seq<Decision>, es: seq<Event>)
    ensures var s := Run(New(tape), es);
            && s.refCount == s.clientRefs + |Live(s.ios)|
            && (s.freed <==> s.refCount == 0)
            && forall k | k in s.ios :: s.ios[k].refCount == (if InQueue(s, k) then 1 else 0) + s.ios[k].clientRefs
                                        && (s.ios[k].live <==> s.ios[k].refCount > 0)
  {
    hide Run, Quiet, Ordered;
    RunSound(tape, es);
    var s := Sound(Run(New(tape), es));
    forall k | k in s.ios
      ensures s.ios[k].refCount == (if InQueue(s, k) then 1 else 0) + s.ios[k].clientRefs && (s.ios[k].live <==> s.ios[k].refCount > 0)
    {
      About(s, k);
      StableAt(s, k);
    }
    hide RecordsOk, QueueOk, BytesOk, Live, Awake;
  }

  /** When the client drops the last reference nothing is queued, and nobody is called. */
  lemma LastDropIsSilent(tape: seq<Decision>, es: seq<Event>)
    ensures var s := Run(New(tape), es);
            s.clientRefs > 0 && s.refCount == 1 ==>
              var r := Step(s, CallDrop);
              s.readers == [] && s.writers == [] && r.ios == s.ios && r.tape == s.tape && r.freed && !r.connected && !r.reconnect
  {
    hide Run, Step, Inv, Quiet;
    RunSound(tape, es);
    var s := Run(New(tape), es);
    if s.clientRefs > 0 && s.refCount == 1 {
      NoFault(Sound(s));
      assert Sound(s) == s;
      DropsLast(s);
    }
  }

  lemma DropsLast(s: Sock)
    requires Idle(s) && s.clientRefs > 0 && s.refCount == 1
    ensures var r := Step(s, CallDrop);
            s.readers == [] && s.writers == [] && r.ios == s.ios && r.tape == s.tape && r.freed && !r.connected && !r.reconnect
  {
    hide Inv, Quiet, SockRelease, Lend;
    LendOk(s);
    LendKeeps(s);
    LastReference(Lend(s));
    SockReleaseIs(Lend(s));
    DropIsLent(s);
    hide Step;
  }

  lemma LendKeeps(s: Sock)
    ensures var t := Lend(s);
            t.ios == s.ios && t.tape == s.tape && t.readers == s.readers && t.writers == s.writers && t.refCount == s.refCount
  {
  }

  lemma DropIsLent(s: Sock)
    requires s.clientRefs > 0
    ensures Step(s, CallDrop) == SockRelease(Lend(s))
  {
    hide SockRelease;
  }

  // ----- a socket that is gone ------------------------------------------------------------

  predicate Reports(e: Event) {
    e.Connector? && e.event in {Started, Continues, Retrying, Failed, Succeeded}
  }

  /**
   On a socket that was destroyed only a connector that was not told can do anything, and the first
   thing that it does is wrong: it takes a reference to what is gone.
   */
  lemma DestroyedForGood(tape: seq<Decision>, es: seq<Event>, e: Event)
    ensures var s := Run(New(tape), es);
            s.freed ==>
              && (Enabled(s, e) <==> s.attempts > 0 && Reports(e))
              && (Reports(e) ==> Step(s, e) == s.(fault := true))
  {
    hide Run, Quiet;
    RunSound(tape, es);
    if Run(New(tape), es).freed {
      FreedIsQuiet(Run(New(tape), es), e);
    }
    hide Ordered, Inv, Enabled, Step;
  }

  lemma FreedIsQuiet(s: Sock, e: Event)
    requires Inv(Sound(s)) && s.freed
    ensures Enabled(s, e) <==> s.attempts > 0 && Reports(e)
    ensures Reports(e) ==> Step(s, e) == s.(fault := true)
  {
    NoFault(Sound(s));
    Referenced(Sound(s));
    FreedClients(Sound(s));
    hide Inv, Live, Client, SockRef, SockRelease, Accept, Close, Forgotten;
  }

  lemma FreedClients(s: Sock)
    requires Inv(s) && s.freed
    ensures s.refCount == 0 && s.clientRefs == 0 && !s.connected && !s.reconnect
  {
    NoFault(s);
    hide RecordsOk, QueueOk, BytesOk, Awake, Live;
  }

  /** The last reference went while a connector still knew the socket. */
  predicate Abandons(s: Sock, r: Sock) {
    !s.freed && r.freed && r.attempts > 0
  }

  /** Event `i` was the end of the socket, and `j` a report after that. */
  predicate TooLate(tape: seq<Decision>, es: seq<Event>, i: nat, j: nat) {
    i < j < |es| && Abandons(Run(New(tape), es[..i]), Run(New(tape), es[..i + 1])) && Reports(es[j])
  }

  lemma NextIs(s: Sock, es: seq<Event>, i: nat)
    requires i < |es|
    ensures Run(s, es[..i + 1]) == Next(Run(s, es[..i]), es[i])
  {
    assert es[..i + 1][..i] == es[..i];
    hide Next;
  }

  /** A socket that is gone stays as it is, but for the fault. */
  lemma NextFreed(s: Sock, e: Event)
    requires Ordered(s) && s.freed
    ensures Next(s, e) == s || Next(s, e) == s.(fault := true)
    ensures s.attempts > 0 && Reports(e) ==> Next(s, e).fault
    ensures Next(s, e).fault && !s.fault ==> s.attempts > 0 && Reports(e)
  {
    FreedIsQuiet(s, e);
    hide Idle, Enabled, Step;
  }

  lemma {:induction false} FreedStays(tape: seq<Decision>, es: seq<Event>, i: nat, j: nat)
    requires i <= j <= |es| && Run(New(tape), es[..i]).freed
    ensures var s, r := Run(New(tape), es[..i]), Run(New(tape), es[..j]);
            r.freed && r.attempts == s.attempts && (s.fault ==> r.fault)
    decreases j
  {
    hide Run, Next, Ordered, Idle;
    if i < j {
      FreedStays(tape, es, i, j - 1);
      NextIs(New(tape), es, j - 1);
      NewOk(tape);
      RunOk(New(tape), es[..j - 1]);
      NextFreed(Run(New(tape), es[..j - 1]), es[j - 1]);
    }
  }

  /** A socket that is gone and still known to a connector was abandoned at some event. */
  lemma {:induction false} Abandoned(tape: seq<Decision>, es: seq<Event>, j: nat) returns (i: nat)
    requires j <= |es| && var s := Run(New(tape), es[..j]); s.freed && s.attempts > 0
    ensures i < j && Abandons(Run(New(tape), es[..i]), Run(New(tape), es[..i + 1]))
  {
    hide Run, Next, Ordered, Idle;
    FirstNot(tape, es);
    if Run(New(tape), es[..j - 1]).freed {
      FreedStays(tape, es, j - 1, j);
      i := Abandoned(tape, es, j - 1);
    } else {
      i := j - 1;
    }
  }

  lemma FirstNot(tape: seq<Decision>, es: seq<Event>)
    ensures !Run(New(tape), es[..0]).freed && !Run(New(tape), es[..0]).fault
  {
  }

  lemma {:induction false} FaultComesFrom(tape: seq<Decision>, es: seq<Event>, n: nat) returns (i: nat, j: nat)
    requires n <= |es| && Run(New(tape), es[..n]).fault
    ensures j < n && TooLate(tape, es, i, j)
  {
    hide Run, Next, Ordered, Idle;
    FirstNot(tape, es);
    var s := Run(New(tape), es[..n - 1]);
    if s.fault {
      i, j := FaultComesFrom(tape, es, n - 1);
    } else {
      NextIs(New(tape), es, n - 1);
      NewOk(tape);
      RunOk(New(tape), es[..n - 1]);
      FaultStrikes(s, es[n - 1]);
      i := Abandoned(tape, es, n - 1);
      j := n - 1;
    }
  }

  lemma FaultStrikes(s: Sock, e: Event)
    requires Ordered(s) && !s.fault && Next(s, e).fault
    ensures s.freed && s.attempts > 0 && Reports(e)
  {
    hide Idle, Step, Enabled, Inv, Quiet;
    NextOk(s, e);
    assert Sound(s) == s;
    StepOk(s, e);
    IdleSound(Step(s, e));
    if s.freed {
      NextFreed(s, e);
    }
  }

  /**
   The only thing that goes wrong with a reference count: a connector reports to a socket that is
   gone, exactly when the last reference went while an attempt was pending.
   */
  lemma StruckExactly(tape: seq<Decision>, es: seq<Event>)
    ensures Run(New(tape), es).fault <==> exists i: nat, j: nat :: TooLate(tape, es, i, j)
  {
    hide Run, Next, TooLate, Abandons, Reports;
    assert es[..|es|] == es;
    if Run(New(tape), es).fault {
      var i, j := FaultComesFrom(tape, es, |es|);
    }
    forall i: nat, j: nat | TooLate(tape, es, i, j)
      ensures Run(New(tape), es).fault
    {
      TooLateStrikes(tape, es, i, j);
    }
  }

  lemma TooLateStrikes(tape: seq<Decision>, es: seq<Event>, i: nat, j: nat)
    requires TooLate(tape, es, i, j)
    ensures Run(New(tape), es).fault
  {
    hide Run, Next, Ordered, Idle, Reports;
    FreedStays(tape, es, i + 1, j);
    NextIs(New(tape), es, j);
    NewOk(tape);
    RunOk(New(tape), es[..j]);
    NextFreed(Run(New(tape), es[..j]), es[j]);
    FreedStays(tape, es, j + 1, |es|);
    assert es[..|es|] == es;
  }

  /** An enabled event is taken. */
  lemma Taken(s: Sock, es: seq<Event>, i: nat)
    requires i < |es| && var t := Run(s, es[..i]); Enabled(t, es[i]) && !t.fault
    ensures Run(s, es[..i + 1]) == Step(Run(s, es[..i]), es[i])
  {
    NextIs(s, es, i);
    hide Run, Step, Enabled;
  }

  lemma RunNone(s: Sock, es: seq<Event>)
    ensures Run(s, es[..0]) == s && es[..|es|] == es
  {
  }

  const STRUCK_RUN: seq<Event> := [CallConnect, Connector(Started), CallDrop, Connector(Succeeded)]

  /** A client connects, and drops its reference before the attempt is over. */
  lemma Struck()
    ensures Run(New([Answer(Retry)]), STRUCK_RUN).fault
  {
    hide Run, Step, Enabled;
    var s, es := New([Answer(Retry)]), STRUCK_RUN;
    RunNone(s, es);
    Connects(s);
    Taken(s, es, 0);
    ConnectorRetries(s.(attempts := 1));
    Taken(s, es, 1);
    LastDropped(s.(attempts := 1, tape := []));
    Taken(s, es, 2);
    StrikesGone(Run(s, es[..3]));
    Taken(s, es, 3);
  }

  lemma Connects(s: Sock)
    requires s.clientRefs > 0
    ensures Enabled(s, CallConnect) && Step(s, CallConnect) == s.(attempts := s.attempts + 1)
  {
  }

  lemma StrikesGone(s: Sock)
    requires s.refCount == 0 && s.attempts == 1 && !s.connected
    ensures Enabled(s, Connector(Succeeded)) && Step(s, Connector(Succeeded)).fault
  {
    hide Client;
  }

  lemma ConnectorRetries(s: Sock)
    requires s == New([Answer(Retry)]).(attempts := 1)
    ensures Step(s, Connector(Started)) == s.(tape := []) && Enabled(s, Connector(Started))
  {
    ClientIs(SockRef(s));
    assert [Answer(Retry)][1..] == [];
    hide Client, CancelAll, Close;
  }

  lemma LastDropped(s: Sock)
    requires s == New([]).(attempts := 1)
    ensures Enabled(s, CallDrop) && Step(s, CallDrop).freed && Step(s, CallDrop).attempts == 1 && !Step(s, CallDrop).fault
    ensures Step(s, CallDrop).refCount == 0 && !Step(s, CallDrop).connected
  {
    CancelAllIdle(s.(clientRefs := 0, refCount := 0));
    hide CancelAll;
  }

  // ----- bytes ----------------------------------------------------------------------------

  /**
   In every run the transferred parts of the buffers of the descriptors queued on the current
   connection, in the order of queueing, are exactly the bytes the connection moved.
   */
  lemma SlicesAreMoved(tape: seq<Decision>, es: seq<Event>, isRead: bool)
    ensures var s := Run(New(tape), es);
            && Flat(s.ios, Log(s, isRead)) == Moves(s, isRead)
            && Increasing(Log(s, isRead)) && (forall k | k in Queue(s, isRead) :: k in Log(s, isRead))
            && (forall k | k in s.ios :: s.ios[k].transferred <= |s.ios[k].buffer|)
            && (forall i | 0 < i < |Queue(s, isRead)| :: var k := Queue(s, isRead)[i];
                  k in s.ios && s.ios[k].transferred == 0 && s.ios[k].state == Queued)
  {
    hide Run, Quiet, Ordered;
    RunSound(tape, es);
    var s := Sound(Run(New(tape), es));
    forall k | k in s.ios
      ensures s.ios[k].transferred <= |s.ios[k].buffer| && (s.ios[k].state == Queued ==> s.ios[k].transferred == 0)
    {
      About(s, k);
    }
    var q := Queue(s, isRead);
    forall i | 0 < i < |q|
      ensures q[i] in s.ios && s.ios[q[i]].state == Queued
    {
      assert q[i] in q && q[0] < q[i];
    }
  }

  // ----- wake-ups -------------------------------------------------------------------------

  /**
   Whoever waits on a connection is waited for by the looper, unless everything that is queued was
   queued before the last connection was closed.
   */
  lemma NoLostWakeUp(tape: seq<Decision>, es: seq<Event>)
    ensures var s := Run(New(tape), es);
            && (s.connected && Current(s.readers, s.since) ==> s.wantRead)
            && (s.connected && Current(s.writers, s.since) ==> s.wantWrite)
            && (!Strays(s) ==>
                  && (s.connected && s.readers != [] ==> s.wantRead)
                  && (s.connected && s.writers != [] ==> s.wantWrite)
                  && (!s.connected ==> s.readers == [] && s.writers == []))
  {
    hide Run, Ordered;
    RunSound(tape, es);
    var s := Sound(Run(New(tape), es));
    EndsAgree(s, true);
    EndsAgree(s, false);
    hide RecordsOk, QueueOk, BytesOk, CountOk, Current, Stranded;
  }

  /** A queue that does not begin before the connection does not end before it. */
  lemma EndsAgree(s: Sock, isRead: bool)
    requires Inv(s)
    ensures Queue(s, isRead) == [] || Current(Queue(s, isRead), s.since) || Stranded(Queue(s, isRead), s.since)
  {
    hide Inv, Current, Stranded, Increasing;
    QueueStates(s, isRead);
    EndsInOrder(Queue(s, isRead), s.since);
  }

  lemma EndsInOrder(q: seq<nat>, since: nat)
    requires Increasing(q)
    ensures q == [] || Current(q, since) || Stranded(q, since)
  {
  }
}
