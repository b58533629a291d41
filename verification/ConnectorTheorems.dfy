/** What holds in every run of a connector, for every network and every client. */
module ConnectorTheorems {
  import opened AsyncIoCommon
  import opened AsyncUtilsSpec
  import opened AsyncUtils
  import opened ConnectorSpec

  // ----- descriptors ----------------------------------------------------------------------

  /** How often a descriptor is held or was closed. */
  function Owners(f: Fds, d: nat): nat {
    (if f.own == Some(d) then 1 else 0) + (if f.socket == Some(d) then 1 else 0) + multiset(f.closed)[d]
  }

  /** Every descriptor issued is held by one side, or was closed once; no other is held or closed. */
  ghost predicate Owned(f: Fds) {
    forall d: nat :: Owners(f, d) == (if d < f.issued then 1 else 0)
  }

  lemma OpenOwned(f: Fds)
    requires Owned(f) && f.own == None
    ensures Owned(Open(f))
  {
    forall d: nat ensures Owners(Open(f), d) == (if d < f.issued + 1 then 1 else 0) {
      assert Owners(f, d) == (if d < f.issued then 1 else 0);
    }
  }

  lemma CloseFdOwned(f: Fds)
    requires Owned(f)
    ensures Owned(CloseFd(f))
  {
    forall d: nat ensures Owners(CloseFd(f), d) == (if d < f.issued then 1 else 0) {
      assert Owners(f, d) == (if d < f.issued then 1 else 0);
    }
  }

  lemma CloseOwnOwned(f: Fds)
    requires Owned(f)
    ensures Owned(CloseOwn(f))
  {
    forall d: nat ensures Owners(CloseOwn(f), d) == (if d < f.issued then 1 else 0) {
      assert Owners(f, d) == (if d < f.issued then 1 else 0);
    }
  }

  lemma HandedOwned(f: Fds, event: State, answer: Action)
    requires Owned(f) && f.socket == None
    ensures Owned(Handed(f, event, answer))
    ensures answer != Done || event != Succeeded ==> Handed(f, event, answer).socket == None
  {
    forall d: nat ensures Owners(Pull(f), d) == (if d < f.issued then 1 else 0) {
      assert Owners(f, d) == (if d < f.issued then 1 else 0);
    }
    CloseOwnOwned(Pull(f));
  }

  // ----- what the client said -------------------------------------------------------------

  predicate Patient(said: seq<Word>) {
    forall w | w in said :: w.answer == Retry
  }

  predicate LetGo(said: seq<Word>) {
    exists w | w in said :: w.answer != Retry
  }

  /** A client that lets go before the connection is made, and is then asked or served again. */
  predicate Careless(said: seq<Word>) {
    exists i | 0 <= i < |said| :: Slip(said, i)
  }

  predicate Slip(said: seq<Word>, i: nat)
    requires i < |said|
  {
    || said[i] == Word(Started, Done)
    || (said[i].answer == Done && said[i].event in {Continues, Retrying} && i + 1 < |said| && said[i + 1].answer != Retry)
  }

  /**
   The client is heard once after letting go at most: when it was done with the connector before
   the attempt, in the same call, had ended.
   */
  predicate Brief(said: seq<Word>) {
    var n := |said|;
    || n == 0
    || Patient(said[..n - 1])
    || (n >= 2 && Patient(said[..n - 2]) && said[n - 2].answer == Done && said[n - 2].event in {Continues, Retrying})
  }

  lemma OneWord(said: seq<Word>, w: Word)
    requires Patient(said)
    ensures LetGo(said + [w]) <==> w.answer != Retry
    ensures Careless(said + [w]) <==> w == Word(Started, Done)
    ensures Patient(said + [w]) <==> w.answer == Retry
    ensures Brief(said + [w])
  {
    var s := said + [w];
    assert s[..|said|] == said;
    assert s[|said|] == w;
    assert forall i | 0 <= i < |said| :: s[i] in said;
    if w == Word(Started, Done) { assert Slip(s, |said|); }
  }

  lemma TwoWords(said: seq<Word>, v: Word, w: Word)
    requires Patient(said) && w.event != Started
    ensures LetGo(said + [v] + [w]) <==> v.answer != Retry || w.answer != Retry
    ensures Careless(said + [v] + [w]) <==>
      v == Word(Started, Done) || (v.answer == Done && v.event in {Continues, Retrying} && w.answer != Retry)
    ensures v.answer == Retry || (v.answer == Done && v.event in {Continues, Retrying}) ==> Brief(said + [v] + [w])
  {
    var s := said + [v] + [w];
    var n := |said|;
    assert s[..n + 1] == said + [v] && s[..n] == said;
    assert s[n] == v && s[n + 1] == w;
    assert forall i | 0 <= i < n :: s[i] in said;
    assert Careless(s) <==> Slip(s, n) || Slip(s, n + 1) by {
      if Careless(s) {
        var i :| 0 <= i < |s| && Slip(s, i);
        assert i == n || i == n + 1;
      }
    }
  }

  // ----- the invariant --------------------------------------------------------------------

  /** Destroyed when its client let go, misused when its client was careless. */
  predicate Told(l: Link) {
    && (l.freed <==> LetGo(l.said))
    && (l.dangling <==> Careless(l.said))
    && Brief(l.said)
  }

  /** The only watch that exists is the one of a connection in progress. */
  predicate WatchOk(l: Link) {
    && l.live == (if l.stage == Connecting && l.io.Some? then {l.io.value} else {})
    && (l.stage == Connecting ==> l.io.Some?)
    && (l.io.Some? <==> l.watches > 0)
    && (l.io.Some? ==> l.io.value < l.watches)
  }

  predicate Resting(l: Link) {
    && l.frees == (if l.freed then 1 else 0)
    && (l.dangling ==> l.freed)
    && (!l.freed ==> l.refs == 1 && l.fds.socket == None)
    && (l.freed ==> l.fds.own == None && !l.timerOn && l.stage != Connecting)
    && WatchOk(l)
    && (!l.freed && l.said == [] && l.watches == 0 ==> l.stage == Error && !l.timerOn && l.fds.own == None)
    && (!l.freed && (l.said != [] || l.watches > 0) ==> (l.timerOn <==> l.stage != Connecting))
  }

  /** What is true of a connector between events. */
  ghost predicate Inv(l: Link) {
    Owned(l.fds) && Told(l) && Resting(l)
  }

  // ----- steps ----------------------------------------------------------------------------

  /** The first call in a looper callback, during which the callback holds a reference. */
  lemma AskIs(l: Link, event: State, answer: Action)
    requires !l.freed && l.refs == 2 && event != Succeeded
    ensures Ask(l, event, answer) == l.(said := l.said + [Word(event, answer)], refs := if answer == Retry then 2 else 1)
  {
  }

  lemma FreeIoKeeps(l: Link)
    ensures FreeIo(l) == l.(live := FreeIo(l).live, doubleFree := FreeIo(l).doubleFree)
  {
  }

  /** A reference given back. */
  lemma ReleaseIs(l: Link)
    requires !l.freed && 0 < l.refs <= 2
    ensures l.refs == 2 ==> Release(l) == l.(refs := 1)
    ensures l.refs == 1 && l.stage != Connecting ==>
      Release(l) == l.(fds := CloseFd(l.fds), refs := 0, freed := true, timerOn := false, frees := l.frees + 1)
    ensures l.refs == 1 && l.stage == Connecting ==>
      Release(l) == l.(
        fds := CloseFd(l.fds), refs := 0, freed := true, timerOn := false, frees := l.frees + 1, stage := Completed,
        live := FreeIo(l).live, doubleFree := FreeIo(l).doubleFree)
  {
    hide CloseFd;
    if l.refs == 1 {
      FreeIoKeeps(l.(refs := 0, stage := Completed));
    }
  }

  /** The watch of an attempt that has ended is freed, and the client decides. */
  lemma OutcomeIs(l: Link, attempt: Status, answer: Action)
    requires !l.freed && 0 < l.refs <= 2 && attempt != NeedMore && l.stage != Connecting
    ensures
      var event := if attempt == Complete then Succeeded else Failed;
      var g := Handed(l.fds, event, answer);
      var m := FreeIo(l).(said := l.said + [Word(event, answer)], fds := g);
      Outcome(l, attempt, answer) ==
        if answer == Retry then m.(timerOn := true)
        else if l.refs == 2 then m.(refs := 1)
        else m.(fds := CloseFd(g), refs := 0, freed := true, timerOn := false, frees := l.frees + 1)
  {
    hide FreeIo, Handed, CloseFd, Release;
    FreeIoKeeps(l);
    var event := if attempt == Complete then Succeeded else Failed;
    var m := FreeIo(l).(said := l.said + [Word(event, answer)], fds := Handed(l.fds, event, answer));
    ReleaseIs(m);
  }

  /** Connections that end at once or stay in progress, told in one line each. */
  lemma OutcomeOwned(l: Link, attempt: Status, answer: Action)
    requires Owned(l.fds) && l.fds.socket == None && !l.freed && 0 < l.refs <= 2 && attempt != NeedMore && l.stage != Connecting
    ensures Owned(Outcome(l, attempt, answer).fds)
    ensures answer != Done ==> Outcome(l, attempt, answer).fds.socket == None
    ensures Outcome(l, attempt, answer).freed ==> Outcome(l, attempt, answer).fds.own == None
  {
    hide Owned, Outcome, Handed;
    OutcomeIs(l, attempt, answer);
    var event := if attempt == Complete then Succeeded else Failed;
    HandedOwned(l.fds, event, answer);
    CloseFdOwned(Handed(l.fds, event, answer));
  }

  lemma StillPending(l: Link, answer: Action)
    requires !l.freed
    ensures Outcome(l, NeedMore, answer) == l
  {
  }

  lemma ReleaseGone(l: Link)
    requires l.freed
    ensures Release(l) == l.(dangling := true)
  {
  }

  lemma ToldStill(l: Link, fds: Fds)
    requires Told(l)
    ensures Told(l.(fds := fds))
  {
  }

  lemma StartClosedOk(l: Link, second: Action)
    requires Inv(l) && !l.freed && l.said == [] && l.watches == 0
    ensures Inv(Outcome(l, Failure, second))
  {
    hide Owned, Brief, LetGo, Careless, Outcome, Handed;
    OneWord([], Word(Failed, second));
    OutcomeIs(l, Failure, second);
    OutcomeOwned(l, Failure, second);
  }

  /** The connection is begun: it is in progress, or it has ended. */
  lemma BegunOk(l: Link, attempt: Status, second: Action)
    requires !l.freed && !l.dangling && l.frees == 0 && !l.timerOn && l.refs == 1
    requires l.said == [Word(Started, Retry)] && Owned(l.fds) && l.fds.socket == None
    requires l.stage == StageOf(attempt) && l.watches == 1 && l.io == Some(0) && l.live == {0}
    ensures Inv(Outcome(l, attempt, second))
  {
    hide Owned, Brief, LetGo, Careless, Outcome, Handed, FreeIo, CloseFd;
    var event := if attempt == Complete then Succeeded else Failed;
    OneWord([], Word(Started, Retry));
    TwoWords([], Word(Started, Retry), Word(event, second));
    assert [] + [Word(Started, Retry)] == l.said;
    FreeIoKeeps(l);
    FreeIoEmpties(l);
    if attempt == NeedMore {
      StillPending(l, second);
    } else {
      OutcomeIs(l, attempt, second);
      OutcomeOwned(l, attempt, second);
    }
  }

  lemma FreeIoEmpties(l: Link)
    requires l.io.Some? && l.live == {l.io.value}
    ensures FreeIo(l).live == {}
  {
  }

  lemma StartOpenOk(l: Link, attempt: Status, first: Action, second: Action)
    requires !l.freed && !l.dangling && l.frees == 0 && l.refs == 1 && l.said == [] && l.watches == 0
    requires Owned(l.fds) && l.fds.socket == None && l.stage == Error && !l.timerOn && WatchOk(l)
    ensures
      var m := Ask(l, Started, first);
      Inv(if first == Abort then m else if m.freed then m.(dangling := true) else Outcome(Begin(m, attempt), attempt, second))
  {
    hide Owned, Inv, Outcome, Ask, CloseFd;
    AskFirst(l, first);
    if first == Retry {
      BegunOk(Begin(Ask(l, Started, first), attempt), attempt, second);
    } else {
      StartRefused(l, first);
    }
  }

  /** A client that does not want the connection made, and one that is done with the connector already. */
  lemma StartRefused(l: Link, first: Action)
    requires !l.freed && !l.dangling && l.frees == 0 && l.refs == 1 && l.said == [] && l.watches == 0 && first != Retry
    requires Owned(l.fds) && l.fds.socket == None && l.stage == Error && !l.timerOn && WatchOk(l)
    ensures
      var m := Ask(l, Started, first);
      m.freed && Inv(if first == Abort then m else m.(dangling := true))
  {
    hide Owned, Brief, LetGo, Careless, Ask, CloseFd;
    AskFirst(l, first);
    OneWord([], Word(Started, first));
    CloseFdOwned(l.fds);
    CloseFdEmpties(l.fds);
  }

  lemma CloseFdEmpties(f: Fds)
    ensures CloseFd(f).own == None && CloseFd(f).socket == f.socket
  {
  }

  lemma StartOk(l: Link, openOk: bool, attempt: Status, first: Action, second: Action)
    requires Inv(l) && !l.freed && l.said == [] && l.watches == 0
    ensures Inv(Start(l, openOk, attempt, first, second))
  {
    OpenOwned(l.fds);
    assert !l.dangling;
    var m := l.(fds := Open(l.fds));
    hide Owned, Told, Outcome, Ask, Begin;
    if !openOk {
      StartClosedOk(l, second);
    } else {
      StartOpenOk(m, attempt, first, second);
    }
  }

  /** The call that tells of the start, before which nobody but the socket holds the connector. */
  lemma AskFirst(l: Link, first: Action)
    requires !l.freed && l.refs == 1 && l.stage != Connecting
    ensures
      var m := l.(said := l.said + [Word(Started, first)]);
      Ask(l, Started, first) ==
        if first == Retry then m
        else m.(fds := CloseFd(l.fds), refs := 0, freed := true, timerOn := false, frees := l.frees + 1)
  {
    hide CloseFd, Release;
    ReleaseIs(l.(said := l.said + [Word(Started, first)]));
  }

  lemma NotLetGo(l: Link)
    requires Told(l) && !l.freed
    ensures Patient(l.said)
  {
  }

  /** The end of a looper callback. */
  lemma Closing(l: Link)
    requires Owned(l.fds) && (l.freed || 0 < l.refs <= 2) && (l.freed ==> l.fds.own == None)
    ensures Owned(Release(l).fds)
    ensures l.freed ==> Release(l) == l.(dangling := true)
    ensures Release(l).freed ==> Release(l).fds.own == None
    ensures Release(l).fds.socket == l.fds.socket
  {
    hide Owned, FreeIo;
    CloseFdOwned(l.fds);
    if !l.freed { ReleaseIs(l); }
  }

  /** A looper callback after its first call `v`, which its client did not abort. */
  ghost predicate Halfway(l: Link, said: seq<Word>, v: Word) {
    && !l.freed && !l.dangling && l.frees == 0 && !l.timerOn
    && l.said == said + [v] && Patient(said)
    && v.event in {Continues, Retrying} && v.answer != Abort
    && l.refs == (if v.answer == Retry then 2 else 1)
    && Owned(l.fds) && l.fds.socket == None
    && (l.io.Some? <==> l.watches > 0)
    && (l.io.Some? ==> l.io.value < l.watches)
    && l.live <= (if l.io.Some? then {l.io.value} else {})
  }

  lemma EndTold(l: Link, said: seq<Word>, v: Word, attempt: Status, second: Action)
    requires Halfway(l, said, v) && attempt != NeedMore && l.stage != Connecting
    ensures Told(Release(Outcome(l, attempt, second)))
  {
    hide Owned, Brief, LetGo, Careless, Patient, Outcome, Release, CloseFd, Handed, FreeIo;
    FreeIoKeeps(l);
    TwoWords(said, v, Word(if attempt == Complete then Succeeded else Failed, second));
    OutcomeIs(l, attempt, second);
    var m := Outcome(l, attempt, second);
    if m.freed {
      ReleaseGone(m);
    } else {
      ReleaseIs(m);
    }
  }

  lemma EndResting(l: Link, said: seq<Word>, v: Word, attempt: Status, second: Action)
    requires Halfway(l, said, v) && attempt != NeedMore && l.stage != Connecting
    ensures Owned(Release(Outcome(l, attempt, second)).fds) && Resting(Release(Outcome(l, attempt, second)))
  {
    assert FreeIo(l).live == {};
    hide Owned, Patient, Outcome, Release, CloseFd, Handed, FreeIo;
    FreeIoKeeps(l);
    OutcomeIs(l, attempt, second);
    OutcomeOwned(l, attempt, second);
    var m := Outcome(l, attempt, second);
    Closing(m);
    if !m.freed { ReleaseIs(m); }
  }

  /** The client aborts at the first call of a looper callback. */
  lemma AbortOk(l: Link, said: seq<Word>, event: State)
    requires !l.freed && !l.dangling && l.frees == 0 && !l.timerOn && l.refs == 1
    requires l.said == said + [Word(event, Abort)] && Patient(said)
    requires Owned(l.fds) && l.fds.socket == None && WatchOk(l)
    ensures Inv(Release(l))
  {
    OneWord(said, Word(event, Abort));
    assert l.stage == Connecting ==> FreeIo(l).live == {};
    hide Owned, Brief, LetGo, Careless, Patient, Release, CloseFd, FreeIo;
    ReleaseIs(l);
    Closing(l);
  }

  lemma WritableOk(l: Link, ok: bool, first: Action, second: Action)
    requires Inv(l) && l.stage == Connecting && !l.freed
    ensures Inv(Writable(l, ok, first, second))
  {
    NotLetGo(l);
    hide Owned, Brief, LetGo, Careless, Patient, Ask, Outcome, Release;
    var attempt := if ok then Complete else Failure;
    var v := Word(Continues, first);
    var l0 := l.(refs := l.refs + 1);
    AskIs(l0, Continues, first);
    var l1 := Ask(l0, Continues, first);
    if first == Abort {
      AbortOk(l1, l.said, Continues);
    } else {
      var l2 := l1.(stage := StageOf(attempt));
      EndTold(l2, l.said, v, attempt, second);
      EndResting(l2, l.said, v, attempt, second);
    }
  }

  /** A retry whose connection is in progress. */
  lemma PendingOk(l: Link, said: seq<Word>, v: Word)
    requires Halfway(l, said, v) && l.stage == Connecting && l.io.Some? && l.live == {l.io.value}
    ensures Inv(Release(l))
  {
    assert FreeIo(l).live == {};
    hide Owned, Brief, LetGo, Careless, Patient, Release, CloseFd, FreeIo;
    OneWord(said, v);
    ReleaseIs(l);
    Closing(l);
  }

  /** A retry is under way, or could not get a socket. */
  lemma RetryOk(l: Link, said: seq<Word>, v: Word, openOk: bool, attempt: Status, second: Action)
    requires Halfway(l, said, v) && l.live == {} && l.stage != Connecting
    ensures
      var m := l.(fds := CloseFd(l.fds));
      Inv(Release(
        if openOk then Outcome(Begin(m.(fds := Open(m.fds)), attempt), attempt, second)
        else Outcome(m, Failure, second)))
  {
    var m := l.(fds := CloseFd(l.fds));
    var n := Begin(m.(fds := Open(m.fds)), attempt);
    CloseFdOwned(l.fds);
    OpenOwned(m.fds);
    hide Owned, Brief, LetGo, Careless, Patient, Outcome, Release;
    if !openOk {
      EndTold(m, said, v, Failure, second);
      EndResting(m, said, v, Failure, second);
    } else if attempt == NeedMore {
      StillPending(n, second);
      PendingOk(n, said, v);
    } else {
      EndTold(n, said, v, attempt, second);
      EndResting(n, said, v, attempt, second);
    }
  }

  lemma ExpiredOk(l: Link, openOk: bool, attempt: Status, first: Action, second: Action)
    requires Inv(l) && l.timerOn
    ensures Inv(Expired(l, openOk, attempt, first, second))
  {
    NotLetGo(l);
    hide Owned, Brief, LetGo, Careless, Patient, Ask, Outcome, Release, Begin, Open, CloseFd;
    var l0 := l.(refs := l.refs + 1, timerOn := false);
    AskIs(l0, Retrying, first);
    var l1 := Ask(l0, Retrying, first);
    if first == Abort {
      AbortOk(l1, l.said, Retrying);
    } else {
      RetryOk(l1, l.said, Word(Retrying, first), openOk, attempt, second);
    }
  }

  lemma StepOk(l: Link, e: Event)
    requires Inv(l) && Enabled(l, e) && !l.dangling
    ensures Inv(Step(l, e))
  {
    hide Owned, Told, Start, Writable, Expired;
    match e
    case Connect(openOk, attempt, first, second) => StartOk(l, openOk, attempt, first, second);
    case Watch(ok, first, second) => WritableOk(l, ok, first, second);
    case Timer(openOk, attempt, first, second) => ExpiredOk(l, openOk, attempt, first, second);
    case CloseSocket =>
      CloseOwnOwned(l.fds);
      ToldStill(l, CloseOwn(l.fds));
  }

  lemma {:induction false} RunOk(es: seq<Event>)
    ensures Inv(Run(es))
  {
    if es != [] {
      var before, e := es[..|es| - 1], es[|es| - 1];
      RunOk(before);
      hide Inv, Step;
      if Enabled(Run(before), e) && !Run(before).dangling { StepOk(Run(before), e); }
    }
  }

  // ----- theorems -------------------------------------------------------------------------

  /**
   Whatever the network and the client do, a descriptor that was issued is with the connector, or
   with the socket, or closed, never two of these and never closed twice; once the connector is
   gone and the socket has closed its own, each of them was closed exactly once.
   */
  lemma DescriptorsAreClosedOnce(es: seq<Event>)
    ensures var l := Run(es);
      && (forall d: nat :: Owners(l.fds, d) == (if d < l.fds.issued then 1 else 0))
      && (l.freed ==> l.fds.own == None)
      && (l.freed && l.fds.socket == None ==> forall d: nat | d < l.fds.issued :: multiset(l.fds.closed)[d] == 1)
  {
    RunOk(es);
    var l := Run(es);
    hide Run;
    forall d: nat | d < l.fds.issued && l.freed && l.fds.socket == None ensures multiset(l.fds.closed)[d] == 1 {
      assert Owners(l.fds, d) == 1;
    }
  }

  /**
   The connector is destroyed when its client first answers other than RETRY, and only once.  Then
   no watch and no timer can call it again; until then, once it was told to connect, exactly one of
   them can, so that the client will hear of every attempt.
   */
  lemma DestroyedOnFirstRefusal(es: seq<Event>)
    ensures var l := Run(es);
      && l.frees == (if exists w | w in l.said :: w.answer != Retry then 1 else 0)
      && (l.freed <==> l.frees == 1)
      && (l.freed ==> l.live == {} && !l.timerOn)
      && (!l.freed && l.said != [] ==> (l.timerOn <==> l.live == {}))
  {
    RunOk(es);
    hide Run;
  }

  /** What the client promises: before the connection is made it goes on or aborts. */
  predicate Polite(said: seq<Word>) {
    forall w | w in said :: w.event in {Started, Continues, Retrying} ==> w.answer != Done
  }

  /**
   Freed memory is used exactly when the client is done with a connector that is still connecting
   and, but for the case of a failed attempt it wants repeated, the attempt goes on.
   */
  lemma MisusedExactly(es: seq<Event>)
    ensures var l := Run(es); l.dangling <==> exists i | 0 <= i < |l.said| :: Slip(l.said, i)
  {
    RunOk(es);
    hide Run;
  }

  /** A client that is done with a connector as soon as it has started makes it use freed memory. */
  lemma Misused()
    ensures Run([Connect(true, NeedMore, Done, Done)]).dangling
  {
    assert [Connect(true, NeedMore, Done, Done)][..0] == [];
    assert Run([]) == NEW;
  }

  /** A client that keeps its promise is safe, and hears nothing after its first refusal. */
  lemma PoliteClientIsSafe(es: seq<Event>)
    requires Polite(Run(es).said)
    ensures var l := Run(es);
      && !l.dangling
      && (forall i | 0 <= i < |l.said| - 1 :: l.said[i].answer == Retry)
      && (l.freed <==> l.said != [] && l.said[|l.said| - 1].answer != Retry)
  {
    RunOk(es);
    var l := Run(es);
    hide Run;
    var n := |l.said|;
    if n >= 2 { assert l.said[n - 2] in l.said; }
    if n > 0 {
      assert Patient(l.said[..n - 1]);
      forall i | 0 <= i < n - 1 ensures l.said[i].answer == Retry {
        assert l.said[i] in l.said[..n - 1];
      }
    }
  }

  /** An event by which a watch is made. */
  predicate Makes(e: Event) {
    && (e.Connect? || e.Timer?) && e.openOk && e.first != Abort
    && (e.Connect? ==> e.first != Done)
  }

  /** A retry for which no socket can be created. */
  predicate Starves(e: Event) {
    e.Timer? && !e.openOk && e.first != Abort
  }

  /** The event at a position happened, and was not a stray one. */
  predicate Taken(es: seq<Event>, i: nat)
    requires i < |es|
  {
    Enabled(Run(es[..i]), es[i]) && !Run(es[..i]).dangling
  }

  predicate Made(es: seq<Event>) {
    exists i | 0 <= i < |es| :: Taken(es, i) && Makes(es[i])
  }

  predicate StarvedAfter(es: seq<Event>, j: nat)
    requires j < |es|
  {
    Taken(es, j) && Starves(es[j]) && Made(es[..j])
  }

  /** Whether freeing the connector's watch would free it twice. */
  predicate Stale(l: Link) {
    l.io.Some? && l.io.value !in l.live
  }

  lemma OutcomeFrees(l: Link, attempt: Status, answer: Action)
    requires !l.freed && 0 < l.refs <= 2 && (attempt == NeedMore || l.stage != Connecting)
    ensures var m := Outcome(l, attempt, answer);
      && (m.doubleFree <==> l.doubleFree || (attempt != NeedMore && Stale(l)))
      && m.watches == l.watches && (m.freed || m.refs > 0) && m.refs <= l.refs
      && (m.freed || m.stage == l.stage) && m.io == l.io
      && (attempt == NeedMore ==> m == l)
  {
    hide Handed, CloseFd, Outcome;
    if attempt != NeedMore {
      OutcomeIs(l, attempt, answer);
    } else {
      StillPending(l, answer);
    }
  }

  lemma ReleaseFrees(l: Link)
    requires l.freed || 0 < l.refs <= 2
    ensures var m := Release(l);
      && m.watches == l.watches
      && (m.doubleFree <==> l.doubleFree || (!l.freed && l.refs == 1 && l.stage == Connecting && Stale(l)))
  {
    if !l.freed {
      hide CloseFd, Release;
      ReleaseIs(l);
    } else {
      assert Release(l) == l.(dangling := true);
    }
  }

  lemma StartFrees(l: Link, openOk: bool, attempt: Status, first: Action, second: Action)
    requires Inv(l) && !l.freed && l.said == [] && l.watches == 0
    ensures var m := Start(l, openOk, attempt, first, second);
      && (m.watches > 0 <==> openOk && first == Retry)
      && m.doubleFree == l.doubleFree
  {
    hide Owned, Told, Outcome, Handed;
    OutcomeFrees(l, Failure, second);
    if openOk && first == Retry {
      OutcomeFrees(Begin(Ask(l.(fds := Open(l.fds)), Started, first), attempt), attempt, second);
    }
  }

  lemma WritableFrees(l: Link, ok: bool, first: Action, second: Action)
    requires Inv(l) && l.stage == Connecting && !l.freed
    ensures var m := Writable(l, ok, first, second); m.watches == l.watches && m.doubleFree == l.doubleFree
  {
    hide Owned, Told, Ask, Outcome, Handed, Release;
    var l0 := l.(refs := l.refs + 1);
    AskIs(l0, Continues, first);
    var l1 := Ask(l0, Continues, first);
    if first == Abort {
      ReleaseFrees(l1);
    } else {
      var attempt := if ok then Complete else Failure;
      var l2 := l1.(stage := StageOf(attempt));
      OutcomeFrees(l2, attempt, second);
      ReleaseFrees(Outcome(l2, attempt, second));
    }
  }

  lemma ExpiredFrees(l: Link, openOk: bool, attempt: Status, first: Action, second: Action)
    requires Inv(l) && l.timerOn
    ensures var m := Expired(l, openOk, attempt, first, second);
      && (m.watches > 0 <==> l.watches > 0 || (openOk && first != Abort))
      && (m.doubleFree <==> l.doubleFree || (!openOk && first != Abort && l.watches > 0))
  {
    hide Owned, Told, Ask, Outcome, Release, CloseFd, Open;
    var l0 := l.(refs := l.refs + 1, timerOn := false);
    AskIs(l0, Retrying, first);
    var l1 := Ask(l0, Retrying, first);
    if first == Abort {
      ReleaseFrees(l1);
    } else {
      var l2 := l1.(fds := CloseFd(l1.fds));
      var l3 := Begin(l2.(fds := Open(l2.fds)), attempt);
      OutcomeFrees(l2, Failure, second);
      OutcomeFrees(l3, attempt, second);
      ReleaseFrees(Outcome(l2, Failure, second));
      ReleaseFrees(Outcome(l3, attempt, second));
    }
  }

  lemma StepFrees(l: Link, e: Event)
    requires Inv(l) && Enabled(l, e) && !l.dangling
    ensures Step(l, e).watches > 0 <==> l.watches > 0 || Makes(e)
    ensures Step(l, e).doubleFree <==> l.doubleFree || (Starves(e) && l.watches > 0)
  {
    assert Resting(l);
    hide Inv, Start, Writable, Expired;
    match e
    case Connect(openOk, attempt, first, second) => StartFrees(l, openOk, attempt, first, second);
    case Watch(ok, first, second) => WritableFrees(l, ok, first, second);
    case Timer(openOk, attempt, first, second) => ExpiredFrees(l, openOk, attempt, first, second);
    case CloseSocket =>
  }

  lemma RunIs(es: seq<Event>)
    requires es != []
    ensures var n := |es| - 1; Run(es) == if Taken(es, n) then Step(Run(es[..n]), es[n]) else Run(es[..n])
  {
    hide Enabled, Step;
  }

  lemma TakenAlready(es: seq<Event>, i: nat)
    requires i < |es| - 1
    ensures Taken(es, i) <==> Taken(es[..|es| - 1], i)
    ensures StarvedAfter(es, i) <==> StarvedAfter(es[..|es| - 1], i)
  {
    hide Run, Enabled, Made, Starves;
    var before := es[..|es| - 1];
    assert before[..i] == es[..i] && before[i] == es[i];
  }

  lemma MadeMore(es: seq<Event>)
    requires es != []
    ensures Made(es) <==> Made(es[..|es| - 1]) || (Taken(es, |es| - 1) && Makes(es[|es| - 1]))
  {
    hide Taken, Makes;
    var before := es[..|es| - 1];
    forall i | 0 <= i < |before| ensures Taken(before, i) <==> Taken(es, i) {
      TakenAlready(es, i);
    }
    if Made(es) {
      var i :| 0 <= i < |es| && Taken(es, i) && Makes(es[i]);
      assert i < |before| ==> Taken(before, i) && Makes(before[i]);
    }
    if Made(before) {
      var i :| 0 <= i < |before| && Taken(before, i) && Makes(before[i]);
      assert Taken(es, i) && Makes(es[i]);
    }
  }

  predicate Starved(es: seq<Event>) {
    exists j | 0 <= j < |es| :: StarvedAfter(es, j)
  }

  lemma StarvedMore(es: seq<Event>)
    requires es != []
    ensures Starved(es) <==> Starved(es[..|es| - 1]) || StarvedAfter(es, |es| - 1)
  {
    hide StarvedAfter;
    var before := es[..|es| - 1];
    forall i | 0 <= i < |before| ensures StarvedAfter(before, i) <==> StarvedAfter(es, i) {
      TakenAlready(es, i);
    }
    if Starved(es) {
      var i :| 0 <= i < |es| && StarvedAfter(es, i);
      assert i < |before| ==> StarvedAfter(before, i);
    }
    if Starved(before) {
      var i :| 0 <= i < |before| && StarvedAfter(before, i);
      assert StarvedAfter(es, i);
    }
  }

  lemma TakenIs(es: seq<Event>, n: nat)
    requires n < |es| && Taken(es, n)
    ensures Enabled(Run(es[..n]), es[n]) && !Run(es[..n]).dangling
  {
  }

  /**
   A watch is freed twice exactly when a retry cannot create a socket after an attempt for which a
   watch was made: the connector keeps the pointer to the watch it freed when that attempt ended.
   */
  lemma {:induction false} DoubleFreeExactly(es: seq<Event>)
    ensures Run(es).watches > 0 <==> Made(es)
    ensures Run(es).doubleFree <==> Starved(es)
  {
    if es != [] {
      var n, before, e := |es| - 1, es[..|es| - 1], es[|es| - 1];
      RunOk(before);
      DoubleFreeExactly(before);
      MadeMore(es);
      StarvedMore(es);
      RunIs(es);
      hide Inv, Step, Made, Starved, Taken, Enabled, Makes, Starves, Run;
      if Taken(es, n) {
        TakenIs(es, n);
        StepFrees(Run(before), e);
      }
    }
  }

  /** The shortest such run: an attempt that fails, and a retry without a socket. */
  lemma DoubleFree()
    ensures Run([Connect(true, NeedMore, Retry, Retry), Watch(false, Retry, Retry), Timer(false, NeedMore, Retry, Retry)]).doubleFree
  {
    var c, w, t := Connect(true, NeedMore, Retry, Retry), Watch(false, Retry, Retry), Timer(false, NeedMore, Retry, Retry);
    assert [c, w, t][..2] == [c, w] && [c, w][..1] == [c] && [c][..0] == [];
    var l1 := Step(NEW, c);
    assert Run([c]) == l1;
    var l2 := Step(l1, w);
    assert Run([c, w]) == l2;
    assert l2.timerOn && !l2.dangling && l2.io == Some(0) && l2.live == {};
  }
}
