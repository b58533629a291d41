/**
 What comes of connecting: what the client is told, who gets the descriptor, and what is waited for,
 said from the events and the client's answers alone.
 */
module ConnectorOutcomes {
  import opened AsyncIoCommon
  import opened AsyncUtilsSpec
  import opened AsyncUtils
  import opened ConnectorSpec
  import opened ConnectorTheorems

  // ----- what an event is -----------------------------------------------------------------

  /** A socket is created. */
  predicate Opens(e: Event) {
    match e
    case Connect(openOk, _, _, _) => openOk
    case Timer(openOk, _, first, _) => openOk && first != Abort
    case _ => false
  }

  /** The client lets the attempt go on. */
  predicate Attempts(e: Event) {
    match e
    case Connect(openOk, _, first, _) => openOk ==> first == Retry
    case Watch(_, first, _) => first != Abort
    case Timer(_, _, first, _) => first != Abort
    case CloseSocket => false
  }

  predicate Completes(e: Event) {
    Attempts(e) && if e.Watch? then e.ok else e.openOk && e.attempt == Complete
  }

  predicate Fails(e: Event) {
    Attempts(e) && if e.Watch? then !e.ok else !e.openOk || e.attempt == Failure
  }

  predicate Pends(e: Event) {
    Attempts(e) && !e.Watch? && e.openOk && e.attempt == NeedMore
  }

  /** What the client hears before the attempt goes on. */
  function Announced(e: Event): seq<Word> {
    match e
    case Connect(openOk, _, first, _) => if openOk then [Word(Started, first)] else []
    case Watch(_, first, _) => [Word(Continues, first)]
    case Timer(_, _, first, _) => [Word(Retrying, first)]
    case CloseSocket => []
  }

  /** SUCCEEDED for an attempt that completed, FAILED for one that failed, nothing while it goes on. */
  function Words(e: Event): seq<Word> {
    if Completes(e) then Announced(e) + [Word(Succeeded, e.second)]
    else if Fails(e) then Announced(e) + [Word(Failed, e.second)]
    else Announced(e)
  }

  /** The client is content with the connection that was made. */
  predicate Hands(e: Event) {
    Completes(e) && e.second == Done
  }

  /** The connector's descriptor after an event that it outlives: that of the last attempt, if that has not succeeded. */
  function Kept(own: Option<nat>, e: Event, issued: nat): Option<nat> {
    if e.CloseSocket? then own
    else if Completes(e) then None
    else if Opens(e) && issued > 0 then Some(issued - 1)
    else if e.Watch? then own
    else None
  }

  /** Everything that an event that is taken does. */
  predicate Effects(l: Link, e: Event, m: Link) {
    && m.said == l.said + Words(e)
    && m.fds.issued == l.fds.issued + (if Opens(e) then 1 else 0)
    && m.fds.socket == (if Hands(e) && m.fds.issued > 0 then Some(m.fds.issued - 1) else if e.CloseSocket? then None else l.fds.socket)
    && m.fds.own == (if m.freed then None else Kept(l.fds.own, e, m.fds.issued))
    && (!e.CloseSocket? ==> (m.live != {} <==> !m.freed && Pends(e)) && (m.timerOn <==> !m.freed && !Pends(e)))
    && (e.CloseSocket? ==> m.live == l.live && m.timerOn == l.timerOn)
  }

  // ----- one event ------------------------------------------------------------------------

  /** The connector's descriptor is the last that was issued, and there is one while a connection is in progress. */
  predicate Newest(l: Link) {
    && (l.fds.own.Some? ==> l.fds.own.value + 1 == l.fds.issued)
    && (l.stage == Connecting ==> l.fds.own.Some?)
    && (l.freed ==> l.fds.own == None)
  }

  function Ended(attempt: Status, answer: Action): seq<Word> {
    match attempt
    case Complete => [Word(Succeeded, answer)]
    case Failure => [Word(Failed, answer)]
    case NeedMore => []
  }

  /** The end of an attempt, or of a callback that finds it still in progress. */
  lemma OutcomeWords(l: Link, attempt: Status, answer: Action)
    requires !l.freed && 0 < l.refs <= 2 && (attempt == NeedMore <==> l.stage == Connecting) && l.fds.socket == None
    ensures var m := Outcome(l, attempt, answer);
            && m.said == l.said + Ended(attempt, answer) && m.fds.issued == l.fds.issued
            && m.fds.socket == (if attempt == Complete && answer == Done then l.fds.own else None)
            && m.fds.own == (if m.freed || attempt == Complete then None else l.fds.own)
            && (m.freed || (m.stage == l.stage && 0 < m.refs <= l.refs))
  {
    if attempt == NeedMore {
      StillPending(l, answer);
    } else {
      OutcomeIs(l, attempt, answer);
    }
    hide Outcome;
  }

  /** The end of a looper callback closes what a destroyed connector has. */
  lemma ReleaseWords(l: Link)
    requires (l.freed && l.fds.own == None) || (!l.freed && 0 < l.refs <= 2)
    ensures var m := Release(l);
            && m.said == l.said && m.fds.issued == l.fds.issued && m.fds.socket == l.fds.socket
            && m.fds.own == (if m.freed then None else l.fds.own)
            && (!m.freed ==> !l.freed && m.stage == l.stage)
  {
    if l.freed {
      ReleaseGone(l);
    } else {
      ReleaseIs(l);
    }
    hide Release;
  }

  /** What waits after an event is told by the stage. */
  lemma WaitsFor(m: Link)
    requires Inv(m) && (!m.freed ==> m.said != [])
    ensures m.live != {} <==> !m.freed && m.stage == Connecting
    ensures m.timerOn <==> !m.freed && m.stage != Connecting
  {
    hide Owned, Told;
  }

  /** What an event does at once; what waits after it is told by the stage. */
  predicate Spoken(l: Link, e: Event, m: Link) {
    && m.said == l.said + Words(e)
    && m.fds.issued == l.fds.issued + (if Opens(e) then 1 else 0)
    && m.fds.socket == (if Hands(e) && m.fds.issued > 0 then Some(m.fds.issued - 1) else None)
    && m.fds.own == (if m.freed then None else Kept(l.fds.own, e, m.fds.issued))
    && (!m.freed ==> (m.stage == Connecting <==> Pends(e)))
  }

  /** A connector between events, before it lets go. */
  predicate Alone(l: Link) {
    !l.freed && l.refs == 1 && l.fds.socket == None && Newest(l)
  }

  lemma StartSpoken(l: Link, openOk: bool, attempt: Status, first: Action, second: Action)
    requires Alone(l) && l.stage == Error && l.fds.own == None
    ensures Spoken(l, Connect(openOk, attempt, first, second), Start(l, openOk, attempt, first, second))
  {
    hide Outcome, Ask;
    if !openOk {
      OutcomeWords(l, Failure, second);
    } else {
      var l1 := l.(fds := Open(l.fds));
      AskFirst(l1, first);
      if first == Retry {
        OutcomeWords(Begin(Ask(l1, Started, first), attempt), attempt, second);
      }
    }
  }

  lemma AssociatedWords(said: seq<Word>, w: Word, end: seq<Word>)
    ensures said + [w] + end == said + ([w] + end) && [w] + [] == [w]
  {
  }

  /** What a looper callback leaves after its first call `w`. */
  predicate Closed(l: Link, said: seq<Word>, w: Word, attempt: Status, second: Action, m: Link) {
    && m.said == said + ([w] + Ended(attempt, second)) && m.fds.issued == l.fds.issued
    && m.fds.socket == (if attempt == Complete && second == Done then l.fds.own else None)
    && m.fds.own == (if m.freed || attempt == Complete then None else l.fds.own)
    && (!m.freed ==> m.stage == l.stage)
  }

  lemma CallbackCloses(l: Link, said: seq<Word>, w: Word, attempt: Status, second: Action)
    requires !l.freed && 0 < l.refs <= 2 && (attempt == NeedMore <==> l.stage == Connecting) && l.fds.socket == None
    requires l.said == said + [w]
    ensures Closed(l, said, w, attempt, second, Release(Outcome(l, attempt, second)))
  {
    hide Outcome, Release;
    AssociatedWords(said, w, Ended(attempt, second));
    OutcomeWords(l, attempt, second);
    ReleaseWords(Outcome(l, attempt, second));
  }

  lemma AbortFrees(l: Link)
    requires !l.freed && l.refs == 1
    ensures Release(l).freed
  {
    ReleaseIs(l);
    hide Release;
  }

  lemma AbortCloses(l: Link)
    requires !l.freed && l.refs == 1
    ensures var m := Release(l);
            m.freed && m.said == l.said && m.fds.issued == l.fds.issued && m.fds.socket == l.fds.socket && m.fds.own == None
  {
    hide Release;
    ReleaseWords(l);
    AbortFrees(l);
  }

  lemma WritableSpoken(l: Link, ok: bool, first: Action, second: Action)
    requires Alone(l) && l.stage == Connecting
    ensures Spoken(l, Watch(ok, first, second), Writable(l, ok, first, second))
  {
    hide Ask, Outcome, Release;
    var l0 := l.(refs := l.refs + 1);
    AskIs(l0, Continues, first);
    var l1 := Ask(l0, Continues, first);
    if first == Abort {
      AbortCloses(l1);
    } else {
      var attempt := if ok then Complete else Failure;
      CallbackCloses(l1.(stage := StageOf(attempt)), l.said, Word(Continues, first), attempt, second);
    }
  }

  /** An attempt that is made again. */
  lemma AgainCloses(l: Link, said: seq<Word>, w: Word, openOk: bool, attempt: Status, second: Action)
    requires !l.freed && 0 < l.refs <= 2 && l.stage != Connecting && l.fds.socket == None && l.said == said + [w]
    ensures var m := Release(Again(l, openOk, attempt, second));
            var n := l.(fds := CloseFd(l.fds));
            if openOk then Closed(Begin(n.(fds := Open(n.fds)), attempt), said, w, attempt, second, m) else Closed(n, said, w, Failure, second, m)
  {
    hide Outcome, Release, Closed;
    var n := l.(fds := CloseFd(l.fds));
    if openOk {
      CallbackCloses(Begin(n.(fds := Open(n.fds)), attempt), said, w, attempt, second);
    } else {
      CallbackCloses(n, said, w, Failure, second);
    }
  }

  lemma ExpiredSpoken(l: Link, openOk: bool, attempt: Status, first: Action, second: Action)
    requires Alone(l) && l.stage != Connecting
    ensures Spoken(l, Timer(openOk, attempt, first, second), Expired(l, openOk, attempt, first, second))
  {
    hide Ask, Again, Release, Begin, Open, CloseFd;
    var l0 := l.(refs := l.refs + 1, timerOn := false);
    AskIs(l0, Retrying, first);
    var l1 := Ask(l0, Retrying, first);
    if first == Abort {
      AbortCloses(l1);
    } else {
      AgainCloses(l1, l.said, Word(Retrying, first), openOk, attempt, second);
      Reopened(l1, attempt);
    }
  }

  lemma Reopened(l: Link, attempt: Status)
    ensures var n := l.(fds := CloseFd(l.fds));
            var b := Begin(n.(fds := Open(n.fds)), attempt);
            && n.fds.own == None && n.fds.issued == l.fds.issued
            && b.fds.own == Some(l.fds.issued) && b.fds.issued == l.fds.issued + 1 && b.stage == StageOf(attempt)
  {
  }

  lemma StepEffects(l: Link, e: Event)
    requires Inv(l) && Newest(l) && Enabled(l, e) && !l.dangling
    ensures Effects(l, e, Step(l, e)) && Newest(Step(l, e))
  {
    hide Inv, Start, Writable, Expired, Effects, Newest, Spoken, Alone;
    StepOk(l, e);
    if e.CloseSocket? {
      CloseEffects(l);
    } else {
      EnabledAlone(l, e);
      match e {
        case Connect(openOk, attempt, first, second) => StartSpoken(l, openOk, attempt, first, second);
        case Watch(ok, first, second) => WritableSpoken(l, ok, first, second);
        case Timer(openOk, attempt, first, second) => ExpiredSpoken(l, openOk, attempt, first, second);
      }
      SpokenEffects(l, e, Step(l, e));
    }
  }

  lemma SpokenEffects(l: Link, e: Event, m: Link)
    requires Inv(m) && Alone(l) && Spoken(l, e, m) && !e.CloseSocket? && (e.Watch? ==> l.fds.own.Some?)
    ensures Effects(l, e, m) && Newest(m)
  {
    hide Inv;
    assert Words(e) != [];
    WaitsFor(m);
    if m.freed {
      GoneIdle(m);
    }
  }

  lemma GoneIdle(m: Link)
    requires Inv(m) && m.freed
    ensures m.stage != Connecting && m.fds.own == None
  {
    hide Owned, Told;
  }

  lemma EnabledAlone(l: Link, e: Event)
    requires Inv(l) && Newest(l) && Enabled(l, e) && !e.CloseSocket?
    ensures Alone(l)
    ensures e.Connect? ==> l.stage == Error && l.fds.own == None
    ensures e.Watch? ==> l.stage == Connecting && l.fds.own.Some?
    ensures e.Timer? ==> l.stage != Connecting
  {
    hide Owned, Told;
  }

  lemma CloseEffects(l: Link)
    requires Newest(l)
    ensures var m := l.(fds := CloseOwn(l.fds)); Effects(l, CloseSocket, m) && Newest(m)
  {
  }

  // ----- whole runs -----------------------------------------------------------------------

  /** What the client is told in a run: what every event that was taken says, one after the other. */
  function Story(es: seq<Event>): seq<Word> {
    if es == [] then []
    else Story(es[..|es| - 1]) + if Taken(es, |es| - 1) then Words(es[|es| - 1]) else []
  }

  /** How many sockets were created. */
  function Issued(es: seq<Event>): nat {
    if es == [] then 0
    else Issued(es[..|es| - 1]) + if Taken(es, |es| - 1) && Opens(es[|es| - 1]) then 1 else 0
  }

  /** Which descriptor the socket has: the one opened last when it heard SUCCEEDED and its client was done. */
  function Holder(es: seq<Event>): Option<nat> {
    if es == [] then None
    else
      var init, e := es[..|es| - 1], es[|es| - 1];
      if !Taken(es, |es| - 1) then Holder(init)
      else if Hands(e) && Issued(es) > 0 then Some(Issued(es) - 1)
      else if e.CloseSocket? then None
      else Holder(init)
  }

  /** Which descriptor the connector has while it lives. */
  function Keeper(es: seq<Event>): Option<nat> {
    if es == [] then None
    else
      var init, e := es[..|es| - 1], es[|es| - 1];
      if Taken(es, |es| - 1) then Kept(Keeper(init), e, Issued(es)) else Keeper(init)
  }

  /** Whether the last attempt is in progress. */
  predicate InProgress(es: seq<Event>) {
    if es == [] then false
    else
      var init, e := es[..|es| - 1], es[|es| - 1];
      if Taken(es, |es| - 1) && !e.CloseSocket? then Pends(e) else InProgress(init)
  }

  lemma {:induction false} RunNewest(es: seq<Event>)
    ensures Newest(Run(es))
  {
    if es != [] {
      var init, n := es[..|es| - 1], |es| - 1;
      hide Inv, Step, Newest, Run, Enabled, Taken, Effects;
      RunNewest(init);
      RunOk(init);
      RunIs(es);
      if Taken(es, n) {
        TakenIs(es, n);
        StepEffects(Run(init), es[n]);
      }
    } else {
      NewNewest();
    }
  }

  lemma NewNewest()
    ensures Newest(Run([]))
  {
  }

  /** An event that is taken. */
  lemma TakenEffects(es: seq<Event>, i: nat)
    requires i < |es| && Taken(es, i)
    ensures Effects(Run(es[..i]), es[i], Run(es[..i + 1]))
  {
    hide Inv, Newest, Run, Effects, Enabled, Taken, Step;
    assert es[..i + 1][..i] == es[..i];
    RunIs(es[..i + 1]);
    TakenSame(es, i);
    TakenIs(es, i);
    RunOk(es[..i]);
    RunNewest(es[..i]);
    StepEffects(Run(es[..i]), es[i]);
  }

  lemma TakenSame(es: seq<Event>, i: nat)
    requires i < |es|
    ensures Taken(es[..i + 1], i) <==> Taken(es, i)
  {
    assert es[..i + 1][..i] == es[..i];
    hide Run, Enabled;
  }

  lemma TakenThere(es: seq<Event>, i: nat)
    requires i < |es| && Taken(es, i)
    ensures es[i].CloseSocket? || !Run(es[..i]).freed
    ensures es[i].CloseSocket? ==> Step(Run(es[..i]), es[i]).freed == Run(es[..i]).freed
    ensures !es[i].CloseSocket? ==> Words(es[i]) != []
  {
    RunOk(es[..i]);
    hide Owned, Told, Start, Writable, Expired, Run;
  }

  /**
   In every run the client hears SUCCEEDED exactly for the attempts that completed and FAILED for those
   that failed, in their order; the socket has a descriptor only after its client was done when it heard
   SUCCEEDED, and that is the one that was opened for this attempt; and as long as the connector lives,
   it watches the attempt that is in progress, or waits for the next.
   */
  lemma {:induction false} ConnectionIsReported(es: seq<Event>)
    ensures var l := Run(es);
            && l.said == Story(es) && l.fds.issued == Issued(es) && l.fds.socket == Holder(es)
            && l.fds.own == (if l.freed then None else Keeper(es))
            && (l.live != {} <==> !l.freed && InProgress(es))
            && (l.timerOn <==> !l.freed && Story(es) != [] && !InProgress(es))
  {
    if es == [] {
    } else {
      var init, n := es[..|es| - 1], |es| - 1;
      hide Inv, Run, Enabled, Taken, Step;
      ConnectionIsReported(init);
      RunIs(es);
      if Taken(es, n) {
        TakenEffects(es, n);
        assert es[..n + 1] == es;
        TakenThere(es, n);
      }
    }
  }
}
