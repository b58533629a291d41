/**
 One connector, the socket it serves, and what the kernel and the looper hold for them.

 File descriptors and looper watches are numbered in order of creation, so that each is known by
 one number for ever.  A pointer the program does not clear stays `Some` here: `io` may name a
 watch that is gone.  Once freed memory is used the run stops; `dangling` records that.
 */
module ConnectorSpec {
  import opened AsyncIoCommon
  import opened AsyncUtilsSpec
  import opened AsyncUtils

  /** One call of the socket's client, and its answer. */
  datatype Word = Word(event: State, answer: Action)

  /** The descriptors of the connector and of its socket, how many were issued, which were closed. */
  datatype Fds = Fds(own: Option<nat>, socket: Option<nat>, issued: nat, closed: seq<nat>)

  datatype Link = Link(
    fds: Fds,
    io: Option<nat>,
    stage: Stage,
    timerOn: bool,
    refs: int,
    freed: bool,
    watches: nat,
    live: set<nat>,        // watches that exist
    frees: nat,            // times the connector was destroyed
    dangling: bool,
    doubleFree: bool,      // a watch was freed that was gone already
    said: seq<Word>)

  /** An event, with the client's answers to the one or two calls it may lead to. */
  datatype Event =
    | Connect(openOk: bool, attempt: Status, first: Action, second: Action)
    | Watch(ok: bool, first: Action, second: Action)
    | Timer(openOk: bool, attempt: Status, first: Action, second: Action)
    | CloseSocket

  const NEW := Link(Fds(None, None, 0, []), None, Error, false, 1, false, 0, {}, 0, false, false, [])

  function Open(f: Fds): Fds {
    f.(own := Some(f.issued), issued := f.issued + 1)
  }

  function CloseFd(f: Fds): Fds {
    match f.own
    case None => f
    case Some(d) => f.(own := None, closed := f.closed + [d])
  }

  /** The socket takes over the connector's descriptor. */
  function Pull(f: Fds): Fds {
    f.(socket := f.own, own := None)
  }

  function CloseOwn(f: Fds): Fds {
    match f.socket
    case None => f
    case Some(d) => f.(socket := None, closed := f.closed + [d])
  }

  /** Freeing a null watch does nothing. */
  function FreeIo(l: Link): Link {
    match l.io
    case None => l
    case Some(w) => if w in l.live then l.(live := l.live - {w}) else l.(doubleFree := true)
  }

  function Free(l: Link): Link {
    var l := if l.stage == Connecting then FreeIo(l.(stage := Completed)) else l;
    l.(fds := CloseFd(l.fds), freed := true, timerOn := false, frees := l.frees + 1)
  }

  function Release(l: Link): Link {
    if l.freed then l.(dangling := true)
    else if l.refs == 1 then Free(l.(refs := 0))
    else l.(refs := l.refs - 1)
  }

  /** The descriptors, once the socket has heard an event and its client has answered. */
  function Handed(f: Fds, event: State, answer: Action): Fds {
    if event != Succeeded then f
    else if answer == Done then Pull(f)
    else CloseOwn(Pull(f))
  }

  /** The socket hears an event from its connector, and asks its client. */
  function Ask(l: Link, event: State, answer: Action): Link {
    if l.freed then l.(dangling := true)
    else
      var l := l.(fds := Handed(l.fds, event, answer), said := l.said + [Word(event, answer)]);
      if answer != Retry then Release(l) else l
  }

  /** What follows an attempt. */
  function Outcome(l: Link, attempt: Status, answer: Action): Link {
    if l.freed then l.(dangling := true)
    else if attempt == NeedMore then l
    else
      var l := Ask(FreeIo(l), if attempt == Complete then Succeeded else Failed, answer);
      if answer != Retry then l
      else if l.freed then l.(dangling := true)
      else l.(timerOn := true)
  }

  function StageOf(attempt: Status): Stage {
    match attempt
    case Complete => Completed
    case NeedMore => Connecting
    case Failure => Error
  }

  /** A watch is made for the descriptor and the connection is started. */
  function Begin(l: Link, attempt: Status): Link {
    l.(io := Some(l.watches), watches := l.watches + 1, live := l.live + {l.watches}, stage := StageOf(attempt))
  }

  function Start(l: Link, openOk: bool, attempt: Status, first: Action, second: Action): Link {
    if !openOk then Outcome(l, Failure, second)
    else
      var l := Ask(l.(fds := Open(l.fds)), Started, first);
      if first == Abort then l
      else if l.freed then l.(dangling := true)
      else Outcome(Begin(l, attempt), attempt, second)
  }

  /** The connection in progress has come to an end. */
  function Finish(l: Link, ok: bool, second: Action): Link {
    var attempt := if ok then Complete else Failure;
    Outcome(l.(stage := StageOf(attempt)), attempt, second)
  }

  function Writable(l: Link, ok: bool, first: Action, second: Action): Link {
    var l := Ask(l.(refs := l.refs + 1), Continues, first);
    Release(
      if first == Abort then l
      else if l.freed then l.(dangling := true)
      else Finish(l, ok, second))
  }

  /** The descriptor of the last attempt is closed, and another attempt made. */
  function Again(l: Link, openOk: bool, attempt: Status, second: Action): Link {
    var l := l.(fds := CloseFd(l.fds));
    if openOk then Outcome(Begin(l.(fds := Open(l.fds)), attempt), attempt, second)
    else Outcome(l, Failure, second)
  }

  function Expired(l: Link, openOk: bool, attempt: Status, first: Action, second: Action): Link {
    var l := Ask(l.(refs := l.refs + 1, timerOn := false), Retrying, first);
    Release(
      if first == Abort then l
      else if l.freed then l.(dangling := true)
      else Again(l, openOk, attempt, second))
  }

  function Step(l: Link, e: Event): Link {
    match e
    case Connect(openOk, attempt, first, second) => Start(l, openOk, attempt, first, second)
    case Watch(ok, first, second) => Writable(l, ok, first, second)
    case Timer(openOk, attempt, first, second) => Expired(l, openOk, attempt, first, second)
    case CloseSocket => l.(fds := CloseOwn(l.fds))
  }

  /**
   A connector is told to connect once.  Its watch reports only while it is watched for writing, and
   its timer only while it runs; neither reaches a connector that is gone.
   */
  predicate Enabled(l: Link, e: Event) {
    match e
    case Connect(_, _, _, _) => l.said == [] && !l.freed && l.watches == 0
    case Watch(_, _, _) => l.stage == Connecting && !l.freed
    case Timer(_, _, _, _) => l.timerOn
    case CloseSocket => true
  }

  function Run(es: seq<Event>): Link {
    if es == [] then NEW
    else
      var l := Run(es[..|es| - 1]);
      var e := es[|es| - 1];
      if Enabled(l, e) && !l.dangling then Step(l, e) else l
  }
}
