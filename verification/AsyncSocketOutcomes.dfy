/**
 What one event comes to: which bytes are moved and where they go, what the callback is told, and
 whether the reconnection timer runs.  This is said from the answers of the kernel and of the client.
 */
module AsyncSocketOutcomes {
  import opened AsyncIoCommon
  import opened AsyncSocketSpec
  import opened AsyncSocketSteps
  import opened AsyncSocketInvariant
  import opened AsyncSocketCallbacks
  import opened AsyncSocketCancel
  import opened AsyncSocketSafety
  import opened AsyncSocketTheorems
  import Orphans = AsyncSocketOrphans

  // ----- what is to be expected of a try ---------------------------------------------------

  function Room(io: Io): nat {
    if io.transferred <= |io.buffer| then |io.buffer| - io.transferred else 0
  }

  function Least(a: nat, b: nat): nat {
    if a <= b then a else b
  }

  /** The first `n` bytes that were received, or the next `n` bytes of the buffer, which were sent. */
  function Carried(io: Io, isRead: bool, bytes: seq<Byte>, n: nat): seq<Byte>
    requires n <= |bytes| && n <= Room(io)
  {
    if isRead then bytes[..n] else if n == 0 then [] else io.buffer[io.transferred..io.transferred + n]
  }

  /** They stand in the buffer behind what was there; sending leaves the buffer alone. */
  predicate Stored(a: Io, b: Io, isRead: bool, bytes: seq<Byte>, n: nat)
    requires n <= |bytes| && n <= Room(a)
  {
    && b.transferred == a.transferred + n
    && if isRead && n > 0 then b.buffer == a.buffer[..a.transferred] + bytes[..n] + a.buffer[a.transferred + n..]
       else b.buffer == a.buffer
  }

  /** That an I/O is going on: started the first time, continues from then on. */
  function Going(io: Io, a: Action): Note {
    Note(if io.state == Queued then Started else Continues, a, io.transferred)
  }

  /** How many bytes a try moves. */
  function Amount(io: Io, a: Action, outcome: Outcome): nat {
    if a == Abort || !outcome.Moved? then 0 else Least(|outcome.bytes|, Room(io))
  }

  /** It heard of `event` last, and its timer does not run any more. */
  predicate Settles(told: seq<Note>, event: State, transferred: nat, io: Io) {
    HeardLast(told, event, transferred, io) && !io.timerOn
  }

  /** What the head of a queue hears when a try on it comes out like this. */
  predicate Learns(io: Io, a: Action, outcome: Outcome, r: Io) {
    var told := io.notes + [Going(io, a)];
    if a == Abort || outcome.WouldBlock? then Heard(told, r)
    else if outcome.Error? then Settles(told, Failed, io.transferred, r)
    else if Amount(io, a, outcome) == 0 then Settles(told, Cancelled, io.transferred, r)  // there is no connection any more
    else if Amount(io, a, outcome) == Room(io) then Settles(told, Succeeded, |io.buffer|, r)
    else Heard(told, r)
  }

  /** What a try on the head of a queue comes to, if the client answers `a` when it goes ahead. */
  predicate Served(s: Sock, r: Sock, isRead: bool, k: nat, a: Action, outcome: Outcome)
    requires k in s.ios
  {
    var io := s.ios[k];
    var n := Amount(io, a, outcome);
    var bytes := if outcome.Moved? then outcome.bytes else [];
    && k in r.ios && Learns(io, a, outcome, r.ios[k]) && Stored(io, r.ios[k], isRead, bytes, n)
    && Moves(r, isRead) == Moves(s, isRead) + Carried(io, isRead, bytes, n)
    && Moves(r, !isRead) == Moves(s, !isRead)
  }

  /** The client's answer when it hears that an I/O is going on. */
  function Informed(s: Sock, isRead: bool): Action
    requires Queue(s, isRead) != []
  {
    var k := Queue(s, isRead)[0];
    var t := Bump(IoRef(s, k), k);
    Notify(t, k, At(t, k).state).1
  }

  // ----- what is left of a descriptor when running code lets go of it ---------------------

  /** No byte was moved, and the callback heard nothing but perhaps of its end. */
  predicate Follows(s: Sock, r: Sock, k: nat) {
    && SameBytes(s, r) && k in s.ios && k in r.ios
    && r.ios[k].buffer == s.ios[k].buffer && r.ios[k].transferred == s.ios[k].transferred
    && Heard(s.ios[k].notes, r.ios[k]) && (r.ios[k].timerOn ==> s.ios[k].timerOn)
  }

  /** The descriptor a callback works on is as it was, but for its references. */
  predicate Remains(s: Sock, r: Sock, k: nat) {
    && SameBytes(s, r) && k in s.ios && k in r.ios
    && r.ios[k].buffer == s.ios[k].buffer && r.ios[k].transferred == s.ios[k].transferred
    && r.ios[k].notes == s.ios[k].notes && r.ios[k].state == s.ios[k].state && (r.ios[k].timerOn ==> s.ios[k].timerOn)
  }

  lemma SameMoves(s: Sock, r: Sock)
    requires SameConnection(s, r)
    ensures SameBytes(s, r) && r.reconnect == s.reconnect
  {
  }

  lemma RemainsFollows(s: Sock, t: Sock, r: Sock, k: nat)
    requires Remains(s, t, k) && Follows(t, r, k)
    ensures Follows(s, r, k)
  {
    hide Heard;
  }

  lemma LetGoFollows(s: Sock, k: nat)
    requires Busy(s, k) && AtRest(s.ios[k], InQueue(s, k))
    ensures Follows(s, IoRelease(s, k), k)
  {
    hide Inv, AtRest, IoRelease, Grows, SameConnection, Heard, Quiet, InQueue;
    IoReleaseOk(s, k);
  }

  lemma RearmRemains(s: Sock, isRead: bool, k: nat)
    requires k in s.ios
    ensures Remains(s, Rearm(s, isRead), k) && Rearm(s, isRead).reconnect == s.reconnect
    ensures Remains(s, SetWant(s, isRead, true), k)
  {
  }

  lemma EndFollows(s: Sock, isRead: bool, k: nat)
    requires Leaving(s, k)
    ensures Follows(s, IoRelease(Rearm(s, isRead), k), k)
  {
    hide Leaving, Rearm, IoRelease, Inv, Follows, Remains, Busy, AtRest, InQueue;
    LeavingHeld(s, k);
    RearmOk(s, isRead, k);
    RearmRemains(s, isRead, k);
    var t := Rearm(s, isRead);
    LeavingAtRest(t, k);
    LeavingBusy(t, k);
    LetGoFollows(t, k);
    RemainsFollows(s, t, IoRelease(t, k), k);
  }

  lemma LeavingHeld(s: Sock, k: nat)
    requires Leaving(s, k)
    ensures k in s.ios
  {
    hide Inv, Quiet;
  }

  lemma AdvanceRemains(s: Sock, isRead: bool, k: nat)
    requires Busy(s, k) && Queue(s, isRead) != [] && Queue(s, isRead)[0] == k
    ensures Remains(s, Advance(s, isRead), k)
  {
    hide Inv, Quiet, Advance, SameConnection, InQueue;
    AdvanceOk(s, isRead, k);
    SameMoves(s, Advance(s, isRead));
  }

  /** The client aborted when it was informed. */
  lemma AbortedFollows(s: Sock, isRead: bool, k: nat)
    requires Busy(s, k) && Queue(s, isRead) != [] && Queue(s, isRead)[0] == k && Stage(s.ios[k]) == Ended
    ensures Follows(s, IoRelease(Rearm(Advance(s, isRead), isRead), k), k)
  {
    hide Rearm, Advance, IoRelease, Inv, Quiet, SameConnection, Stage, Follows, Remains;
    AdvanceOk(s, isRead, k);
    AdvanceRemains(s, isRead, k);
    var t := Advance(s, isRead);
    RefOnly(s, t, k);
    EndFollows(t, isRead, k);
    RemainsFollows(s, t, IoRelease(Rearm(t, isRead), k), k);
  }

  lemma BlockedFollows(s: Sock, isRead: bool, k: nat)
    requires Trying(s, isRead, k)
    ensures Follows(s, IoRelease(SetWant(s, isRead, true), k), k)
    ensures Follows(s, IoRelease(Rearm(s, isRead), k), k)
  {
    hide Inv, Stage, IoRelease, Follows, Remains, AtRest, Quiet;
    WantOk(s, isRead, true);
    var t := SetWant(s, isRead, true);
    assert Rearm(s, isRead) == t;
    WantQuiet(s, isRead, k);
    assert Trying(t, isRead, k);
    TryingAtRest(t, isRead, k);
    RearmRemains(s, isRead, k);
    LetGoFollows(t, k);
    RemainsFollows(s, t, IoRelease(t, k), k);
  }

  lemma WantQuiet(s: Sock, isRead: bool, k: nat)
    requires Quiet(s, Some(k))
    ensures Quiet(SetWant(s, isRead, true), Some(k))
  {
  }

  // ----- what the callback is told --------------------------------------------------------

  /** A descriptor is told something: no byte moves, and its notes grow by one. */
  predicate Adds(s: Sock, r: Sock, k: nat, note: Note) {
    && SameBytes(s, r) && k in s.ios && k in r.ios
    && r.ios[k].buffer == s.ios[k].buffer && r.ios[k].transferred == s.ios[k].transferred
    && r.ios[k].notes == s.ios[k].notes + [note]
  }

  lemma ReportAdds(s: Sock, k: nat, event: State)
    requires Busy(s, k) && Fits(s.ios[k].(timerOn := false), event)
    ensures var (r, a) := Report(s, k, event); Adds(s, r, k, Note(event, a, s.ios[k].transferred)) && !r.ios[k].timerOn
  {
    hide Inv, Quiet, Fits, Report, Grows, SameConnection, Stage, InQueue;
    ReportOk(s, k, event);
    var (r, a) := Report(s, k, event);
    SameMoves(s, r);
    StopIs(s, k);
  }

  lemma AddsFollows(s: Sock, t: Sock, r: Sock, k: nat, note: Note)
    requires Adds(s, t, k, note) && Follows(t, r, k)
    ensures SameBytes(s, r) && k in r.ios && r.ios[k].buffer == s.ios[k].buffer && r.ios[k].transferred == s.ios[k].transferred
    ensures Heard(s.ios[k].notes + [note], r.ios[k]) && (!t.ios[k].timerOn ==> !r.ios[k].timerOn)
  {
    hide Heard;
  }

  /** After a report `event` is what the callback heard last. */
  predicate Reported(s: Sock, r: Sock, k: nat, event: State) {
    && SameBytes(s, r) && k in s.ios && k in r.ios
    && r.ios[k].buffer == s.ios[k].buffer && r.ios[k].transferred == s.ios[k].transferred
    && Settles(s.ios[k].notes, event, s.ios[k].transferred, r.ios[k])
  }

  lemma ReportedIs(s: Sock, t: Sock, r: Sock, k: nat, event: State, a: Action)
    requires k in s.ios && Adds(s, t, k, Note(event, a, s.ios[k].transferred)) && Follows(t, r, k) && !t.ios[k].timerOn
    ensures Reported(s, r, k, event)
  {
    hide Heard, Adds, Follows;
    AddsFollows(s, t, r, k, Note(event, a, s.ios[k].transferred));
    AddsIn(s, t, k, Note(event, a, s.ios[k].transferred));
  }

  lemma AddsIn(s: Sock, t: Sock, k: nat, note: Note)
    requires Adds(s, t, k, note)
    ensures k in s.ios
  {
  }

  lemma ErredReports(s: Sock, isRead: bool, k: nat)
    requires Trying(s, isRead, k)
    ensures var (t, a) := Report(s, k, Failed);
            Reported(s, IoRelease(if a != Retry then Rearm(Advance(t, isRead), isRead) else t, k), k, Failed)
  {
    hide Inv, Local, Fits, Report, Grows, SameConnection, Stage, Advance, Rearm, IoRelease, Quiet, Follows, Adds, Reported, AtRest;
    FailedFits(s.ios[k]);
    ReportOk(s, k, Failed);
    ReportAdds(s, k, Failed);
    var (t, a) := Report(s, k, Failed);
    ReportedHead(s, t, isRead, k, Failed, a);
    if a != Retry {
      LeavesFollow(t, isRead, k);
      ReportedIs(s, t, IoRelease(Rearm(Advance(t, isRead), isRead), k), k, Failed, a);
    } else {
      TryingAtRest(t, isRead, k);
      LetGoFollows(t, k);
      ReportedIs(s, t, IoRelease(t, k), k, Failed, a);
    }
  }

  lemma LeavesFollow(t: Sock, isRead: bool, k: nat)
    requires Busy(t, k) && Queue(t, isRead) != [] && Queue(t, isRead)[0] == k && !Active(Stage(t.ios[k]))
    ensures Follows(t, IoRelease(Rearm(Advance(t, isRead), isRead), k), k)
  {
    hide Inv, Stage, Advance, Rearm, IoRelease, Quiet, Follows, Remains, SameConnection;
    AdvanceOk(t, isRead, k);
    AdvanceRemains(t, isRead, k);
    var u := Advance(t, isRead);
    RefOnly(t, u, k);
    EndFollows(u, isRead, k);
    RemainsFollows(t, u, IoRelease(Rearm(u, isRead), k), k);
  }

  lemma CompletedReports(s: Sock, isRead: bool, k: nat)
    requires Busy(s, k) && Queue(s, isRead) != [] && Queue(s, isRead)[0] == k
    requires Stage(s.ios[k]) == Running && s.ios[k].transferred == |s.ios[k].buffer| && s.ios[k].accepted
    ensures Reported(s, IoRelease(Rearm(Report(Advance(s, isRead), k, Succeeded).0, isRead), k), k, Succeeded)
  {
    hide Inv, Local, Fits, Report, Grows, SameConnection, Stage, Advance, Rearm, IoRelease, Quiet, Follows, Adds, Remains, Reported;
    AdvanceOk(s, isRead, k);
    AdvanceRemains(s, isRead, k);
    var t := Advance(s, isRead);
    RefOnly(s, t, k);
    SucceededFits(t.ios[k]);
    ReportOk(t, k, Succeeded);
    ReportAdds(t, k, Succeeded);
    var (u, a) := Report(t, k, Succeeded);
    ReportedHead(t, u, isRead, k, Succeeded, a);
    RemainsAdds(s, t, u, k, Note(Succeeded, a, t.ios[k].transferred));
    EndFollows(u, isRead, k);
    ReportedIs(s, u, IoRelease(Rearm(u, isRead), k), k, Succeeded, a);
  }

  lemma RemainsAdds(s: Sock, t: Sock, u: Sock, k: nat, note: Note)
    requires Remains(s, t, k) && Adds(t, u, k, note)
    ensures Adds(s, u, k, note) && t.ios[k].transferred == s.ios[k].transferred
  {
  }

  /** The first notification of a try. */
  lemma InformAdds(s: Sock, isRead: bool)
    requires Inv(s) && Quiet(s, None) && Queue(s, isRead) != []
    ensures var k := Queue(s, isRead)[0];
            var t := Bump(IoRef(s, k), k);
            var (u, a) := Notify(t, k, t.ios[k].state);
            k in t.ios && k in s.ios && Adds(s, u, k, Going(s.ios[k], a)) && a == Informed(s, isRead)
  {
    hide Inv, Local, Fits, Bump, IoRef, Notify, Stable, Grows, SameConnection, Stage, Quiet;
    var k := Queue(s, isRead)[0];
    StartTry(s, isRead);
    NoFault(s);
    BumpIs(s, k);
    var t := Bump(IoRef(s, k), k);
    NotifyOk(t, k, t.ios[k].state);
    var (u, a) := Notify(t, k, t.ios[k].state);
    SameMoves(s, t);
    SameMoves(t, u);
    BumpedIs(s, t, k);
  }

  lemma BumpedIs(s: Sock, t: Sock, k: nat)
    requires k in s.ios && t == Put(s, k, Bumped(s.ios[k]))
    ensures t.ios[k].notes == s.ios[k].notes && t.ios[k].buffer == s.ios[k].buffer && t.ios[k].transferred == s.ios[k].transferred
    ensures t.ios[k].state == if s.ios[k].state == Queued then Started else Continues
  {
  }

  // ----- one try ---------------------------------------------------------------------------

  /** What recv or send moved, before anybody is told. */
  lemma TransferStores(s: Sock, isRead: bool, k: nat, bytes: seq<Byte>)
    requires k in s.ios && s.ios[k].isRead == isRead && s.ios[k].transferred <= |s.ios[k].buffer|
    requires Chunk(s.ios[k], bytes) != []
    ensures var n := Least(|bytes|, Room(s.ios[k]));
            var t := Transfer(s, isRead, k, Chunk(s.ios[k], bytes));
            && n > 0 && k in t.ios && Stored(s.ios[k], t.ios[k], isRead, bytes, n) && t.ios[k].notes == s.ios[k].notes
            && |t.ios[k].buffer| == |s.ios[k].buffer|
            && Moves(t, isRead) == Moves(s, isRead) + Carried(s.ios[k], isRead, bytes, n)
            && Moves(t, !isRead) == Moves(s, !isRead)
  {
  }

  lemma NothingMoves(io: Io, bytes: seq<Byte>)
    requires io.transferred <= |io.buffer|
    ensures Chunk(io, bytes) == [] <==> Least(|bytes|, Room(io)) == 0
  {
  }

  /** What an attempt comes to after the client let it go ahead. */
  predicate Came(s: Sock, r: Sock, isRead: bool, k: nat, outcome: Outcome)
    requires k in s.ios
  {
    var io := s.ios[k];
    var n := Amount(io, Done, outcome);
    var bytes := if outcome.Moved? then outcome.bytes else [];
    && k in r.ios && Stored(io, r.ios[k], isRead, bytes, n)
    && Moves(r, isRead) == Moves(s, isRead) + Carried(io, isRead, bytes, n) && Moves(r, !isRead) == Moves(s, !isRead)
    && (outcome.WouldBlock? ==> Heard(io.notes, r.ios[k]))
    && (outcome.Error? ==> Settles(io.notes, Failed, io.transferred, r.ios[k]))
    && (outcome.Moved? && n == 0 ==> Settles(io.notes, Cancelled, io.transferred, r.ios[k]))
    && (n > 0 && n == Room(io) ==> Settles(io.notes, Succeeded, |io.buffer|, r.ios[k]))
    && (0 < n < Room(io) ==> Heard(io.notes, r.ios[k]))
  }

  lemma FollowsCame(s: Sock, r: Sock, isRead: bool, k: nat)
    requires Follows(s, r, k)
    ensures Came(s, r, isRead, k, WouldBlock)
  {
    hide Heard, Settles;
  }

  lemma ReportedCame(s: Sock, r: Sock, isRead: bool, k: nat)
    requires Reported(s, r, k, Failed)
    ensures Came(s, r, isRead, k, Error)
  {
    hide Heard, Settles;
  }

  lemma MovedCame(s: Sock, t: Sock, r: Sock, isRead: bool, k: nat, bytes: seq<Byte>)
    requires k in s.ios && k in t.ios && s.ios[k].transferred <= |s.ios[k].buffer|
    requires var n := Least(|bytes|, Room(s.ios[k]));
             && n > 0 && Stored(s.ios[k], t.ios[k], isRead, bytes, n) && t.ios[k].notes == s.ios[k].notes
             && |t.ios[k].buffer| == |s.ios[k].buffer|
             && Moves(t, isRead) == Moves(s, isRead) + Carried(s.ios[k], isRead, bytes, n)
             && Moves(t, !isRead) == Moves(s, !isRead)
    requires if t.ios[k].transferred == |t.ios[k].buffer| then Reported(t, r, k, Succeeded) else Follows(t, r, k)
    ensures Came(s, r, isRead, k, Moved(bytes))
  {
    hide Heard, Settles, Carried;
  }

  lemma LostCame(s: Sock, r: Sock, isRead: bool, k: nat, bytes: seq<Byte>)
    requires Reported(s, r, k, Cancelled) && Least(|bytes|, Room(s.ios[k])) == 0
    ensures Came(s, r, isRead, k, Moved(bytes))
  {
    hide Heard, Settles;
  }

  lemma AttemptComes(s: Sock, isRead: bool, k: nat, outcome: Outcome)
    requires Trying(s, isRead, k) && s.connected && s.held > 0
    ensures Came(s, Attempt(s, isRead, k, outcome).0, isRead, k, outcome)
  {
    hide Inv, Stage, IoRelease, SetWant, Report, Rearm, Advance, Disconnected, Transfer, Quiet, Chunk, Came, Follows, Reported, Stored, Carried;
    match outcome
    case WouldBlock =>
      BlockedFollows(s, isRead, k);
      FollowsCame(s, IoRelease(SetWant(s, isRead, true), k), isRead, k);
    case Error =>
      ErredReports(s, isRead, k);
      ReportedCame(s, Attempt(s, isRead, k, outcome).0, isRead, k);
    case Moved(bytes) =>
      QueuedAre(s, isRead);
      TryingSize(s, isRead, k);
      NothingMoves(s.ios[k], bytes);
      if Chunk(s.ios[k], bytes) == [] {
        LostReports(s, isRead, k);
        LostCame(s, IoRelease(Disconnected(s), k), isRead, k, bytes);
      } else {
        MovesOn(s, isRead, k, bytes);
      }
  }

  lemma TryingSize(s: Sock, isRead: bool, k: nat)
    requires Trying(s, isRead, k)
    ensures k in s.ios && s.ios[k].transferred <= |s.ios[k].buffer|
  {
    hide Inv, Quiet, Stage;
    About(s, k);
  }

  lemma MovesOn(s: Sock, isRead: bool, k: nat, bytes: seq<Byte>)
    requires Trying(s, isRead, k) && s.connected && s.held > 0 && s.ios[k].isRead == isRead && Chunk(s.ios[k], bytes) != []
    requires s.ios[k].transferred <= |s.ios[k].buffer|
    ensures var t := Transfer(s, isRead, k, Chunk(s.ios[k], bytes));
            && k in t.ios
            && var u := if At(t, k).transferred == |At(t, k).buffer| then Report(Advance(t, isRead), k, Succeeded).0 else t;
               Came(s, IoRelease(Rearm(u, isRead), k), isRead, k, Moved(bytes))
  {
    hide Inv, Stage, IoRelease, Report, Rearm, Advance, Transfer, Quiet, Chunk, Came, Follows, Reported, Stored, Carried;
    Transferred(s, isRead, k, bytes);
    TransferStores(s, isRead, k, bytes);
    var t := Transfer(s, isRead, k, Chunk(s.ios[k], bytes));
    if t.ios[k].transferred == |t.ios[k].buffer| {
      CompletedReports(t, isRead, k);
      MovedCame(s, t, IoRelease(Rearm(Report(Advance(t, isRead), k, Succeeded).0, isRead), k), isRead, k, bytes);
    } else {
      BlockedFollows(t, isRead, k);
      MovedCame(s, t, IoRelease(Rearm(t, isRead), k), isRead, k, bytes);
    }
  }

  /** Losing the connection moves no byte; the I/O is cancelled. */
  lemma LostReports(s: Sock, isRead: bool, k: nat)
    requires Trying(s, isRead, k) && s.held > 0
    ensures Reported(s, IoRelease(Disconnected(s), k), k, Cancelled)
  {
    hide Inv, Stage, IoRelease, Disconnected, Quiet, Follows, AtRest, Leaving, Adds, Reported;
    TryingCancellable(s, isRead, k);
    TryingQueued(s, isRead, k);
    DisconnectedOk(s, k);
    var b := DisconnectedAdds(s, k);
    var t := Disconnected(s);
    LeavingAtRest(t, k);
    LeavingBusy(t, k);
    LetGoFollows(t, k);
    ReportedIs(s, t, IoRelease(t, k), k, Cancelled, b);
  }

  lemma TryingQueued(s: Sock, isRead: bool, k: nat)
    requires Trying(s, isRead, k)
    ensures InQueue(s, k)
  {
    hide Inv, Quiet, Stage;
    assert Queue(s, isRead)[0] in Queue(s, isRead);
  }

  lemma CancelAdds(s: Sock, k: nat) returns (b: Action)
    requires Cancellable(s, Some(k)) && InQueue(s, k)
    ensures k in s.ios && Adds(s, CancelAll(s), k, Note(Cancelled, b, s.ios[k].transferred)) && !CancelAll(s).ios[k].timerOn
  {
    hide Cancellable, CancelAll, Inv, Evolves, Stable, Stage, InQueue, Adds, CancelsAll;
    CancelQuiet(s, Some(k));
    CancellableIn(s, k);
    b := CanceledAdds(s, CancelAll(s), k);
  }

  lemma CanceledAdds(s: Sock, r: Sock, k: nat) returns (b: Action)
    requires CancelsAll(s, r) && Inv(r) && k in s.ios && InQueue(s, k) && s.ios[k].held > 0
    ensures Adds(s, r, k, Note(Cancelled, b, s.ios[k].transferred)) && !r.ios[k].timerOn
  {
    AboutLocal(r, k);
    assert !r.ios[k].timerOn by { SettledStops(s, r, k); }
    hide Stage, Stable, Evolves, Inv;
    b :| Heard(s.ios[k].notes + [Note(Cancelled, b, s.ios[k].transferred)], r.ios[k]);
  }

  lemma SettledStops(s: Sock, r: Sock, k: nat)
    requires CancelsAll(s, r) && Inv(r) && k in s.ios && InQueue(s, k)
    ensures !r.ios[k].timerOn
  {
    AboutLocal(r, k);
    hide Inv, PhaseOf;
  }

  lemma CancellableIn(s: Sock, k: nat)
    requires Cancellable(s, Some(k))
    ensures k in s.ios && s.ios[k].held > 0
  {
    hide Inv, Quiet;
  }

  /** A descriptor that is in no queue is not cancelled. */
  lemma CancelRemains(s: Sock, k: nat)
    requires Cancellable(s, Some(k)) && !InQueue(s, k)
    ensures Remains(s, CancelAll(s), k)
  {
    hide Cancellable, CancelAll, Inv, Over, Stable, Stage, InQueue, Remains, CancelsAll;
    CancelQuiet(s, Some(k));
    CancellableIn(s, k);
    CanceledRemains(s, CancelAll(s), k);
  }

  lemma CanceledRemains(s: Sock, r: Sock, k: nat)
    requires CancelsAll(s, r) && k in s.ios && !InQueue(s, k) && s.ios[k].held > 0
    ensures Remains(s, r, k)
  {
    hide Stage, Stable, Over;
  }

  lemma CalledRemains(s: Sock, r: Sock, k: nat)
    requires Called(s, r) && k in s.ios && s.ios[k].held > 0
    ensures Remains(s, r, k)
  {
    hide Stage, Stable, QueueGrows;
  }

  lemma AddsRemains(s: Sock, t: Sock, r: Sock, k: nat, note: Note)
    requires Adds(s, t, k, note) && Remains(t, r, k)
    ensures Adds(s, r, k, note) && (!t.ios[k].timerOn ==> !r.ios[k].timerOn)
  {
  }

  lemma DisconnectedAdds(s: Sock, k: nat) returns (b: Action)
    requires Cancellable(s, Some(k)) && InQueue(s, k)
    ensures k in s.ios && Adds(s, Disconnected(s), k, Note(Cancelled, b, s.ios[k].transferred)) && !Disconnected(s).ios[k].timerOn
  {
    hide Cancellable, Inv, Client, CancelAll, Close, Quiet, SameConnection, CancelsAll, Leaving, Called, Adds, Remains, InQueue;
    b := CancelAdds(s, k);
    CancelClose(s, Some(k));
    var note := Note(Cancelled, b, s.ios[k].transferred);
    var t := Disconnect(s);
    AddsOut(s, CancelAll(s), k, note);
    CloseRemains(CancelAll(s), k);
    AddsRemains(s, CancelAll(s), t, k, note);
    AfterCancel(s, t, k);
    var (u, a) := Client(t);
    CalledRemains(t, u, k);
    AddsRemains(s, t, u, k, note);
    if a == Retry {
      CancelRemains(u, k);
      AddsRemains(s, u, CancelAll(u), k, note);
      AddsOut(s, CancelAll(u), k, note);
      TimerRemains(CancelAll(u), k);
      AddsRemains(s, CancelAll(u), CancelAll(u).(reconnect := true), k, note);
    }
  }

  lemma AddsOut(s: Sock, r: Sock, k: nat, note: Note)
    requires Adds(s, r, k, note)
    ensures k in r.ios
  {
  }

  lemma TimerRemains(s: Sock, k: nat)
    requires k in s.ios
    ensures Remains(s, s.(reconnect := true), k)
  {
  }

  lemma CloseRemains(s: Sock, k: nat)
    requires k in s.ios
    ensures Remains(s, Close(s), k)
  {
  }

  lemma AfterCancel(s: Sock, t: Sock, k: nat)
    requires Cancellable(s, Some(k)) && Inv(t) && Quiet(t, Some(k)) && t.held == s.held && Leaving(t, k)
    ensures var u := Client(t).0;
            Called(t, u) && Cancellable(u, Some(k)) && !InQueue(u, k) && k in t.ios && t.ios[k].held > 0
  {
    hide Inv, Client, Called, SameConnection, Stage, Stable;
    ClientQuiet(t, Some(k));
  }

  /**
   One readable or writable event, for every answer of the client and of the kernel: exactly the first
   bytes received are stored behind those that are there, as many as there is room for, or exactly
   the next bytes of the buffer are sent; they are what the connection moves; and the callback is told
   that the I/O is going on, and then of an error or of its success and of nothing else.
   */
  lemma ReadyServes(s: Sock, isRead: bool, outcome: Outcome)
    requires Inv(s) && Quiet(s, None) && s.connected && s.held > 0 && Queue(s, isRead) != []
    ensures var k := Queue(s, isRead)[0];
            k in s.ios && Served(s, Ready(s, isRead, outcome).0, isRead, k, Informed(s, isRead), outcome)
  {
    hide Inv, Stage, IoRelease, SetWant, Rearm, Advance, Chunk, Attempt, Notify, Bump, IoRef, Quiet, SameConnection, Informed, Served, Came, Adds,
         Follows;
    var k := Queue(s, isRead)[0];
    InformTry(s, isRead);
    StartKeeps(s, k);
    InformAdds(s, isRead);
    var t := Bump(IoRef(s, k), k);
    var (u, a) := Notify(t, k, t.ios[k].state);
    SamePass(s, u);
    if a == Abort {
      AbortedFollows(u, isRead, k);
      AbortServes(s, u, Ready(s, isRead, outcome).0, isRead, k, outcome);
    } else {
      AttemptComes(u, isRead, k, outcome);
      CameServes(s, u, Ready(s, isRead, outcome).0, isRead, k, a, outcome);
    }
  }

  lemma AbortServes(s: Sock, u: Sock, r: Sock, isRead: bool, k: nat, outcome: Outcome)
    requires k in s.ios && Adds(s, u, k, Going(s.ios[k], Abort)) && Follows(u, r, k)
    ensures Served(s, r, isRead, k, Abort, outcome)
  {
    hide Heard, Settles;
  }

  lemma CameServes(s: Sock, u: Sock, r: Sock, isRead: bool, k: nat, a: Action, outcome: Outcome)
    requires k in s.ios && Adds(s, u, k, Going(s.ios[k], a)) && a != Abort && k in u.ios && Came(u, r, isRead, k, outcome)
    ensures Served(s, r, isRead, k, a, outcome)
  {
    hide Heard, Settles;
  }

  /** Whether writing goes on after a try to read. */
  predicate Succeeds(io: Io, a: Action, outcome: Outcome) {
    a == Abort || outcome.WouldBlock? || Amount(io, a, outcome) > 0
  }

  /** A try fails, or finds that there is no connection, exactly by what the kernel answers. */
  lemma ReadySucceeds(s: Sock, isRead: bool, outcome: Outcome)
    requires Inv(s) && Quiet(s, None) && s.connected && s.held > 0 && Queue(s, isRead) != []
    ensures var k := Queue(s, isRead)[0];
            && k in s.ios
            && (Ready(s, isRead, outcome).1 <==> Succeeds(s.ios[k], Informed(s, isRead), outcome))
            && (LostAt(s, isRead, outcome).Some? <==>
                  Informed(s, isRead) != Abort && outcome.Moved? && Amount(s.ios[k], Informed(s, isRead), outcome) == 0)
  {
    hide Inv, Stage, IoRelease, SetWant, Rearm, Advance, Chunk, Attempt, Notify, Bump, IoRef, Quiet, SameConnection, Adds, Room, Disconnected, Report,
         Transfer;
    var k := Queue(s, isRead)[0];
    InformTry(s, isRead);
    StartKeeps(s, k);
    InformAdds(s, isRead);
    var t := Bump(IoRef(s, k), k);
    var (u, a) := Notify(t, k, t.ios[k].state);
    AddsRoom(s, u, k, Going(s.ios[k], a));
    if a != Abort {
      TryingSize(u, isRead, k);
      AttemptFlag(u, isRead, k, outcome);
      if outcome.Moved? {
        NothingMoves(u.ios[k], outcome.bytes);
      }
    }
  }

  lemma AddsRoom(s: Sock, u: Sock, k: nat, note: Note)
    requires Adds(s, u, k, note)
    ensures Room(u.ios[k]) == Room(s.ios[k])
  {
  }

  lemma AttemptFlag(s: Sock, isRead: bool, k: nat, outcome: Outcome)
    requires k in s.ios
    ensures Attempt(s, isRead, k, outcome).1 <==> outcome.WouldBlock? || (outcome.Moved? && Chunk(s.ios[k], outcome.bytes) != [])
  {
    hide IoRelease, SetWant, Rearm, Advance, Chunk, Disconnected, Report;
  }

  // ----- interest after a try ---------------------------------------------------------------

  /** Nobody is watched for in vain: interest is off when nothing is queued. */
  predicate Rests(s: Sock, isRead: bool) {
    Queue(s, isRead) == [] ==> !Want(s, isRead)
  }

  lemma RearmRests(s: Sock, isRead: bool)
    requires s.connected
    ensures Rests(Rearm(s, isRead), isRead)
  {
  }

  /** The end of a callback: what the client queues when it hears that a descriptor is finished is watched for. */
  lemma LetGoRests(s: Sock, isRead: bool, k: nat)
    requires Busy(s, k) && AtRest(s.ios[k], InQueue(s, k)) && s.connected && Rests(s, isRead)
    ensures Rests(IoRelease(s, k), isRead)
  {
    hide Inv, AtRest, IoRelease, Quiet, InQueue;
    Orphans.IoReleaseJoins(s, k, isRead);
    JoinedRests(s, IoRelease(s, k), isRead);
  }

  lemma JoinedRests(s: Sock, r: Sock, isRead: bool)
    requires Orphans.Joined(s, r, isRead) && Rests(s, isRead)
    ensures Rests(r, isRead)
  {
  }

  lemma EndRests(s: Sock, isRead: bool, k: nat)
    requires Leaving(s, k) && s.connected
    ensures Rests(IoRelease(Rearm(s, isRead), k), isRead)
  {
    hide Leaving, Rearm, IoRelease, Inv, Busy, AtRest, InQueue, Rests;
    RearmOk(s, isRead, k);
    RearmRests(s, isRead);
    var t := Rearm(s, isRead);
    LeavingAtRest(t, k);
    LeavingBusy(t, k);
    LetGoRests(t, isRead, k);
  }

  lemma LeavesRests(s: Sock, isRead: bool, k: nat)
    requires Busy(s, k) && Queue(s, isRead) != [] && Queue(s, isRead)[0] == k && !Active(Stage(s.ios[k])) && s.connected
    ensures Rests(IoRelease(Rearm(Advance(s, isRead), isRead), k), isRead)
  {
    hide Rearm, Advance, IoRelease, Inv, Quiet, SameConnection, Stage, Rests;
    AdvanceOk(s, isRead, k);
    var t := Advance(s, isRead);
    SamePass(s, t);
    RefOnly(s, t, k);
    EndRests(t, isRead, k);
  }

  /** The head of the queue stays. */
  lemma StaysRests(s: Sock, isRead: bool, k: nat)
    requires Trying(s, isRead, k) && s.connected
    ensures Rests(IoRelease(SetWant(s, isRead, true), k), isRead) && Rests(IoRelease(Rearm(s, isRead), k), isRead)
    ensures Rests(IoRelease(s, k), isRead)
  {
    hide Inv, Stage, IoRelease, AtRest, Quiet;
    WantOk(s, isRead, true);
    var t := SetWant(s, isRead, true);
    assert Rearm(s, isRead) == t;
    WantQuiet(s, isRead, k);
    assert Trying(t, isRead, k);
    TryingAtRest(t, isRead, k);
    TryingAtRest(s, isRead, k);
    LetGoRests(t, isRead, k);
    LetGoRests(s, isRead, k);
  }

  lemma ErredRests(s: Sock, isRead: bool, k: nat)
    requires Trying(s, isRead, k) && s.connected
    ensures var (t, a) := Report(s, k, Failed);
            Rests(IoRelease(if a != Retry then Rearm(Advance(t, isRead), isRead) else t, k), isRead)
  {
    hide Inv, Local, Fits, Report, SameConnection, Stage, Grows, Advance, Rearm, IoRelease, Quiet, Rests;
    FailedFits(s.ios[k]);
    ReportOk(s, k, Failed);
    var (t, a) := Report(s, k, Failed);
    ReportedHead(s, t, isRead, k, Failed, a);
    SamePass(s, t);
    if a != Retry {
      LeavesRests(t, isRead, k);
    } else {
      StaysRests(t, isRead, k);
    }
  }

  lemma CompletedRests(s: Sock, isRead: bool, k: nat)
    requires Busy(s, k) && Queue(s, isRead) != [] && Queue(s, isRead)[0] == k && s.connected
    requires Stage(s.ios[k]) == Running && s.ios[k].transferred == |s.ios[k].buffer| && s.ios[k].accepted
    ensures Rests(IoRelease(Rearm(Report(Advance(s, isRead), k, Succeeded).0, isRead), k), isRead)
  {
    hide Inv, Local, Fits, Report, SameConnection, Stage, Grows, Advance, Rearm, IoRelease, Quiet, Rests;
    AdvanceOk(s, isRead, k);
    var t := Advance(s, isRead);
    RefOnly(s, t, k);
    SucceededFits(t.ios[k]);
    ReportOk(t, k, Succeeded);
    var (u, a) := Report(t, k, Succeeded);
    ReportedHead(t, u, isRead, k, Succeeded, a);
    SamePass(s, t);
    SamePass(t, u);
    EndRests(u, isRead, k);
  }

  lemma AttemptRests(s: Sock, isRead: bool, k: nat, outcome: Outcome)
    requires Trying(s, isRead, k) && s.connected && s.held > 0
    requires outcome.Moved? ==> Chunk(s.ios[k], outcome.bytes) != []
    ensures Rests(Attempt(s, isRead, k, outcome).0, isRead)
  {
    hide Inv, Stage, IoRelease, SetWant, Report, Rearm, Advance, Disconnected, Transfer, Quiet, Chunk, Rests;
    match outcome
    case WouldBlock => StaysRests(s, isRead, k);
    case Error => ErredRests(s, isRead, k);
    case Moved(bytes) =>
      QueuedAre(s, isRead);
      Transferred(s, isRead, k, bytes);
      var t := Transfer(s, isRead, k, Chunk(s.ios[k], bytes));
      if t.ios[k].transferred == |t.ios[k].buffer| {
        CompletedRests(t, isRead, k);
      } else {
        StaysRests(t, isRead, k);
      }
  }

  /** After a try that finds the connection alive, interest is on only if something is queued. */
  lemma ReadyRests(s: Sock, isRead: bool, outcome: Outcome)
    requires Inv(s) && Quiet(s, None) && s.connected && s.held > 0
    ensures LostAt(s, isRead, outcome).None? ==> Rests(Ready(s, isRead, outcome).0, isRead)
  {
    hide Inv, Stage, IoRelease, Rearm, Advance, Chunk, Attempt, Notify, Bump, IoRef, Quiet, SameConnection, Rests;
    if Queue(s, isRead) == [] {
      IdleRests(s, isRead);
    } else {
      var k := Queue(s, isRead)[0];
      InformTry(s, isRead);
      StartKeeps(s, k);
      var t := Bump(IoRef(s, k), k);
      var (u, a) := Notify(t, k, t.ios[k].state);
      SamePass(s, u);
      if a == Abort {
        EndedSettled(u.ios[k]);
        LeavesRests(u, isRead, k);
      } else if LostAt(s, isRead, outcome).None? {
        AttemptRests(u, isRead, k, outcome);
      }
    }
  }

  lemma EndedSettled(io: Io)
    ensures Stage(io) == Ended ==> !Active(Stage(io))
  {
    hide Stage;
  }

  lemma IdleRests(s: Sock, isRead: bool)
    requires s.connected
    ensures Rests(SetWant(s, isRead, false), isRead)
  {
  }

  // ----- time-outs and new descriptors ------------------------------------------------------

  /** A descriptor whose timer expires is told so, with its progress; nothing else of it changes. */
  lemma TimedOutTells(s: Sock, k: nat)
    requires Idle(s) && k in s.ios && s.ios[k].live && s.ios[k].timerOn
    ensures Reported(s, IoTimedOut(s, k), k, TimedOut)
  {
    hide Inv, Stage, Notify, IoRef, StopIoTimer, RemoveIo, IoRelease, Quiet, AtRest, SameConnection, Fits, Grows, Reported, Adds, Follows, Remains,
         Evolves, InQueue;
    StartTimeOut(s, k);
    var t := IoRef(StopIoTimer(s, k), k);
    NotifyOk(t, k, TimedOut);
    InformTimeOut(s, k);
    var (u, a) := Notify(t, k, TimedOut);
    NoFault(s);
    StartSame(s, k);
    TimedOutAdds(s, t, u, k, a);
    if a != Retry {
      RemoveOk(u, k);
      RemoveRemains(u, k);
      var v := RemoveIo(u, u.ios[k].isRead, k);
      AddsRemains(s, u, v, k, Note(TimedOut, a, s.ios[k].transferred));
      LeavingAtRest(v, k);
      LeavingBusy(v, k);
      LetGoFollows(v, k);
      ReportedIs(s, v, IoRelease(v, k), k, TimedOut, a);
    } else {
      if !InQueue(u, k) {
        LeavingAtRest(u, k);
      }
      LetGoFollows(u, k);
      ReportedIs(s, u, IoRelease(u, k), k, TimedOut, a);
    }
  }

  lemma TimedOutAdds(s: Sock, t: Sock, u: Sock, k: nat, a: Action)
    requires k in s.ios && k in t.ios && t.ios[k] == s.ios[k].(refCount := t.ios[k].refCount, held := t.ios[k].held, timerOn := false)
    requires SameConnection(s, t) && Notified(t, u, k, TimedOut, a)
    ensures Adds(s, u, k, Note(TimedOut, a, s.ios[k].transferred)) && !u.ios[k].timerOn
  {
    hide Grows, Stage;
  }

  lemma RemoveRemains(s: Sock, k: nat)
    requires Busy(s, k)
    ensures Remains(s, RemoveIo(s, s.ios[k].isRead, k), k)
  {
    hide Inv, Unlink, IoRelease, Quiet, SameConnection, Position, InQueue;
    var isRead := s.ios[k].isRead;
    PositionFinds(Queue(s, isRead), k);
    var i := Position(Queue(s, isRead), k);
    if i < |Queue(s, isRead)| {
      DetachOk(s, isRead, i, k);
      SameMoves(s, IoRelease(Unlink(s, isRead, i), k));
    }
  }

  lemma StartSame(s: Sock, k: nat)
    requires k in s.ios && s.ios[k].refCount > 0 && !s.fault
    ensures SameConnection(s, IoRef(StopIoTimer(s, k), k))
  {
  }

  /**
   A new I/O waits behind the others of its queue, with its buffer and a running timer, and has heard
   nothing; without a connection it is refused, and hears that it failed and that it is finished.
   */
  lemma EnqueueTells(s: Sock, isRead: bool, buffer: seq<Byte>, who: Option<nat>)
    requires Inv(s) && Anchored(s, who)
    ensures var k := s.next;
            var r := Enqueue(s, isRead, buffer);
            && k !in s.ios && k in r.ios && SameBytes(s, r)
            && r.ios[k].isRead == isRead && r.ios[k].buffer == buffer && r.ios[k].transferred == 0
            && (s.connected ==> r.ios[k].notes == [] && r.ios[k].timerOn && r.ios[k].live && Want(r, isRead) && QueueIs(r, isRead, Queue(s, isRead) + [k]))
            && (!s.connected ==> HeardLast([], Failed, 0, r.ios[k]) && !InQueue(r, k))
  {
    hide Inv, Increasing, Notify, IoRelease, Append, SetWant, Fits, Local, Stage, Released, Notified, Anchored, AtRest, InQueue;
    var t, k := RwNew(s, isRead, buffer), s.next;
    AnchorHolds(s, who);
    NoFault(s);
    RwNewOk(s, isRead, buffer);
    AboutNext(s);
    EnqueueIs(s, isRead, buffer);
    hide Enqueue;
    if s.connected {
      AppendedIs(s, isRead, buffer);
    } else {
      NewFits(s, isRead, buffer);
      NotifyOk(t, k, Failed);
      var (u, a) := Notify(t, k, Failed);
      Refused(t, u, k, a);
      IoReleaseOk(u, k);
      NewBytes(s, isRead, buffer);
      RefusedTold(t, u, IoRelease(u, k), k, a);
      EnqueueOk(s, isRead, buffer, who);
      AboutRefused(Enqueue(s, isRead, buffer), k);
    }
  }

  predicate QueueIs(s: Sock, isRead: bool, q: seq<nat>) {
    Queue(s, isRead) == q
  }

  lemma AppendedIs(s: Sock, isRead: bool, buffer: seq<Byte>)
    requires s.connected
    ensures var k, r := s.next, SetWant(Append(RwNew(s, isRead, buffer), isRead, s.next), isRead, true);
            && k in r.ios && SameBytes(s, r) && r.ios[k].isRead == isRead && r.ios[k].buffer == buffer && r.ios[k].transferred == 0
            && r.ios[k].notes == [] && r.ios[k].timerOn && r.ios[k].live && Want(r, isRead) && QueueIs(r, isRead, Queue(s, isRead) + [k])
  {
  }

  lemma NewBytes(s: Sock, isRead: bool, buffer: seq<Byte>)
    ensures var t := RwNew(s, isRead, buffer);
            && SameBytes(s, t) && s.next in t.ios && t.ios[s.next].buffer == buffer && t.ios[s.next].isRead == isRead
            && t.ios[s.next].notes == [] && t.ios[s.next].transferred == 0 && !t.ios[s.next].accepted
  {
  }

  lemma RefusedTold(t: Sock, u: Sock, r: Sock, k: nat, a: Action)
    requires Notified(t, u, k, Failed, a) && Released(u, r, k) && k in t.ios && t.ios[k].notes == [] && t.ios[k].transferred == 0
    requires !t.ios[k].accepted
    ensures k in r.ios && !r.ios[k].accepted && SameBytes(t, r) && HeardLast([], Failed, 0, r.ios[k])
    ensures r.ios[k].isRead == t.ios[k].isRead && r.ios[k].buffer == t.ios[k].buffer && r.ios[k].transferred == 0
  {
    hide Grows, Stage, Heard;
    assert [] + [Note(Failed, a, 0)] == [Note(Failed, a, 0)];
  }

  /** Nothing is put in a queue when an I/O is refused. */
  lemma AboutRefused(r: Sock, k: nat)
    requires Inv(r) && k in r.ios && !r.ios[k].accepted
    ensures !InQueue(r, k)
  {
    About(r, k);
  }

  // ----- one event -------------------------------------------------------------------------

  /** The bytes that a try moves, if there is one, by the answers of the client and of the kernel. */
  function Traffic(s: Sock, isRead: bool, outcome: Option<Outcome>): seq<Byte> {
    var q := Queue(s, isRead);
    if outcome.None? || q == [] || q[0] !in s.ios || !outcome.value.Moved? then []
    else
      var io := s.ios[q[0]];
      Carried(io, isRead, outcome.value.bytes, Amount(io, Informed(s, isRead), outcome.value))
  }

  /** Reading, if it was tried, did not fail. */
  predicate MayWrite(s: Sock, readable: Option<Outcome>) {
    var q := Queue(s, true);
    readable.None? || q == [] || (q[0] in s.ios && Succeeds(s.ios[q[0]], Informed(s, true), readable.value))
  }

  function AfterRead(s: Sock, readable: Option<Outcome>): Sock {
    if readable.Some? then Ready(s, true, readable.value).0 else s
  }

  /** The bytes that an event moves in one direction: reading comes first, writing if it did not fail. */
  function Gain(s: Sock, e: Event, isRead: bool): seq<Byte> {
    var t := SockRef(s);
    if !e.LoopIo? then []
    else if isRead then Traffic(t, true, e.readable)
    else if MayWrite(t, e.readable) then Traffic(AfterRead(t, e.readable), false, e.writable)
    else []
  }

  lemma ReadyMoves(s: Sock, isRead: bool, outcome: Outcome)
    requires Inv(s) && Quiet(s, None) && s.connected && s.held > 0
    ensures var (r, ok) := Ready(s, isRead, outcome);
            && Moves(r, isRead) == Moves(s, isRead) + Traffic(s, isRead, Some(outcome)) && Moves(r, !isRead) == Moves(s, !isRead)
            && (ok <==> Queue(s, isRead) == [] ||
                        (Queue(s, isRead)[0] in s.ios && Succeeds(s.ios[Queue(s, isRead)[0]], Informed(s, isRead), outcome)))
  {
    hide Inv, Quiet, Ready, Informed, Learns, Stored, Succeeds;
    if Queue(s, isRead) == [] {
      ReadyIdle(s, isRead, outcome);
    } else {
      ReadyServes(s, isRead, outcome);
      ReadySucceeds(s, isRead, outcome);
    }
  }

  lemma ReadyIdle(s: Sock, isRead: bool, outcome: Outcome)
    requires Queue(s, isRead) == []
    ensures Ready(s, isRead, outcome) == (SetWant(s, isRead, false), true) && SameBytes(s, SetWant(s, isRead, false))
  {
  }

  lemma LoopMoves(s: Sock, readable: Option<Outcome>, writable: Option<Outcome>, isRead: bool)
    requires Idle(s) && s.connected
    ensures Moves(LooperIo(s, readable, writable), isRead) == Moves(s, isRead) + Gain(s, LoopIo(readable, writable), isRead)
  {
    hide Inv, Quiet, Ready, LostAt, SockRelease, SockRef, Informed, Succeeds, Traffic, SameLink, Severed;
    Referenced(s);
    SockRefOk(s);
    var t := SockRef(s);
    var u := AfterRead(t, readable);
    RefMoves(s);
    if readable.Some? {
      ReadyOk(t, true, readable.value);
      ReadyMoves(t, true, readable.value);
    } else {
      TrafficNone(t, true);
    }
    var v := if MayWrite(t, readable) && writable.Some? then Ready(u, false, writable.value).0 else u;
    if MayWrite(t, readable) && writable.Some? {
      StillConnected(t, readable);
      ReadyOk(u, false, writable.value);
      ReadyMoves(u, false, writable.value);
    } else {
      TrafficNone(u, false);
    }
    SockReleaseOk(v);
    DoneMoves(v);
  }

  lemma RefMoves(s: Sock)
    ensures SameBytes(s, SockRef(s)) && SockRef(s).connected == s.connected
  {
  }

  lemma TrafficNone(s: Sock, isRead: bool)
    ensures Traffic(s, isRead, None) == []
  {
  }

  lemma StillConnected(t: Sock, readable: Option<Outcome>)
    requires Inv(t) && Quiet(t, None) && t.connected && t.held > 0 && MayWrite(t, readable)
    ensures AfterRead(t, readable).connected
  {
    hide Inv, Quiet, Ready, Informed, Succeeds, Severed;
    if readable.Some? {
      ReadyOk(t, true, readable.value);
      ReadyMoves(t, true, readable.value);
    }
  }

  lemma DoneMoves(s: Sock)
    requires SockReleased(s, SockRelease(s))
    ensures SameBytes(s, SockRelease(s)) && SockRelease(s).attempts == s.attempts
    ensures SockRelease(s).freed || (SockRelease(s).connected == s.connected && SockRelease(s).reconnect == s.reconnect)
  {
    hide SockRelease;
  }

  // ----- the line: connection, timer, attempts and bytes -----------------------------------

  /** The client is content with a connection that was made. */
  predicate Opens(s: Sock, e: Event) {
    e == Connector(Succeeded) && ConnectorEvent(s, Succeeded).1 == Done
  }

  /** The connection is given up, or found to be lost. */
  predicate Cuts(s: Sock, e: Event) {
    e.CallDisconnect? || e.CallReconnect? || (e.LoopIo? && Loses(s, e.readable, e.writable).Some?)
  }

  /** The client asks for another connection after some time, also when it hears that the last one is lost. */
  predicate Restarts(s: Sock, e: Event) {
    e.CallReconnect? || (e.LoopIo? && match Loses(s, e.readable, e.writable) case Some(u) => Client(Disconnect(u)).1 == Retry case None => false)
  }

  /** What happens to the line besides. */
  predicate Lined(s: Sock, e: Event, r: Sock) {
    && (r.connected <==> !r.freed && (Opens(s, e) || (s.connected && !Cuts(s, e))))
    && (r.reconnect <==> !r.freed && (Restarts(s, e) || (s.reconnect && !Cuts(s, e) && !e.LoopReconnect?)))
    && r.attempts == s.attempts + (if e.CallConnect? || e.LoopReconnect? then 1 else 0)
                     - (if e.Connector? && ConnectorEvent(s, e.event).1 != Retry then 1 else 0)
    && forall isRead :: Moves(r, isRead) == if e == Connector(Succeeded) then [] else Moves(s, isRead) + Gain(s, e, isRead)
  }

  /** Nothing happens to it, but that the socket may be destroyed. */
  predicate SameLine(s: Sock, r: Sock) {
    && SameBytes(s, r) && r.attempts == s.attempts
    && (r.connected <==> s.connected && !r.freed) && (r.reconnect <==> s.reconnect && !r.freed)
  }

  lemma LineOf(s: Sock, r: Sock)
    requires Inv(r) && SameBytes(s, r) && r.attempts == s.attempts
    requires r.freed || (r.connected == s.connected && r.reconnect == s.reconnect)
    ensures SameLine(s, r)
  {
    hide Inv;
    if r.freed {
      FreedClients(r);
    }
  }

  lemma QuietLine(s: Sock, e: Event, r: Sock)
    requires SameLine(s, r)
    requires e.CallQueue? || e.CallKeep? || e.CallDrop? || e.CallKeepIo? || e.CallDropIo? || e.LoopTimer?
    ensures Lined(s, e, r)
  {
  }

  lemma CallQueueLine(s: Sock, isRead: bool, buffer: seq<Byte>)
    requires Idle(s) && s.clientRefs > 0
    ensures var r := Step(s, CallQueue(isRead, buffer)); SameConnection(s, r)
  {
    hide Inv, Lend, Return, Enqueue, Stable, SameConnection, Evolves, Anchored, Grows, Quiet;
    LendOk(s);
    EnqueueOk(Lend(s), isRead, buffer, None);
    LendSame(s);
    var t := Enqueue(Lend(s), isRead, buffer);
    ReturnSame(t);
    SameTrans(s, Lend(s), t);
    SameTrans(s, t, Return(t));
  }

  lemma LendSame(s: Sock)
    ensures SameConnection(s, Lend(s))
  {
  }

  lemma ReturnSame(s: Sock)
    ensures SameConnection(s, Return(s))
  {
  }

  /** What went on was part of a call or callback that ended by dropping a reference to the socket. */
  predicate Dropped(s: Sock, r: Sock) {
    && SameBytes(s, r) && r.attempts == s.attempts
    && (r.freed || (r.connected == s.connected && r.reconnect == s.reconnect))
  }

  lemma DroppedAfter(s: Sock, t: Sock, r: Sock)
    requires SameConnection(s, t) && Dropped(t, r)
    ensures Dropped(s, r)
  {
  }

  lemma ReleasedDropped(s: Sock, r: Sock, k: nat)
    requires Released(s, r, k)
    ensures Dropped(s, r)
  {
    hide Grows, Heard;
  }

  lemma CallDropLine(s: Sock)
    requires Idle(s) && s.clientRefs > 0
    ensures Dropped(s, Step(s, CallDrop))
  {
    hide Inv, Lend, SockRelease, SameConnection, Quiet, SockReleased, Step;
    LendOk(s);
    LendSame(s);
    DropIsLent(s);
    SockReleaseOk(Lend(s));
    DoneMoves(Lend(s));
    DroppedAfter(s, Lend(s), SockRelease(Lend(s)));
  }

  lemma CallDropIoLine(s: Sock, k: nat)
    requires Idle(s) && At(s, k).live && At(s, k).clientRefs > 0
    ensures Dropped(s, ReleaseIo(s, k))
  {
    hide Inv, AtRest, IoRelease, Lent, InQueue, SameConnection, Grows, Released, Dropped, Quiet;
    LentIo(s, k);
    LentShape(s, k);
    IoReleaseOk(Lent(s, k), k);
    ReleasedDropped(Lent(s, k), IoRelease(Lent(s, k), k), k);
    DroppedAfter(s, Lent(s, k), IoRelease(Lent(s, k), k));
  }

  lemma RemoveSame(s: Sock, k: nat)
    requires Busy(s, k)
    ensures SameConnection(s, RemoveIo(s, s.ios[k].isRead, k))
  {
    hide Inv, Unlink, IoRelease, Quiet, SameConnection, Position;
    var isRead := s.ios[k].isRead;
    PositionFinds(Queue(s, isRead), k);
    var i := Position(Queue(s, isRead), k);
    if i < |Queue(s, isRead)| {
      DetachOk(s, isRead, i, k);
    } else {
      SameRefl(s, s);
    }
  }

  lemma TimerLine(s: Sock, k: nat)
    requires Idle(s) && k in s.ios && s.ios[k].live && s.ios[k].timerOn
    ensures Dropped(s, IoTimedOut(s, k))
  {
    hide Inv, Stage, Notify, IoRef, StopIoTimer, RemoveIo, IoRelease, Quiet, AtRest, SameConnection, Fits, Grows, Released, Dropped, Evolves;
    StartTimeOut(s, k);
    NoFault(s);
    StartSame(s, k);
    var t := IoRef(StopIoTimer(s, k), k);
    NotifyOk(t, k, TimedOut);
    InformTimeOut(s, k);
    var (u, a) := Notify(t, k, TimedOut);
    SameTrans(s, t, u);
    if a != Retry {
      RemoveOk(u, k);
      RemoveSame(u, k);
      var v := RemoveIo(u, u.ios[k].isRead, k);
      SameTrans(s, u, v);
      LeavingAtRest(v, k);
      IoReleaseOk(v, k);
      ReleasedDropped(v, IoRelease(v, k), k);
      DroppedAfter(s, v, IoRelease(v, k));
    } else {
      if !InQueue(u, k) {
        LeavingAtRest(u, k);
      }
      IoReleaseOk(u, k);
      ReleasedDropped(u, IoRelease(u, k), k);
      DroppedAfter(s, u, IoRelease(u, k));
    }
  }

  lemma DisconnectLine(s: Sock)
    requires Idle(s) && s.clientRefs > 0
    ensures var r := Return(Disconnect(Lend(s))); !r.connected && !r.reconnect && SameBytes(s, r) && r.attempts == s.attempts
    ensures var r := Return(Reconnect(Lend(s))); !r.connected && r.reconnect && SameBytes(s, r) && r.attempts == s.attempts
  {
    hide Inv, CancelAll, Stable, Evolves, Over, Quiet, Anchored;
    LendOk(s);
    CancelQuiet(Lend(s), None);
    CancelClose(Lend(s), None);
    CancelQuiet(Disconnect(Lend(s)), None);
  }

  lemma ReconnectLine(s: Sock)
    requires Idle(s) && s.reconnect
    ensures var r := OnReconnect(s);
            && SameBytes(s, r) && r.attempts == s.attempts + 1
            && (r.freed || (r.connected == s.connected && !r.reconnect))
  {
    hide Inv, SockRelease, Quiet, SockReleased;
    TimerReferenced(s);
    ReconnectStops(s);
    var t := s.(reconnect := false);
    SockRefOk(t);
    AttemptsOk(SockRef(t), SockRef(t).attempts + 1);
    SockReleaseOk(Attempted(SockRef(t)));
    DoneMoves(Attempted(SockRef(t)));
  }

  lemma ReportLine(s: Sock, event: State)
    requires Idle(s) && s.refCount > 0 && (event == Succeeded ==> !s.connected)
    requires s.attempts > 0
    ensures var (r, a) := ConnectorEvent(s, event);
            && r.attempts == s.attempts - (if a != Retry then 1 else 0)
            && (forall isRead :: Moves(r, isRead) == if event == Succeeded then [] else Moves(s, isRead))
            && (r.freed || (r.reconnect == s.reconnect && (r.connected <==> if event == Succeeded then a == Done else s.connected)))
  {
    hide Inv, Client, SockRelease, SameConnection, Called, Stable, SockReleased;
    SockRefOk(s);
    var t := if event == Succeeded then Accept(SockRef(s)) else SockRef(s);
    if event == Succeeded {
      AcceptOk(SockRef(s));
    }
    ClientQuiet(t, None);
    var (u, a) := Client(t);
    ReportedSame(t, u);
    if event == Succeeded {
      DiscardOk(SockRef(s), u);
    }
    var v := if event == Succeeded && a != Done then Close(u) else u;
    var w := if a != Retry then Forgotten(v) else v;
    ForgottenOk(v);
    SockReleaseOk(w);
    DoneMoves(w);
  }

  lemma ReportedSame(s: Sock, r: Sock)
    requires SameConnection(s, r)
    ensures SameBytes(s, r) && r.connected == s.connected && r.reconnect == s.reconnect && r.attempts == s.attempts
  {
  }

  lemma LoopLine(s: Sock, readable: Option<Outcome>, writable: Option<Outcome>)
    requires Idle(s) && s.connected
    ensures var r := LooperIo(s, readable, writable);
            && r.attempts == s.attempts
            && match Loses(s, readable, writable)
               case None => r.freed || (r.connected && r.reconnect == s.reconnect)
               case Some(u) => !r.connected && (r.freed || (r.reconnect <==> Client(Disconnect(u)).1 == Retry))
  {
    hide Inv, Quiet, Ready, LostAt, SockRelease, SockRef, Client, Disconnect;
    Referenced(s);
    SockRefOk(s);
    var t := SockRef(s);
    var (u, ok) := if readable.Some? then Ready(t, true, readable.value) else (t, true);
    if readable.Some? {
      ReadyOk(t, true, readable.value);
    }
    if ok && writable.Some? {
      ReadyOk(u, false, writable.value);
    }
    var v := if ok && writable.Some? then Ready(u, false, writable.value).0 else u;
    SockReleaseOk(v);
    DoneMoves(v);
    FreedClosed(SockRelease(v));
  }

  lemma FreedClosed(s: Sock)
    requires Inv(s)
    ensures s.freed ==> !s.connected
  {
    hide Inv;
    if s.freed {
      FreedClients(s);
    }
  }

  /**
   Whether there is a connection, whether the reconnection timer runs, how many connectors are to report
   and which bytes went over the connection, after every event and for every client and every network.
   */
  lemma StepLine(s: Sock, e: Event)
    requires Idle(s) && Enabled(s, e) && !Strikes(s, e)
    ensures Lined(s, e, Step(s, e))
  {
    hide Inv, Quiet, Enqueue, Lend, Return, Disconnect, Reconnect, KeepSock, DropSock, Keep, ReleaseIo, LooperIo, IoTimedOut,
         ConnectorEvent, Loses, OnReconnect, SockRelease, SockRef, SameConnection, Lined, SameLine, Client, Called, Gain;
    StepOk(s, e);
    var r := Step(s, e);
    match e
    case CallQueue(isRead, buffer) => CallQueueLine(s, isRead, buffer); SameDropped(s, r); QuietLined(s, e, r);
    case CallKeep => KeepSame(s); SameDropped(s, r); QuietLined(s, e, r);
    case CallDrop => CallDropLine(s); QuietLined(s, e, r);
    case CallKeepIo(k) => KeepOk(s, k); CalledDropped(s, r); QuietLined(s, e, r);
    case CallDropIo(k) => CallDropIoLine(s, k); QuietLined(s, e, r);
    case LoopTimer(k) => TimerLine(s, k); QuietLined(s, e, r);
    case CallConnect => ConnectLined(s);
    case CallDisconnect => DisconnectLine(s); CutLined(s, e, r);
    case CallReconnect => DisconnectLine(s); CutLined(s, e, r);
    case LoopIo(readable, writable) => LoopLined(s, readable, writable);
    case LoopReconnect => ReconnectLine(s); ReconnectLined(s, r);
    case Connector(event) => ReportLined(s, event);
  }

  lemma KeepSame(s: Sock)
    ensures SameConnection(s, KeepSock(s))
  {
  }

  lemma SameDropped(s: Sock, r: Sock)
    requires SameConnection(s, r)
    ensures Dropped(s, r)
  {
  }

  lemma CalledDropped(s: Sock, r: Sock)
    requires Called(s, r)
    ensures Dropped(s, r)
  {
    hide Grows;
  }

  lemma QuietLined(s: Sock, e: Event, r: Sock)
    requires Inv(r) && Dropped(s, r)
    requires e.CallQueue? || e.CallKeep? || e.CallDrop? || e.CallKeepIo? || e.CallDropIo? || e.LoopTimer?
    ensures Lined(s, e, r)
  {
    hide Inv, Lined;
    LineOf(s, r);
    QuietLine(s, e, r);
  }

  lemma ConnectLined(s: Sock)
    requires Inv(s)
    ensures Lined(s, CallConnect, Attempted(s))
  {
    hide Inv;
    FreedClosed(s);
    if s.freed {
      FreedClients(s);
    }
  }

  lemma CutLined(s: Sock, e: Event, r: Sock)
    requires e.CallDisconnect? || e.CallReconnect?
    requires Inv(r) && !r.connected && r.reconnect == e.CallReconnect? && SameBytes(s, r) && r.attempts == s.attempts
    ensures Lined(s, e, r)
  {
    hide Inv;
    if r.freed {
      FreedClients(r);
    }
  }

  lemma ReconnectLined(s: Sock, r: Sock)
    requires Inv(r) && SameBytes(s, r) && r.attempts == s.attempts + 1
    requires r.freed || (r.connected == s.connected && !r.reconnect)
    ensures Lined(s, LoopReconnect, r)
  {
    hide Inv;
    if r.freed {
      FreedClients(r);
    }
  }

  lemma LoopLined(s: Sock, readable: Option<Outcome>, writable: Option<Outcome>)
    requires Idle(s) && s.connected && Inv(LooperIo(s, readable, writable))
    ensures Lined(s, LoopIo(readable, writable), LooperIo(s, readable, writable))
  {
    hide Inv, Quiet, LooperIo, Loses, Client, Disconnect, Gain;
    LoopLine(s, readable, writable);
    LoopMoves(s, readable, writable, true);
    LoopMoves(s, readable, writable, false);
    var r := LooperIo(s, readable, writable);
    if r.freed {
      FreedClients(r);
    }
  }

  lemma ReportLined(s: Sock, event: State)
    requires Idle(s) && Enabled(s, Connector(event)) && !s.freed
    requires Inv(ConnectorEvent(s, event).0)
    ensures Lined(s, Connector(event), ConnectorEvent(s, event).0)
  {
    hide Inv, Quiet, ConnectorEvent;
    FreedIs(s);
    ReportLine(s, event);
    var r := ConnectorEvent(s, event).0;
    if r.freed {
      FreedClients(r);
    }
  }

  // ----- whole runs ------------------------------------------------------------------------

  /** The event happens, and to a socket that is there. */
  predicate Acts(s: Sock, e: Event) {
    Enabled(s, e) && !s.fault && !s.freed
  }

  lemma NextLine(s: Sock, e: Event)
    requires Ordered(s)
    ensures if Acts(s, e) then Next(s, e) == Step(s, e) && Lined(s, e, Next(s, e)) && (Next(s, e).freed ==> !Next(s, e).connected && !Next(s, e).reconnect)
            else Next(s, e) == s || Next(s, e) == s.(fault := true)
  {
    hide Step, Enabled, Lined, Inv, Quiet;
    if Acts(s, e) {
      assert Sound(s) == s;
      StepLine(s, e);
      StepOk(s, e);
      if Step(s, e).freed {
        FreedClients(Step(s, e));
      }
    } else if s.freed {
      NextFreed(s, e);
    }
  }

  /** What the accepted outcomes since the connection was made delivered, one after the other. */
  function Inflow(s: Sock, es: seq<Event>, isRead: bool): seq<Byte>
    decreases |es|
  {
    if es == [] then []
    else
      var init, e := es[..|es| - 1], es[|es| - 1];
      if !Acts(Run(s, init), e) then Inflow(s, init, isRead)
      else if e == Connector(Succeeded) then []
      else Inflow(s, init, isRead) + Gain(Run(s, init), e, isRead)
  }

  /** How many connectors are to report: one for each attempt, until the client does not answer RETRY. */
  function Unanswered(s: Sock, es: seq<Event>): int
    decreases |es|
  {
    if es == [] then 0
    else
      var init, e := es[..|es| - 1], es[|es| - 1];
      if !Acts(Run(s, init), e) then Unanswered(s, init)
      else if e.CallConnect? || e.LoopReconnect? then Unanswered(s, init) + 1
      else if e.Connector? && ConnectorEvent(Run(s, init), e.event).1 != Retry then Unanswered(s, init) - 1
      else Unanswered(s, init)
  }

  lemma RunOrdered(tape: seq<Decision>, es: seq<Event>)
    ensures Ordered(Run(New(tape), es))
  {
    hide Ordered, Run;
    NewOk(tape);
    RunOk(New(tape), es);
  }

  lemma RunLast(s: Sock, es: seq<Event>)
    requires es != []
    ensures Run(s, es) == Next(Run(s, es[..|es| - 1]), es[|es| - 1])
  {
    hide Next;
  }

  /**
   In every run, and for every client and every network: the bytes that went over the connection are what
   the accepted outcomes of recv and send moved since it was made, and the attempts are counted.
   */
  lemma {:induction false} ConnectionMoves(tape: seq<Decision>, es: seq<Event>, isRead: bool)
    ensures var s := Run(New(tape), es);
            Moves(s, isRead) == Inflow(New(tape), es, isRead) && s.attempts == Unanswered(New(tape), es)
    decreases |es|
  {
    hide Run, Next, Acts, Gain, Ordered, ConnectorEvent;
    if es == [] {
      RunNone(New(tape), es);
      assert es[..0] == es;
    } else {
      var init := es[..|es| - 1];
      ConnectionMoves(tape, init, isRead);
      RunLast(New(tape), es);
      RunOrdered(tape, init);
      NextLine(Run(New(tape), init), es[|es| - 1]);
    }
  }

  /**
   No byte is lost, repeated or reordered between the kernel and the buffers: the transferred parts of the
   buffers queued on the connection, one after the other, are what the accepted outcomes delivered since it
   was made, or what they took; only the head of a queue has moved anything.
   */
  lemma BytesAreConserved(tape: seq<Decision>, es: seq<Event>, isRead: bool)
    ensures var s := Run(New(tape), es);
            && Flat(s.ios, Log(s, isRead)) == Inflow(New(tape), es, isRead)
            && Increasing(Log(s, isRead)) && (forall k | k in Queue(s, isRead) :: k in Log(s, isRead))
            && (forall k | k in s.ios :: s.ios[k].transferred <= |s.ios[k].buffer|)
            && (forall i | 0 < i < |Queue(s, isRead)| :: var k := Queue(s, isRead)[i];
                  k in s.ios && s.ios[k].transferred == 0 && s.ios[k].state == Queued)
  {
    hide Run, Flat, Inflow;
    SlicesAreMoved(tape, es, isRead);
    ConnectionMoves(tape, es, isRead);
  }

  /** Event `j` of a run does not cut the connection, nor stop the timer. */
  predicate Spares(tape: seq<Decision>, es: seq<Event>, j: nat)
    requires j < |es|
  {
    Acts(Run(New(tape), es[..j]), es[j]) ==> !Cuts(Run(New(tape), es[..j]), es[j])
  }

  predicate Waits(tape: seq<Decision>, es: seq<Event>, j: nat)
    requires j < |es|
  {
    Spares(tape, es, j) && (Acts(Run(New(tape), es[..j]), es[j]) ==> !es[j].LoopReconnect?)
  }

  /** Event `i` made the connection, or started the timer, and none since stopped it. */
  predicate LastOpened(tape: seq<Decision>, es: seq<Event>, i: nat) {
    && i < |es| && Acts(Run(New(tape), es[..i]), es[i]) && Opens(Run(New(tape), es[..i]), es[i])
    && forall j | i < j < |es| :: Spares(tape, es, j)
  }

  predicate LastRestarted(tape: seq<Decision>, es: seq<Event>, i: nat) {
    && i < |es| && Acts(Run(New(tape), es[..i]), es[i]) && Restarts(Run(New(tape), es[..i]), es[i])
    && forall j | i < j < |es| :: Waits(tape, es, j)
  }

  lemma SparesInit(tape: seq<Decision>, es: seq<Event>, j: nat)
    requires j < |es| - 1
    ensures var init := es[..|es| - 1]; Spares(tape, es, j) == Spares(tape, init, j) && Waits(tape, es, j) == Waits(tape, init, j)
  {
    assert es[..|es| - 1][..j] == es[..j];
    hide Run, Acts, Cuts;
  }

  lemma InitIs(es: seq<Event>, i: nat)
    requires i < |es| - 1
    ensures es[..|es| - 1][..i] == es[..i] && es[..|es| - 1][i] == es[i]
  {
  }

  lemma SparesLast(tape: seq<Decision>, es: seq<Event>)
    requires es != []
    ensures var s, e := Run(New(tape), es[..|es| - 1]), es[|es| - 1];
            && (Spares(tape, es, |es| - 1) <==> (Acts(s, e) ==> !Cuts(s, e)))
            && (Waits(tape, es, |es| - 1) <==> (Acts(s, e) ==> !Cuts(s, e) && !e.LoopReconnect?))
  {
    hide Run, Acts, Cuts;
  }

  lemma OpenedMore(tape: seq<Decision>, es: seq<Event>, i: nat)
    requires es != [] && i < |es| - 1
    ensures var init := es[..|es| - 1];
            var s, e := Run(New(tape), init), es[|es| - 1];
            && (LastOpened(tape, es, i) <==> LastOpened(tape, init, i) && (Acts(s, e) ==> !Cuts(s, e)))
            && (LastRestarted(tape, es, i) <==> LastRestarted(tape, init, i) && (Acts(s, e) ==> !Cuts(s, e) && !e.LoopReconnect?))
  {
    hide Run, Acts, Cuts, Opens, Restarts, Spares, Waits;
    var init := es[..|es| - 1];
    InitIs(es, i);
    forall j | 0 <= j < |init|
      ensures Spares(tape, es, j) == Spares(tape, init, j) && Waits(tape, es, j) == Waits(tape, init, j)
    {
      SparesInit(tape, es, j);
    }
    SparesLast(tape, es);
  }

  lemma OpenedLast(tape: seq<Decision>, es: seq<Event>)
    requires es != []
    ensures var s, e := Run(New(tape), es[..|es| - 1]), es[|es| - 1];
            && (LastOpened(tape, es, |es| - 1) <==> Acts(s, e) && Opens(s, e))
            && (LastRestarted(tape, es, |es| - 1) <==> Acts(s, e) && Restarts(s, e))
  {
    hide Run, Acts, Cuts, Opens, Restarts;
  }

  /**
   A connection is there exactly if one was made that the client was content with, nothing cut it since,
   and the socket was not destroyed.  The timer runs exactly if the client asked for another connection
   after that, it was neither cut nor started anew since, and the socket was not destroyed.
   */
  lemma {:induction false} ConnectedExactly(tape: seq<Decision>, es: seq<Event>)
    ensures var s := Run(New(tape), es);
            && (s.connected <==> !s.freed && exists i: nat :: LastOpened(tape, es, i))
            && (s.reconnect <==> !s.freed && exists i: nat :: LastRestarted(tape, es, i))
    decreases |es|
  {
    hide Run, Next, Acts, Opens, Cuts, Restarts, Ordered, ConnectorEvent, LastOpened, LastRestarted, Gain;
    if es == [] {
      RunNone(New(tape), es);
      assert es[..0] == es;
      NoneOpened(tape, es);
    } else {
      var init := es[..|es| - 1];
      ConnectedExactly(tape, init);
      RunLast(New(tape), es);
      RunOrdered(tape, init);
      NextLine(Run(New(tape), init), es[|es| - 1]);
      OpenedMoves(tape, es);
      ActsThere(Run(New(tape), init), es[|es| - 1]);
    }
  }

  lemma ActsThere(s: Sock, e: Event)
    ensures Acts(s, e) ==> !s.freed
  {
  }

  lemma NoneOpened(tape: seq<Decision>, es: seq<Event>)
    requires es == []
    ensures !exists i: nat :: LastOpened(tape, es, i)
    ensures !exists i: nat :: LastRestarted(tape, es, i)
  {
    hide Run, Acts, Cuts, Opens, Restarts;
  }

  lemma OpenedMoves(tape: seq<Decision>, es: seq<Event>)
    requires es != []
    ensures var init := es[..|es| - 1];
            var s, e := Run(New(tape), init), es[|es| - 1];
            && ((exists i: nat :: LastOpened(tape, es, i)) <==>
                  (Acts(s, e) && Opens(s, e)) || ((Acts(s, e) ==> !Cuts(s, e)) && exists i: nat :: LastOpened(tape, init, i)))
            && ((exists i: nat :: LastRestarted(tape, es, i)) <==>
                  (Acts(s, e) && Restarts(s, e)) ||
                  ((Acts(s, e) ==> !Cuts(s, e) && !e.LoopReconnect?) && exists i: nat :: LastRestarted(tape, init, i)))
  {
    hide Run, Acts, Cuts, Opens, Restarts, LastOpened, LastRestarted;
    var init := es[..|es| - 1];
    OpenedLast(tape, es);
    forall i: nat | i < |es| - 1
      ensures LastOpened(tape, es, i) <==> LastOpened(tape, init, i) && (Acts(Run(New(tape), init), es[|es| - 1]) ==> !Cuts(Run(New(tape), init), es[|es| - 1]))
      ensures LastRestarted(tape, es, i) <==>
              LastRestarted(tape, init, i) && (Acts(Run(New(tape), init), es[|es| - 1]) ==>
                                                 !Cuts(Run(New(tape), init), es[|es| - 1]) && !es[|es| - 1].LoopReconnect?)
    {
      OpenedMore(tape, es, i);
    }
    InRange(tape, es);
    InRange(tape, init);
  }

  lemma InRange(tape: seq<Decision>, es: seq<Event>)
    ensures forall i: nat | LastOpened(tape, es, i) :: i < |es|
    ensures forall i: nat | LastRestarted(tape, es, i) :: i < |es|
  {
    hide Run, Acts, Cuts, Opens, Restarts;
  }
}
