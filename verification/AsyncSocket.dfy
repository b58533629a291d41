/** The socket as the program has it: objects that are linked, counted and updated in place. */
module AsyncSocketProgram {
  import opened AsyncIoCommon
  import opened AsyncSocketSpec
  import opened AsyncSocketSteps
  import opened AsyncSocketQueue
  import opened AsyncSocketInvariant
  import opened AsyncSocketCallbacks
  import opened AsyncSocketCancel
  import opened AsyncSocketSafety
  import Spec = AsyncSocketSpec
  import Steps = AsyncSocketSteps

  ghost function Serials(q: seq<AsyncSocketIO>): (r: seq<nat>)
    reads q`serial
    ensures |r| == |q| && forall i | 0 <= i < |q| :: r[i] == q[i].serial
  {
    if q == [] then [] else Serials(q[..|q| - 1]) + [q[|q| - 1].serial]
  }

  lemma SerialsSnoc(q: seq<AsyncSocketIO>, o: AsyncSocketIO)
    ensures Serials(q + [o]) == Serials(q) + [o.serial]
  {
    assert (q + [o])[..|q|] == q;
  }

  lemma SerialsCut(q: seq<AsyncSocketIO>, i: nat)
    requires i < |q|
    ensures Serials(q[..i] + q[i + 1..]) == Serials(q)[..i] + Serials(q)[i + 1..]
  {
    hide Serials;
    var r := q[..i] + q[i + 1..];
    var a, b := Serials(r), Serials(q)[..i] + Serials(q)[i + 1..];
    assert |a| == |b|;
    forall j | 0 <= j < |a|
      ensures a[j] == b[j]
    {
      assert a[j] == r[j].serial;
    }
  }

  class AsyncSocket {
    const readers: IoQueue
    const writers: IoQueue
    const recycler: Recycler
    var connected: bool
    var wantRead: bool
    var wantWrite: bool
    var reconnect: bool
    var refCount: int
    // The client: what its callbacks will decide, how many references it has, and the descriptors that
    // are alive by the names that it has for them.
    var tape: seq<Decision>
    var clientRefs: int
    var objs: map<nat, AsyncSocketIO>
    var next: nat
    // Bookkeeping of the specification.
    ghost var Repr: set<object>
    ghost var archive: map<nat, Io>          // what the descriptors were that are gone
    ghost var freed: bool
    ghost var held: int
    ghost var fault: bool
    ghost var pass: Pass
    ghost var attempts: nat
    ghost var since: nat
    ghost var orphaned: bool
    ghost var inBytes: seq<Byte>
    ghost var outBytes: seq<Byte>
    ghost var readLog: seq<nat>
    ghost var writeLog: seq<nat>

    /**
     async_socket_new.  The program has one recycler for all sockets; here no descriptor in it is one of this
     socket's live ones, and nothing is said about the descriptors of other sockets.
     */
    constructor (recycler: Recycler, tape: seq<Decision>)
      requires recycler.Valid()
      ensures Valid() && Abs() == New(tape) && this.recycler == recycler
    {
      hide *;
      this.recycler := recycler;
      readers := new IoQueue();
      writers := new IoQueue();
      connected, wantRead, wantWrite, reconnect := false, false, false, false;
      refCount, clientRefs := 1, 1;
      this.tape := tape;
      objs, archive, next := map[], map[], 0;
      new;
      label Made:
      StillValid@Made();
      Originate();
    }

    /** Nothing has happened yet. */
    ghost method Originate()
      requires recycler.Valid() && readers.Valid() && writers.Valid() && readers != writers
      requires objs == map[] && archive == map[] && next == 0 && readers.items == [] && writers.items == []
      requires !connected && !wantRead && !wantWrite && !reconnect && refCount == 1 && clientRefs == 1
      modifies `Repr, `freed, `held, `fault, `pass, `attempts, `since, `orphaned, `inBytes, `outBytes, `readLog, `writeLog
      ensures Valid() && Abs() == New(tape)
    {
      hide Valid, Abs, Owned, Table, Members, Lists, Records, Serials, Chain;
      Repr := {this, readers, writers, recycler} + set o | o in recycler.pool;
      Blank();
      NewParts();
      NewAbs();
    }

    ghost method Blank()
      modifies `freed, `held, `fault, `pass, `attempts, `since, `orphaned, `inBytes, `outBytes, `readLog, `writeLog
      ensures !freed && held == 0 && !fault && pass == NoPass && attempts == 0 && since == 0 && !orphaned
      ensures inBytes == [] && outBytes == [] && readLog == [] && writeLog == []
    {
      freed, held, fault, pass, attempts, since, orphaned := false, 0, false, NoPass, 0, 0, false;
      inBytes, outBytes, readLog, writeLog := [], [], [], [];
    }

    twostate lemma StillValid()
      requires old(recycler.Valid()) && old(readers.Valid()) && old(writers.Valid())
      requires unchanged(recycler) && unchanged(readers) && unchanged(writers)
      requires forall i | 0 <= i < |recycler.pool| :: recycler.pool[i].next == old(recycler.pool[i].next)
      requires old(readers.items) == [] && old(writers.items) == []
      ensures recycler.Valid() && readers.Valid() && writers.Valid()
    {
    }

    lemma NewAbs()
      requires Valid() && Records() == map[] && Serials(readers.items) == [] && Serials(writers.items) == []
      requires !connected && !wantRead && !wantWrite && !reconnect && refCount == 1 && clientRefs == 1
      requires next == 0 && !freed && held == 0 && !fault && pass == NoPass && attempts == 0 && since == 0 && !orphaned
      requires inBytes == [] && outBytes == [] && readLog == [] && writeLog == []
      ensures Abs() == New(tape)
    {
    }

    lemma NewParts()
      requires objs == map[] && archive == map[] && readers.items == [] && writers.items == [] && readers != writers
      requires Repr == {this, readers, writers, recycler} + set o | o in recycler.pool
      requires readers.Valid() && writers.Valid() && recycler.Valid()
      ensures Owned() && Table() && Members() && Lists() && Valid() && Records() == map[] && Serials(readers.items) == [] && Serials(writers.items) == []
    {
    }

    /** Everything the socket is made of is in its representation. */
    ghost predicate Owned()
      reads this, readers`items, writers`items, recycler`pool
    {
      && {this, readers, writers, recycler} <= Repr && readers != writers
      && (forall k | k in objs :: objs[k] in Repr)
      && (forall o | o in readers.items :: o in Repr)
      && (forall o | o in writers.items :: o in Repr)
      && (forall o | o in recycler.pool :: o in Repr)
    }

    /** The live descriptors by their serial numbers, and the records of the others. */
    ghost predicate Table()
      reads this, objs.Values`serial, objs.Values`live
    {
      && (forall k | k in objs :: k < next && objs[k].serial == k && objs[k].live)
      && archive.Keys !! objs.Keys && (forall k | k in archive :: k < next && !archive[k].live)
    }

    /** The object stands for a live descriptor. */
    ghost predicate Linked(o: AsyncSocketIO)
      reads this, o`serial
    {
      o.serial in objs && objs[o.serial] == o
    }

    /** Queued descriptors are live and in one queue; recycled ones are not live. */
    ghost predicate Members()
      reads this, readers`items, writers`items, recycler`pool
      reads readers.items`serial, writers.items`serial, recycler.pool`serial
    {
      && (forall o | o in readers.items :: Linked(o))
      && (forall o | o in writers.items :: Linked(o) && o !in readers.items)
      && (forall o | o in recycler.pool :: !Linked(o))
    }

    ghost predicate Lists()
      reads this, readers, writers, recycler, readers.items`next, writers.items`next, recycler.pool`next
    {
      readers.Valid() && writers.Valid() && recycler.Valid()
    }

    ghost predicate Valid()
      reads this, Repr
    {
      {this, readers, writers, recycler} <= Repr && Owned() && Table() && Members() && Lists()
    }

    ghost function Records(): map<nat, Io>
      reads this, objs.Values
    {
      archive + LiveRecords()
    }

    ghost function LiveRecords(): map<nat, Io>
      reads this, objs.Values
    {
      map k | k in objs :: objs[k].Record()
    }

    ghost function Abs(): Sock
      requires Valid()
      reads this, Repr
    {
      Sock(Records(), next, Serials(readers.items), Serials(writers.items), connected, wantRead, wantWrite, reconnect,
           refCount, freed, clientRefs, held, fault, pass, attempts, since, orphaned, tape, inBytes, outBytes, readLog, writeLog)
    }

    /** The live descriptors are objects that there were already, or new ones. */
    twostate predicate Persists()
      reads this
    {
      old(next) <= next && forall k | k in objs :: (k in old(objs) && objs[k] == old(objs[k])) || k >= old(next)
    }

    /** One object changed, but not where it is linked. */
    twostate predicate Alters(io: AsyncSocketIO)
      reads this, Repr, io
    {
      && old(Linked(io)) && io in old(Repr)
      && unchanged(this) && unchanged(old(Repr) - {io})
      && io.serial == old(io.serial) && io.next == old(io.next) && io.live
    }

    twostate lemma Changed(io: AsyncSocketIO)
      requires old(Valid()) && Alters(io)
      ensures Valid() && Abs() == Put(old(Abs()), io.serial, io.Record())
    {
      RecordChanged(io);
      PartsKept(io);
      ListsKept(io);
      hide Members, Lists, Serials, Records, Owned, Table, Alters;
    }

    twostate lemma RecordChanged(io: AsyncSocketIO)
      requires old(Owned()) && old(Table()) && Alters(io)
      ensures Records() == old(Records())[io.serial := io.Record()]
      ensures Table()
    {
      hide Members, Lists;
    }

    twostate lemma PartsKept(io: AsyncSocketIO)
      requires old(Owned()) && {this, readers, writers, recycler} <= old(Repr) && old(Members()) && Alters(io)
      ensures Owned() && Members()
      ensures Serials(readers.items) == old(Serials(readers.items))
      ensures Serials(writers.items) == old(Serials(writers.items))
    {
      hide Table, Lists;
    }

    twostate lemma ListsKept(io: AsyncSocketIO)
      requires old(Owned()) && {this, readers, writers, recycler} <= old(Repr) && old(Lists()) && Alters(io)
      ensures Lists()
    {
      hide Table, Members, Chain;
    }

    /** What there is to know of a live descriptor. */
    lemma LinkedIs(io: AsyncSocketIO)
      requires Valid() && Linked(io)
      ensures io in Repr && io.live && io.serial in Abs().ios && Abs().ios[io.serial] == io.Record()
    {
      hide Members, Lists, Serials;
    }

    // ----- updates of one descriptor ------------------------------------------------------

    method IoRef(io: AsyncSocketIO)
      requires Valid() && Linked(io) && io.refCount > 0
      modifies io
      ensures Valid() && Abs() == Spec.IoRef(old(Abs()), io.serial) && Linked(io)
      ensures io.serial == old(io.serial) && io.held == old(io.held) + 1
    {
      hide Valid, Abs, Spec.IoRef;
      LinkedIs(io);
      IoRefIs(Abs(), io.serial);
      io.refCount := io.refCount + 1;
      io.held := io.held + 1;
      Changed(io);
    }

    method StopTimer(io: AsyncSocketIO)
      requires Valid() && Linked(io)
      modifies io
      ensures Valid() && Abs() == StopIoTimer(old(Abs()), io.serial) && Linked(io)
      ensures io.serial == old(io.serial)
      ensures io.refCount == old(io.refCount) && io.held == old(io.held)
    {
      hide Valid, Abs;
      LinkedIs(io);
      io.timerOn := false;
      Changed(io);
    }

    /** async_socket_io_reference by the client. */
    method KeepIo(io: AsyncSocketIO)
      requires Valid() && Linked(io)
      modifies io
      ensures Valid() && Abs() == Keep(old(Abs()), io.serial) && Linked(io)
      ensures io.serial == old(io.serial)
    {
      hide Valid, Abs;
      LinkedIs(io);
      if io.refCount > 0 {
        io.refCount := io.refCount + 1;
        io.clientRefs, io.kept := io.clientRefs + 1, true;
        Changed(io);
      }
    }

    method Bump(io: AsyncSocketIO)
      requires Valid() && Linked(io)
      modifies io
      ensures Valid() && Abs() == Steps.Bump(old(Abs()), io.serial) && Linked(io)
      ensures io.serial == old(io.serial) && io.held == old(io.held)
    {
      hide Valid, Abs;
      LinkedIs(io);
      if io.state == Queued {
        io.state := Started;
      } else {
        io.state := Continues;
      }
      Changed(io);
    }

    /** Records what a callback was told and answered. */
    ghost method WriteDown(io: AsyncSocketIO, note: Note)
      requires Valid() && Linked(io)
      modifies io
      ensures Valid() && Abs() == Put(old(Abs()), io.serial, old(io.Record()).(notes := old(io.notes) + [note])) && Linked(io)
      ensures io.serial == old(io.serial)
    {
      hide Valid, Abs;
      LinkedIs(io);
      io.notes := io.notes + [note];
      Changed(io);
    }

    /** The first half of a release. */
    method Drop(io: AsyncSocketIO)
      requires Valid() && Linked(io) && io.refCount > 0
      modifies io
      ensures Valid() && Linked(io) && io.refCount == old(io.refCount) - 1
      ensures Abs() == Put(old(Abs()), io.serial, Dropped(old(io.Record())))
      ensures io.serial == old(io.serial)
    {
      hide Valid, Abs;
      LinkedIs(io);
      io.refCount := io.refCount - 1;
      io.held := io.held - 1;
      Changed(io);
    }

    // ----- updates of the socket itself ---------------------------------------------------

    /** Only fields of the socket changed, and not those that say what its descriptors are. */
    twostate lemma Scalar()
      requires old(Valid()) && unchanged(old(Repr) - {this})
      requires objs == old(objs) && archive == old(archive) && Repr == old(Repr) && next == old(next)
      ensures Valid() && Records() == old(Records())
      ensures Serials(readers.items) == old(Serials(readers.items)) && Serials(writers.items) == old(Serials(writers.items))
      ensures forall io: AsyncSocketIO :: old(allocated(io)) && old(Linked(io)) ==> Linked(io)
    {
      ScalarTable();
      ScalarMembers();
      ScalarLists();
      hide Owned, Table, Members, Lists, Records, Serials;
    }

    twostate lemma ScalarTable()
      requires old(Owned()) && old(Table()) && unchanged(old(Repr) - {this})
      requires objs == old(objs) && archive == old(archive) && Repr == old(Repr) && next == old(next)
      ensures Table() && Records() == old(Records())
    {
      hide AsyncSocketIO.Record;
      forall k | k in objs
        ensures objs[k].Record() == old(objs[k].Record()) && objs[k].serial == old(objs[k].serial)
      {
        assert objs[k] in old(Repr) - {this};
      }
    }

    twostate lemma ScalarMembers()
      requires old(Owned()) && old(Members()) && unchanged(old(Repr) - {this})
      requires {this, readers, writers, recycler} <= old(Repr) && objs == old(objs) && Repr == old(Repr)
      ensures Owned() && Members()
      ensures Serials(readers.items) == old(Serials(readers.items)) && Serials(writers.items) == old(Serials(writers.items))
      ensures forall io: AsyncSocketIO :: old(allocated(io)) && old(Linked(io)) ==> Linked(io)
    {
      forall io: AsyncSocketIO | old(allocated(io)) && old(Linked(io))
        ensures Linked(io)
      {
        assert io == old(objs[io.serial]) && io in old(Repr) - {this};
      }
    }

    twostate lemma ScalarLists()
      requires old(Owned()) && old(Lists()) && unchanged(old(Repr) - {this}) && {this, readers, writers, recycler} <= old(Repr)
      ensures Lists()
    {
      hide Chain;
    }

    method SockRef()
      requires Valid() && refCount > 0
      modifies this
      ensures Valid() && Abs() == Spec.SockRef(old(Abs()))
      ensures objs == old(objs) && Repr == old(Repr) && next == old(next)
    {
      hide Owned, Table, Members, Lists, Records, Serials;
      refCount := refCount + 1;
      held := held + 1;
      Scalar();
    }

    /** async_socket_reference by the client. */
    method KeepSock()
      requires Valid() && refCount > 0
      modifies this
      ensures Valid() && Abs() == Spec.KeepSock(old(Abs()))
      ensures objs == old(objs) && Repr == old(Repr) && next == old(next)
    {
      hide Owned, Table, Members, Lists, Records, Serials;
      refCount := refCount + 1;
      clientRefs := clientRefs + 1;
      Scalar();
    }

    /** The first half of a release. */
    method DropSockRef()
      requires Valid() && refCount > 0
      modifies this
      ensures Valid() && Abs() == old(Abs()).(refCount := old(refCount) - 1, held := old(held) - 1)
      ensures objs == old(objs) && Repr == old(Repr) && next == old(next)
    {
      hide Owned, Table, Members, Lists, Records, Serials;
      refCount := refCount - 1;
      held := held - 1;
      Scalar();
    }

    /** A reference of the client is in the hands of running code. */
    method LendRef()
      requires Valid()
      modifies this
      ensures Valid() && Abs() == Steps.Lend(old(Abs()))
      ensures objs == old(objs) && Repr == old(Repr) && next == old(next) && tape == old(tape)
    {
      hide Owned, Table, Members, Lists, Records, Serials;
      clientRefs := clientRefs - 1;
      held := held + 1;
      Scalar();
    }

    /** The client has its reference back. */
    method ReturnRef()
      requires Valid()
      modifies this
      ensures Valid() && Abs() == Steps.Return(old(Abs()))
      ensures objs == old(objs) && Repr == old(Repr) && next == old(next)
    {
      hide Owned, Table, Members, Lists, Records, Serials;
      clientRefs := clientRefs + 1;
      held := held - 1;
      Scalar();
    }

    method PopDecision() returns (d: Decision)
      requires Valid() && tape != []
      modifies this
      ensures Valid() && Abs() == old(Abs()).(tape := old(tape)[1..]) && d == old(tape)[0]
      ensures objs == old(objs) && Repr == old(Repr) && next == old(next)
    {
      hide Owned, Table, Members, Lists, Records, Serials;
      d := tape[0];
      tape := tape[1..];
      Scalar();
    }

    /** loopIo_wantRead and its three siblings, called if there is a LoopIo. */
    method SetWant(isRead: bool, on: bool)
      requires Valid()
      modifies this
      ensures Valid() && Abs() == Spec.SetWant(old(Abs()), isRead, on)
      ensures objs == old(objs) && Repr == old(Repr) && next == old(next)
    {
      hide Owned, Table, Members, Lists, Records, Serials;
      if connected {
        if isRead {
          wantRead := on;
        } else {
          wantWrite := on;
        }
      }
      Scalar();
    }

    /** The file descriptor is closed, and the LooperIo freed. */
    method Unplug()
      modifies `connected, `wantRead, `wantWrite, `since, `orphaned
      ensures !connected && !wantRead && !wantWrite && since == next
      ensures orphaned <==> readers.items != [] || writers.items != []
    {
      connected, wantRead, wantWrite := false, false, false;
      since, orphaned := next, readers.items != [] || writers.items != [];
    }

    /** _async_socket_close_socket. */
    method CloseSocket()
      requires Valid()
      modifies this
      ensures Valid() && Abs() == Close(old(Abs()))
      ensures objs == old(objs) && Repr == old(Repr) && next == old(next)
    {
      hide Owned, Table, Members, Lists, Records, Serials;
      if connected {
        Unplug();
      }
      Scalar();
    }

    /** The socket has a file descriptor, and a LooperIo that does not watch yet. */
    method Plug(ghost s: Sock)
      modifies `connected, `wantRead, `wantWrite, `inBytes, `outBytes, `readLog, `writeLog
      ensures connected && !wantRead && !wantWrite
      ensures inBytes == [] && outBytes == [] && readLog == s.readers && writeLog == s.writers
    {
      connected, wantRead, wantWrite := true, false, false;
      inBytes, outBytes, readLog, writeLog := [], [], s.readers, s.writers;
    }

    method AcceptFd()
      requires Valid()
      modifies this
      ensures Valid() && Abs() == Accept(old(Abs()))
      ensures objs == old(objs) && Repr == old(Repr) && next == old(next)
    {
      hide Owned, Table, Members, Lists, Records, Serials;
      Plug(Abs());
      Scalar();
    }

    method SetReconnect(on: bool)
      requires Valid()
      modifies this
      ensures Valid() && Abs() == old(Abs()).(reconnect := on)
      ensures objs == old(objs) && Repr == old(Repr) && next == old(next)
    {
      hide Owned, Table, Members, Lists, Records, Serials;
      reconnect := on;
      Scalar();
    }

    ghost method SetPass(pass: Pass)
      requires Valid()
      modifies this
      ensures Valid() && Abs() == old(Abs()).(pass := pass)
      ensures objs == old(objs) && Repr == old(Repr) && next == old(next)
    {
      hide Owned, Table, Members, Lists, Records, Serials;
      this.pass := pass;
      Scalar();
    }

    /** Both cancellation loops have ended. */
    ghost method EndCancel()
      requires Valid()
      modifies this
      ensures Valid() && Abs() == old(Abs()).(pass := NoPass, orphaned := false)
      ensures objs == old(objs) && Repr == old(Repr) && next == old(next)
    {
      hide Owned, Table, Members, Lists, Records, Serials;
      pass, orphaned := NoPass, false;
      Scalar();
    }

    /** A connector is made that knows the socket, or lets go of it. */
    ghost method SetAttempts(n: nat)
      requires Valid()
      modifies this
      ensures Valid() && Abs() == old(Abs()).(attempts := n)
      ensures objs == old(objs) && Repr == old(Repr) && next == old(next)
    {
      hide Owned, Table, Members, Lists, Records, Serials;
      attempts := n;
      Scalar();
    }

    /** An assertion fails. */
    ghost method Fault()
      requires Valid()
      modifies this
      ensures Valid() && Abs() == old(Abs()).(fault := true)
      ensures objs == old(objs) && Repr == old(Repr) && next == old(next)
    {
      hide Owned, Table, Members, Lists, Records, Serials;
      fault := true;
      Scalar();
    }

    ghost method SetFreed()
      requires Valid()
      modifies this
      ensures Valid() && Abs() == old(Abs()).(freed := true)
      ensures objs == old(objs) && Repr == old(Repr) && next == old(next)
    {
      hide Owned, Table, Members, Lists, Records, Serials;
      freed := true;
      Scalar();
    }

    /** What the socket is changed only by what its descriptors and its counts are. */
    twostate lemma OnlyTables()
      requires old(Valid()) && Valid() && unchanged(`connected, `wantRead, `wantWrite, `reconnect, `freed, `clientRefs)
      requires unchanged(`fault, `pass, `attempts, `since, `orphaned, `tape, `inBytes, `outBytes, `readLog, `writeLog)
      ensures Abs() == old(Abs()).(ios := Records(), next := next, readers := Serials(readers.items), writers := Serials(writers.items),
                                   refCount := refCount, held := held)
      ensures old(Abs()).ios == old(Records()) && old(Abs()).next == old(next) && old(Abs()).refCount == old(refCount)
      ensures old(Abs()).readers == old(Serials(readers.items)) && old(Abs()).writers == old(Serials(writers.items))
      ensures old(Abs()).held == old(held) && old(Abs()).fault == old(fault)
    {
      hide Owned, Table, Members, Lists, Records, Serials;
    }

    // ----- coming and going ---------------------------------------------------------------

    method TakeDescriptor() returns (io: AsyncSocketIO)
      requires Valid()
      modifies recycler
      ensures Valid() && Abs() == old(Abs())
      ensures !Linked(io) && io !in recycler.pool && (io in Repr || fresh(io))
    {
      hide Table, Records, Serials, Chain;
      io := recycler.Take();
      TakeKeeps();
      hide Members, Lists, Owned;
    }

    /** Only the recycler changed: its pool lost its first member. */
    twostate lemma TakeKeeps()
      requires old(Valid()) && unchanged(this) && unchanged(old(Repr) - {recycler}) && recycler.Valid()
      requires recycler.pool == if old(recycler.pool) == [] then [] else old(recycler.pool)[1..]
      ensures Valid() && Records() == old(Records())
      ensures Serials(readers.items) == old(Serials(readers.items)) && Serials(writers.items) == old(Serials(writers.items))
    {
      hide Chain;
    }

    /** _async_socket_rw_new. */
    method RwNew(isRead: bool, buffer: seq<Byte>) returns (io: AsyncSocketIO)
      requires Valid() && refCount > 0
      modifies this, recycler, Repr
      ensures Valid() && Abs() == Spec.RwNew(old(Abs()), isRead, buffer)
      ensures fresh(Repr - old(Repr)) && Persists() && Linked(io) && io.serial == old(next)
      ensures io.next == null && io.held == 1 && io !in readers.items && io !in writers.items
    {
      hide Valid, Abs, Spec.RwNew;
      io := TakeDescriptor();
      Admit(io, isRead, buffer);
    }

    method Enter(io: AsyncSocketIO)
      modifies `objs, `Repr, `next, `refCount
      ensures objs == old(objs)[old(next) := io] && Repr == old(Repr) + {io}
      ensures next == old(next) + 1 && refCount == old(refCount) + 1
    {
      objs, Repr, next := objs[next := io], Repr + {io}, next + 1;
      refCount := refCount + 1;
    }

    method Admit(io: AsyncSocketIO, isRead: bool, buffer: seq<Byte>)
      requires Valid() && refCount > 0 && !Linked(io) && io !in recycler.pool
      modifies this, io
      ensures Valid() && Abs() == Spec.RwNew(old(Abs()), isRead, buffer)
      ensures objs == old(objs)[old(next) := io] && Repr == old(Repr) + {io} && next == old(next) + 1
      ensures old(next) !in old(objs) && Linked(io) && io.serial == old(next)
      ensures io.next == null && io.held == 1 && io !in readers.items && io !in writers.items
    {
      hide Valid, Abs, Records, Serials, Admits;
      label Before:
      NotMember(io);
      io.Fill(isRead, buffer, next);
      Enter(io);
      AdmitsIs@Before(io);
      Admitted@Before(io);
      OnlyTables@Before();
    }

    twostate lemma AdmitsIs(io: AsyncSocketIO)
      requires old(next) !in old(objs) && old(next) !in old(archive) && Repr == old(Repr) + {io}
      requires unchanged(old(Repr) - {this, io}) && archive == old(archive)
      requires objs == old(objs)[old(next) := io] && next == old(next) + 1
      requires io !in old(readers.items) && io !in old(writers.items) && io !in old(recycler.pool) && io !in old(objs).Values
      requires io.serial == old(next) && io.live
      ensures Admits(io)
    {
    }

    lemma NotMember(io: AsyncSocketIO)
      requires Valid() && !Linked(io)
      ensures io !in readers.items && io !in writers.items && io !in objs.Values
      ensures next !in objs && next !in archive
    {
      hide Lists;
    }

    twostate predicate Admits(io: AsyncSocketIO)
      reads this, Repr, io
    {
      && old(next) !in old(objs) && old(next) !in old(archive) && Repr == old(Repr) + {io}
      && unchanged(old(Repr) - {this, io}) && archive == old(archive)
      && objs == old(objs)[old(next) := io] && next == old(next) + 1
      && io !in old(readers.items) && io !in old(writers.items) && io !in old(recycler.pool) && io !in old(objs).Values
      && io.serial == old(next) && io.live
    }

    twostate lemma Admitted(io: AsyncSocketIO)
      requires old(Valid()) && Admits(io)
      ensures Valid() && Records() == old(Records())[old(next) := io.Record()]
      ensures Serials(readers.items) == old(Serials(readers.items)) && Serials(writers.items) == old(Serials(writers.items))
    {
      AdmittedTable(io);
      AdmittedParts(io);
      AdmittedLists(io);
      hide Owned, Table, Members, Lists, Admits, Records, Serials;
    }

    twostate lemma AdmittedTable(io: AsyncSocketIO)
      requires old(Owned()) && old(Table()) && Admits(io)
      ensures Table() && {this, readers, writers, recycler} <= Repr
      ensures Records() == old(Records())[old(next) := io.Record()]
    {
      AdmittedObjects(io);
      AdmittedLive(io);
      AdmitIn(archive, old(LiveRecords()), old(next), io.Record());
      hide Admits, Owned, Table, LiveRecords;
      AdmittedKeys(io);
    }

    twostate lemma AdmittedKeys(io: AsyncSocketIO)
      requires old(Table()) && objs == old(objs)[old(next) := io] && io.serial == old(next) && io.live
      requires archive == old(archive) && old(next) !in archive && next == old(next) + 1
      requires forall k | k in old(objs) :: objs[k].live && objs[k].serial == k && k < old(next)
      ensures Table()
    {
    }

    static lemma AdmitIn(archive: map<nat, Io>, live: map<nat, Io>, k: nat, io: Io)
      requires k !in archive
      ensures archive + live[k := io] == (archive + live)[k := io]
    {
    }

    /** The objects that there were are what they were. */
    twostate lemma AdmittedObjects(io: AsyncSocketIO)
      requires old(Owned()) && old(Table()) && Admits(io)
      ensures objs == old(objs)[old(next) := io] && io.serial == old(next) && io.live
      ensures archive == old(archive) && old(next) !in archive && next == old(next) + 1
      ensures {this, readers, writers, recycler} <= Repr
      ensures forall k | k in old(objs) :: objs[k].Record() == old(objs[k].Record()) && objs[k].live && objs[k].serial == k && k < old(next)
    {
      hide AsyncSocketIO.Record;
      forall k | k in old(objs)
        ensures objs[k].Record() == old(objs[k].Record()) && objs[k].live && objs[k].serial == k && k < old(next)
      {
        assert objs[k] == old(objs[k]) && objs[k] in old(Repr) - {this, io};
      }
    }

    twostate lemma AdmittedLive(io: AsyncSocketIO)
      requires objs == old(objs)[old(next) := io]
      requires forall k | k in old(objs) :: objs[k].Record() == old(objs[k].Record()) && k < old(next)
      ensures LiveRecords() == old(LiveRecords())[old(next) := io.Record()]
    {
    }

    twostate lemma AdmittedParts(io: AsyncSocketIO)
      requires old(Owned()) && old(Members()) && Admits(io)
      ensures Owned() && Members()
      ensures Serials(readers.items) == old(Serials(readers.items)) && Serials(writers.items) == old(Serials(writers.items))
    {
    }

    twostate lemma AdmittedLists(io: AsyncSocketIO)
      requires old(Owned()) && old(Lists()) && Admits(io)
      ensures Lists()
    {
      hide Chain;
    }

    // ----- the queues ---------------------------------------------------------------------

    function QueueOf(isRead: bool): IoQueue {
      if isRead then readers else writers
    }

    /** One queue was relinked among live descriptors. */
    twostate predicate Relinks(isRead: bool)
      reads this, readers, writers, recycler, objs.Values, readers.items, writers.items, recycler.pool
    {
      && unchanged(this) && unchanged(recycler) && unchanged(QueueOf(!isRead))
      && (forall k | k in objs :: objs[k].Record() == old(objs[k].Record()) && objs[k].serial == old(objs[k].serial))
      && (forall o | o in QueueOf(!isRead).items :: o.next == old(o.next) && o.serial == old(o.serial))
      && (forall o | o in recycler.pool :: o.next == old(o.next) && o.serial == old(o.serial))
      && (forall o | o in QueueOf(isRead).items :: Linked(o) && o !in QueueOf(!isRead).items)
    }

    twostate lemma Relinked(isRead: bool)
      requires old(Valid()) && Relinks(isRead) && QueueOf(isRead).Valid()
      ensures Valid() && Records() == old(Records())
      ensures Serials(QueueOf(!isRead).items) == old(Serials(QueueOf(!isRead).items))
    {
      RelinkedTable(isRead);
      RelinkedParts(isRead);
      RelinkedLists(isRead);
      hide Owned, Table, Members, Lists, Relinks, Records, Serials, Chain;
    }

    twostate lemma RelinkedTable(isRead: bool)
      requires old(Owned()) && old(Table()) && Relinks(isRead)
      ensures Owned() && Table() && Records() == old(Records())
    {
      forall o | o in QueueOf(isRead).items
        ensures o in Repr
      {
        assert Linked(o) && objs[o.serial] in Repr;
      }
    }

    twostate lemma RelinkedParts(isRead: bool)
      requires old(Owned()) && old(Table()) && old(Members()) && Relinks(isRead)
      ensures Members()
      ensures Serials(QueueOf(!isRead).items) == old(Serials(QueueOf(!isRead).items))
    {
    }

    twostate lemma RelinkedLists(isRead: bool)
      requires old(Owned()) && old(Lists()) && Relinks(isRead) && QueueOf(isRead).Valid()
      ensures Lists()
    {
    }

    /** Only bookkeeping that is not part of the program changes on the way into a queue. */
    ghost method Accepted(io: AsyncSocketIO)
      requires Valid() && Linked(io)
      modifies io`held, io`accepted
      ensures Valid() && Linked(io)
      ensures Abs() == Put(old(Abs()), io.serial, old(io.Record()).(held := old(io.held) - 1, accepted := true))
      ensures io.serial == old(io.serial)
    {
      hide Valid, Abs;
      LinkedIs(io);
      io.held, io.accepted := io.held - 1, true;
      Changed(io);
    }

    /** What async_socket_read_abs and async_socket_write_abs do on a connected socket. */
    method Append(io: AsyncSocketIO, isRead: bool)
      requires Valid() && Linked(io) && io.next == null && io !in readers.items && io !in writers.items
      modifies this, io, QueueOf(isRead), QueueOf(isRead).items`next
      ensures Valid() && Abs() == Spec.Append(old(Abs()), isRead, io.serial)
      ensures objs == old(objs) && Repr == old(Repr) && next == old(next) && Linked(io)
      ensures io.serial == old(io.serial)
    {
      hide Valid, Abs;
      LinkedIs(io);
      Accepted(io);
      Enlist(io, isRead);
      LogQueued(io.serial, isRead);
    }

    ghost method LogQueued(k: nat, isRead: bool)
      requires Valid()
      modifies this
      ensures Valid()
      ensures Abs() == if isRead then old(Abs()).(readLog := old(Abs()).readLog + [k])
                       else old(Abs()).(writeLog := old(Abs()).writeLog + [k])
      ensures objs == old(objs) && Repr == old(Repr) && next == old(next)
    {
      hide Owned, Table, Members, Lists, Records, Serials;
      if isRead {
        readLog := readLog + [k];
      } else {
        writeLog := writeLog + [k];
      }
      Scalar();
    }

    method Enlist(io: AsyncSocketIO, isRead: bool)
      requires Valid() && Linked(io) && io.next == null && io !in readers.items && io !in writers.items
      modifies QueueOf(isRead), QueueOf(isRead).items`next
      ensures Valid() && Abs() == SetQueue(old(Abs()), isRead, Queue(old(Abs()), isRead) + [io.serial])
    {
      hide Valid, Abs, IoQueue.Valid, AsyncSocketIO.Record, Serials;
      hide Relinks;
      ListsApart(isRead);
      WhoOwned(io);
      QueueOf(isRead).Append(io);
      RelinksIs(isRead);
      Enlisted(isRead);
    }

    /** One list was changed, as a list of live descriptors that are not in the other. */
    twostate lemma RelinksIs(isRead: bool)
      requires old(Valid()) && unchanged(this) && unchanged(recycler) && unchanged(QueueOf(!isRead))
      requires forall o: AsyncSocketIO | o in old(Repr) :: o.Record() == old(o.Record()) && o.serial == old(o.serial)
      requires forall o: AsyncSocketIO | o in old(Repr) && o !in old(QueueOf(isRead).items) :: o.next == old(o.next)
      requires forall o | o in QueueOf(isRead).items :: o in old(Repr) && old(Linked(o)) && o !in old(QueueOf(!isRead).items)
      ensures Relinks(isRead)
    {
      RelinksApart(isRead);
      hide Chain, AsyncSocketIO.Record, Table, Lists;
    }

    twostate lemma RelinksApart(isRead: bool)
      requires old(Valid()) && unchanged(recycler) && unchanged(QueueOf(!isRead))
      ensures forall o | o in QueueOf(!isRead).items :: o in old(Repr) && o !in old(QueueOf(isRead).items)
      ensures forall o | o in recycler.pool :: o in old(Repr) && o !in old(QueueOf(isRead).items)
      ensures forall k | k in old(objs) :: old(objs[k]) in old(Repr)
    {
      hide Chain, Table, Lists;
    }

    twostate lemma Enlisted(isRead: bool)
      requires old(Valid()) && Relinks(isRead) && QueueOf(isRead).Valid()
      requires |QueueOf(isRead).items| > 0 && old(QueueOf(isRead).items) == QueueOf(isRead).items[..|QueueOf(isRead).items| - 1]
      ensures Valid()
      ensures Abs() == SetQueue(old(Abs()), isRead, Queue(old(Abs()), isRead) + [QueueOf(isRead).items[|QueueOf(isRead).items| - 1].serial])
    {
      var q, n := QueueOf(isRead).items, |QueueOf(isRead).items| - 1;
      RelinksThis(isRead);
      assert q == q[..n] + [q[n]];
      SerialsSnoc(q[..n], q[n]);
      SerialsKept(isRead);
      hide Serials, Relinks, Valid, Abs;
      Relinked(isRead);
      RelinkedAbs(isRead);
    }

    twostate lemma RelinksThis(isRead: bool)
      requires Relinks(isRead)
      ensures unchanged(this)
    {
    }

    /** The objects that were queued have the serial numbers that they had. */
    twostate lemma SerialsKept(isRead: bool)
      requires old(Valid()) && Relinks(isRead)
      ensures Serials(old(QueueOf(isRead).items)) == old(Serials(QueueOf(isRead).items))
    {
      hide Lists;
      var q := old(QueueOf(isRead).items);
      forall i | 0 <= i < |q|
        ensures q[i].serial == old(q[i].serial)
      {
        assert old(Linked(q[i])) && objs[old(q[i].serial)] == q[i];
      }
    }

    twostate lemma Rethreaded(at: (bool, nat))
      requires old(Valid()) && Relinks(at.0) && QueueOf(at.0).Valid() && at.1 < |old(QueueOf(at.0).items)|
      requires QueueOf(at.0).items == old(QueueOf(at.0).items)[..at.1] + old(QueueOf(at.0).items)[at.1 + 1..]
      ensures Valid() && at.1 < |Queue(old(Abs()), at.0)|
      ensures Abs() == SetQueue(old(Abs()), at.0, Queue(old(Abs()), at.0)[..at.1] + Queue(old(Abs()), at.0)[at.1 + 1..])
    {
      var (isRead, i) := at;
      RelinksThis(isRead);
      SerialsKept(isRead);
      SerialsCut(old(QueueOf(isRead).items), i);
      hide Serials, Relinks, Valid, Abs;
      Relinked(isRead);
      RelinkedAbs(isRead);
    }

    twostate lemma RelinkedAbs(isRead: bool)
      requires old(Valid()) && Valid() && unchanged(this) && Records() == old(Records())
      requires Serials(QueueOf(!isRead).items) == old(Serials(QueueOf(!isRead).items))
      ensures Queue(Abs(), isRead) == Serials(QueueOf(isRead).items) && old(Queue(Abs(), isRead)) == old(Serials(QueueOf(isRead).items))
      ensures Abs() == SetQueue(old(Abs()), isRead, Serials(QueueOf(isRead).items))
    {
      hide Owned, Table, Members, Lists, Records, Serials;
    }

    /** Objects in one list are in no other. */
    lemma ListsApart(isRead: bool)
      requires Valid()
      ensures forall o | o in QueueOf(!isRead).items :: o !in QueueOf(isRead).items
      ensures forall o | o in recycler.pool :: o !in QueueOf(isRead).items
      ensures forall o | o in QueueOf(isRead).items :: Linked(o) && o in Repr
      ensures QueueOf(isRead).Valid() && readers != writers
    {
    }

    /** Takes the first descriptor out of a queue; its reference is in the caller's hands. */
    method PullFirst(isRead: bool) returns (io: AsyncSocketIO)
      requires Valid() && QueueOf(isRead).items != []
      modifies QueueOf(isRead), QueueOf(isRead).items`next, QueueOf(isRead).items`held
      ensures Valid() && Linked(io) && io.serial == Queue(old(Abs()), isRead)[0]
      ensures Abs() == Unlink(old(Abs()), isRead, 0)
    {
      hide Valid, Abs;
      ListsApart(isRead);
      FirstSerial(isRead);
      io := QueueOf(isRead).head;
      LinkedIs(io);
      TakeInHand(io);
      Delist(isRead);
    }

    /** The first of a queue, by its serial number. */
    lemma FirstSerial(isRead: bool)
      requires Valid() && QueueOf(isRead).items != []
      ensures QueueOf(isRead).head == QueueOf(isRead).items[0]
      ensures |Queue(Abs(), isRead)| == |QueueOf(isRead).items|
      ensures forall i | 0 <= i < |QueueOf(isRead).items| :: Queue(Abs(), isRead)[i] == QueueOf(isRead).items[i].serial
    {
      hide Owned, Table, Members, Records;
    }

    ghost method TakeInHand(io: AsyncSocketIO)
      requires Valid() && Linked(io)
      modifies io`held
      ensures Valid() && Linked(io)
      ensures Abs() == Put(old(Abs()), io.serial, old(io.Record()).(held := old(io.held) + 1))
      ensures io.serial == old(io.serial)
    {
      hide Valid, Abs;
      LinkedIs(io);
      io.held := io.held + 1;
      Changed(io);
    }

    method Delist(isRead: bool)
      requires Valid() && QueueOf(isRead).items != []
      modifies QueueOf(isRead), QueueOf(isRead).items`next
      ensures Valid() && Queue(old(Abs()), isRead) != []
      ensures Abs() == SetQueue(old(Abs()), isRead, Queue(old(Abs()), isRead)[..0] + Queue(old(Abs()), isRead)[1..])
    {
      hide Valid, Abs, IoQueue.Valid, Queue, SetQueue, Relinks, Serials;
      FirstSerial(isRead);
      Behead(isRead);
      Rethreaded((isRead, 0));
    }

    /** Takes the first descriptor out of the links of a list. */
    method Behead(isRead: bool)
      requires Valid() && QueueOf(isRead).items != []
      modifies QueueOf(isRead), QueueOf(isRead).items`next
      ensures Relinks(isRead) && QueueOf(isRead).Valid()
      ensures QueueOf(isRead).items == old(QueueOf(isRead).items)[..0] + old(QueueOf(isRead).items)[0 + 1..]
    {
      hide Valid, Abs, IoQueue.Valid, AsyncSocketIO.Record, Relinks;
      ListsApart(isRead);
      var _ := QueueOf(isRead).PullFirst();
      RelinksIs(isRead);
    }

    /** Takes a descriptor out of its queue, wherever it is. */
    method Remove(io: AsyncSocketIO, isRead: bool) returns (found: bool)
      requires Valid() && Linked(io)
      modifies QueueOf(isRead), QueueOf(isRead).items`next, io`held
      ensures Valid() && Linked(io)
      ensures var q := Queue(old(Abs()), isRead); var i := Position(q, io.serial);
              found == (i < |q|) && Abs() == if found then Unlink(old(Abs()), isRead, i) else old(Abs())
      ensures io.serial == old(io.serial)
    {
      hide Valid, Abs, Unlink, Position, SetQueue, Put;
      LinkedIs(io);
      PositionOf(io, isRead);
      ghost var s, k, i := Abs(), io.serial, Position(Queue(Abs(), isRead), io.serial);
      found := Unthread(io, isRead);
      if found {
        UnlinkIs(s, isRead, i, k);
        LinkedIs(io);
        TakeInHand(io);
      }
    }

    /** It is the same to count the reference in hand before or after the links are changed. */
    static lemma UnlinkIs(s: Sock, isRead: bool, i: nat, k: nat)
      requires i < |Queue(s, isRead)| && Queue(s, isRead)[i] == k && k in s.ios
      ensures var t := SetQueue(s, isRead, Queue(s, isRead)[..i] + Queue(s, isRead)[i + 1..]);
              k in t.ios && Unlink(s, isRead, i) == Put(t, k, t.ios[k].(held := t.ios[k].held + 1))
    {
    }

    lemma PositionOf(io: AsyncSocketIO, isRead: bool)
      requires Valid() && Linked(io)
      ensures var i := Position(Queue(Abs(), isRead), io.serial);
              && |Queue(Abs(), isRead)| == |QueueOf(isRead).items|
              && (i < |QueueOf(isRead).items| <==> io in QueueOf(isRead).items)
              && (i < |QueueOf(isRead).items| ==> QueueOf(isRead).items[i] == io)
    {
      var q, items := Queue(Abs(), isRead), QueueOf(isRead).items;
      var i := Position(q, io.serial);
      SerialsAre(isRead);
      ListsApart(isRead);
      hide Valid, Abs, Position;
      assert i == |items| ==> q[..i] == q;
      assert forall n | 0 <= n < |items| :: q[n] in q;
      if i < |items| {
        assert items[i].serial == io.serial && Linked(items[i]);
      }
    }

    lemma SerialsAre(isRead: bool)
      requires Valid()
      ensures |Queue(Abs(), isRead)| == |QueueOf(isRead).items|
      ensures forall i | 0 <= i < |QueueOf(isRead).items| :: Queue(Abs(), isRead)[i] == QueueOf(isRead).items[i].serial
      ensures Queue(Abs(), isRead) == Serials(QueueOf(isRead).items)
      ensures QueueOf(isRead).head == null <==> Queue(Abs(), isRead) == []
    {
      hide Owned, Table, Members, Records;
    }

    method Unthread(io: AsyncSocketIO, isRead: bool) returns (found: bool)
      requires Valid() && Linked(io)
      modifies QueueOf(isRead), QueueOf(isRead).items`next
      ensures Valid() && Linked(io)
      ensures var q := Queue(old(Abs()), isRead); var i := Position(q, io.serial);
              found == (i < |q|) && Abs() == if found then SetQueue(old(Abs()), isRead, q[..i] + q[i + 1..]) else old(Abs())
      ensures io.serial == old(io.serial)
    {
      hide Valid, Abs, IoQueue.Valid, Position, Serials, Queue, SetQueue, Relinks;
      PositionOf(io, isRead);
      ghost var i := Position(Queue(Abs(), isRead), io.serial);
      found := Cut(io, isRead);
      if found {
        Rethreaded((isRead, i));
      } else {
        Untouched(isRead);
      }
      StillLinked(isRead);
    }

    twostate lemma StillLinked(isRead: bool)
      requires Relinks(isRead)
      ensures forall io: AsyncSocketIO :: old(allocated(io)) && old(Linked(io)) ==> Linked(io)
    {
      forall io: AsyncSocketIO | old(allocated(io)) && old(Linked(io))
        ensures Linked(io)
      {
        assert objs[old(io.serial)].serial == old(objs[io.serial].serial);
      }
    }

    /** Takes a descriptor out of the links of a list. */
    method Cut(io: AsyncSocketIO, isRead: bool) returns (found: bool)
      requires Valid() && Linked(io)
      modifies QueueOf(isRead), QueueOf(isRead).items`next
      ensures Relinks(isRead) && QueueOf(isRead).Valid() && found == (io in old(QueueOf(isRead).items))
      ensures !found ==> QueueOf(isRead).items == old(QueueOf(isRead).items)
      ensures forall i | 0 <= i < |old(QueueOf(isRead).items)| && old(QueueOf(isRead).items)[i] == io ::
                QueueOf(isRead).items == old(QueueOf(isRead).items)[..i] + old(QueueOf(isRead).items)[i + 1..]
    {
      hide Valid, Abs, IoQueue.Valid, AsyncSocketIO.Record, Relinks;
      ListsApart(isRead);
      found := QueueOf(isRead).Remove(io);
      assert QueueOf(isRead).items == old(QueueOf(isRead).items)
        || exists i | 0 <= i < |old(QueueOf(isRead).items)| ::
             QueueOf(isRead).items == old(QueueOf(isRead).items)[..i] + old(QueueOf(isRead).items)[i + 1..];
      assert forall o | o in QueueOf(isRead).items :: o in old(QueueOf(isRead).items);
      RelinksIs(isRead);
    }

    twostate lemma Untouched(isRead: bool)
      requires old(Valid()) && Relinks(isRead) && QueueOf(isRead).Valid() && QueueOf(isRead).items == old(QueueOf(isRead).items)
      ensures Valid() && Abs() == old(Abs())
    {
      RelinksThis(isRead);
      SerialsKept(isRead);
      hide Serials, Relinks, Valid, Abs;
      Relinked(isRead);
      RelinkedAbs(isRead);
    }

    // ----- the end of a descriptor --------------------------------------------------------

    /** _async_socket_io_free, but for the socket's reference, which stays in hand. */
    method Free(io: AsyncSocketIO)
      requires Valid() && Linked(io) && io !in readers.items && io !in writers.items
      modifies this, io, recycler
      ensures Valid() && Abs() == Bury(old(Abs()), old(io.serial))
      ensures objs == old(objs) - {old(io.serial)} && Repr == old(Repr) && next == old(next)
    {
      hide Valid, Abs;
      LinkedIs(io);
      io.timerOn := false;
      Changed(io);
      Retire(io);
    }

    method Retire(io: AsyncSocketIO)
      requires Valid() && Linked(io) && io !in readers.items && io !in writers.items
      modifies this, io, recycler
      ensures Valid()
      ensures Abs() == Put(old(Abs()), old(io.serial), old(io.Record()).(live := false)).(held := old(Abs()).held + 1)
      ensures objs == old(objs) - {old(io.serial)} && Repr == old(Repr) && next == old(next)
    {
      hide Valid, Abs, Records, Serials, Retires;
      Strip(io);
      Retired(io);
      RetiresIs(io);
      OnlyTables();
    }

    /** The updates themselves. */
    method Strip(io: AsyncSocketIO)
      requires Valid() && Linked(io) && io !in readers.items && io !in writers.items
      modifies this`objs, this`archive, this`held, io, recycler
      ensures Retires(io) && held == old(held) + 1
    {
      hide Valid, Abs, Chain;
      NotRecycled(io);
      recycler.Give(io);
      Archive(io);
    }

    /** The client's name for the descriptor is no good any more. */
    method Archive(io: AsyncSocketIO)
      modifies `objs, `archive, `held, io`live
      ensures objs == old(objs) - {io.serial} && held == old(held) + 1
      ensures archive == old(archive)[io.serial := io.Record()] && io.Record() == old(io.Record()).(live := false)
    {
      io.live := false;
      objs, archive := objs - {io.serial}, archive[io.serial := io.Record()];
      held := held + 1;
    }

    twostate lemma RetiresIs(io: AsyncSocketIO)
      requires Retires(io)
      ensures objs == old(objs) - {old(io.serial)} && Repr == old(Repr) && next == old(next)
    {
    }

    lemma NotRecycled(io: AsyncSocketIO)
      requires Valid() && Linked(io)
      ensures recycler.Valid() && io !in recycler.pool
      ensures {this, readers, writers, recycler} <= Repr && (forall o | o in recycler.pool :: o in Repr) && io in Repr
      ensures io in objs.Values
    {
    }

    twostate predicate Retires(io: AsyncSocketIO)
      reads this, Repr, io, recycler, recycler.pool
    {
      && old(Linked(io)) && old(io !in readers.items) && old(io !in writers.items) && old(io !in recycler.pool)
      && Repr == old(Repr) && next == old(next) && unchanged(old(Repr) - {this, io, recycler})
      && objs == old(objs) - {old(io.serial)} && archive == old(archive)[old(io.serial) := io.Record()]
      && io.serial == old(io.serial) && io.Record() == old(io.Record()).(live := false)
      && recycler.Valid() && (recycler.pool == old(recycler.pool) || recycler.pool == [io] + old(recycler.pool))
    }

    twostate lemma Retired(io: AsyncSocketIO)
      requires old(Valid()) && Retires(io)
      ensures Valid() && Records() == old(Records())[old(io.serial) := old(io.Record()).(live := false)]
      ensures Serials(readers.items) == old(Serials(readers.items)) && Serials(writers.items) == old(Serials(writers.items))
    {
      RetiredTable(io);
      RetiredParts(io);
      RetiredLists(io);
      hide Owned, Table, Members, Lists, Retires, Records, Serials;
    }

    twostate lemma RetiredTable(io: AsyncSocketIO)
      requires old(Owned()) && old(Table()) && Retires(io)
      ensures Table() && Records() == old(Records())[old(io.serial) := old(io.Record()).(live := false)]
    {
      RetiredLive(io);
      RetireIn(old(archive), old(LiveRecords()), old(io.serial), io.Record());
      hide LiveRecords, Owned;
    }

    twostate lemma RetiredLive(io: AsyncSocketIO)
      requires old(Owned()) && old(Table()) && Retires(io)
      ensures LiveRecords() == old(LiveRecords()) - {old(io.serial)} && old(io.serial) in old(LiveRecords())
      ensures forall k | k in objs :: objs[k].serial == k && objs[k].live
    {
      forall k | k in objs
        ensures objs[k] == old(objs[k]) && objs[k].Record() == old(objs[k].Record()) && objs[k].serial == k && objs[k].live
      {
        assert objs[k] != io;
      }
    }

    static lemma RetireIn(archive: map<nat, Io>, live: map<nat, Io>, k: nat, io: Io)
      requires k in live && archive.Keys !! live.Keys
      ensures archive[k := io] + (live - {k}) == (archive + live)[k := io]
    {
    }

    twostate lemma RetiredParts(io: AsyncSocketIO)
      requires old(Owned()) && old(Members()) && Retires(io)
      ensures Owned() && Members()
      ensures Serials(readers.items) == old(Serials(readers.items)) && Serials(writers.items) == old(Serials(writers.items))
    {
    }

    twostate lemma RetiredLists(io: AsyncSocketIO)
      requires old(Owned()) && old(Lists()) && Retires(io)
      ensures Lists()
    {
      hide Chain;
    }

    // ----- moving bytes -------------------------------------------------------------------

    /** The first descriptor of a queue moves bytes. */
    method Transfer(io: AsyncSocketIO, isRead: bool, chunk: seq<Byte>)
      requires Valid() && Linked(io) && io.transferred + |chunk| <= |io.buffer|
      modifies this, io
      ensures Valid() && io.serial == old(io.serial) && Linked(io) && objs == old(objs) && Repr == old(Repr) && next == old(next)
      ensures old(io.serial) in old(Abs()).ios && old(Abs()).ios[old(io.serial)] == old(io.Record())
      ensures Abs() == Steps.Transfer(old(Abs()), isRead, old(io.serial), chunk)
    {
      hide Valid, Abs;
      LinkedIs(io);
      if isRead {
        io.buffer := io.buffer[..io.transferred] + chunk + io.buffer[io.transferred + |chunk|..];
      }
      io.transferred := io.transferred + |chunk|;
      Changed(io);
      Count(isRead, chunk);
    }

    ghost method Count(isRead: bool, chunk: seq<Byte>)
      requires Valid()
      modifies this
      ensures Valid() && objs == old(objs) && Repr == old(Repr) && next == old(next)
      ensures Abs() == if isRead then old(Abs()).(inBytes := old(Abs()).inBytes + chunk)
                       else old(Abs()).(outBytes := old(Abs()).outBytes + chunk)
    {
      hide Owned, Table, Members, Lists, Records, Serials;
      if isRead {
        inBytes := inBytes + chunk;
      } else {
        outBytes := outBytes + chunk;
      }
      Scalar();
    }

    // ----- the client and releases --------------------------------------------------------

    ghost function Who(io: AsyncSocketIO?): Option<nat>
      reads io
    {
      if io == null then None else Some(io.serial)
    }

    /** A descriptor that is still alive is the same object. */
    twostate lemma StillThere(io: AsyncSocketIO)
      requires old(Valid()) && old(Linked(io)) && Valid() && Persists()
      requires old(io.serial) in Abs().ios && Abs().ios[old(io.serial)].live
      ensures Linked(io) && io.serial == old(io.serial)
    {
      hide Members, Lists, Serials;
    }

    lemma NotItems(io: AsyncSocketIO)
      requires Valid() && Linked(io) && !InQueue(Abs(), io.serial)
      ensures io !in readers.items && io !in writers.items
    {
      SerialsAre(true);
      SerialsAre(false);
      hide Valid, Abs;
    }

    /** Client code inside a callback; `who` is why the socket outlives it. */
    method Client(ghost who: AsyncSocketIO?) returns (a: Action)
      requires Valid() && Inv(Abs()) && (who != null ==> Linked(who)) && Anchored(Abs(), Who(who))
      modifies Repr
      ensures Valid() && fresh(Repr - old(Repr)) && Persists()
      ensures (Abs(), a) == Spec.Client(old(Abs()))
      ensures who != null ==> Linked(who) && who.serial == old(who.serial)
      decreases |tape|, QueueSize(Abs()), 0
    {
      hide Valid, Abs, Inv, Anchored, Spec.Client, Spec.Decide;
      TapeIs();
      if tape == [] {
        ClientIs(Abs());
        return Done;
      }
      ThisOwned();
      ClientSteps(Abs(), Who(who));
      var d := PopDecision();
      if d.Answer? {
        return d.action;
      }
      TapeIs();
      a := GoOn(d, who);
    }

    /** Does what the client decided, and asks what it decides next. */
    method GoOn(d: Decision, ghost who: AsyncSocketIO?) returns (a: Action)
      requires Valid() && Inv(Abs()) && (who != null ==> Linked(who)) && Anchored(Abs(), Who(who)) && !d.Answer?
      requires var u := Spec.Decide(Abs(), d); Inv(u) && Anchored(u, Who(who)) && |u.tape| <= |tape|
      modifies Repr
      ensures Valid() && fresh(Repr - old(Repr)) && Persists()
      ensures (Abs(), a) == Spec.Client(Spec.Decide(old(Abs()), d))
      ensures who != null ==> Linked(who) && who.serial == old(who.serial)
      decreases |tape|
    {
      hide Valid, Abs, Inv, Anchored, Spec.Client, Spec.Decide;
      TapeIs();
      Decide(d, who);
      TapeIs();
      a := Client(who);
    }

    lemma TapeIs()
      requires Valid()
      ensures Abs().tape == tape && Abs().refCount == refCount && Abs().clientRefs == clientRefs && Abs().connected == connected
      ensures Abs().attempts == attempts && Abs().reconnect == reconnect
      ensures Abs().next == next && Abs().held == held && Abs().readers == Serials(readers.items) && Abs().writers == Serials(writers.items)
    {
    }

    /** One decision of the client other than an answer. */
    method Decide(d: Decision, ghost who: AsyncSocketIO?)
      requires Valid() && Inv(Abs()) && (who != null ==> Linked(who)) && Anchored(Abs(), Who(who)) && !d.Answer?
      modifies Repr
      ensures Valid() && fresh(Repr - old(Repr)) && Persists()
      ensures Abs() == Spec.Decide(old(Abs()), d)
      ensures who != null ==> Linked(who) && who.serial == old(who.serial)
      decreases |tape|, QueueSize(Abs()), 11
    {
      hide Valid, Abs, Inv, Anchored, Called, Spec.Decide, Spec.Enqueue, Spec.KeepSock, Spec.DropSock, Spec.Keep, Spec.ReleaseIo;
      DecideOk(Abs(), d, Who(who));
      WhoLives(who);
      Carry(d, who);
      if who != null { StillThere(who); }
    }

    /** Does what the client decided. */
    method Carry(d: Decision, ghost who: AsyncSocketIO?)
      requires Valid() && Inv(Abs()) && (who != null ==> Linked(who)) && Anchored(Abs(), Who(who)) && !d.Answer?
      modifies Repr
      ensures Valid() && fresh(Repr - old(Repr)) && Persists()
      ensures Abs() == Spec.Decide(old(Abs()), d)
      decreases |tape|, QueueSize(Abs()), 10
    {
      hide Valid, Abs, Inv, Anchored, Spec.Enqueue, Spec.KeepSock, Spec.DropSock, Spec.Keep, Spec.ReleaseIo, Spec.StopIoTimer;
      TapeIs();
      ThisOwned();
      AnchorHolds(Abs(), Who(who));
      AnchorRefs(Abs());
      match d
      case QueueIo(isRead, buffer) => { Enqueue(isRead, buffer, Who(who)); }
      case KeepSocket => { KeepSock(); }
      case DropSocket => { DropSock(); }
      case KeepIo(k) => {
        NameIs(k);
        if k in objs { KeepIo(objs[k]); }
      }
      case DropIo(k) => {
        NameIs(k);
        if k in objs { ReleaseIo(objs[k]); }
      }
      case StopTimer(k) => {
        NameIs(k);
        if k in objs { StopTimer(objs[k]); }
      }
    }

    lemma AnchorRefs(s: Sock)
      requires Inv(s) && s.refCount > s.clientRefs
      ensures s.refCount > 0
    {
      NoFault(s);
      hide Inv;
    }

    /** The client's name for a descriptor is good as long as the descriptor is alive. */
    lemma NameIs(k: nat)
      requires Valid() && Inv(Abs())
      ensures if k in objs then Linked(objs[k]) && objs[k].serial == k && objs[k] in Repr && At(Abs(), k).live
              else Keep(Abs(), k) == Abs() && Spec.ReleaseIo(Abs(), k) == Abs() && !At(Abs(), k).live
    {
      NameIn(k);
      if k in objs {
        LinkedIs(objs[k]);
      } else if k in Abs().ios {
        About(Abs(), k);
      }
      hide Valid, Abs, Inv, Spec.IoRelease;
    }

    lemma NameIn(k: nat)
      requires Valid()
      ensures if k in objs then Linked(objs[k]) && objs[k].serial == k && objs[k] in Repr
              else k in Abs().ios ==> !Abs().ios[k].live
    {
      hide Members, Lists, Serials;
    }

    /** async_socket_io_release by the client, of a reference that it has. */
    method ReleaseIo(io: AsyncSocketIO)
      requires Valid() && Inv(Abs()) && Linked(io)
      modifies Repr
      ensures Valid() && fresh(Repr - old(Repr)) && Persists()
      ensures Abs() == Spec.ReleaseIo(old(Abs()), old(io.serial))
      decreases |tape|, QueueSize(Abs()), 8
    {
      hide Valid, Abs, Inv, AtRest, InQueue, Spec.IoRelease, Lent;
      LinkedIs(io);
      WhoOwned(io);
      TapeIs();
      if io.clientRefs > 0 {
        LentIo(Abs(), io.serial);
        LendIo(io);
        TapeIs();
        LinkedIs(io);
        IoRelease(io);
      }
    }

    method LendIo(io: AsyncSocketIO)
      requires Valid() && Linked(io)
      modifies io`clientRefs, io`held
      ensures Valid() && Linked(io) && io.serial == old(io.serial)
      ensures Abs() == Lent(old(Abs()), io.serial)
      ensures Abs().tape == old(Abs()).tape && QueueSize(Abs()) == QueueSize(old(Abs()))
    {
      hide Valid, Abs;
      LinkedIs(io);
      io.clientRefs, io.held := io.clientRefs - 1, io.held + 1;
      Changed(io);
    }

    lemma WhoOwned(io: AsyncSocketIO)
      requires Valid() && Linked(io)
      ensures io in Repr
    {
    }

    /** Calls made in a callback do not end the life of the descriptor that holds the socket. */
    lemma WhoLives(who: AsyncSocketIO?)
      requires Valid() && (who != null ==> Linked(who)) && Anchored(Abs(), Who(who))
      ensures who != null ==>
                forall r | Called(Abs(), r) :: who.serial in r.ios && r.ios[who.serial].live
    {
      hide Valid, Abs, Anchored, Grows;
      forall r | Called(Abs(), r)
        ensures who != null ==> who.serial in r.ios && r.ios[who.serial].live
      {
        AnchorGrows(Abs(), r, Who(who));
      }
    }

    /** async_socket_release by the client, of a reference that it has. */
    method DropSock()
      requires Valid() && Inv(Abs())
      modifies Repr
      ensures Valid() && fresh(Repr - old(Repr)) && Persists()
      ensures Abs() == Spec.DropSock(old(Abs()))
      decreases |tape|, QueueSize(Abs()), 8
    {
      hide Valid, Abs, Inv, Spec.SockRelease;
      TapeIs();
      ThisOwned();
      if clientRefs > 0 {
        LentOk(Abs());
        NoFault(Abs());
        LendRef();
        TapeIs();
        SockRelease();
      }
    }

    /** Drops a reference to the socket that running code holds. */
    method SockRelease()
      requires Valid() && Inv(Abs()) && held > 0
      modifies Repr
      ensures Valid() && fresh(Repr - old(Repr)) && Persists()
      ensures Abs() == Spec.SockRelease(old(Abs()))
      decreases |tape|, QueueSize(Abs()), 5
    {
      hide Valid, Abs, Inv, Spec.CancelAll;
      TapeIs();
      ThisOwned();
      ReleaseFacts(Abs());
      DropSockRef();
      TapeIs();
      if refCount == 0 {
        CancelAll();
        ThisOwned();
        CloseSocket();
        SetFreed();
      }
    }

    /** Calls the callback of a descriptor. */
    method Notify(io: AsyncSocketIO, event: State) returns (a: Action)
      requires Valid() && Inv(Abs()) && Linked(io) && (io.held > 0 || io.refCount == 0)
      modifies Repr
      ensures Valid() && fresh(Repr - old(Repr)) && Persists()
      ensures (Abs(), a) == Spec.Notify(old(Abs()), old(io.serial), event)
      ensures Linked(io) && io.serial == old(io.serial)
      decreases |tape|, QueueSize(Abs()), 1
    {
      hide Valid, Abs, Inv, Spec.Client, Spec.Notify;
      LinkedIs(io);
      NotifyIs(Abs(), io.serial, event);
      a := Client(io);
      LinkedIs(io);
      WriteDown(io, Spec.Note.Note(event, a, io.transferred));
    }

    /** Drops a reference that running code holds on a descriptor. */
    method IoRelease(io: AsyncSocketIO)
      requires Valid() && Inv(Abs()) && Linked(io) && io.held > 0
      requires io.held == 1 ==> AtRest(io.Record(), InQueue(Abs(), io.serial))
      modifies Repr
      ensures Valid() && fresh(Repr - old(Repr)) && Persists()
      ensures Abs() == Spec.IoRelease(old(Abs()), old(io.serial))
      decreases |tape|, QueueSize(Abs()), 7
    {
      hide Valid, Abs, Inv, AtRest, InQueue, Spec.Notify, Spec.SockRelease, Spec.IoRelease, Spec.Bury;
      LinkedIs(io);
      IoReleaseSteps(Abs(), io.serial);
      TapeIs();
      WhoOwned(io);
      Drop(io);
      TapeIs();
      if io.refCount == 0 {
        Finish(io);
      }
    }

    /** Tells a descriptor its ending and drops the reference in hand. */
    method Conclude(io: AsyncSocketIO, event: State)
      requires Valid() && Inv(Abs()) && Linked(io) && io.held > 0
      requires var k, n := io.serial, Spec.Notify(Abs(), io.serial, event).0;
               Inv(n) && k in n.ios && n.ios[k].live && n.ios[k].held > 0 && AtRest(n.ios[k], InQueue(n, k))
      modifies Repr
      ensures Valid() && fresh(Repr - old(Repr)) && Persists()
      ensures Abs() == Spec.IoRelease(Spec.Notify(old(Abs()), old(io.serial), event).0, old(io.serial))
      decreases |tape|, QueueSize(Abs()), 8
    {
      hide Valid, Abs, Inv, AtRest, InQueue, Spec.Notify, Spec.IoRelease;
      TapeIs();
      var _ := Notify(io, event);
      TapeIs();
      LinkedIs(io);
      IoRelease(io);
    }

    /** The last words to a descriptor, and its end. */
    method Finish(io: AsyncSocketIO)
      requires Valid() && Inv(Abs()) && Linked(io) && io.refCount == 0
      requires var k, n := io.serial, Spec.Notify(Abs(), io.serial, Finished).0;
               k in n.ios && n.ios[k].live && !InQueue(n, k) && Inv(Bury(n, k)) && Bury(n, k).held > 0
      modifies Repr
      ensures Valid() && fresh(Repr - old(Repr)) && Persists()
      ensures Abs() == Spec.SockRelease(Bury(Spec.Notify(old(Abs()), old(io.serial), Finished).0, old(io.serial)))
      decreases |tape|, QueueSize(Abs()), 6, 1
    {
      hide Valid, Abs, Inv, Spec.Notify, Spec.SockRelease, Spec.Bury;
      TapeIs();
      var _ := Notify(io, Finished);
      TapeIs();
      Perish(io);
    }

    /** The end of a descriptor, and of its reference to the socket. */
    method Perish(io: AsyncSocketIO)
      requires Valid() && Linked(io) && !InQueue(Abs(), io.serial)
      requires var b := Bury(Abs(), io.serial); Inv(b) && b.held > 0
      modifies Repr
      ensures Valid() && fresh(Repr - old(Repr)) && Persists()
      ensures Abs() == Spec.SockRelease(Bury(old(Abs()), old(io.serial)))
      decreases |tape|, QueueSize(Abs()), 6, 0
    {
      hide Valid, Abs, Inv, Spec.SockRelease, Spec.Bury;
      TapeIs();
      BuriedHeld(Abs(), io.serial);
      NotItems(io);
      WhoOwned(io);
      ThisOwned();
      Free(io);
      TapeIs();
      SockRelease();
    }

    /** Cancels everything in one queue, first to last. */
    method CancelQueue(isRead: bool)
      requires Valid()
      requires Queue(Abs(), isRead) == [] || (Inv(Abs()) && Abs().held > 0 && ActiveQueue(Abs(), isRead))
      modifies Repr
      ensures Valid() && fresh(Repr - old(Repr)) && Persists()
      ensures Abs() == Spec.CancelQueue(old(Abs()), isRead)
      decreases |tape|, QueueSize(Abs()), 2
    {
      hide Valid, Abs, Inv, Spec.CancelQueue, ActiveQueue;
      SerialsAre(isRead);
      while QueueOf(isRead).head != null
        invariant Valid() && fresh(Repr - old(Repr)) && Persists()
        invariant Queue(Abs(), isRead) == [] || (Inv(Abs()) && Abs().held > 0 && ActiveQueue(Abs(), isRead))
        invariant Spec.CancelQueue(Abs(), isRead) == Spec.CancelQueue(old(Abs()), isRead)
        invariant QueueOf(isRead).head == null <==> Queue(Abs(), isRead) == []
        invariant |Queue(Abs(), isRead)| == |QueueOf(isRead).items|
        invariant |tape| < |old(tape)| || (|tape| == |old(tape)| && QueueSize(Abs()) <= QueueSize(old(Abs())))
        decreases |tape|, QueueSize(Abs())
      {
        CancelNext(isRead);
        SerialsAre(isRead);
      }
      CancelNone(Abs(), isRead);
    }

    /** Takes the first of a queue out of it and stops its timer. */
    method PullStopped(isRead: bool) returns (io: AsyncSocketIO)
      requires Valid() && QueueOf(isRead).items != []
      modifies Repr
      ensures Valid() && Repr == old(Repr) && objs == old(objs) && next == old(next) && tape == old(tape)
      ensures Queue(old(Abs()), isRead) != [] && Linked(io) && io.serial == Queue(old(Abs()), isRead)[0]
      ensures Abs() == StopIoTimer(Unlink(old(Abs()), isRead, 0), Queue(old(Abs()), isRead)[0])
    {
      hide Valid, Abs, Spec.Unlink, Spec.StopIoTimer;
      FirstSerial(isRead);
      ListsApart(isRead);
      ThisOwned();
      io := PullFirst(isRead);
      WhoOwned(io);
      StopTimer(io);
    }

    /** Cancels the first of a queue. */
    method CancelNext(isRead: bool)
      requires Valid() && QueueOf(isRead).items != [] && Inv(Abs()) && Abs().held > 0 && ActiveQueue(Abs(), isRead)
      modifies Repr
      ensures Valid() && fresh(Repr - old(Repr)) && Persists()
      ensures Inv(Abs()) && Abs().held > 0 && ActiveQueue(Abs(), isRead)
      ensures Spec.CancelQueue(Abs(), isRead) == Spec.CancelQueue(old(Abs()), isRead)
      ensures |tape| < |old(tape)| || (|tape| == |old(tape)| && QueueSize(Abs()) < QueueSize(old(Abs())))
      decreases |tape|, QueueSize(Abs()), 1
    {
      hide Valid, Abs, Inv, ActiveQueue, AtRest, Local, FirstGone, InQueue;
      hide Spec.CancelQueue, Spec.Notify, Spec.IoRelease, Spec.Unlink, Spec.StopIoTimer;
      TapeIs();
      ghost var s := Abs();
      FirstSerial(isRead);
      CancelFirstIs(s, isRead);
      var io := PullStopped(isRead);
      LinkedIs(io);
      TapeIs();
      Conclude(io, Cancelled);
      TapeIs();
    }

    method BeginCancel()
      requires Valid()
      modifies this
      ensures Valid() && Abs() == Begin(old(Abs()))
      ensures objs == old(objs) && Repr == old(Repr) && next == old(next)
    {
      hide Valid, Abs, Spec.SetWant;
      SetReconnect(false);
      SetWant(false, false);
      SetWant(true, false);
      SetPass(ReadPass);
    }

    method CancelAll()
      requires Valid()
      requires (Abs().readers == [] && Abs().writers == []) ||
               (Inv(Abs()) && Abs().held > 0 && ActiveQueue(Abs(), true) && ActiveQueue(Abs(), false))
      modifies Repr
      ensures Valid() && fresh(Repr - old(Repr)) && Persists()
      ensures Abs() == Spec.CancelAll(old(Abs()))
      decreases |tape|, QueueSize(Abs()), 4
    {
      hide Valid, Abs, Inv, ActiveQueue, Begin, Spec.CancelQueue, Spec.CancelAll;
      TapeIs();
      ghost var s := Abs();
      CancelSteps(s);
      CancelAllIs(s);
      BeginQueues(s);
      ThisOwned();
      BeginCancel();
      TapeIs();
      CancelQueue(true);
      TapeIs();
      CancelRest();
    }

    method CancelRest()
      requires Valid()
      requires var s := Abs().(pass := WritePass); Queue(s, false) == [] || (Inv(s) && s.held > 0 && ActiveQueue(s, false))
      modifies Repr
      ensures Valid() && fresh(Repr - old(Repr)) && Persists()
      ensures Abs() == Spec.CancelQueue(old(Abs()).(pass := WritePass), false).(pass := NoPass, orphaned := false)
      decreases |tape|, QueueSize(Abs()), 3
    {
      hide Valid, Abs, Inv, ActiveQueue, Spec.CancelQueue;
      TapeIs();
      ThisOwned();
      SetPass(WritePass);
      TapeIs();
      CancelQueue(false);
      ThisOwned();
      EndCancel();
    }

    lemma ThisOwned()
      requires Valid()
      ensures this in Repr && readers in Repr && writers in Repr && recycler in Repr
    {
    }

    /** async_socket_read_abs and async_socket_write_abs. */
    method Enqueue(isRead: bool, buffer: seq<Byte>, ghost anchor: Option<nat>)
      requires Valid() && Inv(Abs()) && Anchored(Abs(), anchor)
      modifies Repr
      ensures Valid() && fresh(Repr - old(Repr)) && Persists()
      ensures Abs() == Spec.Enqueue(old(Abs()), isRead, buffer)
      decreases |tape|, QueueSize(Abs()), 9
    {
      hide Valid, Abs, Inv, AtRest, InQueue, Spec.Notify, Spec.IoRelease, Spec.RwNew, Spec.Append, Spec.SetWant, Spec.Enqueue;
      TapeIs();
      ThisOwned();
      EnqueueIs(Abs(), isRead, buffer);
      EnqueueSteps(Abs(), isRead, buffer, anchor);
      var io := RwNew(isRead, buffer);
      TapeIs();
      if connected {
        Admission(io, isRead);
      } else {
        Conclude(io, Failed);
      }
    }

    method Admission(io: AsyncSocketIO, isRead: bool)
      requires Valid() && Linked(io) && io.next == null && io !in readers.items && io !in writers.items
      modifies Repr
      ensures Valid() && Abs() == Spec.SetWant(Spec.Append(old(Abs()), isRead, old(io.serial)), isRead, true)
      ensures objs == old(objs) && Repr == old(Repr) && next == old(next)
    {
      hide Valid, Abs, Spec.Append, Spec.SetWant;
      WhoOwned(io);
      ThisOwned();
      ListsApart(isRead);
      Append(io, isRead);
      SetWant(isRead, true);
    }
    // ----- one readable or writable event -------------------------------------------------

    method Rearm(isRead: bool)
      requires Valid()
      modifies this
      ensures Valid() && Abs() == Steps.Rearm(old(Abs()), isRead)
      ensures objs == old(objs) && Repr == old(Repr) && next == old(next)
    {
      hide Valid, Abs;
      SerialsAre(isRead);
      SetWant(isRead, QueueOf(isRead).head != null);
    }

    /** Takes the first descriptor out of its queue while a callback works on it. */
    method Advance(io: AsyncSocketIO, isRead: bool)
      requires Valid() && Linked(io) && Busy(Abs(), io.serial)
      requires Queue(Abs(), isRead) != [] && Queue(Abs(), isRead)[0] == io.serial
      modifies Repr
      ensures Valid() && fresh(Repr - old(Repr)) && Persists() && Linked(io) && io.serial == old(io.serial)
      ensures Abs() == Steps.Advance(old(Abs()), isRead)
    {
      hide Valid, Abs, Inv, Quiet, Stage, Spec.Unlink, Spec.IoRelease, Spec.Bury, AtRest, SameConnection;
      ghost var s, k := Abs(), io.serial;
      AdvanceOk(s, isRead, k);
      UnlinkOk(s, isRead, 0);
      UnlinkAt(s, isRead, 0, k);
      SerialsAre(isRead);
      ListsApart(isRead);
      ThisOwned();
      var first := PullFirst(isRead);
      SameSerial(first, io);
      LinkedIs(io);
      IoRelease(io);
      StillThere(io);
    }

    /** Serial numbers tell the live descriptors apart. */
    lemma SameSerial(a: AsyncSocketIO, b: AsyncSocketIO)
      requires Linked(a) && Linked(b) && a.serial == b.serial
      ensures a == b
    {
    }

    /** Stops the timer and reports one of the events that settle an I/O. */
    method Report(io: AsyncSocketIO, event: State) returns (a: Action)
      requires Valid() && Linked(io) && Inv(Abs()) && io.held > 0
      modifies Repr
      ensures Valid() && fresh(Repr - old(Repr)) && Persists() && Linked(io) && io.serial == old(io.serial)
      ensures (Abs(), a) == Steps.Report(old(Abs()), old(io.serial), event)
    {
      hide Valid, Abs, Inv, Spec.Notify, Spec.StopIoTimer, Called;
      LinkedIs(io);
      StopOk(Abs(), io.serial);
      StopTimer(io);
      a := Notify(io, event);
    }

    /** Ends a callback on a descriptor that is out of its queue. */
    method Leave(io: AsyncSocketIO, isRead: bool)
      requires Valid() && Linked(io) && Leaving(Abs(), io.serial)
      modifies Repr
      ensures Valid() && fresh(Repr - old(Repr)) && Persists()
      ensures Abs() == Spec.IoRelease(Steps.Rearm(old(Abs()), isRead), old(io.serial))
    {
      hide Valid, Abs, Inv, Quiet, Stage, InQueue, Spec.IoRelease, Spec.Bury, Steps.Rearm, AtRest;
      RearmOk(Abs(), isRead, io.serial);
      ThisOwned();
      Rearm(isRead);
      LeavingAtRest(Abs(), io.serial);
      LinkedIs(io);
      IoRelease(io);
    }

    /** Ends a callback on a descriptor that stays first in its queue. */
    method Stay(io: AsyncSocketIO, isRead: bool)
      requires Valid() && Linked(io) && Trying(Abs(), isRead, io.serial)
      modifies Repr
      ensures Valid() && fresh(Repr - old(Repr)) && Persists()
      ensures Abs() == Spec.IoRelease(old(Abs()), old(io.serial))
    {
      hide Valid, Abs, Inv, Quiet, Stage, InQueue, Spec.IoRelease, AtRest;
      TryingAtRest(Abs(), isRead, io.serial);
      LinkedIs(io);
      IoRelease(io);
    }

    /** _on_async_socket_disconnected, while a callback works on a descriptor. */
    method Disconnected(io: AsyncSocketIO)
      requires Valid() && Linked(io) && Cancellable(Abs(), Some(io.serial))
      modifies Repr
      ensures Valid() && fresh(Repr - old(Repr)) && Persists() && Linked(io) && io.serial == old(io.serial)
      ensures Abs() == Steps.Disconnected(old(Abs()))
    {
      hide Valid, Abs, Inv, Quiet, Stage, InQueue, Spec.CancelAll, Spec.Close, Spec.Client, CancelsAll, SameConnection, Called, ActiveQueue;
      ghost var s, k := Abs(), io.serial;
      CancellableActive(s, Some(k), true);
      CancellableActive(s, Some(k), false);
      CancelClose(s, Some(k));
      ClientQuiet(Close(Spec.CancelAll(s)), Some(k));
      DisconnectedOk(s, k);
      CancelAll();
      ThisOwned();
      CloseSocket();
      var a := Client(null);
      if a == Retry {
        ghost var u := Abs();
        CancellableActive(u, Some(k), true);
        CancellableActive(u, Some(k), false);
        CancelAll();
        ThisOwned();
        SetReconnect(true);
      }
      StillThere(io);
    }
    /** The kernel reported an error. */
    method Fail(io: AsyncSocketIO, isRead: bool)
      requires Valid() && Linked(io) && Trying(Abs(), isRead, io.serial)
      modifies Repr
      ensures Valid() && fresh(Repr - old(Repr)) && Persists()
      ensures var (t, a) := Steps.Report(old(Abs()), old(io.serial), Failed);
              Abs() == Spec.IoRelease(if a != Retry then Steps.Rearm(Steps.Advance(t, isRead), isRead) else t, old(io.serial))
    {
      hide Valid, Abs, Inv, Quiet, Stage, InQueue, Spec.IoRelease, Steps.Rearm, Steps.Advance, Steps.Report, Fits, AtRest, SameConnection, IosGrow;
      LinkedIs(io);
      ghost var s, k := Abs(), io.serial;
      FailedFits(s.ios[k]);
      ReportOk(s, k, Failed);
      var a := Report(io, Failed);
      ReportedHead(s, Abs(), isRead, k, Failed, a);
      if a != Retry {
        AdvanceOk(Abs(), isRead, k);
        RefOnly(Abs(), Steps.Advance(Abs(), isRead), k);
        Advance(io, isRead);
        Leave(io, isRead);
      } else {
        Stay(io, isRead);
      }
    }

    /** The I/O is complete. */
    method Complete(io: AsyncSocketIO, isRead: bool)
      requires Valid() && Linked(io) && Busy(Abs(), io.serial)
      requires Queue(Abs(), isRead) != [] && Queue(Abs(), isRead)[0] == io.serial
      requires var o := Abs().ios[io.serial]; Stage(o) == Running && o.transferred == |o.buffer| && o.accepted
      modifies Repr
      ensures Valid() && fresh(Repr - old(Repr)) && Persists()
      ensures Abs() == Spec.IoRelease(Steps.Rearm(Steps.Report(Steps.Advance(old(Abs()), isRead), old(io.serial), Succeeded).0, isRead), old(io.serial))
    {
      hide Valid, Abs, Inv, Quiet, Stage, InQueue, Spec.IoRelease, Steps.Rearm, Steps.Advance, Steps.Report, Fits, AtRest, SameConnection, IosGrow;
      ghost var s, k := Abs(), io.serial;
      AdvanceOk(s, isRead, k);
      ghost var t := Steps.Advance(s, isRead);
      RefOnly(s, t, k);
      SucceededFits(t.ios[k]);
      ReportOk(t, k, Succeeded);
      Advance(io, isRead);
      LinkedIs(io);
      var a := Report(io, Succeeded);
      ReportedHead(t, Abs(), isRead, k, Succeeded, a);
      Leave(io, isRead);
    }

    /** Nothing was moved, and nothing can be for now: interest stays on. */
    method Yield(io: AsyncSocketIO, isRead: bool)
      requires Valid() && Linked(io) && Trying(Abs(), isRead, io.serial)
      modifies Repr
      ensures Valid() && fresh(Repr - old(Repr)) && Persists()
      ensures Abs() == Spec.IoRelease(Spec.SetWant(old(Abs()), isRead, true), old(io.serial))
      ensures Abs() == Spec.IoRelease(Steps.Rearm(old(Abs()), isRead), old(io.serial))
    {
      hide Valid, Abs, Inv, Stage, Spec.IoRelease, AtRest;
      WantOk(Abs(), isRead, true);
      ThisOwned();
      SetWant(isRead, true);
      Stay(io, isRead);
    }

    /** What recv or send answered. */
    method Attempt(io: AsyncSocketIO, isRead: bool, outcome: Outcome) returns (ok: bool)
      requires Valid() && Linked(io) && Trying(Abs(), isRead, io.serial) && Abs().connected && Abs().held > 0
      modifies Repr
      ensures Valid() && fresh(Repr - old(Repr)) && Persists()
      ensures (Abs(), ok) == Steps.Attempt(old(Abs()), isRead, old(io.serial), outcome)
    {
      hide Valid, Abs, Inv, Stage, Spec.IoRelease, Spec.SetWant, Steps.Report, Steps.Rearm, Steps.Advance, Steps.Disconnected, Steps.Transfer,
           Quiet, Chunk, InQueue;
      ghost var s, k := Abs(), io.serial;
      LinkedIs(io);
      match outcome
      case WouldBlock => { Yield(io, isRead); return true; }
      case Error => { Fail(io, isRead); return false; }
      case Moved(bytes) => {
        QueuedAre(s, isRead);
        var chunk := Bytes(io, bytes);
        if chunk == [] {
          TryingCancellable(s, isRead, k);
          DisconnectedOk(s, k);
          Disconnected(io);
          LeavingAtRest(Abs(), k);
          LinkedIs(io);
          IoRelease(io);
          return false;
        }
        Transferred(s, isRead, k, bytes);
        WhoOwned(io);
        ThisOwned();
        Transfer(io, isRead, chunk);
        LinkedIs(io);
        if io.transferred == |io.buffer| {
          Complete(io, isRead);
        } else {
          Yield(io, isRead);
        }
        return true;
      }
    }

    /** The kernel moves no more than it is asked to. */
    method Bytes(io: AsyncSocketIO, bytes: seq<Byte>) returns (chunk: seq<Byte>)
      ensures chunk == Chunk(io.Record(), bytes)
    {
      var room := |io.buffer| - io.transferred;
      var n := if |bytes| <= room then |bytes| else room;
      if n <= 0 {
        chunk := [];
      } else if io.isRead {
        chunk := bytes[..n];
      } else {
        chunk := io.buffer[io.transferred..io.transferred + n];
      }
    }

    /** _on_async_socket_recv and _on_async_socket_send; the answer is success. */
    method Ready(isRead: bool, outcome: Outcome) returns (ok: bool)
      requires Valid() && Inv(Abs()) && Quiet(Abs(), None) && Abs().connected && Abs().held > 0
      modifies Repr
      ensures Valid() && fresh(Repr - old(Repr)) && Persists()
      ensures (Abs(), ok) == Steps.Ready(old(Abs()), isRead, outcome)
    {
      hide Valid, Abs, Inv, Stage, Spec.IoRelease, Spec.SetWant, Steps.Rearm, Steps.Advance, Steps.Attempt, Spec.Notify, Steps.Bump, Spec.IoRef,
           Busy, SameConnection, Quiet;
      SerialsAre(isRead);
      var io := QueueOf(isRead).head;
      if io == null {
        ThisOwned();
        SetWant(isRead, false);
        return true;
      }
      ghost var k := Queue(Abs(), isRead)[0];
      ghost var s := Abs();
      HeadIs(isRead);
      LinkedIs(io);
      InformTry(s, isRead);
      StartKeeps(s, k);
      var a := Inform(io);
      SamePass(s, Abs());
      if a == Abort {
        AbortTry(io, isRead);
        return true;
      }
      ok := Attempt(io, isRead, outcome);
    }

    /** The head of a list is the first of the queue. */
    lemma HeadIs(isRead: bool)
      requires Valid() && QueueOf(isRead).head != null
      ensures var io := QueueOf(isRead).head; Queue(Abs(), isRead) != [] && Linked(io) && io.serial == Queue(Abs(), isRead)[0]
    {
      SerialsAre(isRead);
      FirstSerial(isRead);
      ListsApart(isRead);
      hide Valid, Abs;
    }

    lemma HeldIs(io: AsyncSocketIO)
      requires Valid() && Inv(Abs()) && Linked(io)
      ensures io.held >= 0
    {
      LinkedIs(io);
      About(Abs(), io.serial);
      hide Valid, Abs, Inv;
    }

    /** Counts a callback that is about to run, and tells the client that the I/O is in progress. */
    method Inform(io: AsyncSocketIO) returns (a: Action)
      requires Valid() && Linked(io) && Inv(Abs()) && io.refCount > 0
      requires Inv(Steps.Bump(Spec.IoRef(Abs(), io.serial), io.serial))
      modifies Repr
      ensures Valid() && fresh(Repr - old(Repr)) && Persists() && Linked(io) && io.serial == old(io.serial)
      ensures var t := Steps.Bump(Spec.IoRef(old(Abs()), old(io.serial)), old(io.serial));
              (Abs(), a) == Spec.Notify(t, old(io.serial), At(t, old(io.serial)).state)
    {
      hide Valid, Abs, Inv, Spec.Notify, Steps.Bump, Spec.IoRef;
      WhoOwned(io);
      HeldIs(io);
      IoRef(io);
      Bump(io);
      LinkedIs(io);
      a := Notify(io, io.state);
    }

    /** The client aborted the I/O when it was informed. */
    method AbortTry(io: AsyncSocketIO, isRead: bool)
      requires Valid() && Linked(io) && Busy(Abs(), io.serial) && Stage(Abs().ios[io.serial]) == Ended
      requires Queue(Abs(), isRead) != [] && Queue(Abs(), isRead)[0] == io.serial
      modifies Repr
      ensures Valid() && fresh(Repr - old(Repr)) && Persists()
      ensures Abs() == Spec.IoRelease(Steps.Rearm(Steps.Advance(old(Abs()), isRead), isRead), old(io.serial))
    {
      hide Valid, Abs, Inv, Quiet, Stage, InQueue, Spec.IoRelease, Steps.Rearm, Steps.Advance, SameConnection;
      ghost var s, k := Abs(), io.serial;
      AdvanceOk(s, isRead, k);
      RefOnly(s, Steps.Advance(s, isRead), k);
      Advance(io, isRead);
      Leave(io, isRead);
    }

    /** _on_async_socket_io. */
    method LooperIo(readable: Option<Outcome>, writable: Option<Outcome>)
      requires Valid() && Idle(Abs()) && Abs().connected
      modifies Repr
      ensures Valid() && fresh(Repr - old(Repr)) && Persists()
      ensures Abs() == Steps.LooperIo(old(Abs()), readable, writable)
    {
      hide Valid, Abs, Inv, Quiet, Steps.Ready, Spec.SockRelease, Spec.SockRef;
      TapeIs();
      ThisOwned();
      Referenced(Abs());
      SockRefOk(Abs());
      SockRef();
      Serve(readable, writable);
      TapeIs();
      SockRelease();
    }

    /** Reads, and writes unless reading failed. */
    method Serve(readable: Option<Outcome>, writable: Option<Outcome>)
      requires Valid() && Inv(Abs()) && Quiet(Abs(), None) && Abs().connected && Abs().held == 1
      modifies Repr
      ensures Valid() && fresh(Repr - old(Repr)) && Persists() && Inv(Abs()) && Abs().held == 1
      ensures var (u, ok) := if readable.Some? then Steps.Ready(old(Abs()), true, readable.value) else (old(Abs()), true);
              Abs() == if ok && writable.Some? then Steps.Ready(u, false, writable.value).0 else u
    {
      hide Valid, Abs, Inv, Quiet, Steps.Ready;
      var ok := true;
      if readable.Some? {
        ReadyOk(Abs(), true, readable.value);
        ok := Ready(true, readable.value);
      }
      if ok && writable.Some? {
        ReadyOk(Abs(), false, writable.value);
        ok := Ready(false, writable.value);
      }
    }
    // ----- time-outs, connection, calls of the client -------------------------------------

    /** _async_socket_remove_io: takes a descriptor out of its queue, if it is in there. */
    method RemoveIo(io: AsyncSocketIO, isRead: bool)
      requires Valid() && Linked(io) && Busy(Abs(), io.serial)
      modifies Repr
      ensures Valid() && fresh(Repr - old(Repr)) && Persists()
      ensures Abs() == Steps.RemoveIo(old(Abs()), isRead, old(io.serial))
    {
      hide Valid, Abs, Inv, Quiet, Stage, InQueue, Spec.Unlink, Spec.IoRelease, Spec.Bury, AtRest, SameConnection, Position;
      ghost var s, k := Abs(), io.serial;
      ghost var i := Position(Queue(s, isRead), k);
      if i < |Queue(s, isRead)| {
        UnlinkOk(s, isRead, i);
        UnlinkAt(s, isRead, i, k);
      }
      ThisOwned();
      ListsApart(isRead);
      WhoOwned(io);
      var found := Remove(io, isRead);
      if found {
        LinkedIs(io);
        IoRelease(io);
      }
    }

    /** _on_async_socket_io_timed_out; the timer has fired and runs no more. */
    method IoTimedOut(io: AsyncSocketIO)
      requires Valid() && Linked(io) && Idle(Abs()) && io.timerOn
      modifies Repr
      ensures Valid() && fresh(Repr - old(Repr)) && Persists()
      ensures Abs() == Steps.IoTimedOut(old(Abs()), old(io.serial))
    {
      hide Valid, Abs, Inv, Quiet, Stage, InQueue, Spec.IoRelease, Spec.Notify, Spec.IoRef, Spec.StopIoTimer, Steps.RemoveIo, AtRest, SameConnection;
      ghost var s, k := Abs(), io.serial;
      LinkedIs(io);
      InformTimeOut(s, k);
      StartTimeOut(s, k);
      var a := InformOfTimeOut(io);
      SettleTimeOut(io, a);
    }

    method InformOfTimeOut(io: AsyncSocketIO) returns (a: Action)
      requires Valid() && Linked(io) && Inv(Abs()) && io.refCount > 0
      requires Inv(Spec.IoRef(Spec.StopIoTimer(Abs(), io.serial), io.serial))
      modifies Repr
      ensures Valid() && fresh(Repr - old(Repr)) && Persists() && Linked(io) && io.serial == old(io.serial)
      ensures (Abs(), a) == Spec.Notify(Spec.IoRef(Spec.StopIoTimer(old(Abs()), old(io.serial)), old(io.serial)), old(io.serial), TimedOut)
    {
      hide Valid, Abs, Inv, Spec.Notify, Spec.IoRef, Spec.StopIoTimer;
      WhoOwned(io);
      HeldIs(io);
      StopTimer(io);
      IoRef(io);
      a := Notify(io, TimedOut);
    }

    /** Unless the client retries, the descriptor leaves its queue; then the callback ends. */
    method SettleTimeOut(io: AsyncSocketIO, a: Action)
      requires Valid() && Linked(io) && Busy(Abs(), io.serial)
      requires if a == Retry && InQueue(Abs(), io.serial) then AtRest(Abs().ios[io.serial], true)
               else Stage(Abs().ios[io.serial]) == Settled
      modifies Repr
      ensures Valid() && fresh(Repr - old(Repr)) && Persists()
      ensures var t, k := old(Abs()), old(io.serial);
              Abs() == Spec.IoRelease(if a != Retry then Steps.RemoveIo(t, At(t, k).isRead, k) else t, k)
    {
      hide Valid, Abs, Inv, Quiet, Stage, Spec.IoRelease, Steps.RemoveIo, AtRest;
      LinkedIs(io);
      if a != Retry {
        RemoveOk(Abs(), io.serial);
        RemoveIo(io, io.isRead);
        StillThere(io);
        LeavingAtRest(Abs(), io.serial);
      } else if !InQueue(Abs(), io.serial) {
        LeavingAtRest(Abs(), io.serial);
      }
      LinkedIs(io);
      IoRelease(io);
    }

    /**
     _on_connector_events.  A connector may report to a socket that is gone; taking a reference is
     where that goes wrong.
     */
    method ConnectorEvent(event: State) returns (a: Action)
      requires Valid() && Idle(Abs()) && (event == Succeeded ==> !connected)
      modifies Repr
      ensures Valid() && fresh(Repr - old(Repr)) && Persists()
      ensures (Abs(), a) == Steps.ConnectorEvent(old(Abs()), event)
    {
      hide Valid, Abs, Inv, Quiet, Spec.Client, Steps.Accept, Spec.Close, Spec.SockRelease, Spec.SockRef, Forgotten;
      TapeIs();
      ThisOwned();
      if refCount <= 0 {
        Fault();
        a := Abort;
      } else {
        a := Hear(event);
      }
    }

    /** The rest of _on_connector_events. */
    method Hear(event: State) returns (a: Action)
      requires Valid() && Idle(Abs()) && refCount > 0 && (event == Succeeded ==> !connected)
      modifies Repr
      ensures Valid() && fresh(Repr - old(Repr)) && Persists()
      ensures (Abs(), a) == Steps.ConnectorEvent(old(Abs()), event)
    {
      hide Valid, Abs, Inv, Quiet, Spec.Client, Steps.Accept, Spec.Close, Spec.SockRelease, Spec.SockRef, Forgotten;
      TapeIs();
      ThisOwned();
      SockRefOk(Abs());
      SockRef();
      TapeIs();
      a := Connect(event);
      EndHearing(a);
    }

    method EndHearing(a: Action)
      requires Valid() && Inv(Abs()) && Quiet(Abs(), None) && Abs().held == 1
      modifies Repr
      ensures Valid() && fresh(Repr - old(Repr)) && Persists()
      ensures Abs() == Spec.SockRelease(if a != Retry then Forgotten(old(Abs())) else old(Abs()))
    {
      hide Valid, Abs, Inv, Quiet, Spec.SockRelease, Forgotten;
      if a != Retry {
        ThisOwned();
        ForgottenOk(Abs());
        Forget();
      }
      TapeIs();
      SockRelease();
    }

    /** The connector lets go of the socket. */
    ghost method Forget()
      requires Valid()
      modifies this
      ensures Valid() && Abs() == Forgotten(old(Abs()))
      ensures objs == old(objs) && Repr == old(Repr) && next == old(next)
    {
      TapeIs();
      hide Valid, Abs;
      SetAttempts(if attempts > 0 then attempts - 1 else 0);
    }

    /** Takes over a connection, asks the client, and closes the connection if it is discarded. */
    method Connect(event: State) returns (a: Action)
      requires Valid() && Inv(Abs()) && Quiet(Abs(), None) && Abs().held > 0 && Abs().refCount > 0
      requires event == Succeeded ==> !Abs().connected
      modifies Repr
      ensures Valid() && fresh(Repr - old(Repr)) && Persists() && Inv(Abs()) && Quiet(Abs(), None) && Abs().held == old(Abs()).held
      ensures var s := old(Abs());
              var (u, b) := Spec.Client(if event == Succeeded then Steps.Accept(s) else s);
              a == b && Abs() == if event == Succeeded && a != Done then Spec.Close(u) else u
    {
      hide Valid, Abs, Inv, Quiet, Spec.Client, Steps.Accept, Spec.Close, SameConnection, Called;
      ghost var t := Abs();
      ThisOwned();
      if event == Succeeded {
        AcceptOk(t);
        AcceptHeld(t);
        AcceptFd();
      }
      ClientQuiet(Abs(), None);
      a := Client(null);
      if event == Succeeded && a != Done {
        DiscardOk(t, Abs());
        ThisOwned();
        CloseSocket();
      }
    }

    /** async_socket_disconnect, by a client whose reference stays in use until it returns. */
    method Disconnect()
      requires Valid() && Cancellable(Abs(), None)
      modifies Repr
      ensures Valid() && fresh(Repr - old(Repr)) && Persists()
      ensures Abs() == Steps.Disconnect(old(Abs()))
    {
      hide Valid, Abs, Inv, Quiet, Stage, Spec.CancelAll, Spec.Close, ActiveQueue;
      CancellableActive(Abs(), None, true);
      CancellableActive(Abs(), None, false);
      CancelAll();
      ThisOwned();
      CloseSocket();
    }

    /** async_socket_reconnect. */
    method Reconnect()
      requires Valid() && Cancellable(Abs(), None)
      modifies Repr
      ensures Valid() && fresh(Repr - old(Repr)) && Persists()
      ensures Abs() == Steps.Reconnect(old(Abs()))
    {
      hide Valid, Abs, Inv, Quiet, Stage, Spec.CancelAll, Spec.Close, ActiveQueue;
      CancelClose(Abs(), None);
      Disconnect();
      CancellableActive(Abs(), None, true);
      CancellableActive(Abs(), None, false);
      CancelAll();
      ThisOwned();
      SetReconnect(true);
    }

    method CallQueue(isRead: bool, buffer: seq<Byte>)
      requires Valid() && Idle(Abs()) && clientRefs > 0
      modifies Repr
      ensures Valid() && fresh(Repr - old(Repr)) && Persists()
      ensures Abs() == Steps.Return(Spec.Enqueue(Steps.Lend(old(Abs())), isRead, buffer))
    {
      hide Valid, Abs, Inv, Quiet, Anchored, Spec.Enqueue, Steps.Lend, Steps.Return;
      TapeIs();
      ThisOwned();
      LendOk(Abs());
      LendRef();
      Enqueue(isRead, buffer, None);
      ThisOwned();
      ReturnRef();
    }

    method CallDisconnect(again: bool)
      requires Valid() && Idle(Abs()) && clientRefs > 0
      modifies Repr
      ensures Valid() && fresh(Repr - old(Repr)) && Persists()
      ensures Abs() == Steps.Return(if again then Steps.Reconnect(Steps.Lend(old(Abs()))) else Steps.Disconnect(Steps.Lend(old(Abs()))))
    {
      hide Valid, Abs, Inv, Quiet, Steps.Disconnect, Steps.Reconnect, Steps.Lend, Steps.Return;
      TapeIs();
      ThisOwned();
      LendOk(Abs());
      LendRef();
      if again {
        Reconnect();
      } else {
        Disconnect();
      }
      ThisOwned();
      ReturnRef();
    }

    /** async_socket_connect and its like make a connector; what that reports are connector events. */
    method CallConnect()
      requires Valid()
      modifies this
      ensures Valid() && Abs() == Steps.Attempted(old(Abs()))
      ensures objs == old(objs) && Repr == old(Repr) && next == old(next)
    {
      TapeIs();
      hide Valid, Abs;
      SetAttempts(attempts + 1);
    }

    /** _on_async_socket_reconnect. */
    method OnReconnect()
      requires Valid() && Idle(Abs()) && reconnect
      modifies Repr
      ensures Valid() && fresh(Repr - old(Repr)) && Persists()
      ensures Abs() == Steps.OnReconnect(old(Abs()))
    {
      hide Valid, Abs, Inv, Quiet, Spec.SockRelease, Spec.SockRef, Attempted;
      TapeIs();
      ThisOwned();
      TimerReferenced(Abs());
      ReconnectStops(Abs());
      SetReconnect(false);
      TapeIs();
      SockRefOk(Abs());
      SockRef();
      TapeIs();
      AttemptedOk(Abs());
      ThisOwned();
      CallConnect();
      TapeIs();
      SockRelease();
    }

    lemma AttemptedOk(s: Sock)
      requires Inv(s) && Quiet(s, None)
      ensures Inv(Attempted(s)) && Attempted(s).held == s.held
    {
      AttemptsOk(s, s.attempts + 1);
      hide Inv, Quiet;
    }

    // ----- one event ----------------------------------------------------------------------

    predicate AboutIo(e: Event) {
      e.CallKeepIo? || e.CallDropIo? || e.LoopTimer?
    }

    /** Whatever the program around the socket may do to it; `io` is the descriptor it is done to. */
    method Happen(e: Event, io: AsyncSocketIO?)
      requires Valid() && Idle(Abs()) && Enabled(Abs(), e)
      requires AboutIo(e) ==> io != null && Linked(io) && io.serial == e.k
      modifies Repr
      ensures Valid() && fresh(Repr - old(Repr)) && Persists()
      ensures Abs() == Step(old(Abs()), e) && (Strikes(old(Abs()), e) || Idle(Abs()))
    {
      hide Valid, Abs, Idle, Strikes, Step, Enabled;
      StepOk(Abs(), e);
      if AboutIo(e) {
        LinkedIs(io);
        WhoOwned(io);
      }
      if ByClient(e) {
        Call(e, io);
      } else {
        Occur(e, io);
      }
    }

    predicate ByClient(e: Event) {
      !e.LoopIo? && !e.LoopTimer? && !e.LoopReconnect? && !e.Connector?
    }

    /** A call of the client. */
    method Call(e: Event, io: AsyncSocketIO?)
      requires Valid() && Idle(Abs()) && Enabled(Abs(), e) && ByClient(e)
      requires AboutIo(e) ==> io != null && Linked(io) && io.serial == e.k && io in Repr
      modifies Repr
      ensures Valid() && fresh(Repr - old(Repr)) && Persists()
      ensures Abs() == Step(old(Abs()), e)
    {
      hide Valid, Abs, Idle;
      hide Spec.Enqueue, Steps.Disconnect, Steps.Reconnect, Spec.KeepSock, Spec.DropSock, Spec.Keep, Spec.ReleaseIo, Steps.Lend, Steps.Return;
      TapeIs();
      ThisOwned();
      IdleIs(Abs());
      hide Inv;
      match e
      case CallQueue(isRead, buffer) => { CallQueue(isRead, buffer); }
      case CallKeep => { KeepSock(); }
      case CallDrop => { DropSock(); }
      case CallKeepIo(_) => { KeepIo(io); }
      case CallDropIo(_) => { ReleaseIo(io); }
      case CallConnect => { CallConnect(); }
      case CallDisconnect => { CallDisconnect(false); }
      case CallReconnect => { CallDisconnect(true); }
    }

    /** A callback of the looper, or of a connector. */
    method Occur(e: Event, io: AsyncSocketIO?)
      requires Valid() && Idle(Abs()) && Enabled(Abs(), e) && !ByClient(e)
      requires AboutIo(e) ==> io != null && Linked(io) && io.serial == e.k && io in Repr && Abs().ios[e.k] == io.Record()
      modifies Repr
      ensures Valid() && fresh(Repr - old(Repr)) && Persists()
      ensures Abs() == Step(old(Abs()), e)
    {
      hide Valid, Abs, Idle, Inv, Steps.LooperIo, Steps.IoTimedOut, Steps.ConnectorEvent, Steps.OnReconnect;
      TapeIs();
      match e
      case LoopIo(readable, writable) => { LooperIo(readable, writable); }
      case LoopTimer(_) => { IoTimedOut(io); }
      case LoopReconnect => { OnReconnect(); }
      case Connector(event) => { var _ := ConnectorEvent(event); }
    }

    lemma IdleIs(s: Sock)
      requires Idle(s)
      ensures Inv(s) && s.held == 0 && (s.clientRefs > 0 ==> s.refCount > 0)
    {
      Referenced(s);
      hide Inv;
    }
  }
}
