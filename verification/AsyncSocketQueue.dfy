/** Descriptors as objects, the two kinds of list that link them, and the recycler. */
module AsyncSocketQueue {
  import opened AsyncIoCommon
  import opened AsyncSocketSpec

  class AsyncSocketIO {
    var next: AsyncSocketIO?
    var timerOn: bool
    var buffer: seq<Byte>
    var transferred: nat
    var isRead: bool
    var state: State
    var refCount: int
    // What the client knows: a name for the descriptor, and how many references it has.
    var serial: nat
    var clientRefs: int
    // Bookkeeping of the specification.
    ghost var live: bool
    ghost var accepted: bool
    ghost var notes: seq<Note>
    ghost var held: int
    ghost var kept: bool

    constructor ()
      ensures fresh(this)
    {
    }

    /** Makes the object a new descriptor, whatever it was before. */
    method Fill(isRead: bool, buffer: seq<Byte>, serial: nat)
      modifies this
      ensures next == null && this.serial == serial
      ensures Record() == Io(isRead, buffer, 0, Queued, 1, true, true, false, [], 0, 1, false)
    {
      next := null;
      this.isRead := isRead;
      this.buffer := buffer;
      transferred := 0;
      state := Queued;
      refCount := 1;
      timerOn := true;
      Enroll(serial);
    }

    /** Nobody has been told about the descriptor yet; its creator has the reference to it. */
    method Enroll(serial: nat)
      modifies `serial, `clientRefs, `live, `accepted, `notes, `held, `kept
      ensures this.serial == serial && clientRefs == 0 && live && !accepted && notes == [] && held == 1 && !kept
    {
      this.serial := serial;
      clientRefs := 0;
      live := true;
      accepted := false;
      notes := [];
      held := 1;
      kept := false;
    }

    /** The abstract value; how the object is linked is not part of it. */
    ghost function Record(): Io
      reads `isRead, `buffer, `transferred, `state, `refCount, `timerOn, `live, `accepted, `notes, `clientRefs, `held, `kept
    {
      Io(isRead, buffer, transferred, state, refCount, timerOn, live, accepted, notes, clientRefs, held, kept)
    }
  }

  /** `q` is what one finds following `next` from `head`; the last one links to nothing. */
  ghost predicate Chain(q: seq<AsyncSocketIO>, head: AsyncSocketIO?)
    reads q`next
  {
    && (head == null <==> q == [])
    && (q != [] ==> head == q[0] && q[|q| - 1].next == null)
    && (forall i | 0 <= i < |q| - 1 :: q[i].next == q[i + 1])
    && (forall i, j | 0 <= i < j < |q| :: q[i] != q[j])
  }

  /** A pair of list head and list tail. */
  class IoQueue {
    var head: AsyncSocketIO?
    var tail: AsyncSocketIO?
    ghost var items: seq<AsyncSocketIO>

    constructor ()
      ensures Valid() && items == []
    {
      head, tail, items := null, null, [];
    }

    ghost predicate Valid()
      reads this, items`next
    {
      Chain(items, head) && tail == (if items == [] then null else items[|items| - 1])
    }

    method Append(io: AsyncSocketIO)
      requires Valid() && io !in items && io.next == null
      modifies this, items`next
      ensures Valid() && items == old(items) + [io]
    {
      if head == null {
        head, tail := io, io;
      } else {
        tail.next := io;
        tail := io;
      }
      items := items + [io];
    }

    /** Takes the first descriptor out of the list, if there is one. */
    method PullFirst() returns (first: AsyncSocketIO?)
      requires Valid()
      modifies this, items`next
      ensures Valid()
      ensures old(items) == [] ==> first == null && items == []
      ensures old(items) != [] ==> first == old(items)[0] && items == old(items)[1..] && first.next == null
    {
      first := head;
      if first != null {
        assert |items| > 1 ==> items[0].next == items[1];
        head := first.next;
        first.next := null;
        items := items[1..];
        if head == null {
          tail := null;
        }
      }
    }

    /** Takes a descriptor out of the list wherever it is; the flag tells whether it was there. */
    method Remove(io: AsyncSocketIO) returns (found: bool)
      requires Valid()
      modifies this, items`next
      ensures Valid() && found == (io in old(items))
      ensures !found ==> items == old(items)
      ensures forall i | 0 <= i < |old(items)| && old(items)[i] == io :: items == old(items)[..i] + old(items)[i + 1..]
      ensures io.next == old(io.next)
    {
      var prev: AsyncSocketIO? := null;
      var cur := head;
      ghost var n := 0;
      while cur != null && io != cur
        invariant 0 <= n <= |items| && items == old(items) && Valid()
        invariant cur == if n < |items| then items[n] else null
        invariant prev == if n > 0 then items[n - 1] else null
        invariant io !in items[..n]
        invariant forall o | o in items :: o.next == old(o.next)
        invariant head == old(head) && tail == old(tail)
        decreases |items| - n
      {
        assert items[..n + 1] == items[..n] + [items[n]];
        prev := cur;
        cur := cur.next;
        n := n + 1;
      }
      if cur == null {
        return false;
      }
      Unhook(io, prev, n);
      return true;
    }

    /** Links what is before a descriptor to what is behind it. */
    method Unhook(io: AsyncSocketIO, prev: AsyncSocketIO?, ghost n: nat)
      requires Valid() && n < |items| && items[n] == io
      requires prev == if n > 0 then items[n - 1] else null
      modifies this, items`next
      ensures Valid() && items == old(items)[..n] + old(items)[n + 1..] && io.next == old(io.next)
    {
      assert io.next == if n + 1 < |items| then items[n + 1] else null;
      if prev == null {
        head := io.next;
      } else {
        prev.next := io.next;
      }
      if tail == io {
        tail := prev;
      }
      items := items[..n] + items[n + 1..];
    }
  }

  const MAX_RECYCLED: nat := 32

  /** Descriptors kept for reuse. */
  class Recycler {
    var head: AsyncSocketIO?
    var count: nat
    ghost var pool: seq<AsyncSocketIO>

    constructor ()
      ensures Valid() && pool == []
    {
      head, count, pool := null, 0, [];
    }

    ghost predicate Valid()
      reads this, pool`next
    {
      Chain(pool, head) && count == |pool| <= MAX_RECYCLED
    }

    /** Takes the descriptor that was put here last, or allocates one. */
    method Take() returns (io: AsyncSocketIO)
      requires Valid()
      modifies this
      ensures Valid()
      ensures old(pool) != [] ==> io == old(pool)[0] && pool == old(pool)[1..]
      ensures old(pool) == [] ==> fresh(io) && pool == []
      ensures io !in pool
    {
      if head != null {
        assert |pool| > 1 ==> pool[0].next == pool[1];
        io := head;
        head := io.next;
        count := count - 1;
        pool := pool[1..];
      } else {
        io := new AsyncSocketIO();
      }
    }

    /** Keeps a descriptor unless there are enough. */
    method Give(io: AsyncSocketIO)
      requires Valid() && io !in pool
      modifies this, io`next
      ensures Valid()
      ensures pool == if |old(pool)| < MAX_RECYCLED then [io] + old(pool) else old(pool)
    {
      if count < MAX_RECYCLED {
        io.next := head;
        head := io;
        count := count + 1;
        pool := [io] + pool;
      }
    }
  }
}
