/** The table of port redirections, in step with what the network stack redirects. */
module ConsoleRedirSpec {
  datatype Redir = Redir(hostPort: int, hostUdp: int, guestIp: int, guestPort: int)

  /** A redirection is known by its port and protocol. */
  datatype Key = Key(port: int, udp: int)

  function KeyOf(r: Redir): Key {
    Key(r.hostPort, r.hostUdp)
  }

  predicate Unique(t: seq<Redir>) {
    forall i, j | 0 <= i < j < |t| :: KeyOf(t[i]) != KeyOf(t[j])
  }

  function Keys(t: seq<Redir>): set<Key> {
    set r | r in t :: KeyOf(r)
  }

  /** The position of a key, or the length. */
  function Find(t: seq<Redir>, k: Key): (n: nat)
    ensures n <= |t| && (n < |t| ==> KeyOf(t[n]) == k)
    ensures forall i | 0 <= i < n :: KeyOf(t[i]) != k
  {
    if t == [] || KeyOf(t[0]) == k then 0 else 1 + Find(t[1..], k)
  }

  /** The table without the entry of a key; the others keep their order. */
  function Without(t: seq<Redir>, k: Key): seq<Redir> {
    var n := Find(t, k);
    if n == |t| then t else t[..n] + t[n + 1..]
  }

  lemma FoundInKeys(t: seq<Redir>, k: Key)
    ensures k in Keys(t) <==> Find(t, k) < |t|
  {
    var n := Find(t, k);
    if n < |t| { assert t[n] in t; }
  }

  lemma KeysMore(t: seq<Redir>, r: Redir)
    requires Unique(t) && KeyOf(r) !in Keys(t)
    ensures Unique(t + [r]) && Keys(t + [r]) == Keys(t) + {KeyOf(r)}
  {
    var u := t + [r];
    forall i, j | 0 <= i < j < |u| ensures KeyOf(u[i]) != KeyOf(u[j]) {
      if j == |t| { assert t[i] in t; }
    }
    forall k ensures k in Keys(u) <==> k in Keys(t) || k == KeyOf(r) {
      assert r in u;
      if k in Keys(t) {
        var q :| q in t && KeyOf(q) == k;
        assert q in u;
      }
    }
  }

  /** Deleting takes one key away, and no other. */
  lemma WithoutOne(t: seq<Redir>, k: Key)
    requires Unique(t)
    ensures var u := Without(t, k);
      Unique(u) && Keys(u) == Keys(t) - {k} && forall r :: r in u <==> r in t && KeyOf(r) != k
  {
    hide Keys;
    var n, u := Find(t, k), Without(t, k);
    if n < |t| {
      assert forall i | 0 <= i < |u| :: u[i] == t[if i < n then i else i + 1];
      forall r ensures r in u <==> r in t && KeyOf(r) != k {
        if r in t && KeyOf(r) != k {
          var i :| 0 <= i < |t| && t[i] == r;
          assert u[if i < n then i else i - 1] == r;
        }
      }
    }
    KeysLess(t, u, k);
  }

  /** What is left is in the order it was in. */
  lemma OrderIsKept(t: seq<Redir>, k: Key, i: nat, j: nat)
    requires i < j < |Without(t, k)|
    ensures exists a, b | 0 <= a < b < |t| :: t[a] == Without(t, k)[i] && t[b] == Without(t, k)[j]
  {
    var n, u := Find(t, k), Without(t, k);
    var a, b := if i < n then i else i + 1, if j < n then j else j + 1;
    assert t[a] == u[i] && t[b] == u[j];
  }

  lemma KeysLess(t: seq<Redir>, u: seq<Redir>, k: Key)
    requires forall r :: r in u <==> r in t && KeyOf(r) != k
    ensures Keys(u) == Keys(t) - {k}
  {
  }

  /** Adding an entry and taking it out again restores the table exactly. */
  lemma AddThenDelete(t: seq<Redir>, r: Redir)
    requires KeyOf(r) !in Keys(t)
    ensures Without(t + [r], KeyOf(r)) == t
  {
    var u := t + [r];
    var n := Find(u, KeyOf(r));
    assert u[|t|] == r;
    assert forall i | 0 <= i < |t| :: t[i] in t && u[i] == t[i];
    assert n == |t|;
    assert u[..n] == t && u[n + 1..] == [];
  }
}

module ConsoleRedir {
  import opened ConsoleRedirSpec

  datatype Answer = Okay | BadFormat | Disabled | Active | NoAddress | NoMemory | Refused | Unknown

  /** What a command's argument says: there may be none, and it may not be a redirection. */
  datatype Request = Request(proto: int, hostPort: int, guestPort: int) | Malformed | NoArgument

  class ControlGlobal {
    var redirs: array<Redir>
    var numRedirs: nat
    var slirp: set<Key> // what the network stack redirects

    ghost predicate Valid()
      reads this, redirs
    {
      && numRedirs <= redirs.Length
      && Unique(Table())
      && Keys(Table()) == slirp
    }

    function Table(): seq<Redir>
      requires numRedirs <= redirs.Length
      reads this, redirs
    {
      redirs[..numRedirs]
    }

    constructor ()
      ensures Valid() && Table() == [] && fresh(redirs)
    {
      redirs := new Redir[0];
      numRedirs := 0;
      slirp := {};
    }

    method FindRedir(port: int, udp: int) returns (n: nat)
      requires numRedirs <= redirs.Length
      ensures n == Find(Table(), Key(port, udp))
    {
      n := 0;
      while n < numRedirs
        invariant n <= numRedirs
        invariant Find(Table(), Key(port, udp)) == n + Find(Table()[n..], Key(port, udp))
      {
        if redirs[n].hostPort == port && redirs[n].hostUdp == udp { return; }
        n := n + 1;
      }
    }

    /** An entry goes to the end; a full table grows by half and four more, if there is memory. */
    method AddRedir(r: Redir, memory: bool) returns (ok: bool)
      requires numRedirs <= redirs.Length
      modifies this`redirs, this`numRedirs, redirs
      ensures numRedirs <= redirs.Length && (redirs == old(redirs) || fresh(redirs))
      ensures ok <==> memory || old(numRedirs < redirs.Length)
      ensures Table() == old(Table()) + if ok then [r] else []
      ensures redirs.Length == if ok && old(numRedirs >= redirs.Length)
        then old(redirs.Length + redirs.Length / 2 + 4) else old(redirs.Length)
    {
      if numRedirs >= redirs.Length {
        if !memory { return false; }
        var oldMax := redirs.Length;
        var newMax := oldMax + oldMax / 2 + 4;
        var bigger := new Redir[newMax](_ => r);
        forall i | 0 <= i < oldMax { bigger[i] := redirs[i]; }
        assert bigger[..numRedirs] == redirs[..numRedirs];
        redirs := bigger;
      }
      redirs[numRedirs] := r;
      numRedirs := numRedirs + 1;
      return true;
    }

    /** The entries after the one deleted move down by one. */
    method DelRedir(port: int, udp: int) returns (ok: bool)
      requires numRedirs <= redirs.Length
      modifies this`numRedirs, redirs
      ensures numRedirs <= redirs.Length
      ensures ok <==> Find(old(Table()), Key(port, udp)) < |old(Table())|
      ensures Table() == Without(old(Table()), Key(port, udp))
    {
      var nn := FindRedir(port, udp);
      if nn == numRedirs { return false; }
      ghost var table := Table();
      forall i | nn <= i < numRedirs - 1 { redirs[i] := redirs[i + 1]; }
      numRedirs := numRedirs - 1;
      assert Table() == table[..nn] + table[nn + 1..];
      return true;
    }

    /**
     The 'redir add' command.  `inited`, `address`, `memory` and `redirected` are what the network
     agent, the address parser, the allocator and the network stack answer when they are asked.
     */
    method DoRedirAdd(request: Request, inited: bool, address: int, addressOk: bool, memory: bool, redirected: bool)
      returns (answer: Answer)
      requires Valid()
      modifies this, redirs
      ensures Valid() && (redirs == old(redirs) || fresh(redirs))
      ensures answer == Okay ==>
        && request.Request? && Key(request.hostPort, request.proto) !in old(slirp)
        && Table() == old(Table()) + [Redir(request.hostPort, request.proto, address, request.guestPort)]
        && slirp == old(slirp) + {Key(request.hostPort, request.proto)}
      ensures answer != Okay ==> Table() == old(Table()) && slirp == old(slirp)
      ensures answer ==
        if request.NoArgument? then BadFormat
        else if !inited then Disabled
        else if request.Malformed? then BadFormat
        else if Key(request.hostPort, request.proto) in old(slirp) then Active
        else if !addressOk then NoAddress
        else if !memory && old(numRedirs == redirs.Length) then NoMemory
        else if !redirected then Refused
        else Okay
    {
      if request.NoArgument? { return BadFormat; }
      if !inited { return Disabled; }
      if request.Malformed? { return BadFormat; }
      var key := Key(request.hostPort, request.proto);
      FoundInKeys(Table(), key);
      var n := FindRedir(request.hostPort, request.proto);
      if n < numRedirs { return Active; }
      if !addressOk { return NoAddress; }
      var r := Redir(request.hostPort, request.proto, address, request.guestPort);
      KeysMore(Table(), r);
      AddThenDelete(Table(), r);
      var ok := AddRedir(r, memory);
      if !ok { return NoMemory; }
      if !redirected {
        var deleted := DelRedir(request.hostPort, request.proto);
        return Refused;
      }
      slirp := slirp + {key};
      return Okay;
    }

    /** The 'redir del' command. */
    method DoRedirDel(request: Request) returns (answer: Answer)
      requires Valid()
      modifies this, redirs
      ensures Valid() && redirs == old(redirs)
      ensures !request.Request? <==> answer == BadFormat
      ensures request.Request? ==>
        var key := Key(request.hostPort, request.proto);
        && answer == (if key in old(slirp) then Okay else Unknown)
        && Table() == Without(old(Table()), key)
        && slirp == old(slirp) - {key}
      ensures !request.Request? ==> Table() == old(Table()) && slirp == old(slirp)
    {
      if !request.Request? { return BadFormat; }
      var key := Key(request.hostPort, request.proto);
      FoundInKeys(Table(), key);
      WithoutOne(Table(), key);
      var n := FindRedir(request.hostPort, request.proto);
      if n == numRedirs { return Unknown; }
      slirp := slirp - {Key(redirs[n].hostPort, redirs[n].hostUdp)};
      var deleted := DelRedir(request.hostPort, request.proto);
      return Okay;
    }
  }
}
