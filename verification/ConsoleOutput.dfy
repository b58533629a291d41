/** What the console writes to its client: every LF preceded by CR, however the socket takes it. */
module ConsoleOutput {
  type Byte = bv8

  const LF: Byte := 10
  const CR: Byte := 13

  /** What send answers: it took some bytes, would block, or failed. */
  datatype Reply = Took(n: nat) | WouldBlock | Broken

  /** A socket that will answer as its script says, and after that take everything. */
  class Socket {
    var script: seq<Reply>
    var sent: seq<Byte>

    constructor (script: seq<Reply>)
      ensures this.script == script && sent == []
    {
      this.script, sent := script, [];
    }

    method Send(bytes: seq<Byte>) returns (r: Reply)
      modifies this
      ensures r.Took? ==> r.n <= |bytes| && sent == old(sent) + bytes[..r.n]
      ensures !r.Took? ==> sent == old(sent)
      ensures old(script) == [] ==> r == Took(|bytes|) && script == []
      ensures old(script) != [] ==> script == old(script)[1..] && (r == Broken <==> old(script)[0] == Broken)
    {
      if script == [] {
        sent := sent + bytes;
        return Took(|bytes|);
      }
      r := script[0];
      script := script[1..];
      if r.Took? {
        r := Took(if r.n <= |bytes| then r.n else |bytes|);
        sent := sent + bytes[..r.n];
      }
    }
  }

  /** Whether the socket ever fails. */
  predicate Sound(script: seq<Reply>) {
    Broken !in script
  }

  /** A CR before every LF that has none; `last` is the byte before, if any. */
  function Crlf(s: seq<Byte>, last: seq<Byte>): seq<Byte>
    decreases |s|
  {
    if s == [] then []
    else if s[0] == LF && last != [CR] then [CR, LF] + Crlf(s[1..], [LF])
    else [s[0]] + Crlf(s[1..], [s[0]])
  }

  /** Every byte is sent, in order, however often the socket takes only a part or would block. */
  method SendChunk(sock: Socket, bytes: seq<Byte>) returns (ok: bool)
    modifies sock
    ensures old(sock.sent) <= sock.sent <= old(sock.sent) + bytes
    ensures ok ==> sock.sent == old(sock.sent) + bytes
    ensures Sound(old(sock.script)) ==> ok && Sound(sock.script)
  {
    var buff := bytes;
    while |buff| > 0
      invariant old(sock.sent) <= sock.sent
      invariant sock.sent + buff == old(sock.sent) + bytes
      invariant Sound(old(sock.script)) ==> Sound(sock.script)
      decreases |sock.script|, |buff|
    {
      ghost var script, sent, left := sock.script, sock.sent, buff;
      var r := sock.Send(buff);
      match r {
        case Broken =>
          assert script[0] == Broken;
          return false;
        case WouldBlock =>
        case Took(n) =>
          assert sent + left == sent + left[..n] + left[n..];
          buff := buff[n..];
      }
    }
    return true;
  }

  /** The position of the first LF, or the length. */
  function NewLine(s: seq<Byte>): (n: nat)
    ensures n <= |s|
  {
    if s == [] || s[0] == LF then 0 else 1 + NewLine(s[1..])
  }

  lemma {:induction false} NewLineIs(s: seq<Byte>)
    ensures var n := NewLine(s); (n < |s| ==> s[n] == LF) && forall i | 0 <= i < n :: s[i] != LF
  {
    if s != [] && s[0] != LF {
      NewLineIs(s[1..]);
      assert forall i | 1 <= i < NewLine(s) :: s[i] == s[1..][i - 1];
    }
  }

  /** The byte before a position. */
  function Prev(s: seq<Byte>, i: nat): (r: seq<Byte>)
    requires i <= |s|
  {
    if i == 0 then [] else [s[i - 1]]
  }

  lemma {:induction false} CrlfPlain(s: seq<Byte>, n: nat, last: seq<Byte>)
    requires n <= |s| && forall i | 0 <= i < n :: s[i] != LF
    ensures Crlf(s, last) == s[..n] + Crlf(s[n..], if n == 0 then last else [s[n - 1]])
    decreases n
  {
    if n == 0 {
      assert s[0..] == s;
    } else {
      hide *;
      CrlfFirst(s, last);
      CrlfPlain(s[1..], n - 1, [s[0]]);
      PlainFirst(s, n);
      Together([s[0]], s[1..][..n - 1], Crlf(s[n..], [s[n - 1]]));
    }
  }

  lemma PlainFirst(s: seq<Byte>, n: nat)
    requires 0 < n <= |s|
    ensures s[1..][n - 1..] == s[n..] && s[..n] == [s[0]] + s[1..][..n - 1]
    ensures (if n == 1 then [s[0]] else [s[1..][n - 2]]) == [s[n - 1]]
  {
  }

  lemma Together(a: seq<Byte>, b: seq<Byte>, c: seq<Byte>)
    ensures a + (b + c) == a + b + c
  {
  }

  lemma CrlfFirst(s: seq<Byte>, last: seq<Byte>)
    requires s != [] && s[0] != LF
    ensures Crlf(s, last) == [s[0]] + Crlf(s[1..], [s[0]])
  {
  }

  /** What a line, from an offset through its LF, becomes. */
  function Line(s: seq<Byte>, offset: nat, newline: nat): seq<Byte>
    requires offset <= newline < |s|
  {
    s[offset..newline] + if Prev(s, newline) == [CR] then [LF] else [CR, LF]
  }

  lemma AtNewLine(s: seq<Byte>, newline: nat)
    requires newline < |s| && s[newline] == LF
    ensures Crlf(s[newline..], Prev(s, newline)) ==
      (if Prev(s, newline) == [CR] then [LF] else [CR, LF]) + Crlf(s[newline + 1..], Prev(s, newline + 1))
  {
    assert s[newline..][1..] == s[newline + 1..];
  }

  /** What the text up to and with its next LF becomes. */
  lemma NextLine(s: seq<Byte>, offset: nat, newline: nat)
    requires offset <= newline < |s| && newline == offset + NewLine(s[offset..])
    ensures Crlf(s[offset..], Prev(s, offset)) ==
      Line(s, offset, newline) + Crlf(s[newline + 1..], Prev(s, newline + 1))
  {
    hide Crlf, NewLine, Prev;
    var t, n := s[offset..], newline - offset;
    NewLineIs(t);
    CrlfPlain(t, n, Prev(s, offset));
    assert t[..n] == s[offset..newline] && t[n..] == s[newline..];
    PrevIn(s, offset, newline);
    AtNewLine(s, newline);
    var rest := Crlf(s[newline + 1..], Prev(s, newline + 1));
    Together(s[offset..newline], [LF], rest);
    Together(s[offset..newline], [CR, LF], rest);
  }

  /** What is before a position in the text, and in a part of it that begins earlier. */
  lemma PrevIn(s: seq<Byte>, offset: nat, newline: nat)
    requires offset <= newline <= |s|
    ensures Prev(s, newline) == if newline == offset then Prev(s, offset) else [s[offset..][newline - offset - 1]]
  {
  }

  lemma LastLine(s: seq<Byte>, offset: nat)
    requires offset <= |s| && NewLine(s[offset..]) == |s| - offset
    ensures Crlf(s[offset..], Prev(s, offset)) == s[offset..]
  {
    var t := s[offset..];
    NewLineIs(t);
    CrlfPlain(t, |t|, Prev(s, offset));
    assert t[..|t|] == t && t[|t|..] == [];
  }

  method SendLine(sock: Socket, buff: seq<Byte>, offset: nat, newline: nat) returns (ok: bool)
    requires offset <= newline < |buff| && buff[newline] == LF
    modifies sock
    ensures old(sock.sent) <= sock.sent <= old(sock.sent) + Line(buff, offset, newline)
    ensures ok ==> sock.sent == old(sock.sent) + Line(buff, offset, newline)
    ensures Sound(old(sock.script)) ==> ok && Sound(sock.script)
  {
    ghost var a, b := sock.sent, buff[offset..newline];
    if newline == 0 || buff[newline - 1] != CR {
      assert a + (b + [CR, LF]) == (a + b) + [CR, LF];
      ok := SendChunk(sock, buff[offset..newline]);
      if ok {
        ok := SendChunk(sock, [CR, LF]);
      }
    } else {
      assert buff[offset..newline + 1] == b + [LF];
      ok := SendChunk(sock, buff[offset..newline + 1]);
    }
  }

  /** A part of a line has been sent, or the whole of it. */
  lemma PrefixMore(start: seq<Byte>, sent: seq<Byte>, line: seq<Byte>, rest: seq<Byte>, whole: seq<Byte>, now: seq<Byte>)
    requires start <= sent && sent + (line + rest) == start + whole && sent <= now <= sent + line
    ensures (sent + line) + rest == start + whole
    ensures start <= now <= start + whole
  {
    assert (sent + line) + rest == start + whole;
    assert now == (start + whole)[..|now|];
  }

  /**
   The text is sent with a CR before exactly those LFs that have none; if the socket fails, what was
   sent is a beginning of that.
   */
  method ControlWrite(sock: Socket, buff: seq<Byte>)
    modifies sock
    ensures old(sock.sent) <= sock.sent <= old(sock.sent) + Crlf(buff, [])
    ensures Sound(old(sock.script)) ==> sock.sent == old(sock.sent) + Crlf(buff, [])
  {
    assert buff[0..] == buff && Prev(buff, 0) == [];
    hide Crlf, Sound, Line, Prev;
    var offset := 0;
    ghost var start, whole := sock.sent, Crlf(buff, []);
    while true
      invariant offset <= |buff|
      invariant start <= sock.sent
      invariant sock.sent + Crlf(buff[offset..], Prev(buff, offset)) == start + whole
      invariant Sound(old(sock.script)) ==> Sound(sock.script)
      decreases |buff| - offset
    {
      var newline := offset + NewLine(buff[offset..]);
      ghost var sent := sock.sent;
      if newline == |buff| {
        LastLine(buff, offset);
        var done := SendChunk(sock, buff[offset..]);
        assert buff[offset..] + [] == buff[offset..];
        PrefixMore(start, sent, buff[offset..], [], whole, sock.sent);
        break;
      }
      NextLine(buff, offset, newline);
      NewLineIs(buff[offset..]);
      assert buff[newline] == LF;
      ghost var line, rest := Line(buff, offset, newline), Crlf(buff[newline + 1..], Prev(buff, newline + 1));
      var ok := SendLine(sock, buff, offset, newline);
      PrefixMore(start, sent, line, rest, whole, sock.sent);
      if !ok { break; }
      offset := newline + 1;
    }
  }

  // ----- what the result looks like -----------------------------------------------------------

  /** Every LF has its CR. */
  predicate Normal(s: seq<Byte>, last: seq<Byte>) {
    forall i | 0 <= i < |s| :: Preceded(s, last, i)
  }

  predicate Preceded(s: seq<Byte>, last: seq<Byte>, i: nat)
    requires i < |s|
  {
    s[i] == LF ==> (if i == 0 then last else [s[i - 1]]) == [CR]
  }

  lemma NormalMore(x: Byte, t: seq<Byte>, last: seq<Byte>)
    requires Normal(t, [x]) && (x == LF ==> last == [CR])
    ensures Normal([x] + t, last)
  {
    var s := [x] + t;
    forall i | 0 <= i < |s| ensures Preceded(s, last, i) {
      if i > 0 { assert Preceded(t, [x], i - 1); }
    }
  }

  lemma {:induction false} CrlfNormal(s: seq<Byte>, last: seq<Byte>)
    ensures Normal(Crlf(s, last), last)
    decreases |s|
  {
    if s == [] {
    } else if s[0] == LF && last != [CR] {
      var t := Crlf(s[1..], [LF]);
      CrlfNormal(s[1..], [LF]);
      NormalMore(LF, t, [CR]);
      NormalMore(CR, [LF] + t, last);
      assert [CR] + ([LF] + t) == [CR, LF] + t;
    } else {
      CrlfNormal(s[1..], [s[0]]);
      NormalMore(s[0], Crlf(s[1..], [s[0]]), last);
    }
  }

  lemma {:induction false} NormalStays(s: seq<Byte>, last: seq<Byte>)
    requires Normal(s, last)
    ensures Crlf(s, last) == s
    decreases |s|
  {
    if s != [] {
      assert Preceded(s, last, 0);
      forall i | 0 <= i < |s| - 1 ensures Preceded(s[1..], [s[0]], i) {
        assert Preceded(s, last, i + 1);
      }
      NormalStays(s[1..], [s[0]]);
      assert s == [s[0]] + s[1..];
    }
  }

  /** Every LF of the result has its CR, and writing the result again would change nothing. */
  lemma CrlfOnce(s: seq<Byte>)
    ensures Normal(Crlf(s, []), []) && Crlf(Crlf(s, []), []) == Crlf(s, [])
  {
    CrlfNormal(s, []);
    NormalStays(Crlf(s, []), []);
  }

  /** A text without its CRs. */
  function NoCr(s: seq<Byte>): seq<Byte> {
    if s == [] then [] else (if s[0] == CR then [] else [s[0]]) + NoCr(s[1..])
  }

  lemma {:induction false} NoCrBoth(a: seq<Byte>, b: seq<Byte>)
    ensures NoCr(a + b) == NoCr(a) + NoCr(b)
    decreases |a|
  {
    if a == [] {
      assert a + b == b;
    } else {
      assert (a + b)[1..] == a[1..] + b;
      NoCrBoth(a[1..], b);
    }
  }

  /** Nothing but CRs is added. */
  lemma {:induction false} OnlyCrAdded(s: seq<Byte>, last: seq<Byte>)
    ensures NoCr(Crlf(s, last)) == NoCr(s)
    decreases |s|
  {
    if s != [] {
      OnlyCrAdded(s[1..], [s[0]]);
      NoCrBoth([CR, LF], Crlf(s[1..], [LF]));
      NoCrBoth([s[0]], Crlf(s[1..], [s[0]]));
      assert [CR, LF][1..] == [LF] && [LF][1..] == [] && [s[0]][1..] == [];
      assert NoCr([LF]) == [LF] && NoCr([CR, LF]) == [LF];
    }
  }

  // ----- where every byte goes ------------------------------------------------------------------

  /** An LF without a CR before it. */
  predicate Bare(s: seq<Byte>, i: nat)
    requires i < |s|
  {
    s[i] == LF && (i == 0 || s[i - 1] != CR)
  }

  /** How many of them there are. */
  function Bares(s: seq<Byte>): nat {
    if s == [] then 0 else Bares(s[..|s| - 1]) + if Bare(s, |s| - 1) then 1 else 0
  }

  /** What the last byte of a text becomes. */
  lemma {:induction false} CrlfLast(s: seq<Byte>, x: Byte, last: seq<Byte>)
    ensures Crlf(s + [x], last) == Crlf(s, last) + if x == LF && (if s == [] then last else [s[|s| - 1]]) != [CR] then [CR, LF] else [x]
    decreases |s|
  {
    if s == [] {
      assert [] + [x] == [x] && [x][1..] == [];
    } else {
      var first, more := s[0], s[1..];
      assert (s + [x])[0] == first && (s + [x])[1..] == more + [x];
      CrlfLast(more, x, [first]);
      assert more != [] ==> more[|more| - 1] == s[|s| - 1];
      hide Crlf;
      var end := if x == LF && s[|s| - 1] != CR then [CR, LF] else [x];
      CrlfHead(s, last);
      CrlfHead(s + [x], last);
      var head := if first == LF && last != [CR] then [CR, LF] else [first];
      Together(head, Crlf(more, [first]), end);
    }
  }

  lemma CrlfHead(s: seq<Byte>, last: seq<Byte>)
    requires s != []
    ensures Crlf(s, last) == (if s[0] == LF && last != [CR] then [CR, LF] else [s[0]]) + Crlf(s[1..], [s[0]])
  {
  }

  /** Byte `i` of a text stands as many places further on as there are bare LFs up to it, behind its CR if it is one. */
  predicate Placed(s: seq<Byte>, r: seq<Byte>, i: nat)
    requires i < |s|
  {
    var j := i + Bares(s[..i + 1]);
    j < |r| && r[j] == s[i] && (Bare(s, i) ==> j > 0 && r[j - 1] == CR)
  }

  lemma PlacedMore(s: seq<Byte>, x: Byte, r: seq<Byte>, end: seq<Byte>, i: nat)
    requires i < |s| && Placed(s, r, i)
    ensures Placed(s + [x], r + end, i)
  {
    assert (s + [x])[..i + 1] == s[..i + 1];
    hide Bares;
  }

  lemma PlacedLast(s: seq<Byte>, r: seq<Byte>, end: seq<Byte>)
    requires s != [] && |r| == |s| - 1 + Bares(s[..|s| - 1])
    requires end == if Bare(s, |s| - 1) then [CR, LF] else [s[|s| - 1]]
    ensures Placed(s, r + end, |s| - 1) && |r + end| == |s| + Bares(s)
  {
    assert s[..|s|] == s;
  }

  /** Exactly one CR is put in before each LF that has none, and nothing else. */
  lemma {:induction false} CrlfPlaces(s: seq<Byte>)
    ensures |Crlf(s, [])| == |s| + Bares(s) && forall i | 0 <= i < |s| :: Placed(s, Crlf(s, []), i)
    decreases |s|
  {
    hide Crlf, Bares, Placed;
    if s == [] {
      NothingPlaced();
    } else {
      var init, x := s[..|s| - 1], s[|s| - 1];
      assert s == init + [x];
      CrlfPlaces(init);
      CrlfLast(init, x, []);
      var r, end := Crlf(init, []), if Bare(s, |s| - 1) then [CR, LF] else [x];
      assert Crlf(s, []) == r + end;
      PlacedLast(s, r, end);
      forall i | 0 <= i < |s| ensures Placed(s, Crlf(s, []), i) {
        if i < |init| {
          PlacedMore(init, x, r, end, i);
        }
      }
    }
  }

  lemma NothingPlaced()
    ensures Crlf([], []) == [] && Bares([]) == 0
  {
  }
}
