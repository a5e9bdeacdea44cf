/**
 * The chunked line reader: however the reader splits its bytes, the lines
 * handed out are those of the whole input, each with guard bytes behind it.
 */
module Lines {

  type Byte = b: int | 0 <= b < 256

  const NEWLINE: Byte := 10
  const CHUNK: nat := 4194304
  const GUARD: nat := 32

  // ----- the lines of a byte string -----

  predicate Plain(s: seq<Byte>) {
    forall k :: 0 <= k < |s| ==> s[k] != NEWLINE
  }

  /** The number of bytes before the first newline, or the length. */
  function LineLength(s: seq<Byte>): (n: nat)
    ensures n <= |s| && (n < |s| ==> s[n] == NEWLINE)
    ensures forall k :: 0 <= k < n ==> s[k] != NEWLINE
  {
    if s == [] || s[0] == NEWLINE then 0 else 1 + LineLength(s[1..])
  }

  /** Newline-separated lines; a last line without a newline counts unless it is empty. */
  function LinesOf(s: seq<Byte>): seq<seq<Byte>>
    decreases |s|
  {
    if s == [] then []
    else
      var n := LineLength(s);
      if n == |s| then [s] else [s[..n]] + LinesOf(s[n + 1..])
  }

  /** The first line is known as soon as its newline is. */
  lemma FirstLine(line: seq<Byte>, rest: seq<Byte>)
    requires Plain(line)
    ensures LinesOf(line + [NEWLINE] + rest) == [line] + LinesOf(rest)
  {
    var s := line + [NEWLINE] + rest;
    var n := |line|;
    assert s[n] == NEWLINE;
    assert forall k :: 0 <= k < n ==> s[k] == line[k];
    assert LineLength(s) == n;
    assert s[..n] == line && s[n + 1..] == rest;
  }

  lemma LastLine(s: seq<Byte>)
    requires Plain(s)
    ensures LinesOf(s) == if s == [] then [] else [s]
  {}

  function Unlines(lines: seq<seq<Byte>>): seq<Byte> {
    if lines == [] then [] else lines[0] + [NEWLINE] + Unlines(lines[1..])
  }

  /** The input as its lines joined up would give it. */
  function Closed(s: seq<Byte>): seq<Byte> {
    if s == [] || s[|s| - 1] == NEWLINE then s else s + [NEWLINE]
  }

  lemma ClosedAfterLine(s: seq<Byte>, n: nat)
    requires n < |s| && s[n] == NEWLINE
    ensures Closed(s) == s[..n] + [NEWLINE] + Closed(s[n + 1..])
  {}

  lemma UnlinesFirst(line: seq<Byte>, rest: seq<seq<Byte>>)
    ensures Unlines([line] + rest) == line + [NEWLINE] + Unlines(rest)
  {}

  /** No line holds a newline, and the lines joined up again are the input, closed by a newline. */
  lemma {:induction false} LinesRebuild(s: seq<Byte>)
    ensures forall i :: 0 <= i < |LinesOf(s)| ==> Plain(LinesOf(s)[i])
    ensures Unlines(LinesOf(s)) == Closed(s)
    decreases |s|
  {
    hide LineLength;
    if s != [] {
      var n := LineLength(s);
      if n == |s| {
        assert s == s[..n];
        UnlinesFirst(s, []);
        assert [s] + [] == [s];
      } else {
        hide Unlines, Closed;
        LinesRebuild(s[n + 1..]);
        UnlinesFirst(s[..n], LinesOf(s[n + 1..]));
        ClosedAfterLine(s, n);
      }
    }
  }

  // ----- the reader -----

  /** A source of bytes that may return any positive number of them per call; `plan` fixes the choices. */
  class Reader {
    const data: seq<Byte>
    const plan: nat -> nat
    var pos: nat
    var turn: nat

    ghost predicate Valid()
      reads this
    {
      pos <= |data|
    }

    constructor (data: seq<Byte>, plan: nat -> nat)
      ensures Valid() && this.data == data && pos == 0
    {
      this.data, this.plan := data, plan;
      pos, turn := 0, 0;
    }

    /** Fill part of buf[from..]; 0 means that the input has ended, provided the slice is not empty. */
    method Read(buf: array<Byte>, from: nat) returns (n: nat)
      requires Valid() && from < buf.Length
      modifies this, buf
      ensures Valid() && from + n <= buf.Length && pos == old(pos) + n
      ensures n == 0 <==> old(pos) == |data|
      ensures buf[from..from + n] == data[old(pos)..pos]
      ensures buf[..from] == old(buf[..from])
    {
      var want := if plan(turn) == 0 then 1 else plan(turn);
      turn := turn + 1;
      n := want;
      if n > buf.Length - from { n := buf.Length - from; }
      if n > |data| - pos { n := |data| - pos; }
      forall k | 0 <= k < n {
        buf[from + k] := data[pos + k];
      }
      ghost var got, sent := buf[from..from + n], data[pos..pos + n];
      assert forall k :: 0 <= k < n ==> got[k] == sent[k];
      pos := pos + n;
    }
  }

  /** `Vec::resize`: the first bytes are kept, new ones are zero. */
  method Resize(buf: array<Byte>, len: nat) returns (r: array<Byte>)
    ensures fresh(r) && r.Length == len
    ensures forall k :: 0 <= k < len ==> r[k] == if k < buf.Length then buf[k] else 0
  {
    r := new Byte[len](k => 0);
    var n := if len < buf.Length then len else buf.Length;
    forall k | 0 <= k < n {
      r[k] := buf[k];
    }
  }

  /** What the line consumer has been given. */
  class Sink {
    var lines: seq<seq<Byte>>
    var bytes: nat

    constructor ()
      ensures lines == [] && bytes == 0
    {
      lines, bytes := [], 0;
    }

    /** The line is buf[start..end]; GUARD bytes behind it must be readable, and the first ends it. */
    method Consume(buf: array<Byte>, start: nat, end: nat)
      requires start <= end && end + GUARD <= buf.Length && (buf[end] == NEWLINE || buf[end] == 0)
      modifies `lines
      ensures lines == old(lines) + [buf[start..end]]
    {
      lines := lines + [buf[start..end]];
    }
  }

  method LastNewline(buf: array<Byte>, filled: nat) returns (r: int)
    requires filled <= buf.Length
    ensures -1 <= r < filled
    ensures r >= 0 ==> buf[r] == NEWLINE
    ensures forall k :: r < k < filled ==> buf[k] != NEWLINE
  {
    r := filled - 1;
    while r >= 0 && buf[r] != NEWLINE
      invariant -1 <= r < filled
      invariant forall k :: r < k < filled ==> buf[k] != NEWLINE
    {
      r := r - 1;
    }
  }

  method NextNewline(buf: array<Byte>, start: nat, limit: nat) returns (n: nat)
    requires start < limit <= buf.Length && buf[limit - 1] == NEWLINE
    ensures start <= n < limit && buf[n] == NEWLINE && Plain(buf[start..n])
  {
    n := start;
    while buf[n] != NEWLINE
      invariant start <= n < limit
      invariant forall k :: start <= k < n ==> buf[k] != NEWLINE
      decreases limit - n
    {
      n := n + 1;
    }
  }

  /** Hand out every complete line of buf[..limit]; `rest` is what follows in the input. */
  method HandOut(buf: array<Byte>, limit: nat, filled: nat, sink: Sink, ghost rest: seq<Byte>)
    requires 0 < limit <= filled && filled + GUARD <= buf.Length && buf[limit - 1] == NEWLINE
    modifies sink
    ensures sink.bytes == old(sink.bytes) + limit
    ensures sink.lines + LinesOf(buf[limit..filled] + rest) == old(sink.lines) + LinesOf(buf[..filled] + rest)
  {
    hide LinesOf;
    ghost var all := LinesOf(buf[..filled] + rest);
    var start := 0;
    assert buf[0..filled] == buf[..filled];
    while start < limit
      invariant start <= limit
      invariant sink.bytes == old(sink.bytes) + start
      invariant sink.lines + LinesOf(buf[start..filled] + rest) == old(sink.lines) + all
    {
      var end := NextNewline(buf, start, limit);
      sink.bytes := sink.bytes + (end - start + 1);
      ghost var line, after := buf[start..end], buf[end + 1..filled] + rest;
      assert buf[start..filled] + rest == line + [NEWLINE] + after;
      FirstLine(line, after);
      ghost var before := sink.lines;
      sink.Consume(buf, start, end);
      assert before + ([line] + LinesOf(after)) == (before + [line]) + LinesOf(after);
      start := end + 1;
    }
  }

  /** Make room to read into: a line longer than the buffer doubles it. */
  method Grow(buf: array<Byte>, filled: nat) returns (r: array<Byte>)
    requires filled <= buf.Length && CHUNK <= buf.Length
    ensures (r == buf || fresh(r)) && CHUNK <= r.Length
    ensures filled < r.Length && r[..filled] == buf[..filled]
  {
    r := buf;
    if filled == buf.Length {
      r := Resize(buf, buf.Length * 2);
    }
  }

  /** Give every byte of buf[..filled] GUARD bytes behind it. */
  method Widen(buf: array<Byte>, filled: nat) returns (r: array<Byte>)
    requires filled <= buf.Length && CHUNK <= buf.Length
    ensures (r == buf || fresh(r)) && CHUNK <= r.Length
    ensures filled + GUARD <= r.Length && r[..filled] == buf[..filled]
  {
    r := buf;
    if buf.Length < filled + GUARD {
      r := Resize(buf, filled + GUARD);
    }
  }

  /** Move the unfinished line to the front, and give back an oversized buffer. */
  method Compact(buf: array<Byte>, limit: nat, filled: nat) returns (r: array<Byte>)
    requires limit <= filled <= buf.Length && CHUNK <= buf.Length
    modifies buf
    ensures (r == buf || fresh(r)) && CHUNK <= r.Length && filled - limit <= r.Length
    ensures r[..filled - limit] == old(buf[limit..filled])
  {
    var left := filled - limit;
    forall k | 0 <= k < left {
      buf[k] := buf[limit + k];
    }
    r := buf;
    assert r[..left] == old(buf[limit..filled]);
    if r.Length > CHUNK * 4 && left < CHUNK {
      r := Resize(r, CHUNK);
    }
    if r.Length < CHUNK {
      r := Resize(r, CHUNK);
    }
  }

  /** The input ended inside a line: hand it out from a buffer of its own. */
  method HandOutTail(buf: array<Byte>, filled: nat, sink: Sink)
    requires filled <= buf.Length && Plain(buf[..filled])
    modifies sink
    ensures sink.lines == old(sink.lines) + LinesOf(buf[..filled]) && sink.bytes == old(sink.bytes) + filled
  {
    LastLine(buf[..filled]);
    if filled > 0 {
      sink.bytes := sink.bytes + filled;
      var tail := Resize(buf, filled);
      tail := Resize(tail, filled + GUARD);
      assert tail[0..filled] == buf[..filled];
      sink.Consume(tail, 0, filled);
    }
  }

  /** Hand out the complete lines of buf[..filled] and keep the unfinished one; `rest` is still unread. */
  method Drain(buf: array<Byte>, filled: nat, sink: Sink, ghost rest: seq<Byte>) returns (r: array<Byte>, left: nat)
    requires filled <= buf.Length && CHUNK <= buf.Length
    modifies sink, buf
    ensures (r == buf || fresh(r)) && CHUNK <= r.Length && left <= r.Length && Plain(r[..left])
    ensures sink.lines + LinesOf(r[..left] + rest) == old(sink.lines) + LinesOf(old(buf[..filled]) + rest)
    ensures sink.bytes + left == old(sink.bytes) + filled
  {
    hide LinesOf;
    r, left := buf, filled;
    var nl := LastNewline(buf, filled);
    if nl >= 0 {
      r := Widen(buf, filled);
      assert r[nl] == r[..filled][nl];
      HandOut(r, nl + 1, filled, sink, rest);
      assert r[nl + 1..filled] == old(buf[..filled])[nl + 1..];
      left := filled - (nl + 1);
      r := Compact(r, nl + 1, filled);
    }
  }

  /** Whatever the reader's choices, the sink receives the lines of the whole input, and counts each byte once. */
  method StreamRecords(reader: Reader, sink: Sink)
    requires reader.Valid() && reader.pos == 0 && sink.lines == [] && sink.bytes == 0
    modifies reader, sink
    ensures sink.lines == LinesOf(reader.data) && sink.bytes == |reader.data|
  {
    hide LinesOf, Plain;
    var buf := new Byte[CHUNK](k => 0);
    var filled: nat := 0;
    ghost var data := reader.data;
    assert buf[..0] + data[0..] == data;
    assert Plain(buf[..0]) by { EmptyIsPlain(buf[..0]); }
    while true
      invariant reader.Valid() && fresh(buf) && filled <= buf.Length && CHUNK <= buf.Length
      invariant Plain(buf[..filled])
      invariant sink.lines + LinesOf(buf[..filled] + data[reader.pos..]) == LinesOf(data)
      invariant sink.bytes + filled == reader.pos
      decreases |data| - reader.pos
    {
      buf := Grow(buf, filled);
      ghost var kept, pos := buf[..filled], reader.pos;
      var n := reader.Read(buf, filled);
      if n == 0 {
        assert kept + data[reader.pos..] == kept;
        HandOutTail(buf, filled, sink);
        return;
      }
      filled := filled + n;
      assert buf[..filled] == kept + data[pos..reader.pos];
      Regroup(kept, data, pos, reader.pos);
      buf, filled := Drain(buf, filled, sink, data[reader.pos..]);
    }
  }

  lemma Regroup(kept: seq<Byte>, data: seq<Byte>, from: nat, to: nat)
    requires from <= to <= |data|
    ensures kept + data[from..to] + data[to..] == kept + data[from..]
  {}

  lemma EmptyIsPlain(s: seq<Byte>)
    requires s == []
    ensures Plain(s)
  {}
}
