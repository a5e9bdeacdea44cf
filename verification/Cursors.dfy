/**
 * The branchless scanners read fixed windows past the end of a line, as words
 * and bit masks; they still compute what a byte-by-byte reading gives.
 */
module Cursors {
  import opened TraceTypes
  import opened Lines
  import opened Bytes
  import opened Bits
  import opened Scan

  // ----- masks -----

  /** The mask has a bit for every byte of the window that fails the test. */
  ghost predicate Flags(mask: nat, window: seq<Byte>, n: nat, ok: Byte -> bool)
    requires n <= |window|
  {
    forall k: nat :: Bit(mask, k) <==> k < n && !ok(window[k])
  }

  lemma NoFlags(window: seq<Byte>, ok: Byte -> bool)
    ensures Flags(0, window, 0, ok)
  {
    forall k: nat ensures !Bit(0, k) { NoBits(k); }
  }

  lemma NextFlag(mask: nat, window: seq<Byte>, i: nat, ok: Byte -> bool)
    requires i < |window| && Flags(mask, window, i, ok)
    ensures Flags(BitOr(mask, ShiftLeft(if ok(window[i]) then 0 else 1, i)), window, i + 1, ok)
  {
    hide BitOr, ShiftLeft;
    forall k: nat
      ensures Bit(BitOr(mask, ShiftLeft(if ok(window[i]) then 0 else 1, i)), k) <==> k < i + 1 && !ok(window[k])
    {
      OrFlag(mask, !ok(window[i]), i, k);
    }
  }

  lemma SetBitIsPositive(mask: nat, k: nat)
    requires Bit(mask, k)
    ensures mask > 0
  {
    NoBits(k);
  }

  /** With a bit set where the line ends, the lowest bit is the run of the line, clamped to the window. */
  lemma WindowRun(rest: seq<Byte>, window: seq<Byte>, mask: nat, ok: Byte -> bool)
    requires |window| == 16 && Flags(mask, window, 16, ok)
    requires forall k :: 0 <= k < |rest| && k < 16 ==> rest[k] == window[k]
    ensures var n := TrailingZeros(BitOr(mask, ShiftLeft(1, Min(|rest|, 16))), 32);
            n == Min(16, Run(rest, ok)) && n <= |rest| && forall k :: 0 <= k < n ==> ok(rest[k])
  {
    hide BitOr, ShiftLeft;
    var stop := Min(|rest|, 16);
    var all := BitOr(mask, ShiftLeft(1, stop));
    forall k: nat ensures Bit(all, k) <==> (k < 16 && !ok(window[k])) || k == stop {
      OrFlag(mask, true, stop, k);
    }
    SetBitIsPositive(all, stop);
    hide Bit;
    var n := TrailingZeros(all, 32);
    assert n <= stop;
    RunClamped(rest, ok, n, stop);
  }

  lemma RunClamped(rest: seq<Byte>, ok: Byte -> bool, n: nat, stop: nat)
    requires stop == Min(|rest|, 16) && n <= stop && (forall k :: 0 <= k < n ==> ok(rest[k]))
             && (n < stop ==> !ok(rest[n]))
    ensures n == Min(16, Run(rest, ok))
  {}

  /** The table of nibbles, 255 for every byte that is none. */
  predicate IsHexTable(t: seq<Byte>) {
    |t| == 256 && forall b: Byte :: t[b] == if IsHex(b) then NibbleOf(b) else 255
  }

  method BuildHexTable() returns (t: seq<Byte>)
    ensures IsHexTable(t)
  {
    t := seq(256, _ => 255);
    for i := 0 to 10
      invariant |t| == 256 && forall b: Byte :: t[b] == if 48 <= b < 48 + i then b - 48 else 255
    {
      t := t[48 + i := i];
    }
    for i := 0 to 6
      invariant |t| == 256
      invariant forall b: Byte :: t[b] == if IsDigit(b) || 97 <= b < 97 + i || 65 <= b < 65 + i then NibbleOf(b)
                else 255
    {
      t := t[97 + i := 10 + i];
      t := t[65 + i := 10 + i];
    }
  }

  /** Classify sixteen bytes at once: a mask of those that are no digits, and their values if they were. */
  method ClassifyDecimal(w: seq<Byte>) returns (invalid: nat, d: seq<nat>)
    requires |w| == 16
    ensures Flags(invalid, w, 16, IsDigit) && |d| == 16
    ensures forall k :: 0 <= k < 16 && IsDigit(w[k]) ==> d[k] == DigitOf(w[k])
  {
    invalid, d := 0, [];
    NoFlags(w, IsDigit);
    hide Flags;
    for i := 0 to 16
      invariant |d| == i && Flags(invalid, w, i, IsDigit)
      invariant forall k :: 0 <= k < i && IsDigit(w[k]) ==> d[k] == DigitOf(w[k])
    {
      var b: int := w[i];
      var x: nat := (b - 48) % 256;
      NextFlag(invalid, w, i, IsDigit);
      invalid := BitOr(invalid, ShiftLeft(if x > 9 then 1 else 0, i));
      d := d + [x];
    }
  }

  method ClassifyHex(lut: seq<Byte>, w: seq<Byte>) returns (invalid: nat, nib: seq<nat>)
    requires |w| == 16 && IsHexTable(lut)
    ensures Flags(invalid, w, 16, IsHex) && |nib| == 16 && forall k :: 0 <= k < 16 ==> nib[k] < 16
    ensures forall k :: 0 <= k < 16 && IsHex(w[k]) ==> nib[k] == NibbleOf(w[k])
  {
    invalid, nib := 0, [];
    NoFlags(w, IsHex);
    hide Flags;
    for i := 0 to 16
      invariant |nib| == i && Flags(invalid, w, i, IsHex) && forall k :: 0 <= k < i ==> nib[k] < 16
      invariant forall k :: 0 <= k < i && IsHex(w[k]) ==> nib[k] == NibbleOf(w[k])
    {
      var x: nat := lut[w[i]];
      NextFlag(invalid, w, i, IsHex);
      invalid := BitOr(invalid, ShiftLeft(if x == 255 then 1 else 0, i));
      nib := nib + [x % 16];
    }
  }

  /** The bytes that end a token, as a mask. */
  method StopMask(w: seq<Byte>) returns (stop: nat)
    requires |w| == 16
    ensures Flags(stop, w, 16, IsTokenByte)
  {
    stop := 0;
    NoFlags(w, IsTokenByte);
    hide Flags;
    for i := 0 to 16
      invariant Flags(stop, w, i, IsTokenByte)
    {
      NextFlag(stop, w, i, IsTokenByte);
      stop := BitOr(stop, ShiftLeft(if w[i] == SPACE || w[i] == TAB || w[i] == NEWLINE then 1 else 0, i));
    }
  }

  /** Without a bit for the end of the line, the lowest bit is the run of the window, or there is none. */
  lemma MaskRun(window: seq<Byte>, mask: nat, ok: Byte -> bool)
    requires |window| == 16 && Flags(mask, window, 16, ok)
    ensures var k := TrailingZeros(mask, 32);
            if k < 16 then k == Run(window, ok) else Run(window, ok) == 16
  {
    if mask > 0 {
      var k := TrailingZeros(mask, 32);
      RunIs(window, ok, k);
    } else {
      forall k: nat ensures !Bit(0, k) { NoBits(k); }
      RunIs(window, ok, 16);
    }
  }

  // ----- folding -----

  /** Fold sixteen slots without a branch: past the run a slot neither scales nor adds; nothing overflows. */
  method FoldDecimal(d: seq<nat>, n: nat) returns (v: nat)
    requires |d| == 16 && n <= 16 && forall k :: 0 <= k < n ==> d[k] < 10
    ensures v == Fold(d[..n], 10) && v < U64_LIMIT
  {
    v := 0;
    for i := 0 to 16
      invariant v == Fold(d[..Min(i, n)], 10)
    {
      hide Fold;
      var take := if i < n then 1 else 0;
      TakeDigit(d, n, i, 10);
      Taken(v, d[i], take);
      v := v * (1 + 9 * take) + d[i] * take;
      FoldFits(d[..Min(i + 1, n)], 10);
      assert v < U64_LIMIT;
    }
    hide Fold;
    FoldFits(d[..n], 10);
  }

  /** The same with shift and or; no bit is shifted out. */
  method FoldHex(d: seq<nat>, n: nat) returns (v: nat)
    requires |d| == 16 && n <= 16 && forall k :: 0 <= k < 16 ==> d[k] < 16
    ensures v == Fold(d[..n], 16) && v < U64_LIMIT
  {
    v := 0;
    for i := 0 to 16
      invariant v == Fold(d[..Min(i, n)], 16)
    {
      hide Fold, BitOr, ShiftLeft;
      var take := if i < n then 1 else 0;
      TakeDigit(d, n, i, 16);
      ShiftOr(v, d[i], take);
      v := BitOr(ShiftLeft(v, 4 * take), d[i] * take);
      FoldFits(d[..Min(i + 1, n)], 16);
      assert v < U64_LIMIT;
    }
    hide Fold;
    FoldFits(d[..n], 16);
  }

  /** The i-th slot of a window, when its first `n` are digits. */
  lemma TakeDigit(d: seq<nat>, n: nat, i: nat, base: nat)
    requires i < |d| && n <= |d|
    ensures Fold(d[..Min(i + 1, n)], base) ==
            if i < n then Fold(d[..Min(i, n)], base) * base + d[i] else Fold(d[..Min(i, n)], base)
  {
    if i < n { assert d[..i + 1][..i] == d[..i]; }
  }

  lemma Taken(v: nat, x: nat, take: nat)
    requires take <= 1
    ensures v * (1 + 9 * take) + x * take == if take == 1 then v * 10 + x else v
  {}

  lemma ShiftOr(v: nat, x: nat, take: nat)
    requires x < 16 && take <= 1
    ensures BitOr(ShiftLeft(v, 4 * take), x * take) == if take == 1 then v * 16 + x else v
  {
    assert Power(0) == 1 && Power(4) == 16;
    if take == 1 {
      OrAdds(v, x, 4);
    } else {
      OrAdds(v, 0, 0);
      assert v * 1 == v;
    }
  }

  // ----- spaces -----

  const BLANKS: Blob := [32, 32, 32, 32, 32, 32, 32, 32]

  const BLANK_WORD: nat := 0x2020_2020_2020_2020

  lemma BlankWord()
    ensures Un(BLANKS) == BLANK_WORD
  {
    assert Un([32]) == 32;
    assert [32, 32][1..] == [32];
    assert Un([32, 32]) == 0x2020;
    assert [32, 32, 32][1..] == [32, 32];
    assert Un([32, 32, 32]) == 0x20_2020;
    assert [32, 32, 32, 32][1..] == [32, 32, 32];
    assert Un([32, 32, 32, 32]) == 0x2020_2020;
    assert BLANKS[4..] == [32, 32, 32, 32] && BLANKS[3..] == [32, 32, 32, 32, 32];
    assert BLANKS[3..][1..] == BLANKS[4..] && BLANKS[2..][1..] == BLANKS[3..] && BLANKS[1..][1..] == BLANKS[2..];
    assert Un(BLANKS[3..]) == 0x20_2020_2020;
    assert Un(BLANKS[2..]) == 0x2020_2020_2020;
    assert Un(BLANKS[1..]) == 0x20_2020_2020_2020;
  }

  lemma {:induction false} ZeroBytes(s: Blob)
    ensures Un(s) == 0 <==> forall k :: 0 <= k < |s| ==> s[k] == 0
  {
    if s != [] {
      ZeroBytes(s[1..]);
      assert forall k :: 0 < k < |s| ==> s[k] == s[1..][k - 1];
    }
  }

  /** The first byte of the exclusive or that is not zero is the first that is no space. */
  lemma SpacesByXor(s: Blob)
    requires |s| == 8
    ensures var x := BitXor(Un(s), BLANK_WORD);
            && (x == 0 <==> Run(s, IsSpace) == 8)
            && (x != 0 ==> TrailingZeros(x, 64) / 8 == Run(s, IsSpace))
  {
    hide BitXor, Un, LowestBit;
    BlankWord();
    XorBytes(s, BLANKS);
    var xs := BytesXor(s, BLANKS);
    hide BytesXor;
    ZeroBytes(xs);
    assert forall k :: 0 <= k < 8 ==> BLANKS[k] == SPACE;
    var n := Run(s, IsSpace);
    hide Run;
    if n < 8 { FirstNonZero(xs, n); }
  }

  // ----- the cursor -----

  /** A position in `buf`; the line ends at `end`, and GUARD bytes follow it. */
  class Cursor {
    const buf: seq<Byte>
    const end: nat
    const lut: seq<Byte>
    var p: nat

    ghost predicate Valid()
      reads this
    {
      p <= end && end + GUARD <= |buf| && IsHexTable(lut)
    }

    /** The unread part of the line; guard bytes are not part of it. */
    ghost function Rest(): seq<Byte>
      requires Valid()
      reads this
    {
      buf[p..end]
    }

    constructor (buf: seq<Byte>, end: nat, lut: seq<Byte>)
      requires end + GUARD <= |buf| && IsHexTable(lut)
      ensures Valid() && this.buf == buf && this.end == end && p == 0
    {
      this.buf, this.end, this.lut, this.p := buf, end, lut, 0;
    }

    /** Decimal run over a 16-byte window: every byte is classified and folded, digits or not. */
    method Dec() returns (v: nat, n: nat)
      requires Valid()
      modifies this
      ensures Valid() && n == NumberLength(old(Rest())) && v == Number(old(Rest())) && v < U64_LIMIT
      ensures p == old(p) + n && Rest() == AfterNumber(old(Rest()))
    {
      ghost var rest := Rest();
      var w := buf[p..p + 16];
      var invalid, d := ClassifyDecimal(w);
      hide Flags, Run, BitOr, ShiftLeft, Fold;
      WindowRun(rest, w, invalid, IsDigit);
      n := TrailingZeros(BitOr(invalid, ShiftLeft(1, Min(end - p, 16))), 32);
      v := FoldDecimal(d, n);
      assert d[..n] == Digits(rest[..n]);
      p := p + n;
    }

    /** Hex run over a 16-byte window, through the table of nibbles. */
    method Hex() returns (v: nat, n: nat)
      requires Valid()
      modifies this
      ensures Valid() && n == Min(16, Run(old(Rest()), IsHex)) && p == old(p) + n
      ensures v == Hexadecimal(old(Rest())[..n]) && v < U64_LIMIT
    {
      ghost var rest := Rest();
      var w := buf[p..p + 16];
      var invalid, nib := ClassifyHex(lut, w);
      hide Flags, Run, BitOr, ShiftLeft, Fold;
      WindowRun(rest, w, invalid, IsHex);
      n := TrailingZeros(BitOr(invalid, ShiftLeft(1, Min(end - p, 16))), 32);
      v := FoldHex(nib, n);
      assert nib[..n] == Nibbles(rest[..n]);
      p := p + n;
    }

    /** Skip spaces a word at a time; a tab stops it. */
    method SkipSpaces()
      requires Valid()
      modifies this
      ensures Valid() && Rest() == SkipBlanks(old(Rest()))
    {
      ghost var rest := Rest();
      ghost var done := 0;
      while true
        invariant Valid() && p == old(p) + done && done <= |rest| && Rest() == rest[done..]
        invariant forall k :: 0 <= k < done ==> rest[k] == SPACE
        decreases end - p
      {
        hide BitXor, Un, IsHexTable, Run, TrailingZeros, Word;
        var rem := end - p;
        if rem == 0 {
          RunIs(rest, IsSpace, done);
          return;
        }
        ghost var w := buf[p..p + 8];
        assert forall k :: done <= k < |rest| && k < done + 8 ==> rest[k] == w[k - done];
        var x := BitXor(Word(buf, p, 8), BLANK_WORD);
        WordOf(buf, p);
        SpacesByXor(w);
        if x == 0 && rem >= 8 {
          AllSpaces(w);
          p := p + 8;
          done := done + 8;
        } else {
          var first := if x == 0 then 8 else TrailingZeros(x, 64) / 8;
          StopsInWord(rest, done, w, first, rem);
          p := p + Min(first, rem);
          return;
        }
      }
    }

    /** The number of bytes up to the next blank, newline or line end, sixteen at a time. */
    method TokenLength() returns (r: nat)
      requires Valid()
      ensures r == Run(Rest(), IsTokenByte)
    {
      ghost var rest := Rest();
      var rem := end - p;
      var n := 0;
      while n < rem
        invariant 0 <= n && forall k :: 0 <= k < n && k < rem ==> IsTokenByte(rest[k])
      {
        hide IsHexTable, Flags;
        var w := buf[p + n..p + n + 16];
        var stop := StopMask(w);
        MaskRun(w, stop, IsTokenByte);
        var k := TrailingZeros(stop, 32);
        assert forall j :: n <= j < n + 16 && j < rem ==> rest[j] == w[j - n];
        if k < 16 {
          RunIs(rest, IsTokenByte, Min(n + k, rem));
          return Min(n + k, rem);
        }
        n := n + 16;
      }
      RunIs(rest, IsTokenByte, rem);
      return rem;
    }

    /**
     * Step over `stop` if it is the next byte, which may be the one behind the line.
     * Then the cursor has left the line.
     */
    method Eat(stop: Byte) returns (ok: bool, left: bool)
      requires Valid()
      modifies this
      ensures left <==> old(Rest()) == [] && buf[end] == stop
      ensures left ==> p == end + 1
      ensures !left ==> Valid() && ok == StartsWith(old(Rest()), stop)
      ensures !left ==> Rest() == if ok then old(Rest())[1..] else old(Rest())
    {
      ok := buf[p] == stop;
      left := ok && p == end;
      if ok { p := p + 1; }
    }

    method Field(stop: Byte) returns (ok: bool, left: bool, v: nat, n: nat)
      requires Valid()
      modifies this
      ensures left <==> NumberLength(old(Rest())) > 0 && AfterNumber(old(Rest())) == [] && buf[end] == stop
      ensures left ==> p == end + 1
      ensures !left ==> Valid() && ok == HasField(old(Rest()), stop)
      ensures !left && ok ==>
                && v == Number(old(Rest())) && n == NumberLength(old(Rest()))
                && Rest() == AfterField(old(Rest()), stop)
    {
      hide NumberLength, Number, AfterNumber;
      v, n := Dec();
      if n == 0 { return false, false, v, n; }
      ok, left := Eat(stop);
    }

    /**
     * Read the head of a sample line, as far as the cursor stays in the line. It leaves
     * the line exactly when the byte behind the line is what was wanted there.
     */
    method ParseHead() returns (left: bool, h: Option<Head>)
      requires Valid()
      modifies this
      ensures left <==> Wanted(old(Rest())) == Some(buf[end])
      ensures left ==> p == end + 1
      ensures !left ==> Valid() && h == HeadOf(old(Rest()))
      ensures !left && h.Some? ==> Rest() == h.value.rest
    {
      hide StartsWith, HasField, AfterField, NumberLength, Number, AfterNumber, SkipBlanks, TimeOf, WantedInTime,
           IsHexTable;
      SkipSpaces();
      var ok, pid, n;
      FieldOrNot(Rest(), SLASH);
      ok, left, pid, n := Field(SLASH);
      if left || !ok { return left, None; }
      var tid;
      tid, n := Dec();
      if n == 0 { return false, None; }
      SkipSpaces();
      var cpu: Option<nat> := None;
      StartOrNot(Rest(), OPEN);
      ok, left := Eat(OPEN);
      if left { return true, None; }
      if ok {
        var v;
        FieldOrNot(Rest(), CLOSE);
        ok, left, v, n := Field(CLOSE);
        if left || !ok { return left, None; }
        cpu := Some(Low32(v));
        SkipSpaces();
      }
      NothingWanted();
      left, h := ParseTime(pid, tid, cpu);
    }

    method ParseTime(pid: nat, tid: nat, cpu: Option<nat>) returns (left: bool, h: Option<Head>)
      requires Valid()
      modifies this
      ensures left <==> WantedInTime(old(Rest())) == Some(buf[end])
      ensures left ==> p == end + 1
      ensures !left ==> Valid() && h == TimeOf(pid, tid, cpu, old(Rest()))
      ensures !left && h.Some? ==> Rest() == h.value.rest
    {
      hide StartsWith, Run, Decimal, NumberLength, SkipBlanks, PerfTime, CheckedTime, Pow, AllDigits, AfterNumber,
           IsHexTable;
      ghost var s := Rest();
      FieldOrNot(s, DOT);
      var ok, sec, n;
      ok, left, sec, n := Field(DOT);
      if left || !ok { return left, None; }
      ghost var f := Rest();
      FieldOrNot(f, COLON);
      var frac, digits;
      frac, digits := Dec();
      if digits == 0 || digits > 9 { return false, None; }
      ok, left := Eat(COLON);
      if left || !ok { return left, None; }
      FastTimeAgrees(s[..NumberLength(s)], f[..NumberLength(f)]);
      var time := CheckedTime(sec, frac * Pow(10, 9 - digits));
      SkipSpaces();
      if time.None? { return false, None; }
      h := Some(Head(Low32(pid), Low32(tid), cpu, time.value, buf[p..end]));
    }
  }

  lemma WordOf(buf: Blob, p: nat)
    requires p + 8 <= |buf|
    ensures Word(buf, p, 8) == Un(buf[p..p + 8])
  {}

  lemma AllSpaces(w: Blob)
    requires |w| == 8 && Run(w, IsSpace) == 8
    ensures forall k :: 0 <= k < 8 ==> w[k] == SPACE
  {}

  /** The word that ends the run of spaces, or reaches past the line. */
  lemma StopsInWord(rest: seq<Byte>, done: nat, w: Blob, first: nat, rem: nat)
    requires |w| == 8 && first == Run(w, IsSpace) && done + rem == |rest| && (first == 8 ==> rem < 8)
    requires forall k :: done <= k < |rest| && k < done + 8 ==> rest[k] == w[k - done]
    requires forall k :: 0 <= k < done ==> rest[k] == SPACE
    ensures Run(rest, IsSpace) == done + Min(first, rem)
  {
    RunIs(rest, IsSpace, done + Min(first, rem));
  }

  lemma FieldOrNot(s: seq<Byte>, stop: Byte)
    ensures HasField(s, stop) ==> NumberLength(s) > 0 && AfterNumber(s) != []
    ensures HasField(s, stop) <==> NumberLength(s) > 0 && StartsWith(AfterNumber(s), stop)
  {}

  lemma NothingWanted()
    ensures WantedInTime([]) == None
  {}

  lemma StartOrNot(s: seq<Byte>, b: Byte)
    ensures StartsWith(s, b) ==> s != []
  {}

  /** For the lines that the reader hands out, trimmed or not, the head is read inside the line. */
  lemma TerminatedStays(line: seq<Byte>, behind: Byte)
    requires behind <= SPACE
    ensures Wanted(line) != Some(behind)
  {
    if Wanted(line).Some? { WantedMeansIncomplete(line); }
  }

  /** A line that ends in its process number, with a slash behind it, is left. */
  lemma SlashBehindIsTaken()
    ensures Wanted([49, 50]) == Some(SLASH)
  {
    var line: seq<Byte> := [49, 50];
    RunIs(line, IsSpace, 0);
    assert SkipBlanks(line) == line;
    RunIs(line, IsDigit, 2);
    assert AfterNumber(line) == [];
  }
}
