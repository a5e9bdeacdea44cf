/**
 * Numbers, times and the head of a sample line, read byte by byte: what the
 * branchless scanners are measured against.
 */
module Scan {
  import opened TraceTypes
  import opened Lines

  const U64_LIMIT: nat := 0x1_0000_0000_0000_0000

  const SPACE: Byte := 32
  const TAB: Byte := 9

  // ----- reading a line byte by byte -----

  predicate IsDigit(b: Byte) { 48 <= b <= 57 }

  predicate IsHex(b: Byte) { IsDigit(b) || 97 <= b <= 102 || 65 <= b <= 70 }

  function DigitOf(b: Byte): nat
    requires IsDigit(b)
  {
    b - 48
  }

  function NibbleOf(b: Byte): (n: nat)
    requires IsHex(b)
    ensures n < 16
  {
    if IsDigit(b) then b - 48 else if b >= 97 then b - 87 else b - 55
  }

  /** The length of the longest prefix of `s` whose bytes satisfy the test. */
  function Run(s: seq<Byte>, ok: Byte -> bool): (n: nat)
    ensures n <= |s| && (forall k :: 0 <= k < n ==> ok(s[k])) && (n < |s| ==> !ok(s[n]))
  {
    if s == [] || !ok(s[0]) then 0 else 1 + Run(s[1..], ok)
  }

  lemma RunIs(s: seq<Byte>, ok: Byte -> bool, n: nat)
    requires n <= |s| && (forall k :: 0 <= k < n ==> ok(s[k])) && (n < |s| ==> !ok(s[n]))
    ensures Run(s, ok) == n
  {}

  /** Left-to-right folding of digits in a base. */
  function Fold(ds: seq<nat>, base: nat): nat {
    if ds == [] then 0 else Fold(ds[..|ds| - 1], base) * base + ds[|ds| - 1]
  }

  function Digits(s: seq<Byte>): (ds: seq<nat>)
    requires forall k :: 0 <= k < |s| ==> IsDigit(s[k])
    ensures |ds| == |s| && forall k :: 0 <= k < |s| ==> ds[k] == DigitOf(s[k])
  {
    seq(|s|, k requires 0 <= k < |s| => DigitOf(s[k]))
  }

  function Nibbles(s: seq<Byte>): (ds: seq<nat>)
    requires forall k :: 0 <= k < |s| ==> IsHex(s[k])
    ensures |ds| == |s| && forall k :: 0 <= k < |s| ==> ds[k] == NibbleOf(s[k])
  {
    seq(|s|, k requires 0 <= k < |s| => NibbleOf(s[k]))
  }

  function Decimal(s: seq<Byte>): nat
    requires forall k :: 0 <= k < |s| ==> IsDigit(s[k])
  {
    Fold(Digits(s), 10)
  }

  function Hexadecimal(s: seq<Byte>): nat
    requires forall k :: 0 <= k < |s| ==> IsHex(s[k])
  {
    Fold(Nibbles(s), 16)
  }

  function Pow(b: nat, n: nat): nat {
    if n == 0 then 1 else Pow(b, n - 1) * b
  }

  lemma StepBound(v: nat, d: nat, base: nat, p: nat)
    requires v < p && d < base
    ensures v * base + d < p * base
  {
    assert (v + 1) * base <= p * base;
  }

  lemma {:induction false} FoldBound(ds: seq<nat>, base: nat)
    requires forall k :: 0 <= k < |ds| ==> ds[k] < base
    ensures Fold(ds, base) < Pow(base, |ds|)
  {
    if ds != [] {
      FoldBound(ds[..|ds| - 1], base);
      StepBound(Fold(ds[..|ds| - 1], base), ds[|ds| - 1], base, Pow(base, |ds| - 1));
    }
  }

  lemma {:induction false} PowMonotone(b: nat, m: nat, n: nat)
    requires b >= 1 && m <= n
    ensures 1 <= Pow(b, m) <= Pow(b, n)
    decreases n
  {
    if n > 0 {
      if m < n {
        PowMonotone(b, m, n - 1);
        assert Pow(b, n - 1) <= Pow(b, n - 1) * b;
      } else {
        PowMonotone(b, m - 1, n - 1);
        assert Pow(b, n - 1) <= Pow(b, n - 1) * b;
      }
    }
  }

  lemma Pow16()
    ensures Pow(10, 16) < U64_LIMIT && Pow(16, 16) == U64_LIMIT
  {
    assert Pow(10, 4) == 10000;
    assert Pow(10, 8) == 100000000;
    assert Pow(10, 12) == 1000000000000;
    assert Pow(10, 16) == 10000000000000000;
    assert Pow(16, 4) == 0x1_0000;
    assert Pow(16, 8) == 0x1_0000_0000;
    assert Pow(16, 12) == 0x1_0000_0000_0000;
  }

  // ----- times -----

  const DOT: Byte := 46
  const COLON: Byte := 58
  const PLUS: Byte := 43

  predicate AllDigits(s: seq<Byte>) { forall k :: 0 <= k < |s| ==> IsDigit(s[k]) }

  /** Rust's `parse::<u64>`: an optional plus sign and at least one digit, in range. */
  function ParseU64(s: seq<Byte>): Option<nat> {
    var t := if s != [] && s[0] == PLUS then s[1..] else s;
    if t != [] && AllDigits(t) && Decimal(t) < U64_LIMIT then Some(Decimal(t)) else None
  }

  function ZeroDigits(n: nat): (z: seq<Byte>)
    ensures |z| == n && forall k :: 0 <= k < n ==> z[k] == 48
  {
    seq(n, k => 48)
  }

  /** Exactly nine digits of a fraction: cut off, or filled up with zeros. */
  function NineDigits(frac: seq<Byte>): seq<Byte> {
    if |frac| > 9 then frac[..9] else frac + ZeroDigits(9 - |frac|)
  }

  function StripColons(s: seq<Byte>): seq<Byte> {
    if s != [] && s[|s| - 1] == COLON then StripColons(s[..|s| - 1]) else s
  }

  predicate NotDot(b: Byte) { b != DOT }

  function CheckedTime(sec: nat, nsec: nat): Option<nat> {
    if sec * 1_000_000_000 + nsec < U64_LIMIT then Some(sec * 1_000_000_000 + nsec) else None
  }

  /** The white space of ASCII. */
  predicate IsWhite(b: Byte) { 9 <= b <= 13 || b == SPACE }

  function TrimBack(s: seq<Byte>): seq<Byte> {
    if s != [] && IsWhite(s[|s| - 1]) then TrimBack(s[..|s| - 1]) else s
  }

  function Trim(s: seq<Byte>): seq<Byte> { TrimBack(s[Run(s, IsWhite)..]) }

  /** The tolerant reading of `seconds.frac`. */
  function PerfTime(token: seq<Byte>): Option<nat> {
    var t := StripColons(Trim(token));
    var n := Run(t, NotDot);
    var sec := ParseU64(t[..n]);
    var nsec := ParseU64(NineDigits(if n < |t| then t[n + 1..] else [48]));
    if sec.None? || nsec.None? then None else CheckedTime(sec.value, nsec.value)
  }

  /** Appending zeros scales a number by a power of ten. */
  lemma {:induction false} ZerosScale(s: seq<Byte>, n: nat)
    requires AllDigits(s)
    ensures AllDigits(s + ZeroDigits(n)) && Decimal(s + ZeroDigits(n)) == Decimal(s) * Pow(10, n)
  {
    if n == 0 {
      assert s + ZeroDigits(0) == s;
    } else {
      ZerosScale(s, n - 1);
      var t := s + ZeroDigits(n);
      var u := s + ZeroDigits(n - 1);
      assert t[..|t| - 1] == u;
      assert Digits(t)[..|t| - 1] == Digits(u);
      assert Decimal(t) == Decimal(u) * 10 + 0;
      Rescaled(Decimal(s), Pow(10, n - 1));
    }
  }

  lemma Rescaled(a: nat, p: nat)
    ensures a * p * 10 == a * (p * 10)
  {}

  lemma TokenSplits(sec: seq<Byte>, frac: seq<Byte>)
    requires AllDigits(sec)
    ensures Run(sec + [DOT] + frac, NotDot) == |sec|
    ensures (sec + [DOT] + frac)[..|sec|] == sec && (sec + [DOT] + frac)[|sec| + 1..] == frac
  {
    hide Run;
    var t := sec + [DOT] + frac;
    assert t[|sec|] == DOT && forall k :: 0 <= k < |sec| ==> t[k] == sec[k];
    RunIs(t, NotDot, |sec|);
  }

  lemma TokenStrips(t: seq<Byte>)
    requires t != [] && IsDigit(t[0]) && IsDigit(t[|t| - 1])
    ensures Trim(t + [COLON]) == t + [COLON] && StripColons(t + [COLON]) == t
  {
    var token := t + [COLON];
    assert token[..|token| - 1] == t;
    RunIs(token, IsWhite, 0);
    assert token[0..] == token;
  }

  lemma TokenEnds(sec: seq<Byte>, frac: seq<Byte>)
    requires AllDigits(sec) && AllDigits(frac) && sec != [] && frac != []
    ensures var t := sec + [DOT] + frac; t != [] && IsDigit(t[0]) && IsDigit(t[|t| - 1])
  {
    var t := sec + [DOT] + frac;
    assert t[0] == sec[0] && t[|t| - 1] == frac[|frac| - 1];
  }

  /** The time the fast scanner accepts is the one the tolerant parser reads off the same text. */
  lemma FastTimeAgrees(sec: seq<Byte>, frac: seq<Byte>)
    requires AllDigits(sec) && 1 <= |sec| <= 16 && AllDigits(frac) && 1 <= |frac| <= 9
    ensures PerfTime(sec + [DOT] + frac + [COLON]) == CheckedTime(Decimal(sec), Decimal(frac) * Pow(10, 9 - |frac|))
  {
    hide AllDigits, Decimal, Run, StripColons, ParseU64, CheckedTime, NineDigits, Pow, Trim, IsDigit;
    TokenEnds(sec, frac);
    TokenStrips(sec + [DOT] + frac);
    TokenSplits(sec, frac);
    DigitsParse(sec);
    NineParse(frac);
  }

  lemma NineParse(frac: seq<Byte>)
    requires AllDigits(frac) && 1 <= |frac| <= 9
    ensures ParseU64(NineDigits(frac)) == Some(Decimal(frac) * Pow(10, 9 - |frac|))
  {
    hide AllDigits, Decimal, ParseU64, ZeroDigits, Pow;
    ZerosScale(frac, 9 - |frac|);
    DigitsParse(NineDigits(frac));
  }

  lemma DigitsParse(s: seq<Byte>)
    requires AllDigits(s) && 1 <= |s| <= 16
    ensures ParseU64(s) == Some(Decimal(s))
  {
    FoldFits(Digits(s), 10);
    assert IsDigit(s[0]);
  }

  // ----- the head of a sample line, byte by byte -----

  const SLASH: Byte := 47
  const OPEN: Byte := 91
  const CLOSE: Byte := 93

  datatype Head = Head(pid: nat, tid: nat, cpu: Option<nat>, time: nat, rest: seq<Byte>)

  /** `as u32`. */
  function Low32(v: nat): nat { v % 0x1_0000_0000 }

  predicate StartsWith(s: seq<Byte>, b: Byte) { s != [] && s[0] == b }

  function SkipBlanks(s: seq<Byte>): seq<Byte> { s[Run(s, IsSpace)..] }

  /** A number has at most sixteen digits; further ones are left unread. */
  function NumberLength(s: seq<Byte>): (n: nat)
    ensures n <= |s| && n <= 16 && AllDigits(s[..n])
  {
    Min(16, Run(s, IsDigit))
  }

  function Number(s: seq<Byte>): nat { Decimal(s[..NumberLength(s)]) }

  function AfterNumber(s: seq<Byte>): seq<Byte> { s[NumberLength(s)..] }

  /** A number followed directly by `stop`. */
  predicate HasField(s: seq<Byte>, stop: Byte) {
    NumberLength(s) > 0 && StartsWith(AfterNumber(s), stop)
  }

  function AfterField(s: seq<Byte>, stop: Byte): seq<Byte>
    requires HasField(s, stop)
  {
    AfterNumber(s)[1..]
  }

  /** `pid/tid [cpu] sec.frac:`, the processor being optional. */
  function HeadOf(line: seq<Byte>): Option<Head> {
    var a := SkipBlanks(line);
    if !HasField(a, SLASH) then None
    else
      var b := AfterField(a, SLASH);
      if NumberLength(b) == 0 then None
      else
        var c := SkipBlanks(AfterNumber(b));
        if StartsWith(c, OPEN) then
          if HasField(c[1..], CLOSE) then
            TimeOf(Number(a), Number(b), Some(Low32(Number(c[1..]))), SkipBlanks(AfterField(c[1..], CLOSE)))
          else None
        else TimeOf(Number(a), Number(b), None, c)
  }

  function TimeOf(pid: nat, tid: nat, cpu: Option<nat>, s: seq<Byte>): Option<Head> {
    if !HasField(s, DOT) then None
    else
      var f := AfterField(s, DOT);
      if !HasField(f, COLON) || NumberLength(f) > 9 then None
      else
        var token := s[..NumberLength(s)] + [DOT] + f[..NumberLength(f)] + [COLON];
        match PerfTime(token)
        case None => None
        case Some(time) => Some(Head(Low32(pid), Low32(tid), cpu, time, SkipBlanks(AfterField(f, COLON))))
  }

  // ----- what the parser looks for behind a line that runs out -----

  /** The punctuation that the parser wants at the end of the line, if it gets there wanting some. */
  function Wanted(line: seq<Byte>): Option<Byte> {
    var a := SkipBlanks(line);
    if NumberLength(a) == 0 then None
    else if AfterNumber(a) == [] then Some(SLASH)
    else if !HasField(a, SLASH) then None
    else
      var b := AfterField(a, SLASH);
      if NumberLength(b) == 0 then None
      else
        var c := SkipBlanks(AfterNumber(b));
        if c == [] then Some(OPEN)
        else if StartsWith(c, OPEN) then
          if NumberLength(c[1..]) == 0 then None
          else if AfterNumber(c[1..]) == [] then Some(CLOSE)
          else if !HasField(c[1..], CLOSE) then None
          else WantedInTime(SkipBlanks(AfterField(c[1..], CLOSE)))
        else WantedInTime(c)
  }

  function WantedInTime(s: seq<Byte>): Option<Byte> {
    if NumberLength(s) == 0 then None
    else if AfterNumber(s) == [] then Some(DOT)
    else if !HasField(s, DOT) then None
    else
      var f := AfterField(s, DOT);
      if 1 <= NumberLength(f) <= 9 && AfterNumber(f) == [] then Some(COLON) else None
  }

  /** A line that leaves something wanted has no complete head, and no blank is ever wanted. */
  lemma WantedMeansIncomplete(line: seq<Byte>)
    requires Wanted(line).Some?
    ensures HeadOf(line).None? && Wanted(line).value > SPACE
  {
    hide NumberLength, SkipBlanks, PerfTime, AfterNumber;
  }

  predicate IsBlank(b: Byte) { b == NEWLINE || b == 13 || b == SPACE || b == TAB }

  /** Blanks at the end of a line are cut off before it is scanned: what follows the line is still no punctuation. */
  method TrimEnd(buf: seq<Byte>, start: nat, end: nat) returns (e: nat)
    requires start <= end < |buf| && (buf[end] == NEWLINE || buf[end] == 0)
    ensures start <= e <= end && buf[e] <= SPACE && (start < e ==> !IsBlank(buf[e - 1]))
    ensures forall k :: e <= k < end ==> IsBlank(buf[k])
  {
    e := end;
    while start < e && IsBlank(buf[e - 1])
      invariant start <= e <= end && buf[e] <= SPACE
      invariant forall k :: e <= k < end ==> IsBlank(buf[k])
    {
      e := e - 1;
    }
  }

  predicate IsSpace(b: Byte) { b == SPACE }

  predicate IsTokenByte(b: Byte) { b != SPACE && b != TAB && b != NEWLINE }

  /** Sixteen digits of base 10 or 16 fit in 64 bits. */
  lemma FoldFits(ds: seq<nat>, base: nat)
    requires |ds| <= 16 && (base == 10 || base == 16) && forall k :: 0 <= k < |ds| ==> ds[k] < base
    ensures Fold(ds, base) < U64_LIMIT
  {
    FoldBound(ds, base);
    PowMonotone(base, |ds|, 16);
    Pow16();
  }
}
