/** Printing the head of a sample line and reading it back, with any padding perf may use. */
module Heads {
  import opened TraceTypes
  import opened Lines
  import opened Scan

  // ----- printing -----

  /** The decimal text of a number. */
  function Text(n: nat): (s: seq<Byte>)
    ensures 1 <= |s| && AllDigits(s)
  {
    if n < 10 then [48 + n] else Text(n / 10) + [48 + n % 10]
  }

  /** The same filled up with zeros in front. */
  function Filled(n: nat, width: nat): (s: seq<Byte>)
    ensures |s| >= width && |s| >= 1 && AllDigits(s)
  {
    var s := Text(n);
    if |s| < width then ZeroDigits(width - |s|) + s else s
  }

  function Blanks(n: nat): seq<Byte> { seq(n, _ => SPACE) }

  /** How the fields of a head are laid out: the widths of numbers, and how many blanks stand between them. */
  datatype Layout = Layout(indent: nat, pid: nat, tid: nat, gap: nat, cpu: nat, cpuGap: nat, sec: nat, behind: nat)

  /** `pid/tid [cpu] sec.frac: rest`, the fraction having `digits` digits. */
  function Printed(l: Layout, pid: nat, tid: nat, cpu: Option<nat>, sec: nat, frac: nat, digits: nat, rest: seq<Byte>)
    : seq<Byte>
  {
    Blanks(l.indent) + (Filled(pid, l.pid) + [SLASH] + (Filled(tid, l.tid) + (Blanks(l.gap)
    + (CpuText(l, cpu) + TimeText(l, sec, frac, digits, rest)))))
  }

  function CpuText(l: Layout, cpu: Option<nat>): seq<Byte> {
    if cpu.None? then [] else [OPEN] + (Filled(cpu.value, l.cpu) + [CLOSE] + Blanks(l.cpuGap))
  }

  /**
   * What the scanner asks of a head: numbers of at most sixteen digits, one to nine of them in the fraction. A thread
   * of sixteen digits needs no blank behind it.
   */
  predicate Fits(l: Layout, pid: nat, tid: nat, cpu: Option<nat>, sec: nat, frac: nat, digits: nat) {
    && |Filled(pid, l.pid)| <= 16 && |Filled(tid, l.tid)| <= 16 && (cpu.Some? ==> |Filled(cpu.value, l.cpu)| <= 16)
    && |Filled(sec, l.sec)| <= 16 && |Filled(frac, digits)| == digits <= 9
    && (cpu.None? ==> l.gap >= 1 || |Filled(tid, l.tid)| == 16)
  }

  // ----- numbers -----

  lemma {:induction false} TextIs(n: nat)
    ensures Decimal(Text(n)) == n
  {
    if n >= 10 {
      TextIs(n / 10);
      var s := Text(n);
      assert s[..|s| - 1] == Text(n / 10);
      assert Digits(s)[..|s| - 1] == Digits(Text(n / 10));
    } else {
      assert Digits(Text(n)) == [n];
      assert Fold([], 10) == 0;
      assert Fold([n], 10) == Fold([n][..0], 10) * 10 + n;
    }
  }

  lemma {:induction false} ZerosInFront(z: seq<nat>, ds: seq<nat>)
    requires forall k :: 0 <= k < |z| ==> z[k] == 0
    ensures Fold(z + ds, 10) == Fold(ds, 10)
    decreases |ds| + |z|
  {
    var all := z + ds;
    if ds != [] {
      assert all[..|all| - 1] == z + ds[..|ds| - 1];
      ZerosInFront(z, ds[..|ds| - 1]);
    } else if z != [] {
      assert all == z && z[..|z| - 1] + [] == z[..|z| - 1];
      ZerosInFront(z[..|z| - 1], []);
    } else {
      assert all == [];
    }
  }

  lemma FilledIs(n: nat, width: nat)
    ensures Decimal(Filled(n, width)) == n
  {
    TextIs(n);
    var s, t := Text(n), Filled(n, width);
    var z := seq(|t| - |s|, _ => 0);
    assert Digits(t) == z + Digits(s);
    ZerosInFront(z, Digits(s));
  }

  lemma RunAtLeast(s: seq<Byte>, ok: Byte -> bool, n: nat)
    requires n <= |s| && forall k :: 0 <= k < n ==> ok(s[k])
    ensures Run(s, ok) >= n
  {}

  /** A printed number before anything that does not continue it is read as it is. */
  lemma NumberReads(n: nat, width: nat, x: seq<Byte>)
    requires |Filled(n, width)| <= 16 && (x == [] || !IsDigit(x[0]) || |Filled(n, width)| == 16)
    ensures var s := Filled(n, width) + x;
            NumberLength(s) == |Filled(n, width)| > 0 && Number(s) == n && AfterNumber(s) == x
            && s[..NumberLength(s)] == Filled(n, width)
  {
    hide Filled, Run;
    var t := Filled(n, width);
    FilledIs(n, width);
    assert (t + x)[..|t|] == t;
    if x == [] || !IsDigit(x[0]) {
      RunIs(t + x, IsDigit, |t|);
    } else {
      RunAtLeast(t + x, IsDigit, |t|);
    }
  }

  lemma FieldReads(n: nat, width: nat, stop: Byte, x: seq<Byte>)
    requires |Filled(n, width)| <= 16 && !IsDigit(stop)
    ensures var s := Filled(n, width) + [stop] + x;
            && HasField(s, stop) && Number(s) == n && AfterField(s, stop) == x
            && s[..NumberLength(s)] == Filled(n, width) && NumberLength(s) == |Filled(n, width)|
  {
    hide Filled, NumberLength, Number, AfterNumber;
    NumberReads(n, width, [stop] + x);
    assert Filled(n, width) + [stop] + x == Filled(n, width) + ([stop] + x);
    assert ([stop] + x)[1..] == x;
  }

  lemma BlanksSkipped(n: nat, x: seq<Byte>)
    requires x == [] || x[0] != SPACE
    ensures SkipBlanks(Blanks(n) + x) == x
  {
    hide Run;
    RunIs(Blanks(n) + x, IsSpace, n);
  }

  lemma StartsWithDigit(n: nat, width: nat, x: seq<Byte>)
    ensures var s := Filled(n, width) + x; s != [] && IsDigit(s[0]) && s[0] != SPACE && s[0] != OPEN
  {
    hide Text;
    var t := Filled(n, width);
    assert (t + x)[0] == t[0];
  }

  // ----- the head -----

  /** The time of a printed `sec.frac:`. */
  lemma TimeReads(l: Layout, pid: nat, tid: nat, cpu: Option<nat>, sec: nat, frac: nat, digits: nat, rest: seq<Byte>)
    requires |Filled(sec, l.sec)| <= 16 && |Filled(frac, digits)| == digits && 1 <= digits <= 9
    requires rest == [] || rest[0] != SPACE
    ensures var s := Filled(sec, l.sec) + [DOT] + (Filled(frac, digits) + [COLON] + (Blanks(l.behind) + rest));
            var time := sec * 1_000_000_000 + frac * Pow(10, 9 - digits);
            TimeOf(pid, tid, cpu, s)
            == if time < U64_LIMIT then Some(Head(Low32(pid), Low32(tid), cpu, time, rest)) else None
  {
    hide Filled, NumberLength, Number, AfterNumber, HasField, AfterField, PerfTime, SkipBlanks, Pow;
    var x := Blanks(l.behind) + rest;
    FieldReads(frac, digits, COLON, x);
    FieldReads(sec, l.sec, DOT, Filled(frac, digits) + [COLON] + x);
    BlanksSkipped(l.behind, rest);
    FilledIs(sec, l.sec);
    FilledIs(frac, digits);
    FastTimeAgrees(Filled(sec, l.sec), Filled(frac, digits));
  }

  /** The printed `sec.frac: rest`. */
  function TimeText(l: Layout, sec: nat, frac: nat, digits: nat, rest: seq<Byte>): seq<Byte> {
    Filled(sec, l.sec) + [DOT] + (Filled(frac, digits) + [COLON] + (Blanks(l.behind) + rest))
  }

  /** The processor, if it is printed, before something that starts with a digit. */
  lemma CpuShape(l: Layout, cpu: Option<nat>, x: seq<Byte>)
    requires x != [] && IsDigit(x[0]) && (cpu.Some? ==> |Filled(cpu.value, l.cpu)| <= 16)
    ensures var c := CpuText(l, cpu) + x;
            && c != [] && c[0] != SPACE && (StartsWith(c, OPEN) <==> cpu.Some?) && (cpu.None? ==> c == x)
            && (cpu.Some? ==>
                  HasField(c[1..], CLOSE) && Number(c[1..]) == cpu.value && SkipBlanks(AfterField(c[1..], CLOSE)) == x)
  {
    hide Filled, NumberLength, Number, AfterNumber, HasField, AfterField, SkipBlanks;
    if cpu.Some? {
      FieldReads(cpu.value, l.cpu, CLOSE, Blanks(l.cpuGap) + x);
      BlanksSkipped(l.cpuGap, x);
      assert (CpuText(l, cpu) + x)[1..] == Filled(cpu.value, l.cpu) + [CLOSE] + (Blanks(l.cpuGap) + x);
    }
  }

  /** What follows the tid. */
  function AfterTid(l: Layout, cpu: Option<nat>, sec: nat, frac: nat, digits: nat, rest: seq<Byte>): seq<Byte> {
    CpuText(l, cpu) + TimeText(l, sec, frac, digits, rest)
  }

  function Low(cpu: Option<nat>): Option<nat> { if cpu.None? then None else Some(Low32(cpu.value)) }

  lemma CpuReads(l: Layout, pid: nat, tid: nat, cpu: Option<nat>, sec: nat, frac: nat, digits: nat, rest: seq<Byte>)
    requires Fits(l, pid, tid, cpu, sec, frac, digits) && (rest == [] || rest[0] != SPACE)
    ensures var c := AfterTid(l, cpu, sec, frac, digits, rest);
            var time := sec * 1_000_000_000 + frac * Pow(10, 9 - digits);
            var h := if time < U64_LIMIT then Some(Head(Low32(pid), Low32(tid), Low(cpu), time, rest)) else None;
            && c != [] && c[0] != SPACE && (cpu.None? ==> IsDigit(c[0]))
            && (StartsWith(c, OPEN) <==> cpu.Some?)
            && (cpu.None? ==> TimeOf(pid, tid, None, c) == h)
            && (cpu.Some? ==>
                  && HasField(c[1..], CLOSE) && Number(c[1..]) == cpu.value
                  && TimeOf(pid, tid, Low(cpu), SkipBlanks(AfterField(c[1..], CLOSE))) == h)
  {
    hide Filled, NumberLength, Number, AfterNumber, HasField, AfterField, SkipBlanks, TimeOf, Pow, CpuText, Blanks,
         StartsWith;
    var x := TimeText(l, sec, frac, digits, rest);
    TimeReads(l, pid, tid, Low(cpu), sec, frac, digits, rest);
    var tail := [DOT] + (Filled(frac, digits) + [COLON] + (Blanks(l.behind) + rest));
    assert x == Filled(sec, l.sec) + tail;
    StartsWithDigit(sec, l.sec, tail);
    CpuShape(l, cpu, x);
  }

  /**
   * The head of a printed line is what was printed: the low halves of process, thread and processor, time and rest,
   * for every layout the scanner accepts. It has none exactly if the time does not fit 64 bits.
   */
  lemma HeadRoundTrip(l: Layout, pid: nat, tid: nat, cpu: Option<nat>, sec: nat, frac: nat, digits: nat,
                      rest: seq<Byte>)
    requires Fits(l, pid, tid, cpu, sec, frac, digits) && (rest == [] || rest[0] != SPACE)
    ensures var time := sec * 1_000_000_000 + frac * Pow(10, 9 - digits);
            HeadOf(Printed(l, pid, tid, cpu, sec, frac, digits, rest))
            == if time < U64_LIMIT then Some(Head(Low32(pid), Low32(tid), Low(cpu), time, rest)) else None
  {
    hide Filled, NumberLength, Number, AfterNumber, HasField, AfterField, SkipBlanks, TimeOf, Pow, StartsWith, Low32;
    var c := AfterTid(l, cpu, sec, frac, digits, rest);
    CpuReads(l, pid, tid, cpu, sec, frac, digits, rest);
    var b := Filled(tid, l.tid) + (Blanks(l.gap) + c);
    NumberReads(tid, l.tid, Blanks(l.gap) + c);
    BlanksSkipped(l.gap, c);
    var a := Filled(pid, l.pid) + [SLASH] + b;
    FieldReads(pid, l.pid, SLASH, b);
    assert a == Filled(pid, l.pid) + ([SLASH] + b);
    StartsWithDigit(pid, l.pid, [SLASH] + b);
    BlanksSkipped(l.indent, a);
    assert Printed(l, pid, tid, cpu, sec, frac, digits, rest) == Blanks(l.indent) + a;
  }

  // ----- only printed lines have a head -----

  /** What a head is printed from. */
  datatype Fields = Fields(pid: nat, tid: nat, cpu: Option<nat>, sec: nat, frac: nat, digits: nat)

  function Line(l: Layout, f: Fields, rest: seq<Byte>): seq<Byte> {
    Printed(l, f.pid, f.tid, f.cpu, f.sec, f.frac, f.digits, rest)
  }

  function Shown(f: Fields, rest: seq<Byte>): Head
    requires f.digits <= 9
  {
    Head(Low32(f.pid), Low32(f.tid), Low(f.cpu), Nanoseconds(f.sec, f.frac, f.digits), rest)
  }

  /** A time with a fraction of `digits` digits. */
  function Nanoseconds(sec: nat, frac: nat, digits: nat): nat
    requires digits <= 9
  {
    sec * 1_000_000_000 + frac * Pow(10, 9 - digits)
  }

  predicate Sound(l: Layout, f: Fields) { Fits(l, f.pid, f.tid, f.cpu, f.sec, f.frac, f.digits) }

  /** The line is some printing of the head. */
  ghost predicate PrintedAs(line: seq<Byte>, h: Head) {
    exists l, f :: line == Line(l, f, h.rest) && Sound(l, f) && h == Shown(f, h.rest)
  }

  /** Any run of digits is its value, filled up to its length. */
  lemma {:induction false} DigitsPrinted(d: seq<Byte>)
    requires AllDigits(d) && d != []
    ensures Filled(Decimal(d), |d|) == d
  {
    hide Decimal;
    var init, last := d[..|d| - 1], d[|d| - 1] - 48;
    LastDigit(d);
    if |d| == 1 {
      assert d == [48 + last];
    } else {
      DigitsPrinted(init);
      FilledMore(Decimal(init), last, |d| - 1);
      assert d == init + [48 + last];
    }
  }

  lemma LastDigit(d: seq<Byte>)
    requires AllDigits(d) && d != []
    ensures Decimal(d) == Decimal(d[..|d| - 1]) * 10 + (d[|d| - 1] - 48)
    ensures |d| == 1 ==> Filled(Decimal(d), 1) == [d[0]]
  {
    assert Digits(d)[..|d| - 1] == Digits(d[..|d| - 1]);
    assert |d| == 1 ==> Digits(d[..0]) == [];
  }

  lemma FilledMore(n: nat, digit: nat, width: nat)
    requires digit < 10 && width >= 1 && |Text(n)| <= width
    ensures Filled(n * 10 + digit, width + 1) == Filled(n, width) + [48 + digit]
  {
    if n == 0 {
      assert Text(n) == [48];
      assert ZeroDigits(width) == ZeroDigits(width - 1) + [48];
      assert width == 1 ==> ZeroDigits(0) == [];
    } else {
      assert Text(n * 10 + digit) == Text(n) + [48 + digit];
    }
  }

  lemma NumberPrinted(s: seq<Byte>)
    requires NumberLength(s) > 0
    ensures s == Filled(Number(s), NumberLength(s)) + AfterNumber(s)
            && |Filled(Number(s), NumberLength(s))| == NumberLength(s)
  {
    hide NumberLength, Filled, Decimal;
    DigitsPrinted(s[..NumberLength(s)]);
  }

  lemma FieldPrinted(s: seq<Byte>, stop: Byte)
    requires HasField(s, stop)
    ensures s == Filled(Number(s), NumberLength(s)) + [stop] + AfterField(s, stop)
            && |Filled(Number(s), NumberLength(s))| == NumberLength(s) > 0
  {
    hide NumberLength, Filled, Number;
    NumberPrinted(s);
    assert AfterNumber(s) == [stop] + AfterField(s, stop);
  }

  lemma BlanksPrinted(s: seq<Byte>)
    ensures s == Blanks(Run(s, IsSpace)) + SkipBlanks(s) && !StartsWith(SkipBlanks(s), SPACE)
  {
    hide Run;
    var n := Run(s, IsSpace);
    assert s[..n] == Blanks(n);
  }

  /** The layout of the time that `s` starts with, before `more`. */
  function TimeLayout(s: seq<Byte>, more: seq<Byte>): Layout {
    Layout(0, 0, 0, 0, 0, 0, NumberLength(s), Run(more, IsSpace))
  }

  lemma TimeParts(pid: nat, tid: nat, cpu: Option<nat>, s: seq<Byte>)
    requires TimeOf(pid, tid, cpu, s).Some?
    ensures HasField(s, DOT) && HasField(AfterField(s, DOT), COLON) && 1 <= NumberLength(AfterField(s, DOT)) <= 9
    ensures TimeOf(pid, tid, cpu, s).value.rest == SkipBlanks(AfterField(AfterField(s, DOT), COLON))
  {
    hide NumberLength, PerfTime, SkipBlanks;
  }

  lemma TimeShown(pid: nat, tid: nat, cpu: Option<nat>, s: seq<Byte>, f: seq<Byte>, h: Head)
    requires HasField(s, DOT) && f == AfterField(s, DOT) && HasField(f, COLON) && 1 <= NumberLength(f) <= 9
    requires TimeOf(pid, tid, cpu, s) == Some(h)
    ensures h == Head(Low32(pid), Low32(tid), cpu, Nanoseconds(Number(s), Number(f), NumberLength(f)), h.rest)
  {
    hide NumberLength, Decimal, PerfTime, Pow, SkipBlanks;
    FastTimeAgrees(s[..NumberLength(s)], f[..NumberLength(f)]);
  }

  lemma TimePrinted(s: seq<Byte>, f: seq<Byte>, more: seq<Byte>)
    requires HasField(s, DOT) && f == AfterField(s, DOT) && HasField(f, COLON) && more == AfterField(f, COLON)
    ensures s == TimeText(TimeLayout(s, more), Number(s), Number(f), NumberLength(f), SkipBlanks(more))
    ensures |Filled(Number(s), NumberLength(s))| <= 16 && |Filled(Number(f), NumberLength(f))| == NumberLength(f)
    ensures !StartsWith(SkipBlanks(more), SPACE)
  {
    hide Run, Filled, Number, Blanks, AfterField, SkipBlanks;
    FieldPrinted(s, DOT);
    FieldPrinted(f, COLON);
    BlanksPrinted(more);
    hide NumberLength, HasField;
    assert s == Filled(Number(s), NumberLength(s)) + [DOT] + (Filled(Number(f), NumberLength(f)) + [COLON] + more);
  }

  /** The part of a line behind the thread, as it is printed. */
  ghost predicate TailPrinted(pid: nat, tid: nat, c: seq<Byte>, h: Head, l: Layout, f: Fields) {
    && c == AfterTid(l, f.cpu, f.sec, f.frac, f.digits, h.rest) && f.pid == pid && f.tid == tid
    && (f.cpu.Some? ==> |Filled(f.cpu.value, l.cpu)| <= 16) && (f.cpu.Some? <==> StartsWith(c, OPEN))
    && |Filled(f.sec, l.sec)| <= 16 && |Filled(f.frac, f.digits)| == f.digits <= 9
    && h == Shown(f, h.rest) && !StartsWith(h.rest, SPACE)
  }

  lemma PlainTail(pid: nat, tid: nat, c: seq<Byte>, h: Head)
    requires !StartsWith(c, OPEN) && TimeOf(pid, tid, None, c) == Some(h)
    ensures exists l, f :: TailPrinted(pid, tid, c, h, l, f)
  {
    hide Run, Filled, NumberLength, Number, Blanks, TimeOf, HasField, AfterField, SkipBlanks, StartsWith, Low32, Pow;
    TimeParts(pid, tid, None, c);
    var fr := AfterField(c, DOT);
    var more := AfterField(fr, COLON);
    TimeShown(pid, tid, None, c, fr, h);
    TimePrinted(c, fr, more);
    var l, f := TimeLayout(c, more), Fields(pid, tid, None, Number(c), Number(fr), NumberLength(fr));
    assert CpuText(l, None) == [];
    assert TailPrinted(pid, tid, c, h, l, f);
  }

  lemma CpuTail(pid: nat, tid: nat, c: seq<Byte>, h: Head)
    requires StartsWith(c, OPEN) && HasField(c[1..], CLOSE)
    requires TimeOf(pid, tid, Some(Low32(Number(c[1..]))), SkipBlanks(AfterField(c[1..], CLOSE))) == Some(h)
    ensures exists l, f :: TailPrinted(pid, tid, c, h, l, f)
  {
    hide Run, Filled, NumberLength, Number, Blanks, TimeOf, HasField, AfterField, SkipBlanks, Low32, Pow;
    var d := c[1..];
    var gap := AfterField(d, CLOSE);
    var x := SkipBlanks(gap);
    var cpu := Some(Low32(Number(d)));
    FieldPrinted(d, CLOSE);
    BlanksPrinted(gap);
    TimeParts(pid, tid, cpu, x);
    var fr := AfterField(x, DOT);
    var more := AfterField(fr, COLON);
    TimeShown(pid, tid, cpu, x, fr, h);
    TimePrinted(x, fr, more);
    var l := TimeLayout(x, more).(cpu := NumberLength(d), cpuGap := Run(gap, IsSpace));
    var f := Fields(pid, tid, Some(Number(d)), Number(x), Number(fr), NumberLength(fr));
    NumberShort(d);
    CpuPrinted(l, c, Number(d), x);
    assert TailPrinted(pid, tid, c, h, l, f);
  }

  lemma NumberShort(s: seq<Byte>)
    ensures NumberLength(s) <= 16
  {}

  lemma CpuPrinted(l: Layout, c: seq<Byte>, cpu: nat, x: seq<Byte>)
    requires StartsWith(c, OPEN) && c[1..] == Filled(cpu, l.cpu) + [CLOSE] + (Blanks(l.cpuGap) + x)
    ensures c == CpuText(l, Some(cpu)) + x
  {
    hide Filled, Blanks;
    assert c == [OPEN] + c[1..];
  }

  /** What stands before the tail. */
  lemma FrontPrinted(l: Layout, f: Fields, line: seq<Byte>, a: seq<Byte>, b: seq<Byte>, c: seq<Byte>, rest: seq<Byte>)
    requires line == Blanks(l.indent) + a && a == Filled(f.pid, l.pid) + [SLASH] + b
    requires b == Filled(f.tid, l.tid) + (Blanks(l.gap) + c) && c == AfterTid(l, f.cpu, f.sec, f.frac, f.digits, rest)
    ensures line == Line(l, f, rest)
  {
    hide Filled, Blanks, CpuText;
  }

  lemma SameTail(l: Layout, l': Layout, f: Fields, rest: seq<Byte>)
    requires l'.cpu == l.cpu && l'.cpuGap == l.cpuGap && l'.sec == l.sec && l'.behind == l.behind
    ensures AfterTid(l', f.cpu, f.sec, f.frac, f.digits, rest) == AfterTid(l, f.cpu, f.sec, f.frac, f.digits, rest)
  {}

  /** The line in its stages: before the process, the thread, and what follows it. */
  predicate Stages(line: seq<Byte>, a: seq<Byte>, b: seq<Byte>, c: seq<Byte>) {
    && a == SkipBlanks(line) && HasField(a, SLASH) && b == AfterField(a, SLASH) && NumberLength(b) > 0
    && c == SkipBlanks(AfterNumber(b))
  }

  lemma HeadTail(line: seq<Byte>, h: Head) returns (a: seq<Byte>, b: seq<Byte>, c: seq<Byte>)
    requires HeadOf(line) == Some(h)
    ensures Stages(line, a, b, c) && exists l, f :: TailPrinted(Number(a), Number(b), c, h, l, f)
  {
    hide Run, Decimal, TimeOf, NumberLength, Number, Low32, SkipBlanks, TailPrinted;
    a := SkipBlanks(line);
    b := AfterField(a, SLASH);
    c := SkipBlanks(AfterNumber(b));
    if StartsWith(c, OPEN) { CpuTail(Number(a), Number(b), c, h); } else { PlainTail(Number(a), Number(b), c, h); }
  }

  lemma TailStarts(pid: nat, tid: nat, c: seq<Byte>, h: Head, l: Layout, f: Fields)
    requires TailPrinted(pid, tid, c, h, l, f) && f.cpu.None?
    ensures c != [] && IsDigit(c[0])
  {
    hide Filled, Blanks, Low32, Pow;
    StartsWithDigit(f.sec, l.sec, [DOT] + (Filled(f.frac, f.digits) + [COLON] + (Blanks(l.behind) + h.rest)));
  }

  /** The layout of a whole line, given that of its tail. */
  function WholeLayout(line: seq<Byte>, a: seq<Byte>, b: seq<Byte>, l: Layout): Layout {
    l.(indent := Run(line, IsSpace), pid := NumberLength(a), tid := NumberLength(b),
       gap := Run(AfterNumber(b), IsSpace))
  }

  lemma FrontParts(line: seq<Byte>, a: seq<Byte>, b: seq<Byte>, c: seq<Byte>, l: Layout)
    requires Stages(line, a, b, c)
    ensures var l' := WholeLayout(line, a, b, l);
            && line == Blanks(l'.indent) + a && a == Filled(Number(a), l'.pid) + [SLASH] + b
            && b == Filled(Number(b), l'.tid) + (Blanks(l'.gap) + c)
            && |Filled(Number(a), l'.pid)| <= 16 && |Filled(Number(b), l'.tid)| == l'.tid == NumberLength(b) <= 16
  {
    hide Run, Filled, Blanks, Number, SkipBlanks;
    BlanksPrinted(line);
    BlanksPrinted(AfterNumber(b));
    FieldPrinted(a, SLASH);
    NumberPrinted(b);
    NumberShort(a);
    NumberShort(b);
  }

  lemma GapFits(line: seq<Byte>, a: seq<Byte>, b: seq<Byte>, c: seq<Byte>, h: Head, l: Layout, f: Fields)
    requires Stages(line, a, b, c) && TailPrinted(Number(a), Number(b), c, h, l, f) && f.cpu.None?
    ensures WholeLayout(line, a, b, l).gap >= 1 || NumberLength(b) == 16
  {
    hide Run, Filled, NumberLength, Number, SkipBlanks, TailPrinted;
    TailStarts(Number(a), Number(b), c, h, l, f);
    if WholeLayout(line, a, b, l).gap == 0 { NoGap(b, c); }
  }

  lemma Assembled(line: seq<Byte>, a: seq<Byte>, b: seq<Byte>, c: seq<Byte>, h: Head, l: Layout, f: Fields)
    requires Stages(line, a, b, c) && TailPrinted(Number(a), Number(b), c, h, l, f)
    ensures PrintedAs(line, h) && !StartsWith(h.rest, SPACE)
  {
    hide Run, Filled, Pow, Blanks, NumberLength, Number, Low32, Stages, AfterNumber, Line, AfterTid;
    FrontParts(line, a, b, c, l);
    if f.cpu.None? { GapFits(line, a, b, c, h, l, f); }
    var l' := WholeLayout(line, a, b, l);
    SameTail(l, l', f, h.rest);
    FrontPrinted(l', f, line, a, b, c, h.rest);
    assert Sound(l', f);
  }

  /** Every line with a head is printed from it, in a layout that the scanner accepts. */
  lemma HeadIsPrinted(line: seq<Byte>, h: Head)
    requires HeadOf(line) == Some(h)
    ensures PrintedAs(line, h) && !StartsWith(h.rest, SPACE)
  {
    hide HeadOf, Stages, TailPrinted, PrintedAs, StartsWith;
    var a, b, c := HeadTail(line, h);
    var l, f :| TailPrinted(Number(a), Number(b), c, h, l, f);
    Assembled(line, a, b, c, h, l, f);
  }

  /** Where no blank follows the thread and what follows is a number, the thread has sixteen digits. */
  lemma NoGap(b: seq<Byte>, c: seq<Byte>)
    requires c == SkipBlanks(AfterNumber(b)) && Run(AfterNumber(b), IsSpace) == 0 && c != [] && IsDigit(c[0])
    ensures NumberLength(b) == 16
  {}

  /** A line has a head exactly if it is a printing of that head whose time fits 64 bits, up to the next blanks. */
  lemma HeadIff(line: seq<Byte>, h: Head)
    ensures HeadOf(line) == Some(h) <==> PrintedAs(line, h) && h.time < U64_LIMIT && !StartsWith(h.rest, SPACE)
  {
    hide HeadOf, Printed, Fits, Low32, Pow, PrintedAs;
    if HeadOf(line) == Some(h) { HeadIsPrinted(line, h); }
    if PrintedAs(line, h) && !StartsWith(h.rest, SPACE) { PrintedHead(line, h); }
  }

  lemma PrintedHead(line: seq<Byte>, h: Head)
    requires PrintedAs(line, h) && !StartsWith(h.rest, SPACE)
    ensures HeadOf(line) == if h.time < U64_LIMIT then Some(h) else None
  {
    hide HeadOf, Printed, Filled, Low32, Pow;
    var l, f :| line == Line(l, f, h.rest) && Sound(l, f) && h == Shown(f, h.rest);
    HeadRoundTrip(l, f.pid, f.tid, f.cpu, f.sec, f.frac, f.digits, h.rest);
  }

  // ----- addresses -----

  function HexDigit(n: nat, upper: bool): (b: Byte)
    requires n < 16
    ensures IsHex(b) && NibbleOf(b) == n
  {
    (if upper then "0123456789ABCDEF" else "0123456789abcdef")[n] as int
  }

  /** The hexadecimal text of a number, in either case. */
  function HexText(n: nat, upper: bool): (s: seq<Byte>)
    ensures 1 <= |s| && forall k :: 0 <= k < |s| ==> IsHex(s[k])
  {
    if n < 16 then [HexDigit(n, upper)] else HexText(n / 16, upper) + [HexDigit(n % 16, upper)]
  }

  lemma {:induction false} HexReads(n: nat, upper: bool)
    ensures Hexadecimal(HexText(n, upper)) == n
  {
    var s := HexText(n, upper);
    if n >= 16 {
      HexReads(n / 16, upper);
      assert s[..|s| - 1] == HexText(n / 16, upper);
      assert Nibbles(s)[..|s| - 1] == Nibbles(HexText(n / 16, upper));
    } else {
      assert Nibbles(s) == [n];
      assert Fold([n], 16) == Fold([n][..0], 16) * 16 + n;
    }
  }
}
