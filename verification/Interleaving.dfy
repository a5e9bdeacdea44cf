/**
 * Calls and returns of many threads, interleaved in any way: every return
 * closes the latest call of its own thread that is still open.
 */
module Interleaving {
  import opened TraceTypes
  import opened Machine
  import opened Symbols
  import opened Recon
  import opened Runs
  import opened RoundTrip
  import opened Jumps

  function KeyOf(s: Sample): Key { (s.pid, s.tid) }

  predicate IsCall(s: Sample) { FlagsKind(s.flags) == Call }

  predicate IsReturn(s: Sample) { FlagsKind(s.flags) == Return }

  // ----- matching -----

  /** The positions of the calls of thread `k` that are open after the first `n` samples. */
  function Open(xs: seq<Sample>, n: nat, k: Key): (o: seq<nat>)
    requires n <= |xs|
    ensures forall i :: 0 <= i < |o| ==> o[i] < n && IsCall(xs[o[i]]) && KeyOf(xs[o[i]]) == k
  {
    if n == 0 then []
    else
      var o, s := Open(xs, n - 1, k), xs[n - 1];
      if KeyOf(s) != k then o
      else if IsCall(s) then o + [n - 1]
      else if IsReturn(s) && o != [] then o[..|o| - 1]
      else o
  }

  /** Which call each return of the first `n` samples closes. */
  function Pairs(xs: seq<Sample>, n: nat): (ps: seq<(nat, nat)>)
    requires n <= |xs|
    ensures forall p :: p in ps ==>
              p.0 < p.1 < n && IsCall(xs[p.0]) && IsReturn(xs[p.1]) && KeyOf(xs[p.0]) == KeyOf(xs[p.1])
  {
    if n == 0 then []
    else
      var s := xs[n - 1];
      var o := Open(xs, n - 1, KeyOf(s));
      Pairs(xs, n - 1) + if IsReturn(s) && o != [] then [(o[|o| - 1], n - 1)] else []
  }

  /** Every return finds a call of its own thread open. */
  predicate Balanced(xs: seq<Sample>) {
    forall n :: 0 <= n < |xs| && IsReturn(xs[n]) ==> Open(xs, n, KeyOf(xs[n])) != []
  }

  /** How deep thread `k` is after the first `n` samples. */
  function Level(xs: seq<Sample>, n: nat, k: Key): int
    requires n <= |xs|
  {
    if n == 0 then 0
    else Level(xs, n - 1, k) + if KeyOf(xs[n - 1]) != k then 0 else if IsCall(xs[n - 1]) then 1
      else if IsReturn(xs[n - 1]) then -1 else 0
  }

  /** The return at `j` brings the thread back to where the call at `i` found it, for the first time since. */
  ghost predicate Matched(xs: seq<Sample>, i: nat, j: nat) {
    && i < j < |xs| && IsCall(xs[i]) && IsReturn(xs[j]) && KeyOf(xs[i]) == KeyOf(xs[j])
    && var k := KeyOf(xs[i]);
    && Level(xs, j + 1, k) == Level(xs, i, k)
    && forall m :: i < m <= j ==> Level(xs, m, k) > Level(xs, i, k)
  }

  lemma CallIsNoReturn(s: Sample)
    ensures !(IsCall(s) && IsReturn(s))
  {}

  /** The d-th open call is the one that took the thread from level d, to which it has not come back. */
  ghost predicate OpensAt(xs: seq<Sample>, n: nat, k: Key, o: seq<nat>, d: nat)
    requires n <= |xs| && d < |o|
  {
    o[d] < n && Level(xs, o[d], k) == d && forall m :: o[d] < m <= n ==> Level(xs, m, k) > d
  }

  lemma {:induction false} OpenLevels(xs: seq<Sample>, n: nat, k: Key)
    requires n <= |xs| && Balanced(xs)
    ensures |Open(xs, n, k)| == Level(xs, n, k)
    ensures forall d: nat :: d < |Open(xs, n, k)| ==> OpensAt(xs, n, k, Open(xs, n, k), d)
    decreases n
  {
    hide Open, FlagsKind, OpensAt;
    if n == 0 {
      NothingOpenYet(xs, k);
    } else {
      OpenLevels(xs, n - 1, k);
      LevelsStep(xs, n - 1, k);
      forall d: nat | d < |Open(xs, n, k)| ensures OpensAt(xs, n, k, Open(xs, n, k), d) { OpensStep(xs, n - 1, k, d); }
    }
  }

  lemma NothingOpenYet(xs: seq<Sample>, k: Key)
    ensures Open(xs, 0, k) == []
  {}

  lemma LevelsStep(xs: seq<Sample>, n: nat, k: Key)
    requires n < |xs| && Balanced(xs) && |Open(xs, n, k)| == Level(xs, n, k)
    ensures |Open(xs, n + 1, k)| == Level(xs, n + 1, k)
    ensures forall d :: 0 <= d < |Open(xs, n, k)| && d < |Open(xs, n + 1, k)| ==>
              Open(xs, n + 1, k)[d] == Open(xs, n, k)[d]
    ensures |Open(xs, n, k)| < |Open(xs, n + 1, k)| ==> Open(xs, n + 1, k)[|Open(xs, n, k)|] == n
  {
    hide FlagsKind;
    CallIsNoReturn(xs[n]);
  }

  lemma OpensStep(xs: seq<Sample>, n: nat, k: Key, d: nat)
    requires n < |xs| && d < |Open(xs, n + 1, k)|
    requires |Open(xs, n, k)| == Level(xs, n, k) && |Open(xs, n + 1, k)| == Level(xs, n + 1, k)
    requires if d < |Open(xs, n, k)| then OpensAt(xs, n, k, Open(xs, n, k), d)
             && Open(xs, n + 1, k)[d] == Open(xs, n, k)[d]
             else d == |Open(xs, n, k)| && Open(xs, n + 1, k)[d] == n
    ensures OpensAt(xs, n + 1, k, Open(xs, n + 1, k), d)
  {
    hide Open, FlagsKind, Level;
  }

  /** The pairs are exactly the matches. */
  lemma {:induction false} PairsAreMatches(xs: seq<Sample>, n: nat, i: nat, j: nat)
    requires n <= |xs| && Balanced(xs)
    ensures (i, j) in Pairs(xs, n) <==> j < n && Matched(xs, i, j)
    decreases n
  {
    hide Balanced, Pairs, Matched;
    if n == 0 {
      NoPairs(xs);
    } else {
      PairsAreMatches(xs, n - 1, i, j);
      if j == n - 1 { LastPair(xs, j, i); } else { EarlierPair(xs, n - 1, i, j); }
    }
  }

  lemma NoPairs(xs: seq<Sample>)
    ensures Pairs(xs, 0) == []
  {}

  lemma EarlierPair(xs: seq<Sample>, n: nat, i: nat, j: nat)
    requires n < |xs| && j != n
    ensures (i, j) in Pairs(xs, n + 1) <==> (i, j) in Pairs(xs, n)
  {
    hide Open, IsReturn, IsCall;
  }

  lemma LastPair(xs: seq<Sample>, j: nat, i: nat)
    requires j < |xs| && Balanced(xs)
    ensures (i, j) in Pairs(xs, j + 1) <==> Matched(xs, i, j)
  {
    hide Open, FlagsKind, Level, Matched, OpensAt;
    var s := xs[j];
    var k := KeyOf(s);
    var o := Open(xs, j, k);
    OpenLevels(xs, j, k);
    ReturnsOnly(xs, i, j);
    if IsReturn(s) {
      var p, d := o[|o| - 1], |o| - 1;
      TopMatches(xs, j, o);
      if Matched(xs, i, j) { OneMatch(xs, i, p, j); }
    }
  }

  lemma ReturnsOnly(xs: seq<Sample>, i: nat, j: nat)
    ensures Matched(xs, i, j) ==> j < |xs| && IsReturn(xs[j])
  {}

  lemma TopMatches(xs: seq<Sample>, j: nat, o: seq<nat>)
    requires j < |xs| && IsReturn(xs[j]) && o == Open(xs, j, KeyOf(xs[j])) && o != []
    requires |o| == Level(xs, j, KeyOf(xs[j])) && OpensAt(xs, j, KeyOf(xs[j]), o, |o| - 1)
    ensures Matched(xs, o[|o| - 1], j)
  {
    hide Open, FlagsKind;
    CallIsNoReturn(xs[j]);
    assert Level(xs, j + 1, KeyOf(xs[j])) == |o| - 1;
  }

  lemma OneMatch(xs: seq<Sample>, a: nat, b: nat, j: nat)
    requires Matched(xs, a, j) && Matched(xs, b, j)
    ensures a == b
  {
    hide Level, FlagsKind;
  }

  // ----- the run -----

  function CallsBefore(xs: seq<Sample>, n: nat): nat
    requires n <= |xs|
  {
    if n == 0 then 0 else CallsBefore(xs, n - 1) + if IsCall(xs[n - 1]) then 1 else 0
  }

  /** The span id of the call at `i`. */
  function IdAt(r: Recon, xs: seq<Sample>, i: nat): nat
    requires i <= |xs|
  {
    r.m.nextSpan + CallsBefore(xs, i)
  }

  /** The call that encloses the call at `i`, if any; else what was open on the thread before. */
  function ParentIn(r: Recon, xs: seq<Sample>, i: nat): Option<nat>
    requires i < |xs|
  {
    var o := Open(xs, i, KeyOf(xs[i]));
    if o == [] then ParentOf(Row(r, KeyOf(xs[i])).stack) else Some(IdAt(r, xs, o[|o| - 1]))
  }

  function FrameAt(images: seq<Image>, t: Tables, r: Recon, xs: seq<Sample>, i: nat): Frame
    requires i < |xs|
  {
    Frame(IdAt(r, xs, i), FnId(images, t, xs[i].pid, xs[i].addr), ParentIn(r, xs, i), xs[i].time, r.m.nextEvent + i,
          OpenEnd, xs[i].ip)
  }

  /** One Complete span per pair: the call's id, function, parent, time, event and site, the return's time and event. */
  function SpanAt(images: seq<Image>, t: Tables, r: Recon, xs: seq<Sample>, p: (nat, nat)): Span
    requires p.0 < |xs| && p.1 < |xs|
  {
    SpanOf(FrameAt(images, t, r, xs, p.0), Row(r, KeyOf(xs[p.0])).id, xs[p.1].time, r.m.nextEvent + p.1, Complete)
  }

  function FramesAt(images: seq<Image>, t: Tables, r: Recon, xs: seq<Sample>, o: seq<nat>): (fs: seq<Frame>)
    requires forall i :: 0 <= i < |o| ==> o[i] < |xs|
    ensures |fs| == |o| && forall i :: 0 <= i < |o| ==> fs[i] == FrameAt(images, t, r, xs, o[i])
  {
    seq(|o|, i requires 0 <= i < |o| => FrameAt(images, t, r, xs, o[i]))
  }

  function SpansAt(images: seq<Image>, t: Tables, r: Recon, xs: seq<Sample>, ps: seq<(nat, nat)>): (ss: seq<Span>)
    requires forall i :: 0 <= i < |ps| ==> ps[i].0 < |xs| && ps[i].1 < |xs|
    ensures |ss| == |ps| && forall i :: 0 <= i < |ps| ==> ss[i] == SpanAt(images, t, r, xs, ps[i])
  {
    seq(|ps|, i requires 0 <= i < |ps| => SpanAt(images, t, r, xs, ps[i]))
  }

  function LastSeen(r: Recon, xs: seq<Sample>, n: nat, k: Key): Option<nat>
    requires n <= |xs|
  {
    if n == 0 then Row(r, k).lastAbs
    else if KeyOf(xs[n - 1]) == k then Or(xs[n - 1].time, LastSeen(r, xs, n - 1, k))
    else LastSeen(r, xs, n - 1, k)
  }

  /** Calls, returns and plain jumps of traced threads; each thread's clock never runs backwards. */
  predicate Stream(images: seq<Image>, r: Recon, xs: seq<Sample>) {
    && (forall n :: 0 <= n < |xs| ==> RoundTrip.Live(r, KeyOf(xs[n])) && Row(r, KeyOf(xs[n])).pendingEnd.None?)
    && (forall n :: 0 <= n < |xs| ==> IsCall(xs[n]) || IsReturn(xs[n]) || PlainJump(images, r.tables, xs[n]))
    && (forall n :: 0 <= n < |xs| ==> !Regresses(LastSeen(r, xs, n, KeyOf(xs[n])), xs[n].time))
  }

  /** The thread's row after the first `n` samples. */
  ghost predicate RowIs(images: seq<Image>, r: Recon, xs: seq<Sample>, n: nat, r': Recon, k: Key)
    requires n <= |xs|
  {
    var row, row' := Row(r, k), Row(r', k);
    && row'.id == row.id && row'.pendingEnd == row.pendingEnd && row'.lastAbs == LastSeen(r, xs, n, k)
    && row'.stack == row.stack + FramesAt(images, r'.tables, r, xs, Open(xs, n, k))
  }

  ghost predicate AllRows(images: seq<Image>, r: Recon, xs: seq<Sample>, n: nat, r': Recon)
    requires n <= |xs|
  {
    forall k :: RowIs(images, r, xs, n, r', k)
  }

  /** What pushing the first `n` samples has done. */
  ghost predicate Rendered(images: seq<Image>, r: Recon, xs: seq<Sample>, n: nat, r': Recon)
    requires n <= |xs|
  {
    && ReconInv(images, r', true) && r'.filter == r.filter && r'.generation == r.generation
    && SameMaps(r.tables, r'.tables) && Extends(r.tables, r'.tables)
    && r'.m.nextSpan == IdAt(r, xs, n) && r'.m.nextEvent == r.m.nextEvent + n && r'.m.gaps == r.m.gaps
    && AllRows(images, r, xs, n, r')
    && r'.m.spans == r.m.spans + SpansAt(images, r'.tables, r, xs, Pairs(xs, n))
    && (forall i :: 0 <= i < n && IsCall(xs[i]) ==> Named(images, r'.tables, xs[i]))
  }

  // ----- what later interning leaves alone -----

  lemma FnStable(images: seq<Image>, t: Tables, t': Tables, s: Sample)
    requires SameMaps(t, t') && Extends(t, t') && Named(images, t, s)
    ensures FnId(images, t', s.pid, s.addr) == FnId(images, t, s.pid, s.addr) && Named(images, t', s)
  {
    hide PlaceOf, FnKey;
    SameKey(images, t, t', s.pid, s.addr);
  }

  lemma FramesStable(images: seq<Image>, t: Tables, t': Tables, r: Recon, xs: seq<Sample>, o: seq<nat>)
    requires SameMaps(t, t') && Extends(t, t') && forall i :: 0 <= i < |o| ==> o[i] < |xs| && Named(images, t, xs[o[i]])
    ensures FramesAt(images, t', r, xs, o) == FramesAt(images, t, r, xs, o)
  {
    hide FnId, Named, SameMaps, Extends, ParentIn;
    forall i | 0 <= i < |o| ensures FrameAt(images, t', r, xs, o[i]) == FrameAt(images, t, r, xs, o[i]) {
      FnStable(images, t, t', xs[o[i]]);
    }
  }

  lemma SpansStable(images: seq<Image>, t: Tables, t': Tables, r: Recon, xs: seq<Sample>, ps: seq<(nat, nat)>)
    requires SameMaps(t, t') && Extends(t, t')
    requires forall i :: 0 <= i < |ps| ==> ps[i].0 < |xs| && ps[i].1 < |xs| && Named(images, t, xs[ps[i].0])
    ensures SpansAt(images, t', r, xs, ps) == SpansAt(images, t, r, xs, ps)
  {
    hide FnId, Named, SameMaps, Extends, ParentIn;
    forall i | 0 <= i < |ps| ensures SpanAt(images, t', r, xs, ps[i]) == SpanAt(images, t, r, xs, ps[i]) {
      FnStable(images, t, t', xs[ps[i].0]);
    }
  }

  // ----- one step -----

  lemma ThreadIsIdle(images: seq<Image>, r: Recon, xs: seq<Sample>, n: nat, r': Recon)
    requires n < |xs| && Stream(images, r, xs) && Rendered(images, r, xs, n, r')
    ensures Idle(images, r', KeyOf(xs[n])) && !Regresses(Row(r', KeyOf(xs[n])).lastAbs, xs[n].time)
  {
    hide ReconInv, Open, Pairs, FramesAt, SpansAt, Extends, SameMaps, Named, FnKey;
    assert RowIs(images, r, xs, n, r', KeyOf(xs[n]));
  }

  /** A sample of another thread: the row stays, and so does what is expected of it. */
  lemma OtherRow(images: seq<Image>, r: Recon, xs: seq<Sample>, n: nat, r1: Recon, r2: Recon, k: Key)
    requires n < |xs| && KeyOf(xs[n]) != k && RowIs(images, r, xs, n, r1, k) && Row(r2, k) == Row(r1, k)
    requires SameMaps(r1.tables, r2.tables) && Extends(r1.tables, r2.tables)
    requires forall i :: 0 <= i < n && IsCall(xs[i]) ==> Named(images, r1.tables, xs[i])
    ensures RowIs(images, r, xs, n + 1, r2, k)
  {
    hide SameMaps, Extends, Named;
    assert Open(xs, n + 1, k) == Open(xs, n, k);
    assert LastSeen(r, xs, n + 1, k) == LastSeen(r, xs, n, k);
    FramesStable(images, r1.tables, r2.tables, r, xs, Open(xs, n, k));
    hide Open, LastSeen, FramesAt;
  }

  /** What every sample of the stream does besides its transfer. */
  ghost predicate Stepped(images: seq<Image>, r1: Recon, r2: Recon, key: Key) {
    && ReconInv(images, r2, true) && r2.filter == r1.filter && r2.generation == r1.generation
    && SameMaps(r1.tables, r2.tables) && Extends(r1.tables, r2.tables)
    && (forall k :: k != key ==> Row(r2, k) == Row(r1, k))
    && r2.m.nextEvent == r1.m.nextEvent + 1 && r2.m.gaps == r1.m.gaps
    && Row(r2, key).id == Row(r1, key).id && Row(r2, key).pendingEnd.None?
  }

  lemma StepsOver(images: seq<Image>, r1: Recon, s: Sample)
    requires Idle(images, r1, KeyOf(s)) && !Regresses(Row(r1, KeyOf(s)).lastAbs, s.time)
    requires IsCall(s) || IsReturn(s) || FlagsKind(s.flags) == Jump || FlagsKind(s.flags) == Conditional
    requires Moved(r1, Push(images, r1, SampleRecord(s)), KeyOf(s), s.time)
             && Idle(images, Push(images, r1, SampleRecord(s)), KeyOf(s))
    ensures Stepped(images, r1, Push(images, r1, SampleRecord(s)), KeyOf(s))
  {
    hide ReconInv, Push, Resolve, Settled, Extends, SameMaps, ApplyTransfer, FlagsKind;
    PlainPush(images, r1, s);
    SampleElsewhere(images, r1, s);
    var r2 := Push(images, r1, SampleRecord(s));
    forall k | k != KeyOf(s) ensures Row(r2, k) == Row(r1, k) {
      assert k in r1.m.threads || k !in r2.m.threads;
    }
  }

  /** How one sample moves its own thread's open calls and clock. */
  lemma OwnStep(r: Recon, xs: seq<Sample>, n: nat)
    requires n < |xs|
    ensures var s, k := xs[n], KeyOf(xs[n]);
            var o := Open(xs, n, k);
            && LastSeen(r, xs, n + 1, k) == Or(s.time, LastSeen(r, xs, n, k))
            && Open(xs, n + 1, k) == if IsCall(s) then o + [n] else if IsReturn(s) && o != [] then o[..|o| - 1] else o
  {
    hide FlagsKind;
  }

  /** What is known of the sample's own thread before it. */
  lemma OwnRow(images: seq<Image>, r: Recon, xs: seq<Sample>, n: nat, r1: Recon)
    requires n < |xs| && Rendered(images, r, xs, n, r1)
    ensures RowIs(images, r, xs, n, r1, KeyOf(xs[n])) && r1.m.nextSpan == IdAt(r, xs, n)
            && r1.m.nextEvent == r.m.nextEvent + n
    ensures SameMaps(r.tables, r1.tables)
    ensures forall i :: 0 <= i < n && IsCall(xs[i]) ==> Named(images, r1.tables, xs[i])
  {
    hide ReconInv, RowIs, SpansAt, Extends, SameMaps, Named, Pairs;
  }

  lemma CallPushed(images: seq<Image>, r1: Recon, s: Sample)
    requires Idle(images, r1, KeyOf(s)) && !Regresses(Row(r1, KeyOf(s)).lastAbs, s.time) && IsCall(s)
    ensures var key, r2 := KeyOf(s), Push(images, r1, SampleRecord(s));
            && Stepped(images, r1, r2, key) && r2.m.spans == r1.m.spans && r2.m.nextSpan == r1.m.nextSpan + 1
            && Row(r2, key).lastAbs == Or(s.time, Row(r1, key).lastAbs) && Row(r1, key).pendingEnd.None?
            && Row(r2, key).stack == Row(r1, key).stack
                 + [Frame(r1.m.nextSpan, FnId(images, r2.tables, s.pid, s.addr), ParentOf(Row(r1, key).stack), s.time,
                          r1.m.nextEvent, OpenEnd, s.ip)]
            && Named(images, r2.tables, s)
  {
    hide Idle, Push, ReconInv, Extends, SameMaps, Named, FnId, Stepped, ParentOf, Regresses, FlagsKind;
    PushCall(images, r1, s);
    StepsOver(images, r1, s);
    IdlePending(images, r1, KeyOf(s));
  }

  lemma CallRow(images: seq<Image>, r: Recon, xs: seq<Sample>, n: nat, r1: Recon, r2: Recon)
    requires n < |xs| && IsCall(xs[n]) && RowIs(images, r, xs, n, r1, KeyOf(xs[n]))
    requires r1.m.nextSpan == IdAt(r, xs, n) && r1.m.nextEvent == r.m.nextEvent + n
    requires FramesAt(images, r2.tables, r, xs, Open(xs, n, KeyOf(xs[n])))
             == FramesAt(images, r1.tables, r, xs, Open(xs, n, KeyOf(xs[n])))
    requires var s, row1, row2 := xs[n], Row(r1, KeyOf(xs[n])), Row(r2, KeyOf(xs[n]));
             && row2.id == row1.id && row1.pendingEnd.None? && row2.pendingEnd.None?
             && row2.lastAbs == Or(s.time, row1.lastAbs)
             && row2.stack == row1.stack
                  + [Frame(r1.m.nextSpan, FnId(images, r2.tables, s.pid, s.addr), ParentOf(row1.stack), s.time,
                           r1.m.nextEvent, OpenEnd, s.ip)]
    ensures RowIs(images, r, xs, n + 1, r2, KeyOf(xs[n]))
  {
    hide Open, FnId, LastSeen, FramesAt, ParentIn, ParentOf, IdAt, Row;
    OwnStep(r, xs, n);
    ParentMatches(images, r, xs, n, r1);
    MoreFrames(images, r2.tables, r, xs, Open(xs, n, KeyOf(xs[n])), n);
  }

  /** The frame that a call opens, on whichever row it finds. */
  lemma CallStep(images: seq<Image>, r: Recon, xs: seq<Sample>, n: nat, r1: Recon)
    requires n < |xs| && Stream(images, r, xs) && Rendered(images, r, xs, n, r1) && IsCall(xs[n])
    ensures var r2 := Push(images, r1, SampleRecord(xs[n]));
            && Stepped(images, r1, r2, KeyOf(xs[n])) && RowIs(images, r, xs, n + 1, r2, KeyOf(xs[n]))
            && r2.m.spans == r1.m.spans && r2.m.nextSpan == r1.m.nextSpan + 1 && Named(images, r2.tables, xs[n])
  {
    hide Rendered, Idle, Push, ReconInv, Open, Pairs, Extends, SameMaps, Named, FnId, Stream, LastSeen, FramesAt,
         ParentOf, IdAt, Row, RowIs;
    ThreadIsIdle(images, r, xs, n, r1);
    CallPushed(images, r1, xs[n]);
    OwnRow(images, r, xs, n, r1);
    FramesStable(images, r1.tables, Push(images, r1, SampleRecord(xs[n])).tables, r, xs, Open(xs, n, KeyOf(xs[n])));
    CallRow(images, r, xs, n, r1, Push(images, r1, SampleRecord(xs[n])));
  }

  lemma MoreFrames(images: seq<Image>, t: Tables, r: Recon, xs: seq<Sample>, o: seq<nat>, n: nat)
    requires n < |xs| && forall i :: 0 <= i < |o| ==> o[i] < |xs|
    ensures FramesAt(images, t, r, xs, o + [n]) == FramesAt(images, t, r, xs, o) + [FrameAt(images, t, r, xs, n)]
  {
    hide FrameAt;
  }

  lemma IdlePending(images: seq<Image>, r: Recon, key: Key)
    requires Idle(images, r, key)
    ensures Row(r, key).pendingEnd.None?
  {}

  /** The frame on top is the enclosing call's. */
  lemma ParentMatches(images: seq<Image>, r: Recon, xs: seq<Sample>, n: nat, r1: Recon)
    requires n < |xs| && RowIs(images, r, xs, n, r1, KeyOf(xs[n]))
    ensures ParentOf(Row(r1, KeyOf(xs[n])).stack) == ParentIn(r, xs, n)
  {
    hide Open, FnId;
    var o := Open(xs, n, KeyOf(xs[n]));
    if o != [] {
      var fs := FramesAt(images, r1.tables, r, xs, o);
      assert fs[|o| - 1] == FrameAt(images, r1.tables, r, xs, o[|o| - 1]);
    }
  }

  lemma ReturnStep(images: seq<Image>, r: Recon, xs: seq<Sample>, n: nat, r1: Recon)
    requires n < |xs| && Stream(images, r, xs) && Balanced(xs) && Rendered(images, r, xs, n, r1) && IsReturn(xs[n])
    ensures var r2 := Push(images, r1, SampleRecord(xs[n]));
            var o := Open(xs, n, KeyOf(xs[n]));
            && Stepped(images, r1, r2, KeyOf(xs[n])) && RowIs(images, r, xs, n + 1, r2, KeyOf(xs[n])) && o != []
            && r2.m.spans == r1.m.spans + [SpanAt(images, r1.tables, r, xs, (o[|o| - 1], n))]
            && r2.m.nextSpan == r1.m.nextSpan
  {
    hide Rendered, Idle, Push, ReconInv, Open, Pairs, SpansAt, Extends, SameMaps, Named, FnKey, FnId, Stream, Stepped,
         LastSeen, ParentIn;
    var s := xs[n];
    var key := KeyOf(s);
    var r2 := Push(images, r1, SampleRecord(s));
    var o := Open(xs, n, key);
    CallIsNoReturn(s);
    assert o != [];
    OwnRow(images, r, xs, n, r1);
    OwnStep(r, xs, n);
    ThreadIsIdle(images, r, xs, n, r1);
    var fs := FramesAt(images, r1.tables, r, xs, o);
    var stack := Row(r, key).stack;
    assert Row(r1, key).Top() == fs[|o| - 1];
    PushReturn(images, r1, s);
    StepsOver(images, r1, s);
    IdlePending(images, r1, key);
    IdlePending(images, r2, key);
    FramesStable(images, r1.tables, r2.tables, r, xs, o[..|o| - 1]);
    FewerFrames(images, r1.tables, r, xs, o);
    assert (stack + fs)[..|stack + fs| - 1] == stack + fs[..|o| - 1];
  }

  lemma FewerFrames(images: seq<Image>, t: Tables, r: Recon, xs: seq<Sample>, o: seq<nat>)
    requires o != [] && forall i :: 0 <= i < |o| ==> o[i] < |xs|
    ensures FramesAt(images, t, r, xs, o[..|o| - 1]) == FramesAt(images, t, r, xs, o)[..|o| - 1]
  {
    hide FrameAt;
  }

  lemma JumpStep(images: seq<Image>, r: Recon, xs: seq<Sample>, n: nat, r1: Recon)
    requires n < |xs| && Stream(images, r, xs) && Rendered(images, r, xs, n, r1) && !IsCall(xs[n]) && !IsReturn(xs[n])
    ensures var r2 := Push(images, r1, SampleRecord(xs[n]));
            && Stepped(images, r1, r2, KeyOf(xs[n])) && RowIs(images, r, xs, n + 1, r2, KeyOf(xs[n]))
            && r2.m.spans == r1.m.spans && r2.m.nextSpan == r1.m.nextSpan
  {
    hide Rendered, Idle, Push, ReconInv, Open, Pairs, SpansAt, Extends, SameMaps, Named, FnKey, FnId, Stepped, LastSeen,
         FramesAt, PlaceOf;
    var s := xs[n];
    var key := KeyOf(s);
    var r2 := Push(images, r1, SampleRecord(s));
    OwnRow(images, r, xs, n, r1);
    OwnStep(r, xs, n);
    assert PlainJump(images, r.tables, s);
    SameKey(images, r.tables, r1.tables, s.pid, s.ip);
    SameKey(images, r.tables, r1.tables, s.pid, s.addr);
    ThreadIsIdle(images, r, xs, n, r1);
    hide Stream;
    PushPlainJump(images, r1, s);
    StepsOver(images, r1, s);
    IdlePending(images, r1, key);
    IdlePending(images, r2, key);
    FramesStable(images, r1.tables, r2.tables, r, xs, Open(xs, n, key));
  }

  /** Every row is as expected after one more sample, whichever thread it belongs to. */
  lemma RowsStep(images: seq<Image>, r: Recon, xs: seq<Sample>, n: nat, r1: Recon, r2: Recon)
    requires n < |xs| && Rendered(images, r, xs, n, r1) && Stepped(images, r1, r2, KeyOf(xs[n]))
    requires RowIs(images, r, xs, n + 1, r2, KeyOf(xs[n]))
    ensures AllRows(images, r, xs, n + 1, r2)
  {
    hide ReconInv, RowIs, SpansAt, Extends, SameMaps, Named, Pairs, IdAt;
    var n' := n + 1;
    forall k ensures RowIs(images, r, xs, n', r2, k) {
      if k != KeyOf(xs[n]) { OtherRow(images, r, xs, n, r1, r2, k); }
    }
  }

  /** The calls stay named, and a new one becomes so. */
  lemma NamedStep(images: seq<Image>, xs: seq<Sample>, n: nat, t1: Tables, t2: Tables)
    requires n < |xs| && SameMaps(t1, t2) && Extends(t1, t2) && (IsCall(xs[n]) ==> Named(images, t2, xs[n]))
    requires forall i :: 0 <= i < n && IsCall(xs[i]) ==> Named(images, t1, xs[i])
    ensures forall i :: 0 <= i < n + 1 && IsCall(xs[i]) ==> Named(images, t2, xs[i])
  {
    hide SameMaps, Extends, Named, IsCall;
    forall i | 0 <= i < n + 1 && IsCall(xs[i]) ensures Named(images, t2, xs[i]) {
      if i < n { FnStable(images, t1, t2, xs[i]); }
    }
  }

  /** A return adds its span behind the others; any other sample adds none. */
  lemma SpansStep(images: seq<Image>, r: Recon, xs: seq<Sample>, n: nat, t1: Tables, t2: Tables)
    requires n < |xs| && SameMaps(t1, t2) && Extends(t1, t2)
    requires forall i :: 0 <= i < n && IsCall(xs[i]) ==> Named(images, t1, xs[i])
    ensures var o := Open(xs, n, KeyOf(xs[n]));
            SpansAt(images, t2, r, xs, Pairs(xs, n + 1))
            == SpansAt(images, t1, r, xs, Pairs(xs, n)) + if IsReturn(xs[n]) && o != [] then
              [SpanAt(images, t1, r, xs, (o[|o| - 1], n))] else []
  {
    hide SameMaps, Extends, Named, SpanAt, Open, IsCall, IsReturn;
    SpansStable(images, t1, t2, r, xs, Pairs(xs, n + 1));
  }

  lemma StepRendered(images: seq<Image>, r: Recon, xs: seq<Sample>, n: nat, r1: Recon)
    requires n < |xs| && Stream(images, r, xs) && Balanced(xs) && Rendered(images, r, xs, n, r1)
    ensures Rendered(images, r, xs, n + 1, Push(images, r1, SampleRecord(xs[n])))
  {
    hide Push, ReconInv, RowIs, Extends, SameMaps, Named, Stream, Balanced, Pairs, SpansAt, SpanAt, Open, FlagsKind,
         Stepped, Rendered, AllRows;
    var s := xs[n];
    var r2 := Push(images, r1, SampleRecord(s));
    if IsCall(s) {
      CallIsNoReturn(s);
      CallStep(images, r, xs, n, r1);
    } else if IsReturn(s) {
      ReturnStep(images, r, xs, n, r1);
    } else {
      JumpStep(images, r, xs, n, r1);
    }
    RowsStep(images, r, xs, n, r1, r2);
    Assemble(images, r, xs, n, r1, r2);
  }

  lemma Assemble(images: seq<Image>, r: Recon, xs: seq<Sample>, n: nat, r1: Recon, r2: Recon)
    requires n < |xs| && Rendered(images, r, xs, n, r1) && Stepped(images, r1, r2, KeyOf(xs[n]))
    requires AllRows(images, r, xs, n + 1, r2)
    requires r2.m.nextSpan == r1.m.nextSpan + (if IsCall(xs[n]) then 1 else 0)
             && (IsCall(xs[n]) ==> Named(images, r2.tables, xs[n]))
    requires var o := Open(xs, n, KeyOf(xs[n]));
             r2.m.spans == r1.m.spans + if IsReturn(xs[n]) && o != [] then
               [SpanAt(images, r1.tables, r, xs, (o[|o| - 1], n))] else []
    ensures Rendered(images, r, xs, n + 1, r2)
  {
    hide ReconInv, AllRows, Extends, SameMaps, Named, Pairs, SpansAt, SpanAt, Open, IsCall, IsReturn;
    ExtendsTwice(r.tables, r1.tables, r2.tables);
    NamedStep(images, xs, n, r1.tables, r2.tables);
    SpansStep(images, r, xs, n, r1.tables, r2.tables);
  }

  lemma RenderedAtStart(images: seq<Image>, r: Recon, xs: seq<Sample>)
    requires ReconInv(images, r, true)
    ensures Rendered(images, r, xs, 0, r)
  {
    hide ReconInv;
    assert SpansAt(images, r.tables, r, xs, []) == [];
    forall k ensures RowIs(images, r, xs, 0, r, k) {
      assert FramesAt(images, r.tables, r, xs, []) == [];
    }
  }

  lemma {:induction false} RunRendered(images: seq<Image>, r: Recon, xs: seq<Sample>, n: nat)
    requires n <= |xs| && ReconInv(images, r, true) && Stream(images, r, xs) && Balanced(xs)
    ensures Rendered(images, r, xs, n, PushAll(images, r, Records(xs[..n])))
    decreases n
  {
    hide ReconInv, Stream, Balanced, Rendered, Push, PushAll;
    if n == 0 {
      PushNone(images, r);
      RenderedAtStart(images, r, xs);
      assert xs[..0] == [];
    } else {
      RunRendered(images, r, xs, n - 1);
      PushLast(images, r, xs, n - 1);
      StepRendered(images, r, xs, n - 1, PushAll(images, r, Records(xs[..n - 1])));
    }
  }

  lemma PushNone(images: seq<Image>, r: Recon)
    ensures PushAll(images, r, Records([])) == r
  {}

  lemma PushLast(images: seq<Image>, r: Recon, xs: seq<Sample>, n: nat)
    requires n < |xs|
    ensures PushAll(images, r, Records(xs[..n + 1]))
            == Push(images, PushAll(images, r, Records(xs[..n])), SampleRecord(xs[n]))
  {
    hide Push, PushAll;
    assert Records(xs[..n + 1]) == Records(xs[..n]) + Records([xs[n]]);
    PushAllConcat(images, r, Records(xs[..n]), Records([xs[n]]));
    assert [xs[n]] + [] == [xs[n]];
    PushOneThen(images, PushAll(images, r, Records(xs[..n])), xs[n], []);
    PushNone(images, Push(images, PushAll(images, r, Records(xs[..n])), SampleRecord(xs[n])));
  }
}
