/**
 * Jumps inside a function leave no trace in the spans: a forest pushed with and
 * without them gives the same spans, but for the numbers that count samples.
 */
module Jumps {
  import opened TraceTypes
  import opened Machine
  import opened Lanes
  import opened Origin
  import opened Symbols
  import opened Recon
  import opened Runs
  import opened Results
  import opened RoundTrip
  import opened EndToEnd
  import opened SpanIds
  import opened Behaviour
  import opened References
  import Owners

  function Strip(f: Forest): Forest {
    match f
    case Leaf => Leaf
    case JumpThen(_, rest) => Strip(rest)
    case CallThen(c, body, r, rest) => CallThen(c, Strip(body), r, Strip(rest))
  }

  /** Both unknown, or the ids under which two tables hold one and the same function. */
  ghost predicate SameFunction(t: Tables, a: Option<nat>, t': Tables, b: Option<nat>) {
    if a.None? then b.None?
    else
      && b.Some?
      && exists k :: k in t.funcIndex && k in t'.funcIndex && t.funcIndex[k] == a.value && t'.funcIndex[k] == b.value
  }

  /** Equal but for event ids, and for the table the function id is read in. */
  ghost predicate Alike(t: Tables, a: Span, t': Tables, b: Span) {
    && b == a.(func := b.func, startEvent := b.startEvent, endEvent := b.endEvent)
    && SameFunction(t, a.func, t', b.func)
  }

  ghost predicate AllAlike(t: Tables, xs: seq<Span>, t': Tables, ys: seq<Span>) {
    |xs| == |ys| && forall i :: 0 <= i < |xs| ==> Alike(t, xs[i], t', ys[i])
  }

  /** A forest printed with and without its jumps yields the same spans, whatever else each run interned. */
  lemma {:induction false} ExpectedIgnoresJumps(f: Forest, images: seq<Image>, t: Tables, t': Tables, thread: ThreadId,
                                             parent: Option<nat>, sid: nat, eid: nat, eid': nat)
    requires SameMaps(t, t') && AllNamed(images, t, f) && AllNamed(images, t', Strip(f))
    ensures Calls(Strip(f)) == Calls(f)
    ensures var xs := Expected(f, images, t, thread, parent, sid, eid);
            var ys := Expected(Strip(f), images, t', thread, parent, sid, eid');
            AllAlike(t, xs, t', ys)
  {
    hide AllAlike, Alike, SameMaps, Named, FnId;
    match f
    case Leaf => NoneAlike(t, t');
    case JumpThen(_, rest) => ExpectedIgnoresJumps(rest, images, t, t', thread, parent, sid, eid + 1, eid');
    case CallThen(c, body, r, rest) =>
      ExpectedIgnoresJumps(body, images, t, t', thread, Some(sid), sid + 1, eid + 1, eid' + 1);
      var (n, n') := (|Print(body)|, |Print(Strip(body))|);
      ExpectedIgnoresJumps(rest, images, t, t', thread, parent, sid + 1 + Calls(body), eid + 2 + n, eid' + 2 + n');
      var a := Span(sid, thread, FnId(images, t, c.pid, c.addr), parent, c.time, r.time, Complete, eid, eid + 1 + n,
                    c.ip);
      var a' := Span(sid, thread, FnId(images, t', c.pid, c.addr), parent, c.time, r.time, Complete, eid',
                     eid' + 1 + n', c.ip);
      CallIsAlike(images, t, t', c, a, a');
      JoinAlike(t, Expected(body, images, t, thread, Some(sid), sid + 1, eid + 1), a,
                Expected(rest, images, t, thread, parent, sid + 1 + Calls(body), eid + 2 + n),
                t', Expected(Strip(body), images, t', thread, Some(sid), sid + 1, eid' + 1), a',
                Expected(Strip(rest), images, t', thread, parent, sid + 1 + Calls(body), eid' + 2 + n'));
  }

  lemma NoneAlike(t: Tables, t': Tables)
    ensures AllAlike(t, [], t', [])
  {}

  lemma JoinAlike(t: Tables, xs: seq<Span>, a: Span, ys: seq<Span>, t': Tables, xs': seq<Span>, a': Span,
                  ys': seq<Span>)
    requires AllAlike(t, xs, t', xs') && Alike(t, a, t', a') && AllAlike(t, ys, t', ys')
    ensures AllAlike(t, xs + [a] + ys, t', xs' + [a'] + ys')
  {
    hide Alike;
  }

  lemma CallIsAlike(images: seq<Image>, t: Tables, t': Tables, c: Sample, a: Span, b: Span)
    requires SameMaps(t, t') && Named(images, t, c) && Named(images, t', c)
    requires b == a.(func := b.func, startEvent := b.startEvent, endEvent := b.endEvent)
    requires a.func == FnId(images, t, c.pid, c.addr) && b.func == FnId(images, t', c.pid, c.addr)
    ensures Alike(t, a, t', b)
  {}

  // ----- pushing with and without jumps -----

  lemma {:induction false} StripWellFormed(images: seq<Image>, t: Tables, key: Key, f: Forest)
    requires WellFormed(images, t, key, f)
    ensures WellFormed(images, t, key, Strip(f))
  {
    match f
    case Leaf =>
    case JumpThen(_, rest) => StripWellFormed(images, t, key, rest);
    case CallThen(_, body, _, rest) =>
      StripWellFormed(images, t, key, body);
      StripWellFormed(images, t, key, rest);
  }

  /** Leaving samples out leaves the clock behind, never ahead. */
  lemma {:induction false} StripTimes(f: Forest, last: Option<nat>, last': Option<nat>)
    requires NonDecreasing(last, Print(f)) && Reached(last', last)
    ensures NonDecreasing(last', Print(Strip(f)))
    ensures Reached(LastTime(last', Print(Strip(f))), LastTime(last, Print(f)))
  {
    hide NonDecreasing, LastTime;
    match f
    case Leaf => NothingPrinted(last); NothingPrinted(last');
    case JumpThen(j, rest) =>
      OneThenTimes(last, j, Print(rest));
      StripTimes(rest, Or(j.time, last), last');
    case CallThen(c, body, r, rest) =>
      SplitTimes(last, c, Print(body), r, Print(rest));
      var l1, l1' := Or(c.time, last), Or(c.time, last');
      StripTimes(body, l1, l1');
      var l3, l3' := Or(r.time, LastTime(l1, Print(body))), Or(r.time, LastTime(l1', Print(Strip(body))));
      StripTimes(rest, l3, l3');
      JoinTimes(last', c, Print(Strip(body)), r, Print(Strip(rest)));
  }

  lemma NothingPrinted(last: Option<nat>)
    ensures NonDecreasing(last, []) && LastTime(last, []) == last
  {}

  lemma JoinTimes(last: Option<nat>, c: Sample, xs: seq<Sample>, ret: Sample, ys: seq<Sample>)
    requires var l1 := Or(c.time, last);
             var l2 := LastTime(l1, xs);
             !Regresses(last, c.time) && NonDecreasing(l1, xs) && !Regresses(l2, ret.time)
               && NonDecreasing(Or(ret.time, l2), ys)
    ensures NonDecreasing(last, [c] + xs + [ret] + ys)
    ensures LastTime(last, [c] + xs + [ret] + ys) == LastTime(Or(ret.time, LastTime(Or(c.time, last), xs)), ys)
  {
    hide NonDecreasing, LastTime;
    assert [c] + xs + [ret] + ys == [c] + (xs + ([ret] + ys));
    OneThenTimes(last, c, xs + ([ret] + ys));
    NonDecreasingConcat(Or(c.time, last), xs, [ret] + ys);
    OneThenTimes(LastTime(Or(c.time, last), xs), ret, ys);
  }

  /** Two runs whose spans from the n-th on are pairwise alike, and all else a reader sees of the thread is equal. */
  ghost predicate SameButForJumps(r: Recon, r': Recon, key: Key, n: nat) {
    && |r.m.spans| == |r'.m.spans| && n <= |r.m.spans| && r.m.spans[..n] == r'.m.spans[..n]
    && (forall i :: n <= i < |r.m.spans| ==> Alike(r.tables, r.m.spans[i], r'.tables, r'.m.spans[i]))
    && Row(r, key).stack == Row(r', key).stack && r.m.gaps == r'.m.gaps && r.m.nextSpan == r'.m.nextSpan
  }

  /** Pushing a forest with its jumps and without them differs in nothing but event ids and function ids. */
  lemma JumpsAreInvisible(images: seq<Image>, r: Recon, key: Key, f: Forest)
    requires Idle(images, r, key) && WellFormed(images, r.tables, key, f)
    requires NonDecreasing(Row(r, key).lastAbs, Print(f))
    ensures SameButForJumps(PushAll(images, r, Records(Print(f))), PushAll(images, r, Records(Print(Strip(f)))), key,
                            |r.m.spans|)
  {
    hide Idle, PushAll, WellFormed, NonDecreasing, Expected, Alike, Records, AllNamed, Extends;
    var row := Row(r, key);
    StripWellFormed(images, r.tables, key, f);
    StripTimes(f, row.lastAbs, row.lastAbs);
    ForestRoundTrip(images, r, key, f);
    ForestRoundTrip(images, r, key, Strip(f));
    var r1, r2 := PushAll(images, r, Records(Print(f))), PushAll(images, r, Records(Print(Strip(f))));
    ExpectedIgnoresJumps(f, images, r1.tables, r2.tables, row.id, ParentOf(row.stack), r.m.nextSpan, r.m.nextEvent,
                         r.m.nextEvent);
  }

  // ----- and in the analysis -----

  function Absolute(t: Option<nat>, origin: nat): Option<nat> {
    if t.Some? then Some(t.value + origin) else None
  }

  /** Alike when the times are counted from the clock's own zero again. */
  ghost predicate AlikeIn(t: Tables, a: Span, origin: nat, t': Tables, b: Span, origin': nat) {
    Alike(t, a.(start := Absolute(a.start, origin), end := Absolute(a.end, origin)),
          t', b.(start := Absolute(b.start, origin'), end := Absolute(b.end, origin')))
  }

  lemma RebasedAlike(t: Tables, x: Span, a: Span, origin: nat, t': Tables, y: Span, b: Span, origin': nat)
    requires Alike(t, x, t', y) && IsRebased(a, x, origin) && IsRebased(b, y, origin')
    ensures AlikeIn(t, a, origin, t', b, origin')
  {
    assert a.(start := Absolute(a.start, origin), end := Absolute(a.end, origin)) == x;
    assert b.(start := Absolute(b.start, origin'), end := Absolute(b.end, origin')) == y;
  }

  /** A span from before both runs means the same in both. */
  lemma OldSpanIsAlike(images: seq<Image>, r: Recon, t: Tables, t': Tables, i: nat)
    requires AllGrounded(r) && TablesInv(images, r.tables) && Extends(r.tables, t) && Extends(r.tables, t')
             && i < |r.m.spans|
    ensures Alike(t, r.m.spans[i], t', r.m.spans[i])
  {
    var x := r.m.spans[i];
    if x.func.Some? {
      assert Slotted(r.tables.funcIndex, x.func.value);
      var k :| k in r.tables.funcIndex && r.tables.funcIndex[k] == x.func.value;
      assert k in t.funcIndex && k in t'.funcIndex;
    }
  }

  /** Every thread's stack is empty. */
  predicate NothingOpen(r: Recon) {
    forall k :: k in r.m.threads ==> r.m.threads[k].stack == []
  }

  lemma StillNothingOpen(images: seq<Image>, r: Recon, key: Key, f: Forest)
    requires Idle(images, r, key) && WellFormed(images, r.tables, key, f)
             && NonDecreasing(Row(r, key).lastAbs, Print(f))
    requires NothingOpen(r)
    ensures NothingOpen(PushAll(images, r, Records(Print(f))))
  {
    hide Idle, PushAll, NonDecreasing, Expected, Records, AllNamed, Extends;
    ForestRoundTrip(images, r, key, f);
    PrintedTask(images, r.tables, key, f);
    SamplesElsewhere(images, r, Print(f), key);
  }

  /** Samples of one task leave all other stacks alone. */
  lemma {:induction false} SamplesElsewhere(images: seq<Image>, r: Recon, samples: seq<Sample>, key: Key)
    requires forall i :: 0 <= i < |samples| ==> (samples[i].pid, samples[i].tid) == key
    ensures var r' := PushAll(images, r, Records(samples));
            && r'.m.threads.Keys <= r.m.threads.Keys + {key}
            && forall k :: k in r.m.threads && k != key ==>
                 k in r'.m.threads && r'.m.threads[k].stack == r.m.threads[k].stack
    decreases |samples|
  {
    hide Push;
    if samples != [] {
      assert Records(samples)[1..] == Records(samples[1..]);
      SampleElsewhere(images, r, samples[0]);
      SamplesElsewhere(images, Push(images, r, SampleRecord(samples[0])), samples[1..], key);
    }
  }

  lemma SampleElsewhere(images: seq<Image>, r: Recon, s: Sample)
    ensures var key, r' := (s.pid, s.tid), Push(images, r, SampleRecord(s));
            && r'.m.threads.Keys <= r.m.threads.Keys + {key}
            && forall k :: k in r.m.threads && k != key ==> k in r'.m.threads && r'.m.threads[k] == r.m.threads[k]
  {
    hide Advance, ApplyFlow, Resolve, Tracker.Drops, Tracker.Observe;
    var key, n := (s.pid, s.tid), Noted(r, SampleRecord(s));
    var mt := Touch(WithThread(n.m, key, Generation(n.generation, key)), key, s.time);
    Owners.AdvanceIsLocal(mt, key, s.time);
    var m1 := Advance(mt, key, s.time);
    var (from, t1) := Resolve(images, n.tables, s.pid, s.ip);
    var (to, t2) := Resolve(images, t1, s.pid, s.addr);
    SampleIsLocal(Retain(m1, key, s, from, to), key, FlowOf(s, from, to, n.cpuFirst, m1.nextEvent));
  }

  /** Whatever came before, as long as nothing is open: the analyses with and without the jumps hold alike spans. */
  lemma JumpsInvisibleInAnalysis(images: seq<Image>, filter: Option<Tracker>, before: seq<Record>, key: Key, f: Forest)
    requires var r := PushAll(images, New(filter), before);
             && NothingOpen(r) && RoundTrip.Live(r, key) && Row(r, key).pendingEnd.None?
             && WellFormed(images, r.tables, key, f) && NonDecreasing(Row(r, key).lastAbs, Print(f))
    ensures var r1 := PushAll(images, New(filter), before + Records(Print(f)));
            var r2 := PushAll(images, New(filter), before + Records(Print(Strip(f))));
            && (forall k :: k in r1.m.order <==> k in r1.m.threads)
               && (forall k :: k in r2.m.order <==> k in r2.m.threads)
            && (Finish(r1).Ok? && Finish(r2).Ok? ==>
                  var a, b := Finish(r1).value, Finish(r2).value;
                  && |a.spans| == |b.spans|
                  && forall i :: 0 <= i < |a.spans| ==>
                       AlikeIn(r1.tables, a.spans[i], a.origin, r2.tables, b.spans[i], b.origin))
  {
    hide New, PushAll, ReconInv, WellFormed, NonDecreasing, Finish, Records, AlikeIn, NothingOpen;
    var r := PushAll(images, New(filter), before);
    AnyRun(images, filter, before);
    AnyRun(images, filter, before + Records(Print(f)));
    AnyRun(images, filter, before + Records(Print(Strip(f))));
    PushAllConcat(images, New(filter), before, Records(Print(f)));
    PushAllConcat(images, New(filter), before, Records(Print(Strip(f))));
    JumpsAreInvisible(images, r, key, f);
    StripWellFormed(images, r.tables, key, f);
    StripTimes(f, Row(r, key).lastAbs, Row(r, key).lastAbs);
    StillNothingOpen(images, r, key, f);
    StillNothingOpen(images, r, key, Strip(f));
    AnyRunNamed(images, filter, before);
    RunsExtend(images, r, key, f);
    FinishedAlike(images, r, PushAll(images, r, Records(Print(f))), PushAll(images, r, Records(Print(Strip(f)))), key);
  }

  lemma RunsExtend(images: seq<Image>, r: Recon, key: Key, f: Forest)
    requires Idle(images, r, key) && WellFormed(images, r.tables, key, f)
             && NonDecreasing(Row(r, key).lastAbs, Print(f))
    ensures Extends(r.tables, PushAll(images, r, Records(Print(f))).tables)
    ensures Extends(r.tables, PushAll(images, r, Records(Print(Strip(f)))).tables)
    ensures r.m.spans <= PushAll(images, r, Records(Print(f))).m.spans
  {
    hide Idle, PushAll, WellFormed, NonDecreasing, Expected, Records, RoundTrip.AllNamed, Extends;
    StripWellFormed(images, r.tables, key, f);
    StripTimes(f, Row(r, key).lastAbs, Row(r, key).lastAbs);
    ForestRoundTrip(images, r, key, f);
    ForestRoundTrip(images, r, key, Strip(f));
  }

  lemma FinishedAlike(images: seq<Image>, r: Recon, r1: Recon, r2: Recon, key: Key)
    requires AllGrounded(r) && ReconInv(images, r, true) && Extends(r.tables, r1.tables) && Extends(r.tables, r2.tables)
    requires ReconInv(images, r1, true) && ReconInv(images, r2, true) && NothingOpen(r1) && NothingOpen(r2)
    requires r.m.spans <= r1.m.spans && SameButForJumps(r1, r2, key, |r.m.spans|)
    ensures (forall k :: k in r1.m.order <==> k in r1.m.threads) && (forall k :: k in r2.m.order <==> k in r2.m.threads)
    ensures Finish(r1).Ok? && Finish(r2).Ok? ==>
              var a, b := Finish(r1).value, Finish(r2).value;
              && |a.spans| == |b.spans|
              && forall i :: 0 <= i < |a.spans| ==>
                   AlikeIn(r1.tables, a.spans[i], a.origin, r2.tables, b.spans[i], b.origin)
  {
    ReconTables(images, r);
    hide ReconInv, Finish, Alike, AlikeIn, AllGrounded, Extends, TablesInv, IsRebased;
    FinishEmitted(images, r1);
    FinishEmitted(images, r2);
    if Finish(r1).Ok? && Finish(r2).Ok? {
      var a, b := Finish(r1).value, Finish(r2).value;
      forall i | 0 <= i < |a.spans| ensures AlikeIn(r1.tables, a.spans[i], a.origin, r2.tables, b.spans[i], b.origin) {
        assert Emitted(r1.m.spans, i);
        var j :| 0 <= j < |r1.m.spans| && r1.m.spans[j].id == i;
        if j < |r.m.spans| {
          assert r1.m.spans[..|r.m.spans|][j] == r2.m.spans[..|r.m.spans|][j];
          OldSpanIsAlike(images, r, r1.tables, r2.tables, j);
        }
        AlikeIds(r1.tables, r1.m.spans[j], r2.tables, r2.m.spans[j]);
        RebasedAlike(r1.tables, r1.m.spans[j], a.spans[i], a.origin, r2.tables, r2.m.spans[j], b.spans[i], b.origin);
      }
    }
  }

  lemma AlikeIds(t: Tables, a: Span, t': Tables, b: Span)
    requires Alike(t, a, t', b)
    ensures b.id == a.id
  {}

  // ----- success -----

  ghost predicate HasTime(samples: seq<Sample>) {
    exists i :: 0 <= i < |samples| && samples[i].time.Some? && samples[i].time.value != 0
  }

  lemma {:induction false} SamplesMin(images: seq<Image>, r: Recon, samples: seq<Sample>, key: Key)
    requires RoundTrip.Live(r, key) && forall i :: 0 <= i < |samples| ==> (samples[i].pid, samples[i].tid) == key
    ensures PushAll(images, r, Records(samples)).minAbs.Some? <==> r.minAbs.Some? || HasTime(samples)
    decreases |samples|
  {
    hide Push;
    if samples != [] {
      var s, rest := samples[0], samples[1..];
      assert Records(samples)[1..] == Records(rest);
      PushMin(images, r, SampleRecord(s));
      SamplesMin(images, Push(images, r, SampleRecord(s)), rest, key);
      if HasTime(samples) {
        var i :| 0 <= i < |samples| && samples[i].time.Some? && samples[i].time.value != 0;
        if i > 0 { assert rest[i - 1] == samples[i]; }
      }
      if HasTime(rest) {
        var i :| 0 <= i < |rest| && rest[i].time.Some? && rest[i].time.value != 0;
        assert samples[i + 1] == rest[i];
      }
    }
  }

  lemma {:induction false} StripIsPart(f: Forest, s: Sample)
    requires s in Print(Strip(f))
    ensures s in Print(f)
  {
    match f
    case Leaf =>
    case JumpThen(_, rest) => StripIsPart(rest, s);
    case CallThen(c, body, r, rest) =>
      if s in Print(Strip(body)) { StripIsPart(body, s); }
      if s in Print(Strip(rest)) { StripIsPart(rest, s); }
  }

  /** Without zero times, adding jumps never makes `finish` fail. */
  lemma JumpsKeepSuccess(images: seq<Image>, filter: Option<Tracker>, before: seq<Record>, key: Key, f: Forest)
    requires var r := PushAll(images, New(filter), before);
             RoundTrip.Live(r, key) && WellFormed(images, r.tables, key, f)
    requires NoZeroTimes(before + Records(Print(f)))
    ensures var r1 := PushAll(images, New(filter), before + Records(Print(f)));
            var r2 := PushAll(images, New(filter), before + Records(Print(Strip(f))));
            && (forall k :: k in r1.m.order <==> k in r1.m.threads)
               && (forall k :: k in r2.m.order <==> k in r2.m.threads)
            && (Finish(r2).Ok? ==> Finish(r1).Ok?)
  {
    hide Finish, PushAll, New, WellFormed, NoZeroTimes, Earliest;
    var r := PushAll(images, New(filter), before);
    var all, some := before + Records(Print(f)), before + Records(Print(Strip(f)));
    FinishSucceedsIff(images, filter, all);
    MinIsEarliest(images, New(filter), all);
    MinIsEarliest(images, New(filter), some);
    FinishFailsIff(images, filter, some);
    PushAllConcat(images, New(filter), before, Records(Print(f)));
    PushAllConcat(images, New(filter), before, Records(Print(Strip(f))));
    StripWellFormed(images, r.tables, key, f);
    PrintedTask(images, r.tables, key, f);
    PrintedTask(images, r.tables, key, Strip(f));
    SamplesMin(images, r, Print(f), key);
    SamplesMin(images, r, Print(Strip(f)), key);
    NewHasNoTime(filter);
    if HasTime(Print(Strip(f))) {
      var i :| 0 <= i < |Print(Strip(f))| && Print(Strip(f))[i].time.Some? && Print(Strip(f))[i].time.value != 0;
      StripIsPart(f, Print(Strip(f))[i]);
    }
  }

  lemma NewHasNoTime(filter: Option<Tracker>)
    ensures New(filter).minAbs == None && New(filter).filter == filter
  {}

  // ----- function ids do differ -----

  /** One image with two functions, f and g, mapped at 0. */
  const TWO: seq<Image> := [Image("a", "h", [], [FuncRange("f", "f", 0, 16), FuncRange("g", "g", 16, 32)])]

  const MAP_IT := MmapEvent(1, None, 0, 32, 0, "a")

  const MAPPED: Tables := NO_TABLES.(mappings := [Mapping(1, 0, 32, 0, "a", None)], mapsByPid := map[1 := [0]])

  lemma MappedIs()
    ensures AddMapping(NO_TABLES, MAP_IT) == MAPPED
  {
    var none: map<(nat, nat), Resolved> := map[];
    assert (map k | k in none && k.0 != 1 :: none[k]) == none;
    var no: seq<nat> := [];
    assert no + [0] == [0];
  }

  /** A jump inside g, then a call of f from an unknown place. */
  const INSIDE_G := Sample(1, 1, None, Some(1), Some(16), Some(17), {Jmp})
  const INTO_F := Sample(1, 1, None, Some(2), None, Some(0), {CallFlag})
  const OUT_OF_F := Sample(1, 1, None, Some(3), None, None, {ReturnFlag})

  lemma PlacedAt(t: Tables, ip: nat)
    requires SameMaps(MAPPED, t) && ip < 32
    ensures PlaceOf(TWO, t, 1, ip) == Some(Place(0, 0, "h", ip, Some(TWO[0].funcs[if ip < 16 then 0 else 1])))
  {
    var fs := TWO[0].funcs;
    assert NewestCovering([0], t.mappings, ip) == Some(0);
    assert ImageIndex(TWO, "a") == Some(0);
    assert fs[1..][1..] == [];
    assert PartitionPoint(fs[1..], ip) == if ip < 16 then 0 else 1;
    assert PartitionPoint(fs, ip) == if ip < 16 then 1 else 2;
  }

  /** A first look-up of an address interns its function last, unless it is known. */
  lemma LookedUp(t: Tables, ip: nat)
    requires SameMaps(MAPPED, t) && ip < 32 && (1, ip) !in t.ipCache
    ensures var t' := Resolve(TWO, t, 1, Some(ip)).1;
            var slot := (0, if ip < 16 then 0 else 16);
            && SameMaps(MAPPED, t') && t'.ipCache.Keys == t.ipCache.Keys + {(1, ip)}
            && t'.funcIndex == (if slot in t.funcIndex then t.funcIndex else t.funcIndex[slot := |t.functions|])
            && |t'.functions| == |t.functions| + if slot in t.funcIndex then 0 else 1
  {
    PlacedAt(t, ip);
    hide PlaceOf, ImageIndex;
  }

  lemma PushTables(images: seq<Image>, r: Recon, s: Sample)
    requires r.filter.None?
    ensures var r' := Push(images, r, SampleRecord(s));
            && r'.filter.None?
            && r'.tables == Resolve(images, Resolve(images, r.tables, s.pid, s.ip).1, s.pid, s.addr).1
  {
    hide Resolve, ApplyFlow, Advance, Retain, Touch, WithThread;
  }

  /** The table after the call of f, with and without the jump inside g before it. */
  lemma TablesAfter(r: Recon)
    requires r.filter.None? && r.tables == MAPPED
    ensures PushAll(TWO, r, Records([INTO_F, OUT_OF_F])).tables.funcIndex == map[(0, 0) := 0]
    ensures PushAll(TWO, r, Records([INSIDE_G, INTO_F, OUT_OF_F])).tables.funcIndex == map[(0, 16) := 0, (0, 0) := 1]
  {
    hide Push, Resolve;
    TailTables(r);
    PushTables(TWO, r, INSIDE_G);
    LookedUp(r.tables, 16);
    LookedUp(Resolve(TWO, r.tables, 1, Some(16)).1, 17);
    var r1 := Push(TWO, r, SampleRecord(INSIDE_G));
    TailTables(r1);
    assert Records([INSIDE_G, INTO_F, OUT_OF_F])[1..] == Records([INTO_F, OUT_OF_F]);
  }

  lemma TailTables(r: Recon)
    requires r.filter.None? && SameMaps(MAPPED, r.tables) && (1, 0) !in r.tables.ipCache
             && (0, 0) !in r.tables.funcIndex
    ensures PushAll(TWO, r, Records([INTO_F, OUT_OF_F])).tables.funcIndex
            == r.tables.funcIndex[(0, 0) := |r.tables.functions|]
  {
    hide Push, Resolve;
    PushTwo(r, INTO_F, OUT_OF_F);
    hide PushAll, Records;
    NoAddress(TWO, r.tables, 1);
    LookedUp(r.tables, 0);
    PushTables(TWO, r, INTO_F);
    var r1 := Push(TWO, r, SampleRecord(INTO_F));
    NoAddress(TWO, r1.tables, 1);
    PushTables(TWO, r1, OUT_OF_F);
  }

  lemma PushTwo(r: Recon, a: Sample, b: Sample)
    ensures PushAll(TWO, r, Records([a, b])) == Push(TWO, Push(TWO, r, SampleRecord(a)), SampleRecord(b))
  {
    hide Push;
    assert Records([a, b])[1..] == Records([b]) && Records([b])[1..] == [];
    var r1 := Push(TWO, r, SampleRecord(a));
    assert PushAll(TWO, r1, Records([b])) == Push(TWO, r1, SampleRecord(b));
  }

  lemma NoAddress(images: seq<Image>, t: Tables, pid: nat)
    ensures Resolve(images, t, pid, None) == (UNRESOLVED, t)
  {}

  lemma AfterMap()
    ensures var r := PushAll(TWO, New(None), [MmapRecord(MAP_IT)]);
            && r.filter.None? && r.tables == MAPPED && r.m == EMPTY && Idle(TWO, r, (1, 1))
            && Row(r, (1, 1)).lastAbs.None?
  {
    AnyRun(TWO, None, [MmapRecord(MAP_IT)]);
    MappedIs();
    hide ReconInv, AddMapping;
    var r0 := New(None);
    var r := PushAll(TWO, r0, [MmapRecord(MAP_IT)]);
    assert [MmapRecord(MAP_IT)][1..] == [];
    assert r == Push(TWO, r0, MmapRecord(MAP_IT));
  }

  const CALL_F := CallThen(INTO_F, Leaf, OUT_OF_F, Leaf)

  lemma CallFlags()
    ensures FlagsKind(INTO_F.flags) == Call && FlagsKind(OUT_OF_F.flags) == Return && FlagsKind(INSIDE_G.flags) == Jump
  {
    var special := {Async, HwInt, Int, Iret, Syscall, Sysret, TxAbort, VmEntry, VmExit};
    assert {CallFlag} * special == {} && {ReturnFlag} * special == {} && {Jmp} * special == {};
  }

  lemma CallsWellFormed(t: Tables)
    requires SameMaps(MAPPED, t)
    ensures WellFormed(TWO, t, (1, 1), CALL_F) && WellFormed(TWO, t, (1, 1), JumpThen(INSIDE_G, CALL_F))
  {
    CallFlags();
    PlacedAt(t, 16);
    PlacedAt(t, 17);
    hide PlaceOf, FlagsKind;
  }

  lemma CallsPrinted()
    ensures Print(CALL_F) == [INTO_F, OUT_OF_F] && Print(JumpThen(INSIDE_G, CALL_F)) == [INSIDE_G, INTO_F, OUT_OF_F]
    ensures NonDecreasing(None, Print(CALL_F)) && NonDecreasing(None, Print(JumpThen(INSIDE_G, CALL_F)))
  {
    assert Print(CALL_F) == [INTO_F] + [] + [OUT_OF_F] + [];
    assert [INTO_F, OUT_OF_F][1..] == [OUT_OF_F] && [OUT_OF_F][1..] == [];
    assert [INSIDE_G, INTO_F, OUT_OF_F][1..] == [INTO_F, OUT_OF_F];
    assert NonDecreasing(Some(2), [OUT_OF_F]);
    assert NonDecreasing(None, [INTO_F, OUT_OF_F]) && NonDecreasing(Some(1), [INTO_F, OUT_OF_F]);
  }

  /** The one span of either run carries the id under which its table holds f. */
  lemma OneSpan(r: Recon, f: Forest, id: nat)
    requires f == CALL_F || f == JumpThen(INSIDE_G, CALL_F)
    requires Idle(TWO, r, (1, 1)) && r.tables == MAPPED && r.m == EMPTY && Row(r, (1, 1)).lastAbs.None?
    requires var t := PushAll(TWO, r, Records(Print(f))).tables; (0, 0) in t.funcIndex && t.funcIndex[(0, 0)] == id
    ensures var m := PushAll(TWO, r, Records(Print(f))).m; |m.spans| == 1 && m.spans[0].func == Some(id)
  {
    hide PushAll, Idle, PlaceOf, WellFormed, NonDecreasing, Extends, Expected, Records, Print, RoundTrip.AllNamed,
         Calls, LastTime;
    CallsWellFormed(r.tables);
    CallsPrinted();
    var r' := PushAll(TWO, r, Records(Print(f)));
    ForestRoundTrip(TWO, r, (1, 1), f);
    ExpectedOne(r'.tables, Row(r, (1, 1)).id, f);
    PlacedAt(r'.tables, 0);
    var want := Expected(f, TWO, r'.tables, Row(r, (1, 1)).id, None, 0, 0);
    assert [] + want == want;
  }

  lemma ExpectedOne(t: Tables, thread: ThreadId, f: Forest)
    requires f == CALL_F || f == JumpThen(INSIDE_G, CALL_F)
    ensures var want := Expected(f, TWO, t, thread, None, 0, 0); |want| == 1 && want[0].func == FnId(TWO, t, 1, Some(0))
  {
    hide FnId;
    CallExpected(t, thread, 0);
    CallExpected(t, thread, 1);
  }

  lemma CallExpected(t: Tables, thread: ThreadId, eid: nat)
    ensures var want := Expected(CALL_F, TWO, t, thread, None, 0, eid);
            |want| == 1 && want[0].func == FnId(TWO, t, 1, Some(0))
  {
    hide FnId;
    assert Expected(Leaf, TWO, t, thread, Some(0), 1, eid + 1) == [];
    assert Expected(Leaf, TWO, t, thread, None, 1, eid + 2) == [];
  }

  /** The call of f gets id 0 alone, and id 1 after a jump inside g. */
  lemma FunctionIdsDiffer()
    ensures var r := PushAll(TWO, New(None), [MmapRecord(MAP_IT)]);
            var f := JumpThen(INSIDE_G, CALL_F);
            var with, without := PushAll(TWO, r, Records(Print(f))), PushAll(TWO, r, Records(Print(Strip(f))));
            && |with.m.spans| == 1 && with.m.spans[0].func == Some(1)
            && |without.m.spans| == 1 && without.m.spans[0].func == Some(0)
  {
    hide PushAll, Idle, Print;
    var r := PushAll(TWO, New(None), [MmapRecord(MAP_IT)]);
    AfterMap();
    CallsPrinted();
    TablesAfter(r);
    assert Strip(JumpThen(INSIDE_G, CALL_F)) == CALL_F;
    OneSpan(r, CALL_F, 0);
    OneSpan(r, JumpThen(INSIDE_G, CALL_F), 1);
  }
}
