/**
 * Printing a forest of calls as samples and pushing them rebuilds that forest:
 * same nesting, functions, times and call sites, ids in calling order, every
 * span Complete.  Jumps inside a function may be interleaved anywhere.
 */
module RoundTrip {
  import opened TraceTypes
  import opened Machine
  import opened Lanes
  import opened SpanIds
  import opened Laminar
  import opened Origin
  import opened Tally
  import opened Steps
  import opened Symbols
  import opened Recon
  import opened Runs
  import opened Results

  /** Calls in time order, with plain jumps between them. */
  datatype Forest =
    | Leaf
    | JumpThen(jump: Sample, rest: Forest)
    | CallThen(call: Sample, body: Forest, ret: Sample, rest: Forest)

  function Print(f: Forest): seq<Sample> {
    match f
    case Leaf => []
    case JumpThen(j, rest) => [j] + Print(rest)
    case CallThen(c, body, r, rest) => [c] + Print(body) + [r] + Print(rest)
  }

  function Records(samples: seq<Sample>): seq<Record> {
    seq(|samples|, i requires 0 <= i < |samples| => SampleRecord(samples[i]))
  }

  function Calls(f: Forest): nat {
    match f
    case Leaf => 0
    case JumpThen(_, rest) => Calls(rest)
    case CallThen(_, body, _, rest) => 1 + Calls(body) + Calls(rest)
  }

  /** The function an address belongs to, by the mappings alone. */
  function FnKey(images: seq<Image>, t: Tables, pid: nat, ip: Option<nat>): Option<Slot> {
    if ip.None? then None
    else
      var p := PlaceOf(images, t, pid, ip.value);
      if p.None? || p.value.func.None? then None else Some((p.value.imageKey, p.value.func.value.start))
  }

  /** The id that the function table gives to the function of an address. */
  function FnId(images: seq<Image>, t: Tables, pid: nat, ip: Option<nat>): Option<nat> {
    var k := FnKey(images, t, pid, ip);
    if k.Some? && k.value in t.funcIndex then Some(t.funcIndex[k.value]) else None
  }

  predicate PlainJump(images: seq<Image>, t: Tables, s: Sample) {
    && (FlagsKind(s.flags) == Jump || FlagsKind(s.flags) == Conditional)
    && FnKey(images, t, s.pid, s.ip) == FnKey(images, t, s.pid, s.addr)
  }

  predicate WellFormed(images: seq<Image>, t: Tables, key: Key, f: Forest) {
    match f
    case Leaf => true
    case JumpThen(j, rest) => (j.pid, j.tid) == key && PlainJump(images, t, j) && WellFormed(images, t, key, rest)
    case CallThen(c, body, r, rest) =>
      && (c.pid, c.tid) == key && FlagsKind(c.flags) == Call
      && (r.pid, r.tid) == key && FlagsKind(r.flags) == Return
      && WellFormed(images, t, key, body) && WellFormed(images, t, key, rest)
  }

  /** Known times never fall below the last known one. */
  predicate NonDecreasing(last: Option<nat>, samples: seq<Sample>)
    decreases |samples|
  {
    samples == [] || (!Regresses(last, samples[0].time) && NonDecreasing(Or(samples[0].time, last), samples[1..]))
  }

  function LastTime(last: Option<nat>, samples: seq<Sample>): Option<nat>
    decreases |samples|
  {
    if samples == [] then last else LastTime(Or(samples[0].time, last), samples[1..])
  }

  /** The spans of a forest in completion order; ids count calls and events count samples. */
  function Expected(f: Forest, images: seq<Image>, t: Tables, thread: ThreadId, parent: Option<nat>,
                    sid: nat, eid: nat): seq<Span>
  {
    match f
    case Leaf => []
    case JumpThen(_, rest) => Expected(rest, images, t, thread, parent, sid, eid + 1)
    case CallThen(c, body, r, rest) =>
      var n := |Print(body)|;
      Expected(body, images, t, thread, Some(sid), sid + 1, eid + 1)
      + [Span(sid, thread, FnId(images, t, c.pid, c.addr), parent, c.time, r.time, Complete, eid, eid + 1 + n, c.ip)]
      + Expected(rest, images, t, thread, parent, sid + 1 + Calls(body), eid + 2 + n)
  }

  // ----- one plain sample -----

  predicate Live(r: Recon, key: Key) {
    r.filter.None? || r.filter.value.IsLiveThread(key.0, key.1)
  }

  /** The thread is between transfers: no trace end is pending, and the filter keeps it. */
  ghost predicate Idle(images: seq<Image>, r: Recon, key: Key) {
    && ReconInv(images, r, true)
    && Row(r, key).pendingEnd.None?
    && Live(r, key)
  }

  /** What every plain sample does besides its transfer. */
  ghost predicate Moved(r: Recon, r': Recon, key: Key, time: Option<nat>) {
    && Row(r', key).id == Row(r, key).id
    && Row(r', key).lastAbs == Or(time, Row(r, key).lastAbs)
    && r'.m.nextEvent == r.m.nextEvent + 1
    && r'.m.gaps == r.m.gaps
    && SameMaps(r.tables, r'.tables) && Extends(r.tables, r'.tables)
  }

  lemma PlainKinds(flags: set<Flag>)
    requires FlagsKind(flags) == Call || FlagsKind(flags) == Return || FlagsKind(flags) == Jump
             || FlagsKind(flags) == Conditional
    ensures !FlagsBoundary(flags).TakesPrecedence()
  {
    assert forall x :: x in {Async, HwInt, Int, Iret, Syscall, Sysret, TxAbort, VmEntry, VmExit} && x in flags ==>
        x in flags * {Async, HwInt, Int, Iret, Syscall, Sysret, TxAbort, VmEntry, VmExit};
  }

  /** The machine just before the transfer of a plain sample. */
  function Settled(images: seq<Image>, r: Recon, s: Sample, from: Resolved, to: Resolved): (m: State)
    ensures (s.pid, s.tid) in m.threads
  {
    var key := (s.pid, s.tid);
    Retain(Advance(Touch(WithThread(r.m, key, Generation(r.generation, key)), key, s.time), key, s.time), key, s, from,
           to)
  }

  lemma SettledShape(images: seq<Image>, r: Recon, s: Sample, from: Resolved, to: Resolved)
    requires !Regresses(Row(r, (s.pid, s.tid)).lastAbs, s.time)
    ensures var key := (s.pid, s.tid);
            var m := Settled(images, r, s, from, to);
            var row := Row(r, key);
            && m.threads[key].stack == row.stack && m.threads[key].id == row.id
            && m.threads[key].lastAbs == Or(s.time, row.lastAbs) && m.threads[key].pendingEnd == row.pendingEnd
            && m.spans == r.m.spans && m.gaps == r.m.gaps && m.nextSpan == r.m.nextSpan
            && m.nextEvent == r.m.nextEvent + 1
  {}

  /** The ids a sample resolves to are those the tables hold afterwards. */
  lemma ResolvesTo(images: seq<Image>, r: Recon, s: Sample)
    requires TablesInv(images, r.tables)
    ensures var (from, t1) := Resolve(images, r.tables, s.pid, s.ip);
            var (to, t2) := Resolve(images, t1, s.pid, s.addr);
            && SameMaps(r.tables, t2) && Extends(r.tables, t2)
            && from.func == FnId(images, t2, s.pid, s.ip) && to.func == FnId(images, t2, s.pid, s.addr)
            && (from.func.Some? <==> FnKey(images, t2, s.pid, s.ip).Some?)
            && (to.func.Some? <==> FnKey(images, t2, s.pid, s.addr).Some?)
  {
    hide Resolve, TablesInv, PlaceOf, Reads, Extends, SameMaps, FnKey, FnId;
    ResolveOk(images, r.tables, s.pid, s.ip);
    var (from, t1) := Resolve(images, r.tables, s.pid, s.ip);
    ResolveOk(images, t1, s.pid, s.addr);
    var (to, t2) := Resolve(images, t1, s.pid, s.addr);
    ExtendsTwice(r.tables, t1, t2);
    ReadsAfter(images, t1, t2, s.pid, s.ip, from);
    ReadsFn(images, t2, s.pid, s.ip, from);
    ReadsFn(images, t2, s.pid, s.addr, to);
  }

  lemma ExtendsTwice(t: Tables, t1: Tables, t2: Tables)
    requires SameMaps(t, t1) && Extends(t, t1) && SameMaps(t1, t2) && Extends(t1, t2)
    ensures SameMaps(t, t2) && Extends(t, t2)
  {}

  function PlaceAt(images: seq<Image>, t: Tables, pid: nat, ip: Option<nat>): Option<Place> {
    if ip.Some? then PlaceOf(images, t, pid, ip.value) else None
  }

  lemma ReadsAfter(images: seq<Image>, t: Tables, t': Tables, pid: nat, ip: Option<nat>, r: Resolved)
    requires Reads(t, PlaceAt(images, t, pid, ip), r) && SameMaps(t, t') && Extends(t, t')
    ensures Reads(t', PlaceAt(images, t', pid, ip), r)
  {
    hide PlaceOf;
    if ip.Some? { SamePlace(images, t, t', pid, ip.value); }
    ReadsSurvives(t, t', PlaceAt(images, t, pid, ip), r);
  }

  lemma ReadsFn(images: seq<Image>, t: Tables, pid: nat, ip: Option<nat>, r: Resolved)
    requires Reads(t, PlaceAt(images, t, pid, ip), r)
    ensures r.func == FnId(images, t, pid, ip) && (r.func.Some? <==> FnKey(images, t, pid, ip).Some?)
  {}

  /** A plain sample on an idle thread applies its transfer to the settled machine. */
  lemma PlainPush(images: seq<Image>, r: Recon, s: Sample)
    requires Idle(images, r, (s.pid, s.tid)) && !Regresses(Row(r, (s.pid, s.tid)).lastAbs, s.time)
    requires FlagsKind(s.flags) == Call || FlagsKind(s.flags) == Return || FlagsKind(s.flags) == Jump
             || FlagsKind(s.flags) == Conditional
    ensures var key := (s.pid, s.tid);
            var r' := Push(images, r, SampleRecord(s));
            var (from, t1) := Resolve(images, r.tables, s.pid, s.ip);
            var (to, t2) := Resolve(images, t1, s.pid, s.addr);
            && r'.tables == t2
            && r'.m == ApplyTransfer(Settled(images, r, s, from, to), key,
                                     FlowOf(s, from, to, NoteCpu(r.cpuFirst, SampleRecord(s)), r.m.nextEvent))
            && r'.filter == r.filter && r'.generation == r.generation
  {
    hide ReconInv, Resolve, ApplyTransfer, SettlePending, Retain, Advance, Touch, WithThread;
    PlainKinds(s.flags);
    var (from, t1) := Resolve(images, r.tables, s.pid, s.ip);
    var (to, t2) := Resolve(images, t1, s.pid, s.addr);
    SettledShape(images, r, s, from, to);
    SettledShape(images, Noted(r, SampleRecord(s)), s, from, to);
    EventIdOf(r, s);
  }

  lemma EventIdOf(r: Recon, s: Sample)
    requires !Regresses(Row(r, (s.pid, s.tid)).lastAbs, s.time)
    ensures var key := (s.pid, s.tid);
            Advance(Touch(WithThread(r.m, key, Generation(r.generation, key)), key, s.time), key, s.time).nextEvent
              == r.m.nextEvent
  {}

  // ----- the three transfers -----

  lemma PushCall(images: seq<Image>, r: Recon, s: Sample)
    requires Idle(images, r, (s.pid, s.tid)) && !Regresses(Row(r, (s.pid, s.tid)).lastAbs, s.time)
    requires FlagsKind(s.flags) == Call
    ensures var key := (s.pid, s.tid);
            var r' := Push(images, r, SampleRecord(s));
            && Idle(images, r', key) && Moved(r, r', key, s.time)
            && r'.m.spans == r.m.spans && r'.m.nextSpan == r.m.nextSpan + 1
            && Row(r', key).stack == Row(r, key).stack
                 + [Frame(r.m.nextSpan, FnId(images, r'.tables, s.pid, s.addr), ParentOf(Row(r, key).stack),
                          s.time, r.m.nextEvent, OpenEnd, s.ip)]
            && Named(images, r'.tables, s)
  {
    hide ReconInv, TablesInv, Resolve, Push, Settled, Extends, SameMaps, FnId, FnKey;
    PushKeepsInv(images, r, SampleRecord(s), true);
    PlainPush(images, r, s);
    ReconTables(images, r);
    ResolvesTo(images, r, s);
    var (from, t1) := Resolve(images, r.tables, s.pid, s.ip);
    var (to, t2) := Resolve(images, t1, s.pid, s.addr);
    SettledShape(images, r, s, from, to);
    NamedIf(images, t2, s, to.func);
  }

  /** The function of a call is in the table. */
  predicate Named(images: seq<Image>, t: Tables, s: Sample) {
    var k := FnKey(images, t, s.pid, s.addr);
    k.Some? ==> k.value in t.funcIndex
  }

  lemma NamedIf(images: seq<Image>, t: Tables, s: Sample, func: Option<nat>)
    requires func == FnId(images, t, s.pid, s.addr) && (func.Some? <==> FnKey(images, t, s.pid, s.addr).Some?)
    ensures Named(images, t, s)
  {}

  lemma ReconTables(images: seq<Image>, r: Recon)
    requires ReconInv(images, r, true)
    ensures TablesInv(images, r.tables)
  {}

  lemma PushReturn(images: seq<Image>, r: Recon, s: Sample)
    requires Idle(images, r, (s.pid, s.tid)) && !Regresses(Row(r, (s.pid, s.tid)).lastAbs, s.time)
    requires FlagsKind(s.flags) == Return
    requires Row(r, (s.pid, s.tid)).stack != [] && Row(r, (s.pid, s.tid)).Top().completeness == OpenEnd
    ensures var key := (s.pid, s.tid);
            var r' := Push(images, r, SampleRecord(s));
            var row := Row(r, key);
            && Idle(images, r', key) && Moved(r, r', key, s.time)
            && r'.m.spans == r.m.spans + [SpanOf(row.Top(), row.id, s.time, r.m.nextEvent, Complete)]
            && r'.m.nextSpan == r.m.nextSpan
            && Row(r', key).stack == row.stack[..|row.stack| - 1]
  {
    hide ReconInv, TablesInv, Resolve, Push, Settled, Extends, SameMaps, FnId, FnKey;
    PushKeepsInv(images, r, SampleRecord(s), true);
    PlainPush(images, r, s);
    ReconTables(images, r);
    ResolvesTo(images, r, s);
    var (from, t1) := Resolve(images, r.tables, s.pid, s.ip);
    var (to, t2) := Resolve(images, t1, s.pid, s.addr);
    SettledShape(images, r, s, from, to);
  }

  lemma PushPlainJump(images: seq<Image>, r: Recon, s: Sample)
    requires Idle(images, r, (s.pid, s.tid)) && !Regresses(Row(r, (s.pid, s.tid)).lastAbs, s.time)
    requires PlainJump(images, r.tables, s)
    ensures var key := (s.pid, s.tid);
            var r' := Push(images, r, SampleRecord(s));
            && Idle(images, r', key) && Moved(r, r', key, s.time)
            && r'.m.spans == r.m.spans && r'.m.nextSpan == r.m.nextSpan
            && Row(r', key).stack == Row(r, key).stack
  {
    hide ReconInv, TablesInv, Resolve, Push, Settled, Extends, SameMaps, FnId, FnKey;
    PushKeepsInv(images, r, SampleRecord(s), true);
    PlainPush(images, r, s);
    ReconTables(images, r);
    ResolvesTo(images, r, s);
    var (from, t1) := Resolve(images, r.tables, s.pid, s.ip);
    var (to, t2) := Resolve(images, t1, s.pid, s.addr);
    SettledShape(images, r, s, from, to);
    SameKey(images, r.tables, t2, s.pid, s.ip);
    SameKey(images, r.tables, t2, s.pid, s.addr);
    SameFn(images, t2, s);
  }

  lemma SameKey(images: seq<Image>, t: Tables, t': Tables, pid: nat, ip: Option<nat>)
    requires SameMaps(t, t')
    ensures FnKey(images, t', pid, ip) == FnKey(images, t, pid, ip)
  {
    if ip.Some? { SamePlace(images, t, t', pid, ip.value); }
  }

  lemma SameFn(images: seq<Image>, t: Tables, s: Sample)
    requires FnKey(images, t, s.pid, s.ip) == FnKey(images, t, s.pid, s.addr)
    ensures FnId(images, t, s.pid, s.ip) == FnId(images, t, s.pid, s.addr)
  {}

  // ----- the forest -----

  predicate AllNamed(images: seq<Image>, t: Tables, f: Forest) {
    match f
    case Leaf => true
    case JumpThen(_, rest) => AllNamed(images, t, rest)
    case CallThen(c, body, _, rest) => Named(images, t, c) && AllNamed(images, t, body) && AllNamed(images, t, rest)
  }

  /** Later interning renames nothing. */
  lemma {:induction false} ExpectedIsStable(f: Forest, images: seq<Image>, t: Tables, t': Tables, thread: ThreadId,
                                            parent: Option<nat>, sid: nat, eid: nat)
    requires SameMaps(t, t') && Extends(t, t') && AllNamed(images, t, f)
    ensures AllNamed(images, t', f)
    ensures Expected(f, images, t', thread, parent, sid, eid) == Expected(f, images, t, thread, parent, sid, eid)
  {
    match f
    case Leaf =>
    case JumpThen(_, rest) => ExpectedIsStable(rest, images, t, t', thread, parent, sid, eid + 1);
    case CallThen(c, body, _, rest) =>
      SameKey(images, t, t', c.pid, c.addr);
      ExpectedIsStable(body, images, t, t', thread, Some(sid), sid + 1, eid + 1);
      ExpectedIsStable(rest, images, t, t', thread, parent, sid + 1 + Calls(body), eid + 2 + |Print(body)|);
  }

  lemma {:induction false} WellFormedStays(images: seq<Image>, t: Tables, t': Tables, key: Key, f: Forest)
    requires SameMaps(t, t') && WellFormed(images, t, key, f)
    ensures WellFormed(images, t', key, f)
  {
    match f
    case Leaf =>
    case JumpThen(j, rest) =>
      SameKey(images, t, t', j.pid, j.ip);
      SameKey(images, t, t', j.pid, j.addr);
      WellFormedStays(images, t, t', key, rest);
    case CallThen(_, body, _, rest) =>
      WellFormedStays(images, t, t', key, body);
      WellFormedStays(images, t, t', key, rest);
  }

  lemma {:induction false} PushAllConcat(images: seq<Image>, r: Recon, xs: seq<Record>, ys: seq<Record>)
    ensures PushAll(images, r, xs + ys) == PushAll(images, PushAll(images, r, xs), ys)
    decreases |xs|
  {
    hide Push;
    if xs == [] {
      assert xs + ys == ys;
    } else {
      assert (xs + ys)[1..] == xs[1..] + ys;
      PushAllConcat(images, Push(images, r, xs[0]), xs[1..], ys);
    }
  }

  lemma {:induction false} NonDecreasingConcat(last: Option<nat>, xs: seq<Sample>, ys: seq<Sample>)
    ensures NonDecreasing(last, xs + ys) <==> NonDecreasing(last, xs) && NonDecreasing(LastTime(last, xs), ys)
    ensures LastTime(last, xs + ys) == LastTime(LastTime(last, xs), ys)
    decreases |xs|
  {
    if xs == [] {
      assert xs + ys == ys;
    } else {
      assert (xs + ys)[1..] == xs[1..] + ys;
      NonDecreasingConcat(Or(xs[0].time, last), xs[1..], ys);
    }
  }

  /** What pushing a whole forest does. */
  ghost predicate Rebuilt(images: seq<Image>, r: Recon, r': Recon, key: Key, f: Forest) {
    && Idle(images, r', key)
    && Row(r', key).id == Row(r, key).id
    && Row(r', key).lastAbs == LastTime(Row(r, key).lastAbs, Print(f))
    && Row(r', key).stack == Row(r, key).stack
    && r'.m.nextEvent == r.m.nextEvent + |Print(f)|
    && r'.m.nextSpan == r.m.nextSpan + Calls(f)
    && r'.m.gaps == r.m.gaps
    && r'.m.spans == r.m.spans + Expected(f, images, r'.tables, Row(r, key).id, ParentOf(Row(r, key).stack),
                                          r.m.nextSpan, r.m.nextEvent)
    && SameMaps(r.tables, r'.tables) && Extends(r.tables, r'.tables)
    && AllNamed(images, r'.tables, f)
  }

  /** The round trip, on any thread of any reconstructor that is between transfers. */
  lemma {:induction false} ForestRoundTrip(images: seq<Image>, r: Recon, key: Key, f: Forest)
    requires Idle(images, r, key) && WellFormed(images, r.tables, key, f)
    requires NonDecreasing(Row(r, key).lastAbs, Print(f))
    ensures Rebuilt(images, r, PushAll(images, r, Records(Print(f))), key, f)
    decreases f, 2
  {
    hide Idle, Push, PushAll, Rebuilt, WellFormed, NonDecreasing;
    match f
    case Leaf => LeafCase(images, r, key);
    case JumpThen(_, _) => JumpCase(images, r, key, f);
    case CallThen(_, _, _, _) => CallCase(images, r, key, f);
  }

  lemma LeafCase(images: seq<Image>, r: Recon, key: Key)
    requires Idle(images, r, key)
    ensures Rebuilt(images, r, PushAll(images, r, Records(Print(Leaf))), key, Leaf)
  {
    hide Idle;
    assert Records(Print(Leaf)) == [];
  }

  lemma JumpCase(images: seq<Image>, r: Recon, key: Key, f: Forest)
    requires f.JumpThen? && Idle(images, r, key) && WellFormed(images, r.tables, key, f)
    requires NonDecreasing(Row(r, key).lastAbs, Print(f))
    ensures Rebuilt(images, r, PushAll(images, r, Records(Print(f))), key, f)
    decreases f, 0
  {
    hide Idle, Push, Extends, SameMaps, FnKey;
    var xs := Print(f);
    assert xs[1..] == Print(f.rest);
    assert Records(xs)[1..] == Records(Print(f.rest));
    PushPlainJump(images, r, f.jump);
    var r1 := Push(images, r, SampleRecord(f.jump));
    WellFormedStays(images, r.tables, r1.tables, key, f.rest);
    ForestRoundTrip(images, r1, key, f.rest);
    var r2 := PushAll(images, r1, Records(Print(f.rest)));
    ExtendsTwice(r.tables, r1.tables, r2.tables);
  }

  lemma PushOneThen(images: seq<Image>, r: Recon, s: Sample, ys: seq<Sample>)
    ensures PushAll(images, r, Records([s] + ys)) == PushAll(images, Push(images, r, SampleRecord(s)), Records(ys))
  {
    hide Push;
    assert Records([s] + ys)[1..] == Records(ys);
  }

  lemma SplitCall(images: seq<Image>, r: Recon, c: Sample, xs: seq<Sample>, ret: Sample, ys: seq<Sample>)
    ensures PushAll(images, r, Records([c] + xs + [ret] + ys))
            == PushAll(images, Push(images, PushAll(images, Push(images, r, SampleRecord(c)), Records(xs)),
                                    SampleRecord(ret)), Records(ys))
  {
    hide Push, PushAll;
    assert [c] + xs + [ret] + ys == [c] + (xs + ([ret] + ys));
    PushOneThen(images, r, c, xs + ([ret] + ys));
    var r1 := Push(images, r, SampleRecord(c));
    assert Records(xs + ([ret] + ys)) == Records(xs) + Records([ret] + ys);
    PushAllConcat(images, r1, Records(xs), Records([ret] + ys));
    PushOneThen(images, PushAll(images, r1, Records(xs)), ret, ys);
  }

  lemma OneThenTimes(last: Option<nat>, s: Sample, ys: seq<Sample>)
    ensures NonDecreasing(last, [s] + ys) <==> !Regresses(last, s.time) && NonDecreasing(Or(s.time, last), ys)
    ensures LastTime(last, [s] + ys) == LastTime(Or(s.time, last), ys)
  {
    assert ([s] + ys)[1..] == ys;
  }

  lemma SplitTimes(last: Option<nat>, c: Sample, xs: seq<Sample>, ret: Sample, ys: seq<Sample>)
    requires NonDecreasing(last, [c] + xs + [ret] + ys)
    ensures var l1 := Or(c.time, last);
            var l2 := LastTime(l1, xs);
            var l3 := Or(ret.time, l2);
            && !Regresses(last, c.time) && NonDecreasing(l1, xs) && !Regresses(l2, ret.time) && NonDecreasing(l3, ys)
            && LastTime(last, [c] + xs + [ret] + ys) == LastTime(l3, ys)
  {
    hide NonDecreasing, LastTime;
    assert [c] + xs + [ret] + ys == [c] + (xs + ([ret] + ys));
    OneThenTimes(last, c, xs + ([ret] + ys));
    var l1 := Or(c.time, last);
    NonDecreasingConcat(l1, xs, [ret] + ys);
    OneThenTimes(LastTime(l1, xs), ret, ys);
  }

  lemma CallCase(images: seq<Image>, r: Recon, key: Key, f: Forest)
    requires f.CallThen? && Idle(images, r, key) && WellFormed(images, r.tables, key, f)
    requires NonDecreasing(Row(r, key).lastAbs, Print(f))
    ensures Rebuilt(images, r, PushAll(images, r, Records(Print(f))), key, f)
    decreases f, 1
  {
    hide Idle, Push, PushAll, Extends, SameMaps, FnKey, FnId, Records, NonDecreasing, LastTime, Named, AllNamed,
         Expected;
    var c, body, ret, rest := f.call, f.body, f.ret, f.rest;
    var stack := Row(r, key).stack;
    SplitTimes(Row(r, key).lastAbs, c, Print(body), ret, Print(rest));
    SplitCall(images, r, c, Print(body), ret, Print(rest));
    CallBodyReturn(images, r, key, c, body, ret);
    var r1 := Push(images, r, SampleRecord(c));
    var r2 := PushAll(images, r1, Records(Print(body)));
    var r3 := Push(images, r2, SampleRecord(ret));
    WellFormedStays(images, r.tables, r3.tables, key, rest);
    ForestRoundTrip(images, r3, key, rest);
    var r4 := PushAll(images, r3, Records(Print(rest)));
    ExtendsTwice(r.tables, r3.tables, r4.tables);
    ExtendsTwice(r2.tables, r3.tables, r4.tables);
    ExtendsTwice(r1.tables, r2.tables, r4.tables);
    JoinCall(images, r1.tables, r2.tables, r4.tables, f, Row(r, key).id, ParentOf(stack), r.m.nextSpan, r.m.nextEvent);
  }

  /** A call, what it encloses, and its return leave the stack as it was and one more span behind the enclosed ones. */
  lemma CallBodyReturn(images: seq<Image>, r: Recon, key: Key, c: Sample, body: Forest, ret: Sample)
    requires (c.pid, c.tid) == key && FlagsKind(c.flags) == Call && (ret.pid, ret.tid) == key
             && FlagsKind(ret.flags) == Return
    requires Idle(images, r, key) && WellFormed(images, r.tables, key, body)
    requires var l1 := Or(c.time, Row(r, key).lastAbs);
             && !Regresses(Row(r, key).lastAbs, c.time) && NonDecreasing(l1, Print(body))
             && !Regresses(LastTime(l1, Print(body)), ret.time)
    ensures var row := Row(r, key);
            var r1 := Push(images, r, SampleRecord(c));
            var r2 := PushAll(images, r1, Records(Print(body)));
            var r3 := Push(images, r2, SampleRecord(ret));
            && Idle(images, r3, key) && Row(r3, key).id == row.id && Row(r3, key).stack == row.stack
            && Row(r3, key).lastAbs == Or(ret.time, LastTime(Or(c.time, row.lastAbs), Print(body)))
            && r3.m.nextEvent == r.m.nextEvent + 2 + |Print(body)|
            && r3.m.nextSpan == r.m.nextSpan + 1 + Calls(body) && r3.m.gaps == r.m.gaps
            && r3.m.spans == r.m.spans
                 + Expected(body, images, r2.tables, row.id, Some(r.m.nextSpan), r.m.nextSpan + 1, r.m.nextEvent + 1)
                 + [Span(r.m.nextSpan, row.id, FnId(images, r1.tables, c.pid, c.addr), ParentOf(row.stack),
                         c.time, ret.time, Complete, r.m.nextEvent, r.m.nextEvent + 1 + |Print(body)|, c.ip)]
            && Named(images, r1.tables, c) && AllNamed(images, r2.tables, body)
            && SameMaps(r.tables, r3.tables) && Extends(r.tables, r3.tables)
            && SameMaps(r1.tables, r2.tables) && Extends(r1.tables, r2.tables)
            && SameMaps(r2.tables, r3.tables) && Extends(r2.tables, r3.tables)
    decreases body, 3
  {
    hide Idle, Push, PushAll, Extends, SameMaps, FnKey, FnId, Records, NonDecreasing, LastTime, Named, AllNamed,
         Expected,
         WellFormed, Print, Calls, FlagsKind;
    PushCall(images, r, c);
    var r1 := Push(images, r, SampleRecord(c));
    WellFormedStays(images, r.tables, r1.tables, key, body);
    ForestRoundTrip(images, r1, key, body);
    var r2 := PushAll(images, r1, Records(Print(body)));
    PushReturn(images, r2, ret);
    ExtendsTwice(r.tables, r1.tables, r2.tables);
    ExtendsTwice(r.tables, r2.tables, Push(images, r2, SampleRecord(ret)).tables);
  }

  /** The spans of the body, of the call and of the rest make up the spans of the forest. */
  lemma JoinCall(images: seq<Image>, t1: Tables, t2: Tables, t4: Tables, f: Forest, thread: ThreadId,
                 parent: Option<nat>, sid: nat, eid: nat)
    requires f.CallThen? && Named(images, t1, f.call) && AllNamed(images, t2, f.body) && AllNamed(images, t4, f.rest)
    requires SameMaps(t1, t4) && Extends(t1, t4) && SameMaps(t2, t4) && Extends(t2, t4)
    ensures AllNamed(images, t4, f)
    ensures var n := |Print(f.body)|;
            Expected(f, images, t4, thread, parent, sid, eid)
            == Expected(f.body, images, t2, thread, Some(sid), sid + 1, eid + 1)
               + [Span(sid, thread, FnId(images, t1, f.call.pid, f.call.addr), parent, f.call.time, f.ret.time,
                       Complete, eid, eid + 1 + n, f.call.ip)]
               + Expected(f.rest, images, t4, thread, parent, sid + 1 + Calls(f.body), eid + 2 + n)
  {
    SameKey(images, t1, t4, f.call.pid, f.call.addr);
    ExpectedIsStable(f.body, images, t2, t4, thread, Some(sid), sid + 1, eid + 1);
  }
}
