/** The reconstructor itself: the fields it updates in place, method by method. */
module Reconstruction {
  import opened TraceTypes
  import opened Machine
  import opened Lanes
  import opened Origin
  import opened Tally
  import opened Steps
  import opened Symbols
  import R = Recon
  import opened Runs

  // ----- unwinding a whole stack at once -----

  /** The spans of a stack taken from a thread, top frame first. */
  function Unwound(stack: seq<Frame>, thread: ThreadId, end: Option<nat>, gap: bool): seq<Span> {
    if stack == [] then []
    else
      var f := stack[|stack| - 1];
      [SpanOf(f, thread, end, f.startEvent, if gap then InterruptedByGap else OpenLabel(f.completeness))]
      + Unwound(stack[..|stack| - 1], thread, end, gap)
  }

  function Emptied(m: State, key: Key, end: Option<nat>, gap: bool): State
    requires key in m.threads
  {
    var th := m.threads[key];
    SetThread(m, key, th.(stack := [], spans := th.spans + |th.stack|))
      .(spans := m.spans + Unwound(th.stack, th.id, end, gap))
  }

  lemma EmptiedStep(m: State, key: Key, end: Option<nat>, gap: bool)
    requires key in m.threads && m.threads[key].stack != []
    ensures var top := m.threads[key].Top();
            var c := if gap then InterruptedByGap else OpenLabel(top.completeness);
            Emptied(m, key, end, gap) == Emptied(PopEmit(m, key, end, top.startEvent, c), key, end, gap)
  {
    hide SpanOf, OpenLabel;
    var th := m.threads[key];
    var top := th.Top();
    var c := if gap then InterruptedByGap else OpenLabel(top.completeness);
    var r := PopEmit(m, key, end, top.startEvent, c);
    var below := Unwound(th.stack[..|th.stack| - 1], th.id, end, gap);
    assert Unwound(th.stack, th.id, end, gap) == [SpanOf(top, th.id, end, top.startEvent, c)] + below;
    hide Unwound;
    assert m.spans + ([SpanOf(top, th.id, end, top.startEvent, c)] + below) == r.spans + below;
  }

  lemma EmptiedNothing(m: State, key: Key, end: Option<nat>, gap: bool)
    requires key in m.threads && m.threads[key].stack == []
    ensures Emptied(m, key, end, gap) == m
  {}

  /** Taking the whole stack and emitting it in reverse is popping frame by frame. */
  lemma {:induction false} InterruptIsEmptied(m: State, key: Key)
    requires key in m.threads
    ensures Interrupt(m, key) == Emptied(m, key, None, true)
    decreases |m.threads[key].stack|
  {
    var th := m.threads[key];
    if th.stack == [] {
      EmptiedNothing(m, key, None, true);
    } else {
      EmptiedStep(m, key, None, true);
      InterruptIsEmptied(PopEmit(m, key, None, th.Top().startEvent, InterruptedByGap), key);
    }
  }

  lemma {:induction false} CloseOpenIsEmptied(m: State, key: Key, end: Option<nat>)
    requires key in m.threads
    ensures CloseOpen(m, key, end) == Emptied(m, key, end, false)
    decreases |m.threads[key].stack|
  {
    var th := m.threads[key];
    if th.stack == [] {
      EmptiedNothing(m, key, end, false);
    } else {
      EmptiedStep(m, key, end, false);
      CloseOpenIsEmptied(PopEmit(m, key, end, th.Top().startEvent, OpenLabel(th.Top().completeness)), key, end);
    }
  }

  // ----- the class -----

  class Reconstructor {
    const images: seq<Image>
    // symbol tables
    var mappings: seq<Mapping>
    var mapsByPid: map<nat, seq<nat>>
    var functions: seq<FunctionRecord>
    var funcIndex: map<Slot, nat>
    var locations: seq<Location>
    var locIndex: map<Slot, nat>
    var ipCache: map<(nat, nat), Resolved>
    var missingSamples: nat
    var missingPaths: seq<string>
    // threads
    var threads: map<Key, ThreadState>
    var threadOrder: seq<Key>
    var retired: seq<ThreadState>
    var generation: map<Key, nat>
    var exited: set<Key>
    // output
    var events: seq<FlowEvent>
    var spans: seq<Span>
    var gaps: seq<Gap>
    var samples: nat
    var nextEvent: nat
    var nextSpan: nat
    var nextGap: nat
    // clock and filter
    var minAbs: Option<nat>
    var cpuFirst: map<nat, nat>
    var filter: Option<R.Tracker>

    ghost function Stacks(): State
      reads `threads, `threadOrder, `retired, `events, `spans, `gaps, `samples, `nextEvent, `nextSpan, `nextGap
    {
      State(threads, threadOrder, retired, events, spans, gaps, samples, nextEvent, nextSpan, nextGap)
    }

    ghost function Symbols(): Tables
      reads `mappings, `mapsByPid, `functions, `funcIndex, `locations, `locIndex, `ipCache, `missingSamples,
            `missingPaths
    {
      Tables(mappings, mapsByPid, functions, funcIndex, locations, locIndex, ipCache, missingSamples, missingPaths)
    }

    ghost function View(): R.Recon
      reads this
    {
      R.Recon(Stacks(), Symbols(), minAbs, cpuFirst, filter, generation, exited)
    }

    ghost predicate Valid()
      reads this
    {
      ReconInv(images, View(), true)
    }

    constructor (images: seq<Image>, filter: Option<R.Tracker>)
      ensures this.images == images && Valid() && View() == R.New(filter)
    {
      hide ReconInv;
      this.images := images;
      mappings, mapsByPid := [], map[];
      functions, funcIndex, locations, locIndex := [], map[], [], map[];
      ipCache, missingSamples, missingPaths := map[], 0, [];
      threads, threadOrder, retired, generation, exited := map[], [], [], map[], {};
      events, spans, gaps, samples := [], [], [], 0;
      nextEvent, nextSpan, nextGap := 0, 0, 0;
      minAbs, cpuFirst, this.filter := None, map[], filter;
      new;
      NewHasInv(images, filter, true);
    }

    method NoteTime(t: Option<nat>)
      modifies `minAbs
      ensures minAbs == NoteAbs(old(minAbs), t)
    {
      if t.Some? && t.value != 0 {
        if minAbs.None? || t.value < minAbs.value {
          minAbs := t;
        }
      }
    }

    method EmitSpan(s: Span)
      modifies `spans
      ensures spans == old(spans) + [s]
    {
      spans := spans + [s];
    }

    method PushGap(thread: ThreadId, kind: GapKind, start: Option<nat>, end: Option<nat>, known: bool)
      modifies `gaps, `nextGap
      ensures Stacks() == AddGap(old(Stacks()), thread, kind, start, end, known)
    {
      var id := nextGap;
      nextGap := nextGap + 1;
      gaps := gaps + [Gap(id, thread, kind, start, end, known)];
    }

    /** A gap of a listed thread, and that thread's gap count. */
    method ChargeGap(key: Key, kind: GapKind, start: Option<nat>, end: Option<nat>, known: bool)
      requires key in threads
      modifies `gaps, `nextGap, `threads
      ensures Stacks() == ThreadGap(old(Stacks()), key, kind, start, end, known)
    {
      PushGap(threads[key].id, kind, start, end, known);
      threads := threads[key := threads[key].(gaps := threads[key].gaps + 1)];
    }

    method Thread(pid: nat, tid: nat)
      modifies `threads, `threadOrder
      ensures (pid, tid) in threads
      ensures Stacks() == R.WithThread(old(Stacks()), (pid, tid), R.Generation(old(generation), (pid, tid)))
    {
      var key := (pid, tid);
      if key !in threads {
        threadOrder := threadOrder + [key];
        var g := if key in generation then generation[key] else 0;
        threads := threads[key := NewThread(ThreadId(tid, g), key)];
      }
    }

    method OpenSpan(key: Key, func: Option<nat>, abs: Option<nat>, eid: nat, completeness: Completeness,
                    site: Option<nat>)
      requires key in threads
      modifies `threads, `nextSpan
      ensures Stacks() == PushOpen(old(Stacks()), key, func, abs, eid, completeness, site)
    {
      var id := nextSpan;
      nextSpan := nextSpan + 1;
      var st := threads[key];
      var parent := if st.stack == [] then None else Some(st.Top().id);
      threads := threads[key := st.(stack := st.stack + [Frame(id, func, parent, abs, eid, completeness, site)])];
    }

    /** Pop the top frame and close it. */
    method CloseTop(key: Key, end: Option<nat>, endEvent: nat, completeness: Completeness)
      requires key in threads && threads[key].stack != []
      modifies `threads, `spans
      ensures Stacks() == PopEmit(old(Stacks()), key, end, endEvent, completeness)
    {
      var st := threads[key];
      var open := st.Top();
      threads := threads[key := st.(stack := st.stack[..|st.stack| - 1])];
      threads := threads[key := threads[key].(spans := threads[key].spans + 1)];
      EmitSpan(SpanOf(open, st.id, end, endEvent, completeness));
    }

    /** Take the stack of a thread and emit its frames, top first. */
    method UnwindStack(key: Key, end: Option<nat>, gap: bool)
      requires key in threads
      modifies `threads, `spans
      ensures Stacks() == Emptied(old(Stacks()), key, end, gap)
    {
      var st := threads[key];
      var stack := st.stack;
      threads := threads[key := st.(stack := [], spans := st.spans + |stack|)];
      var n := |stack|;
      assert stack[..n] == stack;
      while n > 0
        modifies `spans
        invariant 0 <= n <= |stack|
        invariant spans + Unwound(stack[..n], st.id, end, gap) == old(spans) + Unwound(stack, st.id, end, gap)
      {
        n := n - 1;
        var open := stack[n];
        assert stack[..n + 1][..n] == stack[..n];
        EmitSpan(SpanOf(open, st.id, end, open.startEvent,
                        if gap then InterruptedByGap else OpenLabel(open.completeness)));
      }
    }

    method InterruptThread(key: Key)
      modifies `threads, `spans
      ensures Stacks() == if key in old(threads) then Interrupt(old(Stacks()), key) else old(Stacks())
    {
      if key !in threads { return; }
      InterruptIsEmptied(Stacks(), key);
      UnwindStack(key, None, true);
    }

    method DropFromOrder(key: Key)
      modifies `threadOrder
      ensures threadOrder == Without(old(threadOrder), key)
    {
      var kept: seq<Key> := [];
      for i := 0 to |threadOrder|
        invariant threadOrder == old(threadOrder)
        invariant kept + Without(threadOrder[i..], key) == Without(threadOrder, key)
      {
        if threadOrder[i] != key { kept := kept + [threadOrder[i]]; }
      }
      threadOrder := kept;
    }

    method RetireThread(key: Key, abs: Option<nat>)
      requires key in threads && key in exited
      modifies `threads, `spans, `threadOrder, `retired, `generation, `exited
      ensures Stacks() == Retire(old(Stacks()), key, abs)
      ensures generation == old(generation)[key := R.Generation(old(generation), key) + 1]
      ensures exited == old(exited) - {key}
    {
      CloseOpenIsEmptied(Stacks(), key, abs);
      UnwindStack(key, abs, false);
      var st := threads[key];
      threads := threads - {key};
      DropFromOrder(key);
      exited := exited - {key};
      var g := if key in generation then generation[key] else 0;
      generation := generation[key := g + 1];
      retired := retired + [st.(pendingEnd := None)];
    }

    // ----- resolving addresses -----

    method FindMapping(pid: nat, ip: nat) returns (r: Option<nat>)
      requires MapsOk(Symbols())
      ensures r == if pid in mapsByPid then NewestCovering(mapsByPid[pid], mappings, ip) else None
    {
      if pid !in mapsByPid { return None; }
      var maps := mapsByPid[pid];
      var j := |maps|;
      assert maps[..j] == maps;
      while j > 0
        invariant 0 <= j <= |maps|
        invariant NewestCovering(maps[..j], mappings, ip) == NewestCovering(maps, mappings, ip)
      {
        assert maps[..j][..j - 1] == maps[..j - 1];
        j := j - 1;
        var m := mappings[maps[j]];
        if m.start <= ip < m.end { return Some(maps[j]); }
      }
      return None;
    }

    method FindImage(path: string) returns (r: Option<nat>)
      ensures r == ImageIndex(images, path)
    {
      for i := 0 to |images|
        invariant ImageFrom(images, path, i) == ImageIndex(images, path)
      {
        if images[i].path == path { return Some(i); }
      }
      return None;
    }

    method ResolveSlow(pid: nat, ip: nat) returns (r: Resolved)
      requires MapsOk(Symbols())
      modifies `functions, `funcIndex, `locations, `locIndex, `missingSamples, `missingPaths
      ensures (r, Symbols()) == ResolveUncached(images, old(Symbols()), pid, ip)
    {
      var found := FindMapping(pid, ip);
      if found.None? { return UNRESOLVED; }
      var m := mappings[found.value];
      var image := FindImage(m.path);
      var imageKey: int;
      var imageId, rel, func;
      if image.Some? {
        var img := images[image.value];
        var a := RelativeAddr(img, ip, m.start, m.pgoff);
        rel := if a.Some? then a.value else SatSub(ip, m.start);
        imageKey, imageId, func := image.value, img.hash, LookupFunction(img.funcs, rel);
      } else {
        if m.path != "" && m.path[0] != '[' {
          missingSamples := missingSamples + 1;
          if m.path !in missingPaths { missingPaths := missingPaths + [m.path]; }
        }
        imageKey, imageId, rel, func := U32_MAX - found.value, m.path, SatSub(ip, m.start), None;
      }
      ghost var place := Place(found.value, imageKey, imageId, rel, func);
      assert PlaceOf(images, old(Symbols()), pid, ip) == Some(place);
      assert Symbols() == NoteMissing(images, old(Symbols()), place);
      label noted:
      var funcId := None;
      if func.Some? {
        var slot := (imageKey, func.value.start);
        if slot !in funcIndex {
          var f := func.value;
          functions := functions + [FunctionRecord(|functions|, f.name, f.demangled, imageId, f.start, f.end)];
          funcIndex := funcIndex[slot := |functions| - 1];
        }
        funcId := Some(funcIndex[slot]);
      }
      assert (funcId, Symbols()) == InternFunction(old@noted(Symbols()), place);
      label interned:
      if (imageKey, rel) !in locIndex {
        locations := locations + [Location(|locations|, imageId, rel, ip, funcId)];
        locIndex := locIndex[(imageKey, rel) := |locations| - 1];
      }
      var loc := locIndex[(imageKey, rel)];
      assert (loc, Symbols()) == InternLocation(old@interned(Symbols()), place, ip, funcId);
      return Resolved(Some(loc), funcId, Some(found.value));
    }

    method ResolveAddr(pid: nat, ip: Option<nat>) returns (r: Resolved)
      requires MapsOk(Symbols())
      modifies `functions, `funcIndex, `locations, `locIndex, `missingSamples, `missingPaths, `ipCache
      ensures (r, Symbols()) == Resolve(images, old(Symbols()), pid, ip)
    {
      if ip.None? { return UNRESOLVED; }
      if (pid, ip.value) in ipCache { return ipCache[(pid, ip.value)]; }
      r := ResolveSlow(pid, ip.value);
      ipCache := ipCache[(pid, ip.value) := r];
    }

    // ----- applying one sample -----

    method OpenWhereKnown(key: Key, f: Flow)
      requires key in threads
      modifies `threads, `nextSpan
      ensures Stacks() == OpenKnown(old(Stacks()), key, f)
    {
      var fn := if f.to.func.Some? then f.to.func else f.from.func;
      if fn.Some? { OpenSpan(key, fn, f.abs, f.eid, OpenStart, f.site); }
    }

    /** Returns whether the sample is used up. */
    method SettleTraceEnd(key: Key, pending: PendingEnd, f: Flow) returns (used: bool)
      requires key in threads
      modifies `threads, `spans, `gaps, `nextGap, `nextSpan
      ensures key in threads && (Stacks(), used) == SettlePending(old(Stacks()), key, pending, f)
    {
      if RingHole(pending, f) {
        InterruptThread(key);
        var holeEnd := if f.cpuFirst.Some? then f.cpuFirst else f.abs;
        ChargeGap(key, RingTruncation, pending.abs, holeEnd, pending.abs.Some? && holeEnd.Some?);
        if f.boundary.traceBegin {
          OpenWhereKnown(key, f);
          return true;
        }
        return false;
      } else if f.boundary.traceBegin {
        if pending.fromFn.Some? && f.to.func == pending.fromFn {
          ChargeGap(key, TraceBoundary, pending.abs, f.abs, pending.abs.Some? && f.abs.Some?);
          if threads[key].stack == [] {
            OpenSpan(key, f.to.func, if pending.abs.Some? then pending.abs else f.abs, f.eid, OpenStart, f.site);
          }
          return true;
        }
        InterruptThread(key);
        ChargeGap(key, UnknownGap, pending.abs, f.abs, false);
        OpenWhereKnown(key, f);
        return true;
      } else {
        InterruptThread(key);
        ChargeGap(key, UnknownGap, pending.abs, f.abs, false);
        return false;
      }
    }

    method ApplyBoundaryFlow(key: Key, f: Flow)
      requires key in threads
      modifies `threads, `spans, `gaps, `nextGap, `nextSpan
      ensures key in threads && Stacks() == ApplyBoundary(old(Stacks()), key, f)
    {
      if f.boundary.traceEnd {
        threads := threads[key := threads[key].(pendingEnd := Some(PendingEnd(f.from.func, f.from.loc, f.abs, f.cpu)))];
        return;
      }
      if f.boundary.asyncEvent || f.boundary.interrupt || f.boundary.transaction {
        InterruptThread(key);
        ChargeGap(key, UnknownGap, f.abs, None, false);
        return;
      }
      if f.boundary.traceBegin && threads[key].stack == [] {
        OpenWhereKnown(key, f);
      }
    }

    method ApplyTailCall(key: Key, f: Flow)
      requires key in threads
      modifies `threads, `spans, `nextSpan
      ensures key in threads && Stacks() == TailCall(old(Stacks()), key, f)
    {
      var parent := None;
      if threads[key].stack != [] {
        parent := threads[key].Top().parent;
        CloseTop(key, f.abs, f.eid, UncertainUnwind);
      }
      OpenSpan(key, f.to.func, f.abs, f.eid, OpenStart, f.site);
      var st := threads[key];
      var top := |st.stack| - 1;
      threads := threads[key := st.(stack := st.stack[top := st.stack[top].(parent := parent)])];
    }

    method ApplyTransferFlow(key: Key, f: Flow)
      requires key in threads
      modifies `threads, `spans, `nextSpan
      ensures key in threads && Stacks() == ApplyTransfer(old(Stacks()), key, f)
    {
      match f.kind {
        case Call =>
          OpenSpan(key, f.to.func, f.abs, f.eid, OpenEnd, f.site);
        case Return =>
          if threads[key].stack != [] {
            var open := threads[key].Top();
            CloseTop(key, f.abs, f.eid, if open.completeness == OpenStart then OpenBoth else Complete);
          } else {
            var id := nextSpan;
            nextSpan := nextSpan + 1;
            var st := threads[key];
            threads := threads[key := st.(spans := st.spans + 1)];
            EmitSpan(Span(id, st.id, f.from.func, None, None, f.abs, UncertainUnwind, f.eid, f.eid, None));
            if f.to.func.Some? { OpenSpan(key, f.to.func, f.abs, f.eid, OpenStart, f.site); }
          }
        case Jump => ApplyJumpFlow(key, f);
        case Conditional => ApplyJumpFlow(key, f);
        case _ =>
      }
    }

    method ApplyJumpFlow(key: Key, f: Flow)
      requires key in threads
      modifies `threads, `spans, `nextSpan
      ensures key in threads && Stacks() == ApplyJump(old(Stacks()), key, f)
    {
      var st := threads[key];
      if f.from.func.Some? && f.to.func.Some? && f.from.func != f.to.func {
        ApplyTailCall(key, f);
      } else if f.from.func.None? && f.to.func.Some? && st.stack != [] && st.Top().func.None? {
        var top := |st.stack| - 1;
        threads := threads[key := st.(stack := st.stack[top := st.stack[top].(func := f.to.func)])];
      }
    }

    method ApplySampleFlow(key: Key, f: Flow)
      requires key in threads
      modifies `threads, `spans, `gaps, `nextGap, `nextSpan
      ensures key in threads && Stacks() == ApplyFlow(old(Stacks()), key, f)
    {
      var pending := threads[key].pendingEnd;
      if pending.Some? {
        threads := threads[key := threads[key].(pendingEnd := None)];
        var used := SettleTraceEnd(key, pending.value, f);
        if used { return; }
      }
      if f.boundary.TakesPrecedence() {
        ApplyBoundaryFlow(key, f);
      } else {
        ApplyTransferFlow(key, f);
      }
    }

    // ----- records -----

    /** Count the sample on its thread, and treat a clock running backwards as a discontinuity. */
    method NoteSample(key: Key, time: Option<nat>)
      requires key in threads
      modifies `threads, `samples, `spans, `gaps, `nextGap
      ensures key in threads && Stacks() == R.Advance(R.Touch(old(Stacks()), key, time), key, time)
    {
      hide Interrupt, ThreadGap, R.Touch;
      TouchThread(key, time);
      var prev := threads[key].lastAbs;
      if prev.Some? && time.Some? && time.value < prev.value { BreakOff(key, prev, time); }
      if time.Some? {
        threads := threads[key := threads[key].(lastAbs := time)];
      }
    }

    /** Count a sample. */
    method TouchThread(key: Key, time: Option<nat>)
      requires key in threads
      modifies `threads, `samples
      ensures key in threads && Stacks() == R.Touch(old(Stacks()), key, time)
    {
      samples := samples + 1;
      var st := threads[key];
      threads := threads[key := st.(branches := st.branches + 1, lastSeq := st.lastSeq + 1,
                                    firstAbs := if st.firstAbs.None? then time else st.firstAbs)];
    }

    /** A clock that ran backwards interrupts the thread. */
    method BreakOff(key: Key, prev: Option<nat>, time: Option<nat>)
      requires key in threads
      modifies `threads, `spans, `gaps, `nextGap
      ensures key in threads
      ensures Stacks() == ThreadGap(Interrupt(old(Stacks()), key), key, TimeRegression, prev, time, true)
    {
      hide Interrupt;
      InterruptThread(key);
      ChargeGap(key, TimeRegression, prev, time, true);
    }

    method StoreEvent(key: Key, s: Sample, from: Resolved, to: Resolved) returns (eid: nat)
      requires key in threads
      modifies `threads, `events, `nextEvent
      ensures eid == old(nextEvent) && key in threads && Stacks() == R.Retain(old(Stacks()), key, s, from, to)
    {
      eid := nextEvent;
      nextEvent := nextEvent + 1;
      var kind, boundary := FlagsKind(s.flags), FlagsBoundary(s.flags);
      var intra :=
        && (kind == Jump || kind == Conditional)
        && !boundary.TakesPrecedence()
        && from.func == to.func
        && (from.func.Some? || (from.map_ == to.map_ && (kind == Conditional || from.map_.None?)));
      if !intra {
        var st := threads[key];
        events := events + [FlowEvent(eid, st.id, st.lastSeq, s.time, from.loc, to.loc, kind, boundary, s.ip, s.addr)];
        threads := threads[key := st.(retained := st.retained + 1)];
      }
    }

    method ResolveEnds(s: Sample) returns (from: Resolved, to: Resolved)
      requires MapsOk(Symbols())
      modifies `functions, `funcIndex, `locations, `locIndex, `missingSamples, `missingPaths, `ipCache
      ensures var (f, t1) := Resolve(images, old(Symbols()), s.pid, s.ip);
              from == f && (to, Symbols()) == Resolve(images, t1, s.pid, s.addr)
    {
      hide Resolve, MapsOk;
      from := ResolveAddr(s.pid, s.ip);
      ResolveKeepsMaps(images, old(Symbols()), s.pid, s.ip);
      to := ResolveAddr(s.pid, s.addr);
    }

    method TransferSample(key: Key, s: Sample, from: Resolved, to: Resolved)
      requires key in threads
      modifies `threads, `events, `nextEvent, `spans, `gaps, `nextGap, `nextSpan
      ensures Stacks() == ApplyFlow(R.Retain(old(Stacks()), key, s, from, to), key,
                                    R.FlowOf(s, from, to, cpuFirst, old(Stacks()).nextEvent))
    {
      hide R.Retain, ApplyFlow, FlagsKind, FlagsBoundary;
      var eid := StoreEvent(key, s, from, to);
      var first := if s.cpu.Some? && s.cpu.value in cpuFirst then Some(cpuFirst[s.cpu.value]) else None;
      var kind := FlagsKind(s.flags);
      var f := Flow(kind, FlagsBoundary(s.flags), from, to, s.time, s.cpu, first, eid,
                    if kind == Call then s.ip else None);
      ApplySampleFlow(key, f);
    }

    /** The sample's thread, with the sample counted and its time noted. */
    method EnterSample(s: Sample)
      modifies `threads, `threadOrder, `samples, `spans, `gaps, `nextGap
      ensures (s.pid, s.tid) in threads
      ensures var key := (s.pid, s.tid);
              Stacks() == R.Advance(R.Touch(R.WithThread(old(Stacks()), key, R.Generation(generation, key)), key,
                                            s.time), key, s.time)
    {
      hide R.Advance, R.Touch, R.WithThread, R.Generation, Stacks;
      Thread(s.pid, s.tid);
      NoteSample((s.pid, s.tid), s.time);
    }

    method PushSampleRecord(s: Sample)
      requires MapsOk(Symbols())
      modifies `minAbs, `threads, `threadOrder, `samples, `spans, `gaps, `nextGap, `nextSpan, `events, `nextEvent,
               `functions, `funcIndex, `locations, `locIndex, `missingSamples, `missingPaths, `ipCache
      ensures var want := R.PushSample(images, old(View()), s);
              Stacks() == want.m && Symbols() == want.tables && minAbs == want.minAbs
    {
      hide R.Advance, R.Retain, R.Touch, Resolve, ApplyFlow, R.WithThread, MapsOk, NoteAbs, R.Generation, R.FlowOf,
           Symbols, Stacks;
      var key := (s.pid, s.tid);
      NoteTime(s.time);
      EnterSample(s);
      var from, to := ResolveEnds(s);
      TransferSample(key, s, from, to);
    }

    method PushMmapRecord(m: MmapEvent)
      modifies `mappings, `mapsByPid, `ipCache, `minAbs
      ensures Symbols() == AddMapping(old(Symbols()), m) && minAbs == NoteAbs(old(minAbs), m.time)
    {
      NoteTime(m.time);
      var idx := |mappings|;
      var abs := if m.time == Some(0) then None else m.time;
      mappings := mappings + [Mapping(m.pid, m.start, SatAdd(m.start, m.len), m.pgoff, m.path, abs)];
      var mine := if m.pid in mapsByPid then mapsByPid[m.pid] else [];
      mapsByPid := mapsByPid[m.pid := mine + [idx]];
      ipCache := map k | k in ipCache && k.0 != m.pid :: ipCache[k];
    }

    method PushTaskRecord(t: TaskEvent)
      modifies `minAbs, `threads, `spans, `threadOrder, `retired, `generation, `exited
      ensures var want := R.PushTask(old(View()), t);
              Stacks() == want.m && minAbs == want.minAbs && generation == want.generation && exited == want.exited
    {
      hide Retire, NoteAbs, R.Generation;
      var key := (t.pid, t.tid);
      NoteTime(t.time);
      if t.kind == Exit {
        exited := exited + {key};
        if key in threads {
          RetireThread(key, t.time);
          assert old(exited) + {key} - {key} == old(exited) - {key};
        }
      }
    }

    method PushErrorRecord(e: DecoderErrorEvent)
      modifies `minAbs, `threads, `threadOrder, `spans, `gaps, `nextGap
      ensures var want := R.PushError(old(View()), e); Stacks() == want.m && minAbs == want.minAbs
    {
      hide Interrupt, ThreadGap, R.WithThread, AddGap, NoteAbs, R.Generation;
      NoteTime(e.time);
      var kind := if e.code == Some(5) then MissingImage else DecoderError;
      if e.pid.Some? && e.tid.Some? {
        var key := (e.pid.value, e.tid.value);
        Thread(e.pid.value, e.tid.value);
        InterruptThread(key);
        ChargeGap(key, kind, e.time, None, false);
      } else {
        PushGap(UnknownThread, kind, e.time, None, false);
      }
    }

    /** Note where the CPU's ring starts and what the filter learns; returns whether the record is kept. */
    method NoteRecord(rec: Record) returns (kept: bool)
      modifies `cpuFirst, `filter
      ensures View() == R.Noted(old(View()), rec) && kept == R.Keeps(old(View()), rec)
    {
      hide R.Tracker.ObserveTask, R.Tracker.Drops;
      if rec.SampleRecord? && rec.sample.cpu.Some? && rec.sample.time.Some? && rec.sample.cpu.value !in cpuFirst {
        cpuFirst := cpuFirst[rec.sample.cpu.value := rec.sample.time.value];
      }
      kept := true;
      if filter.Some? {
        filter := Some(filter.value.Observe(rec));
        kept := !filter.value.Drops(rec);
      }
    }

    method PushKeptRecord(rec: Record)
      requires MapsOk(Symbols())
      modifies this
      ensures View() == R.PushKept(images, old(View()), rec)
    {
      hide R.PushSample, R.PushTask, R.PushError, AddMapping, NoteAbs, AddGap, MapsOk, Stacks, Symbols;
      match rec {
        case SampleRecord(s) =>
          SampleTouches(images, View(), s);
          PushSampleRecord(s);
        case MmapRecord(m) => PushMmapRecord(m);
        case TaskRecord(t) =>
          TaskTouches(View(), t);
          PushTaskRecord(t);
        case SwitchRecord(t) => NoteTime(t);
        case LostRecord => PushGap(UnknownThread, PtLoss, None, None, false);
        case DecoderErrorRecord(e) =>
          ErrorTouches(View(), e);
          PushErrorRecord(e);
      }
    }

    /** Every record moves the reconstructor as the specification says, and keeps it valid. */
    method Push(rec: Record)
      requires Valid()
      modifies this
      ensures Valid() && View() == R.Push(images, old(View()), rec)
    {
      hide ReconInv, R.PushKept, R.Noted, R.Keeps, MapsOk;
      PushKeepsInv(images, View(), rec, true);
      ValidMaps(images, View());
      NotedKeepsMin(View(), rec);
      var kept := NoteRecord(rec);
      if kept { PushKeptRecord(rec); }
    }

    // ----- finish -----

    /** Close the frames that are still open, thread by thread. */
    method CloseEverything()
      requires forall k :: k in threadOrder ==> k in threads
      modifies `threads, `spans
      ensures Stacks() == R.CloseAll(old(Stacks()), old(threadOrder))
    {
      hide CloseOpen;
      var i := 0;
      assert threadOrder[0..] == threadOrder;
      while i < |threadOrder|
        invariant 0 <= i <= |threadOrder|
        invariant forall k :: k in threadOrder[i..] ==> k in threads
        invariant R.CloseAll(Stacks(), threadOrder[i..]) == R.CloseAll(old(Stacks()), threadOrder)
      {
        var key := threadOrder[i];
        ghost var rest := threadOrder[i..];
        assert rest[0] == key && rest[1..] == threadOrder[i + 1..];
        ghost var before := Stacks();
        threads := threads[key := threads[key].(pendingEnd := None)];
        R.CloseOpenKeys(SetPending(before, key, None), key, None);
        CloseOpenIsEmptied(SetPending(before, key, None), key, None);
        UnwindStack(key, None, false);
        i := i + 1;
      }
      assert threadOrder[i..] == [];
    }

    method RebaseAllEvents(origin: nat) returns (ok: bool)
      modifies `events
      ensures ok <==> forall a :: 0 <= a < |old(events)| ==> R.Rebasable(old(events)[a].time, origin)
      ensures ok ==> events == R.RebaseEvents(old(events), origin)
    {
      var i := 0;
      while i < |events|
        invariant 0 <= i <= |events| == |old(events)|
        invariant forall a :: 0 <= a < i ==> R.Rebasable(old(events)[a].time, origin)
        invariant forall a :: 0 <= a < i ==> events[a] == old(events)[a].(time := R.Rebase(old(events)[a].time, origin))
        invariant forall a :: i <= a < |events| ==> events[a] == old(events)[a]
      {
        var t := events[i].time;
        if t.Some? {
          if t.value < origin { return false; }
          events := events[i := events[i].(time := Some(t.value - origin))];
        }
        i := i + 1;
      }
      return true;
    }

    method RebaseAllSpans(origin: nat) returns (ok: bool)
      modifies `spans
      ensures ok <==> forall a :: 0 <= a < |old(spans)| ==>
                        R.Rebasable(old(spans)[a].start, origin) && R.Rebasable(old(spans)[a].end, origin)
      ensures ok ==> spans == R.RebaseSpans(old(spans), origin)
    {
      var i := 0;
      while i < |spans|
        invariant 0 <= i <= |spans| == |old(spans)|
        invariant forall a :: 0 <= a < i ==>
                    R.Rebasable(old(spans)[a].start, origin) && R.Rebasable(old(spans)[a].end, origin)
        invariant forall a :: 0 <= a < i ==> spans[a] == R.RebaseSpan(old(spans)[a], origin)
        invariant forall a :: i <= a < |spans| ==> spans[a] == old(spans)[a]
      {
        var s := spans[i];
        if s.start.Some? {
          if s.start.value < origin { return false; }
          s := s.(start := Some(s.start.value - origin));
        }
        if s.end.Some? {
          if s.end.value < origin { return false; }
          s := s.(end := Some(s.end.value - origin));
        }
        spans := spans[i := s];
        i := i + 1;
      }
      return true;
    }

    method RebaseAllGaps(origin: nat) returns (ok: bool)
      modifies `gaps
      ensures ok <==> forall a :: 0 <= a < |old(gaps)| ==>
                        R.Rebasable(old(gaps)[a].start, origin) && R.Rebasable(old(gaps)[a].end, origin)
      ensures ok ==> gaps == R.RebaseGaps(old(gaps), origin)
    {
      var i := 0;
      while i < |gaps|
        invariant 0 <= i <= |gaps| == |old(gaps)|
        invariant forall a :: 0 <= a < i ==>
                    R.Rebasable(old(gaps)[a].start, origin) && R.Rebasable(old(gaps)[a].end, origin)
        invariant forall a :: 0 <= a < i ==> gaps[a] == R.RebaseGap(old(gaps)[a], origin)
        invariant forall a :: i <= a < |gaps| ==> gaps[a] == old(gaps)[a]
      {
        var g := gaps[i];
        if g.start.Some? {
          if g.start.value < origin { return false; }
          g := g.(start := Some(g.start.value - origin));
        }
        if g.end.Some? {
          if g.end.value < origin { return false; }
          g := g.(end := Some(g.end.value - origin));
        }
        gaps := gaps[i := g];
        i := i + 1;
      }
      return true;
    }

    /** Close what is left, rebase every stored time, and sort the spans by id. */
    method Finish() returns (r: R.Result<R.Analysis>)
      requires Valid()
      modifies this
      ensures (forall k :: k in old(threadOrder) <==> k in old(threads)) && r == R.Finish(old(View()))
    {
      hide ReconInv, R.CloseAll, R.SortById, R.RebaseSpan, R.RebaseGap;
      ValidTable(images, View());
      if minAbs.None? { return R.Err(R.NoTimestamps); }
      var origin := minAbs.value;
      var keys := threadOrder;
      CloseEverything();
      R.CloseAllKeys(old(Stacks()), keys);
      ghost var m := Stacks();
      var eventsOk := RebaseAllEvents(origin);
      if !eventsOk { return R.Err(R.PrecedesOrigin); }
      var spansOk := RebaseAllSpans(origin);
      if !spansOk { return R.Err(R.PrecedesOrigin); }
      var gapsOk := RebaseAllGaps(origin);
      if !gapsOk { return R.Err(R.PrecedesOrigin); }
      var live: seq<ThreadState> := [];
      for i := 0 to |keys|
        invariant live == R.Rows(m, keys)[..i]
      {
        live := live + [threads[keys[i]]];
      }
      assert live == R.Rows(m, keys);
      return R.Ok(R.Analysis(origin, retired + live, functions, locations, events, R.SortById(spans), gaps));
    }
  }

  lemma SampleTouches(images: seq<Image>, r: R.Recon, s: Sample)
    ensures var r' := R.PushSample(images, r, s); r' == r.(m := r'.m, tables := r'.tables, minAbs := r'.minAbs)
  {}

  lemma TaskTouches(r: R.Recon, t: TaskEvent)
    ensures var r' := R.PushTask(r, t);
            r' == r.(m := r'.m, minAbs := r'.minAbs, generation := r'.generation, exited := r'.exited)
  {}

  lemma ErrorTouches(r: R.Recon, e: DecoderErrorEvent)
    ensures var r' := R.PushError(r, e); r' == r.(m := r'.m, minAbs := r'.minAbs)
  {}

  lemma ResolveKeepsMaps(images: seq<Image>, t: Tables, pid: nat, ip: Option<nat>)
    requires MapsOk(t)
    ensures MapsOk(Resolve(images, t, pid, ip).1)
  {
    if ip.Some? && (pid, ip.value) !in t.ipCache { UncachedKeepsMaps(images, t, pid, ip.value); }
    hide MapsOk, ResolveUncached;
    MapsDepend(t, Resolve(images, t, pid, ip).1);
  }

  lemma UncachedKeepsMaps(images: seq<Image>, t: Tables, pid: nat, ip: nat)
    ensures var t' := ResolveUncached(images, t, pid, ip).1; t'.mappings == t.mappings && t'.mapsByPid == t.mapsByPid
  {
    hide ImageIndex, NoteMissing, InternFunction, InternLocation;
    var place := PlaceOf(images, t, pid, ip);
    if place.Some? {
      var t0 := NoteMissing(images, t, place.value);
      MissingKeepsMaps(images, t, place.value);
      InternKeepsMaps(t0, place.value, ip);
    }
  }

  lemma MissingKeepsMaps(images: seq<Image>, t: Tables, p: Place)
    requires p.map_ < |t.mappings|
    ensures var t' := NoteMissing(images, t, p); t'.mappings == t.mappings && t'.mapsByPid == t.mapsByPid
  {}

  lemma InternKeepsMaps(t: Tables, p: Place, ip: nat)
    ensures var (func, t1) := InternFunction(t, p);
            var t2 := InternLocation(t1, p, ip, func).1;
            t2.mappings == t.mappings && t2.mapsByPid == t.mapsByPid
  {}

  lemma MapsDepend(t: Tables, t': Tables)
    requires MapsOk(t) && t'.mappings == t.mappings && t'.mapsByPid == t.mapsByPid
    ensures MapsOk(t')
  {}

  lemma ValidMaps(images: seq<Image>, r: R.Recon)
    requires ReconInv(images, r, true)
    ensures MapsOk(r.tables)
  {}

  lemma ValidTable(images: seq<Image>, r: R.Recon)
    requires ReconInv(images, r, true)
    ensures forall k :: k in r.m.order <==> k in r.m.threads
  {}
}
