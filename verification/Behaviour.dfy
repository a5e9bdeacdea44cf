/** What one sample does to the frames of its own thread, and to nobody else's. */
module Behaviour {
  import opened TraceTypes
  import opened Machine
  import opened Reconstruction

  // ----- only the sample's own thread -----

  /** Other rows are untouched, nothing emitted is taken back, and what is added names the thread of `key`. */
  ghost predicate Local(m: State, r: State, key: Key)
    requires key in m.threads
  {
    && r.threads.Keys == m.threads.Keys && r.threads[key].id == m.threads[key].id
    && (forall k :: k in m.threads && k != key ==> r.threads[k] == m.threads[k])
    && m.spans <= r.spans && m.gaps <= r.gaps
    && (forall a :: |m.spans| <= a < |r.spans| ==> r.spans[a].thread == m.threads[key].id)
    && (forall a :: |m.gaps| <= a < |r.gaps| ==> r.gaps[a].thread == m.threads[key].id)
  }

  lemma LocalTwice(m: State, n: State, r: State, key: Key)
    requires key in m.threads && Local(m, n, key) && Local(n, r, key)
    ensures Local(m, r, key)
  {}

  lemma {:induction false} InterruptIsLocal(m: State, key: Key)
    requires key in m.threads
    ensures Local(m, Interrupt(m, key), key)
    decreases |m.threads[key].stack|
  {
    var th := m.threads[key];
    if th.stack != [] {
      var n := PopEmit(m, key, None, th.Top().startEvent, InterruptedByGap);
      InterruptIsLocal(n, key);
      LocalTwice(m, n, Interrupt(n, key), key);
    }
  }

  lemma GapIsLocal(m: State, key: Key, kind: GapKind, start: Option<nat>, end: Option<nat>, known: bool)
    requires key in m.threads
    ensures Local(m, ThreadGap(m, key, kind, start, end, known), key)
  {}

  lemma BreakIsLocal(m: State, key: Key, kind: GapKind, start: Option<nat>, end: Option<nat>, known: bool)
    requires key in m.threads
    ensures Local(m, ThreadGap(Interrupt(m, key), key, kind, start, end, known), key)
  {
    hide Local, Interrupt, ThreadGap;
    InterruptIsLocal(m, key);
    GapIsLocal(Interrupt(m, key), key, kind, start, end, known);
    LocalTwice(m, Interrupt(m, key), ThreadGap(Interrupt(m, key), key, kind, start, end, known), key);
  }

  lemma OpenIsLocal(m: State, key: Key, func: Option<nat>, abs: Option<nat>, eid: nat, c: Completeness,
                    site: Option<nat>)
    requires key in m.threads
    ensures Local(m, PushOpen(m, key, func, abs, eid, c, site), key)
  {}

  lemma OpenKnownIsLocal(m: State, key: Key, f: Flow)
    requires key in m.threads
    ensures Local(m, OpenKnown(m, key, f), key)
  {}

  lemma SettleIsLocal(m: State, key: Key, pending: PendingEnd, f: Flow)
    requires key in m.threads
    ensures Local(m, SettlePending(m, key, pending, f).0, key)
  {
    hide Local, Interrupt, ThreadGap, OpenKnown, PushOpen;
    if Continues(pending, f) {
      var g := ThreadGap(m, key, TraceBoundary, pending.abs, f.abs, pending.abs.Some? && f.abs.Some?);
      GapIsLocal(m, key, TraceBoundary, pending.abs, f.abs, pending.abs.Some? && f.abs.Some?);
      LocalRow(m, g, key);
      OpenIsLocal(g, key, f.to.func, Or(pending.abs, f.abs), f.eid, OpenStart, f.site);
      LocalTwice(m, g, PushOpen(g, key, f.to.func, Or(pending.abs, f.abs), f.eid, OpenStart, f.site), key);
    } else {
      var hole := RingHole(pending, f);
      var kind, end := if hole then RingTruncation else UnknownGap, if hole then Or(f.cpuFirst, f.abs) else f.abs;
      var known := hole && pending.abs.Some? && end.Some?;
      var g := ThreadGap(Interrupt(m, key), key, kind, pending.abs, end, known);
      BreakIsLocal(m, key, kind, pending.abs, end, known);
      LocalRow(m, g, key);
      OpenKnownIsLocal(g, key, f);
      LocalTwice(m, g, OpenKnown(g, key, f), key);
    }
  }

  lemma LocalRow(m: State, r: State, key: Key)
    requires key in m.threads && Local(m, r, key)
    ensures key in r.threads
  {}

  lemma ReturnIsLocal(m: State, key: Key, f: Flow)
    requires key in m.threads
    ensures Local(m, ApplyReturn(m, key, f), key)
  {}

  lemma JumpIsLocal(m: State, key: Key, f: Flow)
    requires key in m.threads
    ensures Local(m, ApplyJump(m, key, f), key)
  {}

  lemma TransferIsLocal(m: State, key: Key, f: Flow)
    requires key in m.threads
    ensures Local(m, ApplyTransfer(m, key, f), key)
  {
    if f.kind == Call { OpenIsLocal(m, key, f.to.func, f.abs, f.eid, OpenEnd, f.site); }
    ReturnIsLocal(m, key, f);
    JumpIsLocal(m, key, f);
    hide ApplyReturn, ApplyJump, PushOpen;
  }

  lemma BoundaryIsLocal(m: State, key: Key, f: Flow)
    requires key in m.threads
    ensures Local(m, ApplyBoundary(m, key, f), key)
  {
    BreakIsLocal(m, key, UnknownGap, f.abs, None, false);
    OpenKnownIsLocal(m, key, f);
    hide Interrupt, ThreadGap, OpenKnown;
  }

  /** Whatever a sample is, it touches no thread but its own. */
  lemma SampleIsLocal(m: State, key: Key, f: Flow)
    requires key in m.threads
    ensures Local(m, ApplyFlow(m, key, f), key)
  {
    var pending := m.threads[key].pendingEnd;
    var m0 := if pending.Some? then SetPending(m, key, None) else m;
    assert Local(m, m0, key);
    hide Local, SettlePending, ApplyBoundary, ApplyTransfer, SetPending;
    var (m1, used) := if pending.Some? then SettlePending(m0, key, pending.value, f) else (m, false);
    if pending.Some? {
      LocalRow(m, m0, key);
      SettleIsLocal(m0, key, pending.value, f);
      LocalTwice(m, m0, m1, key);
    }
    LocalRow(m, m1, key);
    BoundaryIsLocal(m1, key, f);
    TransferIsLocal(m1, key, f);
    LocalTwice(m, m1, ApplyBoundary(m1, key, f), key);
    LocalTwice(m, m1, ApplyTransfer(m1, key, f), key);
  }

  // ----- when frames close -----

  /** The trace resumes in the function it ended in, and the ring reaches back to the end. */
  predicate Continues(pending: PendingEnd, f: Flow) {
    !RingHole(pending, f) && f.boundary.traceBegin && pending.fromFn.Some? && f.to.func == pending.fromFn
  }

  /** A sample that closes frames although no trace end is pending. */
  predicate Closes(f: Flow) {
    if f.boundary.TakesPrecedence() then
      !f.boundary.traceEnd && (f.boundary.asyncEvent || f.boundary.interrupt || f.boundary.transaction)
    else
      || f.kind == Return
      || ((f.kind == Jump || f.kind == Conditional) && f.from.func.Some? && f.to.func.Some? && f.from.func != f.to.func)
  }

  lemma UnwoundLength(stack: seq<Frame>, thread: ThreadId, end: Option<nat>, gap: bool)
    ensures |Unwound(stack, thread, end, gap)| == |stack|
  {}

  lemma BreakEmits(m: State, key: Key)
    requires key in m.threads
    ensures var r := Interrupt(m, key);
            r.spans == m.spans + Unwound(m.threads[key].stack, m.threads[key].id, None, true)
            && |r.spans| == |m.spans| + |m.threads[key].stack| && r.threads[key].stack == []
  {
    InterruptIsEmptied(m, key);
    UnwoundLength(m.threads[key].stack, m.threads[key].id, None, true);
  }

  /** Under open frames, a pending trace end costs none of them exactly when the trace continues where it ended. */
  lemma TraceEndClosesIff(m: State, key: Key, f: Flow)
    requires key in m.threads && m.threads[key].stack != [] && m.threads[key].pendingEnd.Some?
    ensures var r := ApplyFlow(m, key, f);
            && (r.spans == m.spans <==> Continues(m.threads[key].pendingEnd.value, f))
            && (r.spans == m.spans ==> r.threads[key].stack == m.threads[key].stack && r.threads[key].pendingEnd.None?)
  {
    var pending := m.threads[key].pendingEnd.value;
    var m0 := SetPending(m, key, None);
    if !Continues(pending, f) {
      BreakEmits(m0, key);
      var hole := RingHole(pending, f);
      var kind, end := if hole then RingTruncation else UnknownGap, if hole then Or(f.cpuFirst, f.abs) else f.abs;
      var g := ThreadGap(Interrupt(m0, key), key, kind, pending.abs, end, hole && pending.abs.Some? && end.Some?);
      assert |g.spans| > |m.spans|;
      BoundaryIsLocal(g, key, f);
      TransferIsLocal(g, key, f);
      OpenKnownIsLocal(g, key, f);
      hide Interrupt, ApplyBoundary, ApplyTransfer, OpenKnown, ThreadGap, Unwound, SetPending;
    }
  }

  /** With no trace end pending, frames close exactly at returns, tail calls and asynchronous transfers. */
  lemma FramesCloseIff(m: State, key: Key, f: Flow)
    requires key in m.threads && m.threads[key].stack != [] && m.threads[key].pendingEnd.None?
    ensures ApplyFlow(m, key, f).spans == m.spans <==> !Closes(f)
  {
    if f.boundary.TakesPrecedence() {
      BreakEmits(m, key);
      hide Interrupt;
    }
  }

  /** A sample that opens a frame, or emits the span of one that was never seen, although no trace end is pending. */
  predicate Opens(f: Flow, empty: bool) {
    if f.boundary.TakesPrecedence() then
      && !f.boundary.traceEnd && !f.boundary.asyncEvent && !f.boundary.interrupt && !f.boundary.transaction
      && f.boundary.traceBegin && empty && (f.to.func.Some? || f.from.func.Some?)
    else
      || f.kind == Call || (f.kind == Return && empty)
      || ((f.kind == Jump || f.kind == Conditional) && f.from.func.Some? && f.to.func.Some? && f.from.func != f.to.func)
  }

  /** Span ids are given out exactly at calls, tail calls, unmatched returns and where a trace starts in a function. */
  lemma FramesOpenIff(m: State, key: Key, f: Flow)
    requires key in m.threads && m.threads[key].pendingEnd.None?
    ensures ApplyFlow(m, key, f).nextSpan != m.nextSpan <==> Opens(f, m.threads[key].stack == [])
  {
    if f.boundary.TakesPrecedence() {
      InterruptIsEmptied(m, key);
      hide Interrupt;
    }
  }

  /**
   * A trace that starts with nothing open leaves one frame of unknown start in the function it starts in, else the one
   * it comes from: since the trace end if it resumes where it left, else since now.
   */
  lemma TraceStartOpens(m: State, key: Key, f: Flow)
    requires key in m.threads && m.threads[key].stack == [] && f.boundary.traceBegin
    requires m.threads[key].pendingEnd.Some?
             || !(f.boundary.traceEnd || f.boundary.asyncEvent || f.boundary.interrupt || f.boundary.transaction)
    ensures var r, fn, pending := ApplyFlow(m, key, f), Or(f.to.func, f.from.func), m.threads[key].pendingEnd;
            var start := if pending.Some? && Continues(pending.value, f) then Or(pending.value.abs, f.abs) else f.abs;
            && r.spans == m.spans && r.threads[key].pendingEnd.None?
            && r.threads[key].stack
               == if fn.None? then [] else [Frame(m.nextSpan, fn, None, start, f.eid, OpenStart, f.site)]
  {}

  /** An asynchronous transfer is not a call: it opens nothing, and what was open ends at an unknown time. */
  lemma AsyncIsNotACall(m: State, key: Key, f: Flow)
    requires key in m.threads && m.threads[key].pendingEnd.None? && !f.boundary.traceEnd
    requires f.boundary.asyncEvent || f.boundary.interrupt || f.boundary.transaction
    ensures var r := ApplyFlow(m, key, f);
            && r.nextSpan == m.nextSpan && r.threads[key].stack == []
            && r.spans == m.spans + Unwound(m.threads[key].stack, m.threads[key].id, None, true)
            && r.gaps == m.gaps + [Gap(m.nextGap, m.threads[key].id, UnknownGap, f.abs, None, false)]
  {
    InterruptIsEmptied(m, key);
    hide Interrupt, Unwound;
  }

  /**
   * Kernel work in between: a trace end and a start in the same function leave the frames alone, with one gap
   * between.
   */
  lemma EndThenResume(m: State, key: Key, e: Flow, f: Flow)
    requires key in m.threads && m.threads[key].stack != [] && m.threads[key].pendingEnd.None?
    requires e.boundary.traceEnd && e.from.func.Some?
    requires f.boundary.traceBegin && f.to.func == e.from.func && (f.cpu.None? || f.cpu == e.cpu)
    ensures var r := ApplyFlow(ApplyFlow(m, key, e), key, f);
            && r.threads[key].stack == m.threads[key].stack && r.spans == m.spans && r.nextSpan == m.nextSpan
            && r.gaps == m.gaps + [Gap(m.nextGap, m.threads[key].id, TraceBoundary, e.abs, f.abs,
                                       e.abs.Some? && f.abs.Some?)]
  {}

  // ----- what calls, returns and jumps leave behind -----

  /** A sample without any boundary flag. */
  predicate Ordinary(m: State, key: Key, f: Flow) {
    key in m.threads && m.threads[key].pendingEnd.None? && !f.boundary.TakesPrecedence()
  }

  /** A call into an unnamed stub that jumps into a function becomes one Complete span of that function. */
  lemma StubIsNamed(m: State, key: Key, c: Flow, j: Flow, r: Flow)
    requires Ordinary(m, key, c) && c.kind == Call && c.to.func.None?
    requires !j.boundary.TakesPrecedence() && (j.kind == Jump || j.kind == Conditional) && j.from.func.None?
             && j.to.func.Some?
    requires !r.boundary.TakesPrecedence() && r.kind == Return
    ensures var th := m.threads[key];
            var m' := ApplyFlow(ApplyFlow(ApplyFlow(m, key, c), key, j), key, r);
            && m'.threads[key].stack == th.stack
            && m'.spans == m.spans + [Span(m.nextSpan, th.id, j.to.func, ParentOf(th.stack), c.abs, r.abs, Complete,
                                           c.eid, r.eid, c.site)]
  {
    hide ApplyFlow;
    var th := m.threads[key];
    OrdinaryFlow(m, key, c);
    var m1 := ApplyFlow(m, key, c);
    OrdinaryFlow(m1, key, j);
    var m2 := ApplyFlow(m1, key, j);
    OrdinaryFlow(m2, key, r);
    assert m2.threads[key].stack[..|th.stack|] == th.stack;
  }

  lemma OrdinaryFlow(m: State, key: Key, f: Flow)
    requires Ordinary(m, key, f)
    ensures ApplyFlow(m, key, f) == ApplyTransfer(m, key, f)
  {}

  /**
   * Two returns with nothing open: the first callee's start is unknown, and the caller
   * it lands in is open from then until the second return closes it, certain at neither end.
   */
  lemma ReturnsPastTheStart(m: State, key: Key, f: Flow, g: Flow)
    requires Ordinary(m, key, f) && f.kind == Return && m.threads[key].stack == [] && f.to.func.Some?
    requires !g.boundary.TakesPrecedence() && g.kind == Return
    ensures var r, id := ApplyFlow(ApplyFlow(m, key, f), key, g), m.threads[key].id;
            && r.threads[key].stack == []
            && r.spans == m.spans + [Span(m.nextSpan, id, f.from.func, None, None, f.abs, UncertainUnwind, f.eid, f.eid,
                                          None),
                                     Span(m.nextSpan + 1, id, f.to.func, None, f.abs, g.abs, OpenBoth, f.eid, g.eid,
                                          f.site)]
  {
    hide ApplyFlow;
    OrdinaryFlow(m, key, f);
    OrdinaryFlow(ApplyFlow(m, key, f), key, g);
  }

  function ApplyAll(m: State, key: Key, fs: seq<Flow>): (r: State)
    requires key in m.threads
    ensures key in r.threads
  {
    if fs == [] then m else ApplyFlow(ApplyAll(m, key, fs[..|fs| - 1]), key, fs[|fs| - 1])
  }

  predicate IsTailCall(f: Flow) {
    && !f.boundary.TakesPrecedence() && (f.kind == Jump || f.kind == Conditional)
    && f.from.func.Some? && f.to.func.Some? && f.from.func != f.to.func
  }

  /** The i-th span of a chain of tail calls: it starts where the one before ended, under the first one's parent. */
  predicate LinkAt(top: Frame, js: seq<Flow>, i: nat, s: Span)
    requires i < |js|
  {
    && s.parent == top.parent && s.completeness == UncertainUnwind && s.end == js[i].abs
    && s.start == (if i == 0 then top.start else js[i - 1].abs)
    && s.func == (if i == 0 then top.func else js[i - 1].to.func)
  }

  predicate Links(top: Frame, js: seq<Flow>, spans: seq<Span>) {
    |spans| == |js| && forall i :: 0 <= i < |spans| ==> LinkAt(top, js, i, spans[i])
  }

  /** After a chain of tail calls one frame stands where one stood, and each call has closed its predecessor. */
  ghost predicate Chained(m: State, key: Key, js: seq<Flow>, r: State)
    requires key in m.threads && m.threads[key].stack != [] && key in r.threads
  {
    var th, th', n := m.threads[key], r.threads[key], |m.spans|;
    && th'.pendingEnd.None? && th'.id == th.id && |th'.stack| == |th.stack|
    && th'.stack[..|th.stack| - 1] == th.stack[..|th.stack| - 1]
    && LastLink(th.Top(), js, th'.Top()) && r.nextSpan == m.nextSpan + |js|
    && |r.spans| >= n && r.spans[..n] == m.spans && Links(th.Top(), js, r.spans[n..])
  }

  /** The frame left open by a chain: the last target, from the last call on. */
  predicate LastLink(top: Frame, js: seq<Flow>, f: Frame) {
    if js == [] then f == top
    else
      && f.parent == top.parent && f.start == js[|js| - 1].abs && f.func == js[|js| - 1].to.func
      && f.completeness == OpenStart
  }

  lemma {:induction false} TailCallsChain(m: State, key: Key, js: seq<Flow>)
    requires key in m.threads && m.threads[key].pendingEnd.None? && m.threads[key].stack != []
    requires forall i :: 0 <= i < |js| ==> IsTailCall(js[i])
    ensures Chained(m, key, js, ApplyAll(m, key, js))
    decreases |js|
  {
    hide ApplyFlow, LinkAt, IsTailCall, Chained;
    if js == [] {
      NothingChained(m, key);
    } else {
      var init, j := js[..|js| - 1], js[|js| - 1];
      TailCallsChain(m, key, init);
      ChainGrows(m, key, init, j, ApplyAll(m, key, init));
      assert init + [j] == js;
    }
  }

  lemma NothingChained(m: State, key: Key)
    requires key in m.threads && m.threads[key].pendingEnd.None? && m.threads[key].stack != []
    ensures Chained(m, key, [], m)
  {}

  lemma ChainGrows(m: State, key: Key, init: seq<Flow>, j: Flow, r: State)
    requires key in m.threads && m.threads[key].stack != [] && key in r.threads && Chained(m, key, init, r)
             && IsTailCall(j)
    ensures Chained(m, key, init + [j], ApplyFlow(r, key, j))
  {
    hide ApplyFlow, Links, IsTailCall;
    var n, top, r' := |m.spans|, m.threads[key].Top(), ApplyFlow(r, key, j);
    var th := r.threads[key];
    TailCallStep(r, key, j);
    var s := SpanOf(th.Top(), th.id, j.abs, j.eid, UncertainUnwind);
    LinksGrow(top, init, j, r.spans[n..], s);
    assert r'.spans[n..] == r.spans[n..] + [s];
    assert r'.spans[..n] == r.spans[..n];
  }

  lemma LinksGrow(top: Frame, init: seq<Flow>, j: Flow, spans: seq<Span>, s: Span)
    requires Links(top, init, spans) && s.parent == top.parent && s.completeness == UncertainUnwind && s.end == j.abs
    requires s.start == (if init == [] then top.start else init[|init| - 1].abs)
    requires s.func == (if init == [] then top.func else init[|init| - 1].to.func)
    ensures Links(top, init + [j], spans + [s])
  {
    hide LinkAt;
    forall i | 0 <= i < |spans| + 1 ensures LinkAt(top, init + [j], i, (spans + [s])[i]) {
      NextLink(top, init, j, i, (spans + [s])[i]);
    }
  }

  lemma TailCallStep(m: State, key: Key, j: Flow)
    requires key in m.threads && m.threads[key].pendingEnd.None? && m.threads[key].stack != [] && IsTailCall(j)
    ensures var r, th := ApplyFlow(m, key, j), m.threads[key];
            && r.spans == m.spans + [SpanOf(th.Top(), th.id, j.abs, j.eid, UncertainUnwind)]
            && r.nextSpan == m.nextSpan + 1
            && r.threads[key].stack == th.stack[..|th.stack| - 1]
                 + [Frame(m.nextSpan, j.to.func, th.Top().parent, j.abs, j.eid, OpenStart, j.site)]
            && r.threads[key].id == th.id && r.threads[key].pendingEnd == th.pendingEnd
  {
    hide SettlePending, ApplyBoundary;
  }

  lemma NextLink(top: Frame, init: seq<Flow>, j: Flow, i: nat, s: Span)
    requires i <= |init|
    requires if i < |init| then LinkAt(top, init, i, s)
             else s.parent == top.parent && s.completeness == UncertainUnwind && s.end == j.abs
                  && s.start == (if i == 0 then top.start else init[i - 1].abs)
                  && s.func == (if i == 0 then top.func else init[i - 1].to.func)
    ensures LinkAt(top, init + [j], i, s)
  {}

  /**
   * One return answers a whole chain of tail calls: the last target's span ends with it and the caller is on
   * top again.
   */
  lemma ReturnEndsChain(m: State, key: Key, js: seq<Flow>, f: Flow)
    requires key in m.threads && m.threads[key].pendingEnd.None? && m.threads[key].stack != [] && js != []
    requires (forall i :: 0 <= i < |js| ==> IsTailCall(js[i])) && !f.boundary.TakesPrecedence() && f.kind == Return
    ensures var th, n := m.threads[key], |m.spans|;
            var r := ApplyFlow(ApplyAll(m, key, js), key, f);
            && r.threads[key].stack == th.stack[..|th.stack| - 1]
            && |r.spans| == n + |js| + 1 && r.spans[..n] == m.spans && Links(th.Top(), js, r.spans[n..n + |js|])
            && var s := r.spans[n + |js|];
            && s.parent == th.Top().parent && s.func == js[|js| - 1].to.func
            && s.start == js[|js| - 1].abs && s.end == f.abs && s.completeness == OpenBoth
  {
    hide ApplyAll, ApplyFlow, LinkAt, IsTailCall;
    TailCallsChain(m, key, js);
    var r := ApplyAll(m, key, js);
    OrdinaryFlow(r, key, f);
    assert ApplyFlow(r, key, f).spans[..|r.spans|] == r.spans;
    assert ApplyFlow(r, key, f).spans[|m.spans|..|r.spans|] == r.spans[|m.spans|..];
  }

  /** At its exit a task's frames close at that time, top first, and its row leaves the table with them counted. */
  lemma ExitClosesAll(m: State, key: Key, time: Option<nat>)
    requires key in m.threads
    ensures var r, th := Retire(m, key, time), m.threads[key];
            && key !in r.threads && r.spans == m.spans + Unwound(th.stack, th.id, time, false)
            && r.retired == m.retired + [th.(stack := [], spans := th.spans + |th.stack|, pendingEnd := None)]
            && forall k :: k in m.threads && k != key ==> k in r.threads && r.threads[k] == m.threads[k]
  {
    CloseOpenIsEmptied(m, key, time);
    hide CloseOpen, Unwound;
  }
}
