/** One invariant for the stack machine, kept by every step of `ApplyFlow`. */
module Steps {
  import opened TraceTypes
  import opened Machine
  import opened Lanes
  import opened SpanIds
  import opened Laminar
  import opened Evidence
  import opened Origin
  import opened Tally

  /** The part of the invariant about frames, spans and their evidence. */
  ghost predicate LanesInv(threads: Threads, spans: seq<Span>, nextSpan: nat, events: seq<FlowEvent>, nextEvent: nat) {
    && Ids(threads, spans, nextSpan)
    && LaminarInv(threads, spans)
    && EvidenceInv(threads, spans, events, nextEvent)
    && LineageInv(threads, spans)
  }

  ghost predicate Inv(m: State, min: Option<nat>, zeros: bool) {
    && TallyInv(m)
    && OriginInv(m, min, zeros)
    && LanesInv(m.threads, m.spans, m.nextSpan, m.events, m.nextEvent)
  }

  lemma PushedKeepsLanes(threads: Threads, threads': Threads, key: Key, f: Frame, spans: seq<Span>, nextSpan: nat,
                         events: seq<FlowEvent>, nextEvent: nat)
    requires LanesInv(threads, spans, nextSpan, events, nextEvent) && Pushed(threads, threads', key, f)
    requires f.id == nextSpan && f.parent == ParentAt(StackOf(threads', key), |StackOf(threads, key)|)
    requires f.completeness == OpenStart
             || (f.completeness == OpenEnd && (f.start.Some? ==> LastOf(threads, key) == f.start))
    requires Has(events, f.startEvent, IdOf(threads, key))
    ensures LanesInv(threads', spans, nextSpan + 1, events, nextEvent)
  {
    PushedKeepsIds(threads, threads', key, f, spans, nextSpan);
    PushedKeepsLaminar(threads, threads', key, f, spans, nextSpan);
    PushedKeepsEvidence(threads, threads', key, f, spans, events, nextEvent);
    PushedKeepsLineage(threads, threads', key, f, spans);
  }

  lemma AllocatedKeepsLanes(threads: Threads, spans: seq<Span>, s: Span, nextSpan: nat,
                            events: seq<FlowEvent>, nextEvent: nat)
    requires LanesInv(threads, spans, nextSpan, events, nextEvent)
    requires s.id == nextSpan && s.parent.None? && s.completeness != Complete && Backed(events, s)
    ensures LanesInv(threads, spans + [s], nextSpan + 1, events, nextEvent)
  {
    AllocatedKeepsIds(threads, spans, s, nextSpan);
    UncertainKeepsLaminar(threads, spans, s);
    EmittedKeepsEvidence(threads, spans, s, events, nextEvent);
    RootKeepsLineage(threads, spans, s);
  }

  lemma CalmKeepsLanes(threads: Threads, threads': Threads, spans: seq<Span>, nextSpan: nat,
                       events: seq<FlowEvent>, nextEvent: nat)
    requires LanesInv(threads, spans, nextSpan, events, nextEvent) && Calm(threads, threads')
    ensures LanesInv(threads', spans, nextSpan, events, nextEvent)
  {
    CalmKeepsIds(threads, threads', spans, nextSpan);
    CalmKeepsLaminar(threads, threads', spans);
    CalmKeepsEvidence(threads, threads', spans, events, nextEvent);
    CalmKeepsLineage(threads, threads', spans);
  }

  /** Replacing a thread by one with the same stack and a clock no earlier is calm. */
  lemma SetThreadIsCalm(m: State, key: Key, th: ThreadState)
    requires key in m.threads && th.stack == m.threads[key].stack && th.id == m.threads[key].id
    requires th.stack == [] || Reached(m.threads[key].lastAbs, th.lastAbs)
    ensures Calm(m.threads, SetThread(m, key, th).threads)
  {}

  /** `r` differs from `m` only in frames, spans and gaps, and `key` keeps its place in time. */
  ghost predicate Within(m: State, r: State, key: Key) {
    && key in m.threads
    && key in r.threads
    && r.threads[key].id == m.threads[key].id
    && r.threads[key].lastAbs == m.threads[key].lastAbs
    && r.threads[key].pendingEnd == m.threads[key].pendingEnd
    && r.events == m.events
    && r.nextEvent == m.nextEvent
  }

  lemma OpenKeepsInv(m: State, key: Key, func: Option<nat>, abs: Option<nat>, eid: nat, c: Completeness,
                     site: Option<nat>, min: Option<nat>, zeros: bool)
    requires Inv(m, min, zeros) && key in m.threads
    requires c == OpenStart || (c == OpenEnd && (abs.Some? ==> m.threads[key].lastAbs == abs))
    requires Has(m.events, eid, m.threads[key].id)
    requires Good(abs, min, zeros)
    ensures Inv(PushOpen(m, key, func, abs, eid, c, site), min, zeros)
    ensures Within(m, PushOpen(m, key, func, abs, eid, c, site), key)
  {
    hide LanesInv, OriginInv;
    var r := PushOpen(m, key, func, abs, eid, c, site);
    var f := r.threads[key].Top();
    PushOpenPushes(m, key, func, abs, eid, c, site);
    PushedKeepsLanes(m.threads, r.threads, key, f, m.spans, m.nextSpan, m.events, m.nextEvent);
    PushOpenKeepsOrigin(m, key, func, abs, eid, c, site, min, zeros);
    SetThreadKeepsTally(m, key, r.threads[key], r);
  }

  lemma PopKeepsInv(m: State, key: Key, end: Option<nat>, endEvent: nat, c: Completeness,
                    min: Option<nat>, zeros: bool)
    requires Inv(m, min, zeros) && key in m.threads && m.threads[key].stack != []
    requires c == Complete ==> m.threads[key].Top().completeness == OpenEnd
    requires c == Complete && end.Some? ==> m.threads[key].lastAbs == end
    requires endEvent == m.threads[key].Top().startEvent
             || (endEvent + 1 == m.nextEvent && Has(m.events, endEvent, m.threads[key].id))
    requires Good(end, min, zeros)
    ensures Inv(PopEmit(m, key, end, endEvent, c), min, zeros)
    ensures Within(m, PopEmit(m, key, end, endEvent, c), key)
  {
    var r := PopEmit(m, key, end, endEvent, c);
    var f := m.threads[key].Top();
    var s := SpanOf(f, m.threads[key].id, end, endEvent, c);
    PopEmitPops(m, key, end, endEvent, c);
    PoppedKeepsIds(m.threads, r.threads, key, f, m.spans, s, m.nextSpan);
    PoppedKeepsLaminar(m.threads, r.threads, key, f, m.spans, s, m.nextSpan);
    PoppedKeepsEvidence(m.threads, r.threads, key, f, m.spans, s, m.events, m.nextEvent);
    PoppedKeepsLineage(m.threads, r.threads, key, f, m.spans, s, m.nextSpan);
    PopEmitKeepsOrigin(m, key, end, endEvent, c, min, zeros);
    SetThreadKeepsTally(m, key, r.threads[key], r);
  }

  lemma UnmatchedKeepsInv(m: State, key: Key, func: Option<nat>, abs: Option<nat>, eid: nat,
                          min: Option<nat>, zeros: bool)
    requires Inv(m, min, zeros) && key in m.threads && m.threads[key].stack == []
    requires Has(m.events, eid, m.threads[key].id)
    requires Good(abs, min, zeros)
    ensures Inv(EmitUnmatched(m, key, func, abs, eid), min, zeros)
    ensures Within(m, EmitUnmatched(m, key, func, abs, eid), key)
  {
    hide LanesInv, OriginInv;
    var r := EmitUnmatched(m, key, func, abs, eid);
    var s := r.spans[|m.spans|];
    SetThreadIsCalm(m, key, r.threads[key]);
    CalmKeepsLanes(m.threads, r.threads, m.spans, m.nextSpan, m.events, m.nextEvent);
    AllocatedKeepsLanes(r.threads, m.spans, s, m.nextSpan, m.events, m.nextEvent);
    EmitUnmatchedKeepsOrigin(m, key, func, abs, eid, min, zeros);
    SetThreadKeepsTally(m, key, r.threads[key], r);
  }

  lemma RenameKeepsInv(m: State, key: Key, func: nat, min: Option<nat>, zeros: bool)
    requires Inv(m, min, zeros) && key in m.threads && m.threads[key].stack != []
    ensures Inv(RenameTop(m, key, func), min, zeros)
  {
    var r := RenameTop(m, key, func);
    RenameTopRenames(m, key, func);
    RenamedKeepsIds(m.threads, r.threads, m.spans, m.nextSpan);
    RenamedKeepsLaminar(m.threads, r.threads, m.spans);
    RenamedKeepsEvidence(m.threads, r.threads, m.spans, m.events, m.nextEvent);
    RenamedKeepsLineage(m.threads, r.threads, m.spans);
    assert ThreadGood(m.threads[key], min, zeros);
    assert ThreadGood(r.threads[key], min, zeros);
    SetThreadKeepsOrigin(m, key, r.threads[key], min, zeros);
    SetThreadKeepsTally(m, key, r.threads[key], r);
  }

  lemma GapKeepsInv(m: State, key: Key, kind: GapKind, start: Option<nat>, end: Option<nat>, known: bool,
                    min: Option<nat>, zeros: bool)
    requires Inv(m, min, zeros) && key in m.threads
    requires Good(start, min, zeros) && (Good(end, min, zeros) || (zeros && start == Some(0)))
    ensures Inv(ThreadGap(m, key, kind, start, end, known), min, zeros)
    ensures Within(m, ThreadGap(m, key, kind, start, end, known), key)
    ensures ThreadGap(m, key, kind, start, end, known).threads[key].stack == m.threads[key].stack
  {
    var r := ThreadGap(m, key, kind, start, end, known);
    ThreadGapKeepsTally(m, key, kind, start, end, known);
    ThreadGapKeepsOrigin(m, key, kind, start, end, known, min, zeros);
    SetThreadIsCalm(m, key, r.threads[key]);
    CalmKeepsLanes(m.threads, r.threads, m.spans, m.nextSpan, m.events, m.nextEvent);
  }

  /** Replacing a thread without touching its stack or its counters. */
  lemma SetThreadKeepsInv(m: State, key: Key, th: ThreadState, min: Option<nat>, zeros: bool)
    requires Inv(m, min, zeros) && key in m.threads && ThreadGood(th, min, zeros)
    requires th.stack == m.threads[key].stack && th.id == m.threads[key].id && (th.pid, th.tid) == key
    requires th.stack == [] || Reached(m.threads[key].lastAbs, th.lastAbs)
    requires forall c :: Get(c, th) == Get(c, m.threads[key])
    ensures Inv(SetThread(m, key, th), min, zeros)
  {
    var r := SetThread(m, key, th);
    SetThreadKeepsOrigin(m, key, th, min, zeros);
    assert Get(Branches, th) == Get(Branches, m.threads[key]) && Get(Retained, th) == Get(Retained, m.threads[key]);
    assert Get(Spans, th) == Get(Spans, m.threads[key]) && Get(Gaps, th) == Get(Gaps, m.threads[key]);
    SetThreadKeepsTally(m, key, th, r);
    SetThreadIsCalm(m, key, th);
    CalmKeepsLanes(m.threads, r.threads, m.spans, m.nextSpan, m.events, m.nextEvent);
  }

  lemma PendingKeepsInv(m: State, key: Key, pending: Option<PendingEnd>, min: Option<nat>, zeros: bool)
    requires Inv(m, min, zeros) && key in m.threads
    requires pending.Some? ==> Good(pending.value.abs, min, zeros)
    ensures Inv(SetPending(m, key, pending), min, zeros)
  {
    assert ThreadGood(m.threads[key], min, zeros);
    SetThreadKeepsInv(m, key, m.threads[key].(pendingEnd := pending), min, zeros);
  }

  lemma {:induction false} InterruptKeepsInv(m: State, key: Key, min: Option<nat>, zeros: bool)
    requires Inv(m, min, zeros) && key in m.threads
    ensures Inv(Interrupt(m, key), min, zeros) && Within(m, Interrupt(m, key), key)
    ensures Interrupt(m, key).threads[key].stack == []
    decreases |m.threads[key].stack|
  {
    var th := m.threads[key];
    if th.stack != [] {
      PopKeepsInv(m, key, None, th.Top().startEvent, InterruptedByGap, min, zeros);
      InterruptKeepsInv(PopEmit(m, key, None, th.Top().startEvent, InterruptedByGap), key, min, zeros);
    }
  }

  lemma {:induction false} CloseOpenKeepsInv(m: State, key: Key, end: Option<nat>, min: Option<nat>, zeros: bool)
    requires Inv(m, min, zeros) && key in m.threads && Good(end, min, zeros)
    ensures Inv(CloseOpen(m, key, end), min, zeros) && Within(m, CloseOpen(m, key, end), key)
    ensures CloseOpen(m, key, end).threads[key].stack == []
    ensures CloseOpen(m, key, end).order == m.order
    decreases |m.threads[key].stack|
  {
    var th := m.threads[key];
    if th.stack != [] {
      var c := OpenLabel(th.Top().completeness);
      PopKeepsInv(m, key, end, th.Top().startEvent, c, min, zeros);
      CloseOpenKeepsInv(PopEmit(m, key, end, th.Top().startEvent, c), key, end, min, zeros);
    }
  }

  // ----- one sample -----

  /** The sample of `f` has just been noted on its thread, and its event id handed out. */
  ghost predicate Ready(m: State, key: Key, f: Flow, min: Option<nat>, zeros: bool) {
    && key in m.threads
    && f.eid + 1 == m.nextEvent
    && Good(f.abs, min, zeros)
    && (f.abs.Some? ==> m.threads[key].lastAbs == f.abs)
  }

  /** The sample of `f` was retained as an event of its thread. */
  ghost predicate Kept(m: State, key: Key, f: Flow)
    requires key in m.threads
  {
    Has(m.events, f.eid, m.threads[key].id)
  }

  /** A jump inside one function (or inside none), with no trace boundary. */
  predicate Intra(f: Flow) {
    && (f.kind == Jump || f.kind == Conditional)
    && !f.boundary.TakesPrecedence()
    && f.from.func == f.to.func
  }

  lemma WithinReady(m: State, r: State, key: Key, f: Flow, min: Option<nat>, zeros: bool)
    requires Ready(m, key, f, min, zeros) && Within(m, r, key)
    ensures Ready(r, key, f, min, zeros) && (Kept(m, key, f) ==> Kept(r, key, f))
  {}

  lemma OpenKnownKeepsInv(m: State, key: Key, f: Flow, min: Option<nat>, zeros: bool)
    requires Inv(m, min, zeros) && Ready(m, key, f, min, zeros) && Kept(m, key, f)
    ensures Inv(OpenKnown(m, key, f), min, zeros)
  {
    hide Inv;
    var fn := Or(f.to.func, f.from.func);
    if fn.Some? { OpenKeepsInv(m, key, fn, f.abs, f.eid, OpenStart, f.site, min, zeros); }
  }

  lemma SettleKeepsInv(m: State, key: Key, pending: PendingEnd, f: Flow, min: Option<nat>, zeros: bool)
    requires Inv(m, min, zeros) && Ready(m, key, f, min, zeros)
    requires Good(pending.abs, min, zeros)
    requires f.boundary.traceBegin ==> Kept(m, key, f)
    ensures Inv(SettlePending(m, key, pending, f).0, min, zeros)
    ensures !SettlePending(m, key, pending, f).1 ==> Within(m, SettlePending(m, key, pending, f).0, key)
  {
    hide Inv, Has;
    OriginIsPositive(m, min, zeros);
    if RingHole(pending, f) || !f.boundary.traceBegin || !(pending.fromFn.Some? && f.to.func == pending.fromFn) {
      var i := Interrupt(m, key);
      InterruptKeepsInv(m, key, min, zeros);
      WithinReady(m, i, key, f, min, zeros);
      var kind := if RingHole(pending, f) then RingTruncation else UnknownGap;
      var end := if RingHole(pending, f) then Or(f.cpuFirst, f.abs) else f.abs;
      var known := RingHole(pending, f) && pending.abs.Some? && end.Some?;
      GapKeepsInv(i, key, kind, pending.abs, end, known, min, zeros);
      var g := ThreadGap(i, key, kind, pending.abs, end, known);
      WithinReady(i, g, key, f, min, zeros);
      if f.boundary.traceBegin { OpenKnownKeepsInv(g, key, f, min, zeros); }
    } else {
      var known := pending.abs.Some? && f.abs.Some?;
      GapKeepsInv(m, key, TraceBoundary, pending.abs, f.abs, known, min, zeros);
      var g := ThreadGap(m, key, TraceBoundary, pending.abs, f.abs, known);
      WithinReady(m, g, key, f, min, zeros);
      if g.threads[key].stack == [] {
        OpenKeepsInv(g, key, f.to.func, Or(pending.abs, f.abs), f.eid, OpenStart, f.site, min, zeros);
      }
    }
  }

  lemma OriginIsPositive(m: State, min: Option<nat>, zeros: bool)
    requires Inv(m, min, zeros)
    ensures min.Some? ==> min.value > 0
  {}

  lemma BoundaryKeepsInv(m: State, key: Key, f: Flow, min: Option<nat>, zeros: bool)
    requires Inv(m, min, zeros) && Ready(m, key, f, min, zeros) && Kept(m, key, f)
    ensures Inv(ApplyBoundary(m, key, f), min, zeros)
  {
    hide Inv, Has;
    if f.boundary.traceEnd {
      PendingKeepsInv(m, key, Some(PendingEnd(f.from.func, f.from.loc, f.abs, f.cpu)), min, zeros);
    } else if f.boundary.asyncEvent || f.boundary.interrupt || f.boundary.transaction {
      InterruptKeepsInv(m, key, min, zeros);
      GapKeepsInv(Interrupt(m, key), key, UnknownGap, f.abs, None, false, min, zeros);
    } else if f.boundary.traceBegin && m.threads[key].stack == [] {
      OpenKnownKeepsInv(m, key, f, min, zeros);
    }
  }

  lemma ReturnKeepsInv(m: State, key: Key, f: Flow, min: Option<nat>, zeros: bool)
    requires Inv(m, min, zeros) && Ready(m, key, f, min, zeros) && Kept(m, key, f)
    ensures Inv(ApplyReturn(m, key, f), min, zeros)
  {
    hide Inv, Has;
    var th := m.threads[key];
    if th.stack != [] {
      TopLabel(m, key, min, zeros);
      PopKeepsInv(m, key, f.abs, f.eid, ReturnLabel(th.Top().completeness), min, zeros);
    } else {
      UnmatchedKeepsInv(m, key, f.from.func, f.abs, f.eid, min, zeros);
      var u := EmitUnmatched(m, key, f.from.func, f.abs, f.eid);
      WithinReady(m, u, key, f, min, zeros);
      if f.to.func.Some? { OpenKeepsInv(u, key, f.to.func, f.abs, f.eid, OpenStart, f.site, min, zeros); }
    }
  }

  lemma LaneParts(m: State, key: Key, min: Option<nat>, zeros: bool)
    requires Inv(m, min, zeros)
    ensures StackTimes(StackOf(m.threads, key), LastOf(m.threads, key))
    ensures StackOk(StackOf(m.threads, key), m.nextSpan)
  {}

  lemma TopLabel(m: State, key: Key, min: Option<nat>, zeros: bool)
    requires Inv(m, min, zeros) && key in m.threads && m.threads[key].stack != []
    ensures var top := m.threads[key].Top();
            && (top.completeness == OpenEnd || top.completeness == OpenStart)
            && top.parent == ParentAt(m.threads[key].stack, |m.threads[key].stack| - 1)
  {
    hide Inv, ParentAt, Reached, Leq;
    LaneParts(m, key, min, zeros);
  }

  /** Writing the parent over the tail-called frame changes nothing: it is the frame below already. */
  lemma TailCallIsPopPush(m: State, key: Key, f: Flow, min: Option<nat>, zeros: bool)
    requires Inv(m, min, zeros) && key in m.threads
    ensures var m1 := if m.threads[key].stack == [] then m else PopEmit(m, key, f.abs, f.eid, UncertainUnwind);
            TailCall(m, key, f) == PushOpen(m1, key, f.to.func, f.abs, f.eid, OpenStart, f.site)
  {
    hide Inv;
    var th := m.threads[key];
    if th.stack != [] { TopLabel(m, key, min, zeros); }
    var m1 := if th.stack == [] then m else PopEmit(m, key, f.abs, f.eid, UncertainUnwind);
    var m2 := PushOpen(m1, key, f.to.func, f.abs, f.eid, OpenStart, f.site);
    var th2 := m2.threads[key];
    var top := |th2.stack| - 1;
    assert th2.stack[top := th2.stack[top].(parent := if th.stack == [] then None else th.Top().parent)] == th2.stack;
    assert m2.threads[key := th2] == m2.threads;
  }

  lemma JumpKeepsInv(m: State, key: Key, f: Flow, min: Option<nat>, zeros: bool)
    requires Inv(m, min, zeros) && Ready(m, key, f, min, zeros) && (Kept(m, key, f) || f.from.func == f.to.func)
    ensures Inv(ApplyJump(m, key, f), min, zeros)
  {
    hide Inv, Has, TailCall;
    var th := m.threads[key];
    if f.from.func.Some? && f.to.func.Some? && f.from.func != f.to.func {
      TailCallIsPopPush(m, key, f, min, zeros);
      var m1 := if th.stack == [] then m else PopEmit(m, key, f.abs, f.eid, UncertainUnwind);
      if th.stack != [] {
        PopKeepsInv(m, key, f.abs, f.eid, UncertainUnwind, min, zeros);
        WithinReady(m, m1, key, f, min, zeros);
      }
      OpenKeepsInv(m1, key, f.to.func, f.abs, f.eid, OpenStart, f.site, min, zeros);
    } else if f.from.func.None? && f.to.func.Some? && th.stack != [] && th.Top().func.None? {
      RenameKeepsInv(m, key, f.to.func.value, min, zeros);
    }
  }

  lemma TransferKeepsInv(m: State, key: Key, f: Flow, min: Option<nat>, zeros: bool)
    requires Inv(m, min, zeros) && Ready(m, key, f, min, zeros)
    requires Kept(m, key, f) || (Intra(f) && f.from.func == f.to.func)
    ensures Inv(ApplyTransfer(m, key, f), min, zeros)
  {
    hide Inv, Has, ApplyJump, ApplyReturn;
    match f.kind
    case Call => OpenKeepsInv(m, key, f.to.func, f.abs, f.eid, OpenEnd, f.site, min, zeros);
    case Return => ReturnKeepsInv(m, key, f, min, zeros);
    case Jump => JumpKeepsInv(m, key, f, min, zeros);
    case Conditional => JumpKeepsInv(m, key, f, min, zeros);
    case _ =>
  }

  /** Whatever a sample is, applying it keeps the invariant. */
  lemma FlowKeepsInv(m: State, key: Key, f: Flow, min: Option<nat>, zeros: bool)
    requires Inv(m, min, zeros) && Ready(m, key, f, min, zeros)
    requires Kept(m, key, f) || Intra(f)
    ensures Inv(ApplyFlow(m, key, f), min, zeros)
  {
    hide Inv, Has, SettlePending, ApplyBoundary, ApplyTransfer;
    var pending := m.threads[key].pendingEnd;
    if pending.Some? {
      PendingGood(m, key, min, zeros);
      PendingKeepsInv(m, key, None, min, zeros);
      var m0 := SetPending(m, key, None);
      SettleKeepsInv(m0, key, pending.value, f, min, zeros);
      var (m1, used) := SettlePending(m0, key, pending.value, f);
      if !used {
        WithinReady(m0, m1, key, f, min, zeros);
        AfterSettling(m1, key, f, min, zeros);
      }
    } else {
      AfterSettling(m, key, f, min, zeros);
    }
  }

  lemma PendingGood(m: State, key: Key, min: Option<nat>, zeros: bool)
    requires Inv(m, min, zeros) && key in m.threads && m.threads[key].pendingEnd.Some?
    ensures Good(m.threads[key].pendingEnd.value.abs, min, zeros)
  {}

  lemma AfterSettling(m: State, key: Key, f: Flow, min: Option<nat>, zeros: bool)
    requires Inv(m, min, zeros) && Ready(m, key, f, min, zeros)
    requires Kept(m, key, f) || Intra(f)
    ensures f.boundary.TakesPrecedence() ==> Inv(ApplyBoundary(m, key, f), min, zeros)
    ensures !f.boundary.TakesPrecedence() ==> Inv(ApplyTransfer(m, key, f), min, zeros)
  {
    hide Inv, Has, ApplyBoundary, ApplyTransfer;
    if f.boundary.TakesPrecedence() {
      BoundaryKeepsInv(m, key, f, min, zeros);
    } else {
      TransferKeepsInv(m, key, f, min, zeros);
    }
  }
}
