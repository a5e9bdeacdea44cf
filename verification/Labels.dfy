/**
 * What a span's completeness says is true: a Complete span runs from a call to a return, an open
 * end has a call at its start, and what starts anywhere else is open at both ends.
 */
module Labels {
  import opened TraceTypes
  import opened Machine
  import opened Lanes
  import opened Evidence
  import opened Symbols
  import opened Recon
  import opened Runs
  import opened Results
  import opened Events
  import Steps
  import Tally
  import opened Origin
  import Laminar
  import SpanIds
  import Owners
  import RoundTrip
  import Tracking

  ghost predicate KindAt(events: seq<FlowEvent>, id: nat, kind: FlowKind) {
    exists i :: 0 <= i < |events| && events[i].id == id && events[i].kind == kind
  }

  predicate Known(c: Completeness) { c == OpenEnd || c == OpenStart }

  /** Called frames are those whose first event is a call. */
  ghost predicate FrameTrue(f: Frame, events: seq<FlowEvent>) {
    Known(f.completeness) && (f.completeness == OpenEnd <==> KindAt(events, f.startEvent, Call))
  }

  ghost predicate RowTrue(th: ThreadState, events: seq<FlowEvent>) {
    forall i :: 0 <= i < |th.stack| ==> FrameTrue(th.stack[i], events)
  }

  /** What each label promises of the events at the two ends. */
  ghost predicate SpanTrue(s: Span, events: seq<FlowEvent>) {
    match s.completeness
    case Complete => KindAt(events, s.startEvent, Call) && KindAt(events, s.endEvent, Return)
    case OpenEnd => KindAt(events, s.startEvent, Call) && s.endEvent == s.startEvent
    case OpenBoth => !KindAt(events, s.startEvent, Call)
    case OpenStart => false
    case InterruptedByGap => s.end.None? && s.endEvent == s.startEvent
    case UncertainUnwind => !KindAt(events, s.endEvent, Call)
  }

  ghost predicate AllLabelled(m: State) {
    && (forall k :: k in m.threads ==> RowTrue(m.threads[k], m.events))
    && (forall a :: 0 <= a < |m.spans| ==> SpanTrue(m.spans[a], m.events))
  }

  /** One row changes, to a true one, and true spans are added. */
  lemma StepLabelled(m: State, r: State, key: Key)
    requires AllLabelled(m) && key in r.threads && RowTrue(r.threads[key], m.events) && r.events == m.events
    requires forall k :: k in r.threads && k != key ==> k in m.threads && r.threads[k] == m.threads[k]
    requires m.spans <= r.spans && (forall a :: |m.spans| <= a < |r.spans| ==> SpanTrue(r.spans[a], m.events))
    ensures AllLabelled(r)
  {
    hide SpanTrue;
    forall a | 0 <= a < |r.spans| ensures SpanTrue(r.spans[a], m.events) {
      if a < |m.spans| { assert r.spans[a] == m.spans[a]; }
    }
  }

  lemma OpenLabelled(m: State, key: Key, func: Option<nat>, abs: Option<nat>, eid: nat, c: Completeness,
                     site: Option<nat>)
    requires AllLabelled(m) && key in m.threads && Known(c) && (c == OpenEnd <==> KindAt(m.events, eid, Call))
    ensures AllLabelled(PushOpen(m, key, func, abs, eid, c, site))
  {
    hide KindAt, SpanTrue;
    assert RowTrue(m.threads[key], m.events);
    StepLabelled(m, PushOpen(m, key, func, abs, eid, c, site), key);
  }

  lemma PopLabelled(m: State, key: Key, end: Option<nat>, endEvent: nat, c: Completeness)
    requires AllLabelled(m) && key in m.threads && m.threads[key].stack != []
    requires SpanTrue(SpanOf(m.threads[key].Top(), m.threads[key].id, end, endEvent, c), m.events)
    ensures AllLabelled(PopEmit(m, key, end, endEvent, c))
  {
    hide KindAt, SpanTrue;
    assert RowTrue(m.threads[key], m.events);
    StepLabelled(m, PopEmit(m, key, end, endEvent, c), key);
  }

  lemma RowLabelled(m: State, r: State, key: Key)
    requires AllLabelled(m) && key in m.threads && r.events == m.events && r.spans == m.spans
    requires r.threads.Keys == m.threads.Keys && r.threads[key].stack == m.threads[key].stack
    requires forall k :: k in m.threads && k != key ==> r.threads[k] == m.threads[k]
    ensures AllLabelled(r)
  {
    hide SpanTrue;
    assert RowTrue(m.threads[key], m.events);
    StepLabelled(m, r, key);
  }

  lemma {:induction false} InterruptLabelled(m: State, key: Key)
    requires AllLabelled(m) && key in m.threads
    ensures AllLabelled(Interrupt(m, key)) && Interrupt(m, key).events == m.events
    decreases |m.threads[key].stack|
  {
    hide AllLabelled, KindAt;
    var th := m.threads[key];
    if th.stack != [] {
      PopLabelled(m, key, None, th.Top().startEvent, InterruptedByGap);
      InterruptLabelled(PopEmit(m, key, None, th.Top().startEvent, InterruptedByGap), key);
    }
  }

  lemma TopTrue(m: State, key: Key)
    requires AllLabelled(m) && key in m.threads && m.threads[key].stack != []
    ensures FrameTrue(m.threads[key].Top(), m.events)
  {
    hide SpanTrue, KindAt;
    assert RowTrue(m.threads[key], m.events);
  }

  lemma {:induction false} CloseLabelled(m: State, key: Key, end: Option<nat>)
    requires AllLabelled(m) && key in m.threads
    ensures AllLabelled(CloseOpen(m, key, end)) && CloseOpen(m, key, end).events == m.events
    decreases |m.threads[key].stack|
  {
    hide AllLabelled, KindAt;
    var th := m.threads[key];
    if th.stack != [] {
      TopTrue(m, key);
      PopLabelled(m, key, end, th.Top().startEvent, OpenLabel(th.Top().completeness));
      CloseLabelled(PopEmit(m, key, end, th.Top().startEvent, OpenLabel(th.Top().completeness)), key, end);
    }
  }

  lemma BreakLabelled(m: State, key: Key, kind: GapKind, start: Option<nat>, end: Option<nat>, known: bool)
    requires AllLabelled(m) && key in m.threads
    ensures var r := ThreadGap(Interrupt(m, key), key, kind, start, end, known);
            key in r.threads && AllLabelled(r) && r.events == m.events
  {
    hide AllLabelled, Interrupt;
    InterruptLabelled(m, key);
    GapLabelled(Interrupt(m, key), key, kind, start, end, known);
  }

  lemma GapLabelled(m: State, key: Key, kind: GapKind, start: Option<nat>, end: Option<nat>, known: bool)
    requires AllLabelled(m) && key in m.threads
    ensures AllLabelled(ThreadGap(m, key, kind, start, end, known))
  {
    hide AllLabelled;
    RowLabelled(m, ThreadGap(m, key, kind, start, end, known), key);
  }

  /** The sample's own event is what its kind says; one that begins the trace is no call. */
  ghost predicate Agrees(f: Flow, events: seq<FlowEvent>) {
    && (KindAt(events, f.eid, Call) <==> f.kind == Call) && (f.kind == Return ==> KindAt(events, f.eid, Return))
    && (f.boundary.traceBegin ==> f.kind != Call)
  }

  lemma OpenKnownLabelled(m: State, key: Key, f: Flow)
    requires AllLabelled(m) && key in m.threads && Agrees(f, m.events) && f.kind != Call
    ensures AllLabelled(OpenKnown(m, key, f)) && OpenKnown(m, key, f).events == m.events
  {
    hide AllLabelled, PushOpen, KindAt;
    var fn := Or(f.to.func, f.from.func);
    if fn.Some? {
      OpenLabelled(m, key, fn, f.abs, f.eid, OpenStart, f.site);
      OpenEvents(m, key, fn, f.abs, f.eid, OpenStart, f.site);
    }
  }

  lemma OpenEvents(m: State, key: Key, func: Option<nat>, abs: Option<nat>, eid: nat, c: Completeness,
                   site: Option<nat>)
    requires key in m.threads
    ensures PushOpen(m, key, func, abs, eid, c, site).events == m.events
  {}

  lemma SettleLabelled(m: State, key: Key, pending: PendingEnd, f: Flow)
    requires AllLabelled(m) && key in m.threads && Agrees(f, m.events)
    ensures var r := SettlePending(m, key, pending, f).0; AllLabelled(r) && r.events == m.events
  {
    hide AllLabelled, Interrupt, OpenKnown, PushOpen, KindAt;
    var hole := RingHole(pending, f);
    if !hole && f.boundary.traceBegin && pending.fromFn.Some? && f.to.func == pending.fromFn {
      var known := pending.abs.Some? && f.abs.Some?;
      var g := ThreadGap(m, key, TraceBoundary, pending.abs, f.abs, known);
      GapLabelled(m, key, TraceBoundary, pending.abs, f.abs, known);
      OpenLabelled(g, key, f.to.func, Or(pending.abs, f.abs), f.eid, OpenStart, f.site);
      OpenEvents(g, key, f.to.func, Or(pending.abs, f.abs), f.eid, OpenStart, f.site);
    } else {
      var kind, end := if hole then RingTruncation else UnknownGap, if hole then Or(f.cpuFirst, f.abs) else f.abs;
      var known := hole && pending.abs.Some? && end.Some?;
      BreakLabelled(m, key, kind, pending.abs, end, known);
      if f.boundary.traceBegin {
        OpenKnownLabelled(ThreadGap(Interrupt(m, key), key, kind, pending.abs, end, known), key, f);
      }
    }
  }

  lemma BoundaryLabelled(m: State, key: Key, f: Flow)
    requires AllLabelled(m) && key in m.threads && Agrees(f, m.events)
    ensures AllLabelled(ApplyBoundary(m, key, f))
  {
    hide AllLabelled, Interrupt, OpenKnown, ThreadGap, KindAt;
    RowLabelled(m, SetPending(m, key, Some(PendingEnd(f.from.func, f.from.loc, f.abs, f.cpu))), key);
    BreakLabelled(m, key, UnknownGap, f.abs, None, false);
    if f.boundary.traceBegin { OpenKnownLabelled(m, key, f); }
  }

  lemma ReturnLabelled(m: State, key: Key, f: Flow)
    requires AllLabelled(m) && key in m.threads && Agrees(f, m.events) && f.kind == Return
    ensures AllLabelled(ApplyReturn(m, key, f))
  {
    hide KindAt;
    var th := m.threads[key];
    if th.stack != [] {
      TopTrue(m, key);
      hide AllLabelled;
      PopLabelled(m, key, f.abs, f.eid, ReturnLabel(th.Top().completeness));
    } else {
      assert RowTrue(th, m.events);
      var u := EmitUnmatched(m, key, f.from.func, f.abs, f.eid);
      StepLabelled(m, u, key);
      hide AllLabelled;
      if f.to.func.Some? { OpenLabelled(u, key, f.to.func, f.abs, f.eid, OpenStart, f.site); }
    }
  }

  lemma TailLabelled(m: State, key: Key, f: Flow)
    requires AllLabelled(m) && key in m.threads && Agrees(f, m.events) && f.kind != Call
    ensures AllLabelled(TailCall(m, key, f))
  {
    hide KindAt;
    var th := m.threads[key];
    var parent := if th.stack == [] then None else th.Top().parent;
    var m1 := if th.stack == [] then m else PopEmit(m, key, f.abs, f.eid, UncertainUnwind);
    if th.stack != [] { PopLabelled(m, key, f.abs, f.eid, UncertainUnwind); }
    OpenLabelled(m1, key, f.to.func, f.abs, f.eid, OpenStart, f.site);
    var m2 := PushOpen(m1, key, f.to.func, f.abs, f.eid, OpenStart, f.site);
    assert RowTrue(m2.threads[key], m2.events);
    StepLabelled(m2, TailCall(m, key, f), key);
  }

  lemma JumpLabelled(m: State, key: Key, f: Flow)
    requires AllLabelled(m) && key in m.threads && Agrees(f, m.events) && f.kind != Call
    ensures AllLabelled(ApplyJump(m, key, f))
  {
    hide TailCall, KindAt;
    TailLabelled(m, key, f);
    var th := m.threads[key];
    if th.stack != [] && f.to.func.Some? {
      assert RowTrue(th, m.events);
      StepLabelled(m, RenameTop(m, key, f.to.func.value), key);
    }
  }

  lemma FlowLabelled(m: State, key: Key, f: Flow)
    requires AllLabelled(m) && key in m.threads && Agrees(f, m.events)
    ensures AllLabelled(ApplyFlow(m, key, f))
  {
    hide AllLabelled, SettlePending, ApplyBoundary, ApplyReturn, ApplyJump, PushOpen, Agrees;
    var pending := m.threads[key].pendingEnd;
    var m1 := m;
    if pending.Some? {
      RowLabelled(m, SetPending(m, key, None), key);
      SettleLabelled(SetPending(m, key, None), key, pending.value, f);
      m1 := SettlePending(SetPending(m, key, None), key, pending.value, f).0;
    }
    BoundaryLabelled(m1, key, f);
    TransferLabelled(m1, key, f);
  }

  lemma TransferLabelled(m: State, key: Key, f: Flow)
    requires AllLabelled(m) && key in m.threads && Agrees(f, m.events)
    ensures AllLabelled(ApplyTransfer(m, key, f))
  {
    hide AllLabelled, ApplyReturn, ApplyJump, PushOpen, KindAt;
    match f.kind
    case Call => OpenLabelled(m, key, f.to.func, f.abs, f.eid, OpenEnd, f.site);
    case Return => ReturnLabelled(m, key, f);
    case Jump => JumpLabelled(m, key, f);
    case Conditional => JumpLabelled(m, key, f);
    case _ =>
  }

  // ----- whole records -----

  lemma EnterLabelled(r: Recon, key: Key, time: Option<nat>)
    requires AllLabelled(r.m)
    ensures AllLabelled(WithThread(r.m, key, Generation(r.generation, key)))
    ensures AllLabelled(Touch(WithThread(r.m, key, Generation(r.generation, key)), key, time))
  {
    hide SpanTrue, FrameTrue;
    var m := WithThread(r.m, key, Generation(r.generation, key));
    StepLabelled(r.m, m, key);
    RowLabelled(m, Touch(m, key, time), key);
  }

  lemma AdvanceLabelled(m: State, key: Key, time: Option<nat>)
    requires AllLabelled(m) && key in m.threads
    ensures AllLabelled(Advance(m, key, time))
  {
    hide AllLabelled, Interrupt;
    var prev := m.threads[key].lastAbs;
    var m1 := m;
    if Regresses(prev, time) {
      BreakLabelled(m, key, TimeRegression, prev, time, true);
      m1 := ThreadGap(Interrupt(m, key), key, TimeRegression, prev, time, true);
    }
    if time.Some? { RowLabelled(m1, Advance(m, key, time), key); }
  }

  /** An event with a new id changes nothing about the old ones. */
  lemma OldKinds(events: seq<FlowEvent>, e: FlowEvent, id: nat, kind: FlowKind)
    requires id != e.id
    ensures KindAt(events + [e], id, kind) <==> KindAt(events, id, kind)
  {
    var all := events + [e];
    if KindAt(events, id, kind) {
      var i :| 0 <= i < |events| && events[i].id == id && events[i].kind == kind;
      assert all[i] == events[i];
    }
    if KindAt(all, id, kind) {
      var i :| 0 <= i < |all| && all[i].id == id && all[i].kind == kind;
      assert events[i] == all[i];
    }
  }

  lemma NewKind(events: seq<FlowEvent>, e: FlowEvent, kind: FlowKind)
    requires forall i :: 0 <= i < |events| ==> events[i].id != e.id
    ensures KindAt(events + [e], e.id, kind) <==> e.kind == kind
  {
    var all := events + [e];
    assert all[|events|] == e;
    if KindAt(all, e.id, kind) {
      var i :| 0 <= i < |all| && all[i].id == e.id && all[i].kind == kind;
    }
  }

  lemma SpanLasts(s: Span, events: seq<FlowEvent>, e: FlowEvent)
    requires SpanTrue(s, events) && s.startEvent != e.id && s.endEvent != e.id
    ensures SpanTrue(s, events + [e])
  {
    hide KindAt;
    OldKinds(events, e, s.startEvent, Call);
    OldKinds(events, e, s.endEvent, Return);
    OldKinds(events, e, s.endEvent, Call);
  }

  lemma RowLasts(th: ThreadState, events: seq<FlowEvent>, e: FlowEvent)
    requires RowTrue(th, events) && forall i :: 0 <= i < |th.stack| ==> th.stack[i].startEvent != e.id
    ensures RowTrue(th, events + [e])
  {
    hide KindAt;
    forall i | 0 <= i < |th.stack| ensures FrameTrue(th.stack[i], events + [e]) {
      assert FrameTrue(th.stack[i], events);
      OldKinds(events, e, th.stack[i].startEvent, Call);
    }
  }

  lemma StartsBefore(m: State, min: Option<nat>, k: Key, i: nat)
    requires Steps.Inv(m, min, true) && k in m.threads && i < |m.threads[k].stack|
    ensures m.threads[k].stack[i].startEvent < m.nextEvent
  {
    hide Tally.TallyInv, Origin.OriginInv, Laminar.LaminarInv, SpanIds.Ids, LineageInv;
    assert StackOf(m.threads, k) == m.threads[k].stack;
  }

  lemma SpansBefore(m: State, min: Option<nat>, a: nat)
    requires Steps.Inv(m, min, true) && a < |m.spans|
    ensures m.spans[a].startEvent < m.nextEvent && m.spans[a].endEvent < m.nextEvent
  {
    hide Tally.TallyInv, Origin.OriginInv, Laminar.LaminarInv, SpanIds.Ids, LineageInv;
    assert Backed(m.events, m.spans[a]);
  }

  lemma EventsBefore(m: State, min: Option<nat>)
    requires Steps.Inv(m, min, true)
    ensures forall i :: 0 <= i < |m.events| ==> m.events[i].id < m.nextEvent
  {
    hide Tally.TallyInv, Origin.OriginInv, Laminar.LaminarInv, SpanIds.Ids, LineageInv;
  }

  lemma MoreEvents(m: State, r: State, min: Option<nat>, e: FlowEvent)
    requires AllLabelled(m) && Steps.Inv(m, min, true) && e.id == m.nextEvent && r.events == m.events + [e]
    requires r.spans == m.spans && r.threads.Keys == m.threads.Keys
    requires forall k :: k in m.threads ==> r.threads[k].stack == m.threads[k].stack
    ensures AllLabelled(r)
  {
    hide Steps.Inv, FrameTrue, SpanTrue;
    forall k | k in r.threads ensures RowTrue(r.threads[k], r.events) {
      forall i | 0 <= i < |m.threads[k].stack| ensures m.threads[k].stack[i].startEvent != e.id {
        StartsBefore(m, min, k, i);
      }
      RowLasts(m.threads[k], m.events, e);
    }
    forall a | 0 <= a < |r.spans| ensures SpanTrue(r.spans[a], r.events) {
      SpansBefore(m, min, a);
      SpanLasts(m.spans[a], m.events, e);
    }
  }

  /** Storing the sample's event, or leaving it out if it is plain, makes its flow agree with the events. */
  lemma RetainLabelled(m: State, key: Key, s: Sample, from: Resolved, to: Resolved, min: Option<nat>, first: map<nat,
                       nat>)
    requires AllLabelled(m) && Steps.Inv(m, min, true) && key in m.threads
    ensures var r := Retain(m, key, s, from, to);
            AllLabelled(r) && Agrees(FlowOf(s, from, to, first, m.nextEvent), r.events)
  {
    hide Steps.Inv, AllLabelled, KindAt, FlagsKind;
    var r := Retain(m, key, s, from, to);
    EventsBefore(m, min);
    BeginIsNoCall(s.flags);
    if Skipped(FlagsKind(s.flags), FlagsBoundary(s.flags), from, to) {
      SameLabels(m, r);
      NoKind(m.events, m.nextEvent);
    } else {
      var e := EventOf(m, key, s, from, to);
      MoreEvents(m, r, min, e);
      NewKind(m.events, e, Call);
      NewKind(m.events, e, Return);
    }
  }

  lemma BeginIsNoCall(flags: set<Flag>)
    ensures FlagsBoundary(flags).traceBegin ==> FlagsKind(flags) != Call && FlagsKind(flags) != Return
  {}

  lemma NoKind(events: seq<FlowEvent>, id: nat)
    requires forall i :: 0 <= i < |events| ==> events[i].id < id
    ensures forall kind :: !KindAt(events, id, kind)
  {}

  lemma SameLabels(m: State, r: State)
    requires AllLabelled(m) && r.threads == m.threads && r.spans == m.spans && r.events == m.events
    ensures AllLabelled(r)
  {}

  lemma SampleLabelled(images: seq<Image>, r: Recon, s: Sample)
    requires AllLabelled(r.m) && ReconInv(images, r, true)
    ensures AllLabelled(PushSample(images, r, s).m)
  {
    hide Steps.Inv, TablesInv, GenerationsOk, AllLabelled, Agrees, Touch, WithThread, Advance, Retain, ApplyFlow,
         Resolve, FlagsKind;
    var key := (s.pid, s.tid);
    var min := NoteAbs(r.minAbs, s.time);
    NoteKeepsInv(r.m, r.minAbs, s.time, true);
    var m0 := WithThread(r.m, key, Generation(r.generation, key));
    WithThreadKeepsInv(r.m, key, Generation(r.generation, key), min, true);
    var mt := Touch(m0, key, s.time);
    TouchKeepsInv(m0, key, s.time, min, true);
    var m1 := Advance(mt, key, s.time);
    AdvanceKeepsInv(mt, key, s.time, min, true);
    EnterLabelled(r, key, s.time);
    AdvanceLabelled(mt, key, s.time);
    var (from, t1) := Resolve(images, r.tables, s.pid, s.ip);
    var (to, t2) := Resolve(images, t1, s.pid, s.addr);
    RetainLabelled(m1, key, s, from, to, min, r.cpuFirst);
    FlowLabelled(Retain(m1, key, s, from, to), key, FlowOf(s, from, to, r.cpuFirst, m1.nextEvent));
  }

  lemma ErrorLabelled(r: Recon, e: DecoderErrorEvent)
    requires AllLabelled(r.m)
    ensures AllLabelled(PushError(r, e).m)
  {
    hide AllLabelled, Interrupt, ThreadGap, WithThread;
    var kind := if e.code == Some(5) then MissingImage else DecoderError;
    if e.pid.Some? && e.tid.Some? {
      var key := (e.pid.value, e.tid.value);
      EnterLabelled(r, key, e.time);
      BreakLabelled(WithThread(r.m, key, Generation(r.generation, key)), key, kind, e.time, None, false);
    } else {
      SameLabels(r.m, AddGap(r.m, UnknownThread, kind, e.time, None, false));
    }
  }

  lemma RetireLabelled(m: State, key: Key, end: Option<nat>)
    requires AllLabelled(m) && key in m.threads
    ensures AllLabelled(Retire(m, key, end))
  {
    hide CloseOpen, Without, SpanTrue, RowTrue;
    CloseLabelled(m, key, end);
  }

  lemma PushLabelled(images: seq<Image>, r: Recon, rec: Record)
    requires AllLabelled(r.m) && ReconInv(images, r, true)
    ensures AllLabelled(Push(images, r, rec).m)
  {
    hide AllLabelled, Steps.Inv, TablesInv, PushSample, PushError, Retire, AddMapping, NoteCpu;
    var n := Noted(r, rec);
    match rec
    case SampleRecord(s) => SampleLabelled(images, n, s);
    case TaskRecord(t) => if (t.pid, t.tid) in n.m.threads { RetireLabelled(n.m, (t.pid, t.tid), t.time); }
    case DecoderErrorRecord(e) => ErrorLabelled(n, e);
    case LostRecord => SameLabels(n.m, AddGap(n.m, UnknownThread, PtLoss, None, None, false));
    case _ =>
  }

  lemma {:induction false} RunLabelled(images: seq<Image>, r: Recon, recs: seq<Record>)
    requires AllLabelled(r.m) && ReconInv(images, r, true)
    ensures AllLabelled(PushAll(images, r, recs).m)
    decreases |recs|
  {
    hide AllLabelled, ReconInv, Push;
    if recs != [] {
      PushLabelled(images, r, recs[0]);
      PushKeepsInv(images, r, recs[0], true);
      RunLabelled(images, Push(images, r, recs[0]), recs[1..]);
    }
  }

  lemma {:induction false} CloseAllLabelled(m: State, keys: seq<Key>)
    requires AllLabelled(m) && forall k :: k in keys ==> k in m.threads
    ensures AllLabelled(CloseAll(m, keys))
    decreases |keys|
  {
    hide AllLabelled, CloseOpen;
    if keys != [] {
      var m0 := SetPending(m, keys[0], None);
      RowLabelled(m, m0, keys[0]);
      CloseLabelled(m0, keys[0], None);
      CloseOpenKeys(m0, keys[0], None);
      CloseAllLabelled(CloseOpen(m0, keys[0], None), keys[1..]);
    }
  }

  /** For every stream and filter, the label of every span of a returned analysis is true of its events. */
  lemma LabelsAreTrue(images: seq<Image>, filter: Option<Tracker>, recs: seq<Record>)
    ensures var r := PushAll(images, New(filter), recs);
            && (forall k :: k in r.m.order <==> k in r.m.threads)
            && (Finish(r).Ok? ==>
                  forall i :: 0 <= i < |Finish(r).value.spans| ==>
                    SpanTrue(Finish(r).value.spans[i], Finish(r).value.events))
  {
    hide ReconInv, PushAll, SpanTrue, Finish;
    AnyRun(images, filter, recs);
    NewHasInv(images, filter, true);
    RunLabelled(images, New(filter), recs);
    var r := PushAll(images, New(filter), recs);
    ClosedHasInv(images, r, true);
    FinishedLabels(r);
  }

  lemma FinishedLabels(r: Recon)
    requires AllLabelled(r.m) && forall k :: k in r.m.order <==> k in r.m.threads
    ensures Finish(r).Ok? ==>
              forall i :: 0 <= i < |Finish(r).value.spans| ==>
                SpanTrue(Finish(r).value.spans[i], Finish(r).value.events)
  {
    hide SortById, CloseAll, RowTrue, SpanTrue;
    CloseAllLabelled(r.m, r.m.order);
    if Finish(r).Ok? {
      var m, a := CloseAll(r.m, r.m.order), Finish(r).value;
      var rb := RebaseSpans(m.spans, a.origin);
      Owners.SortAddsNone(rb);
      forall i | 0 <= i < |a.spans| ensures SpanTrue(a.spans[i], a.events) {
        assert a.spans[i] in a.spans;
        var j :| 0 <= j < |rb| && rb[j] == a.spans[i];
        RebasedLabel(m.spans[j], m.events, a.spans[i], a.events);
      }
    }
  }

  lemma RebasedLabel(s: Span, events: seq<FlowEvent>, s': Span, events': seq<FlowEvent>)
    requires SpanTrue(s, events) && s' == s.(start := s'.start, end := s'.end) && (s'.end.None? <==> s.end.None?)
    requires |events'| == |events|
    requires forall i :: 0 <= i < |events| ==> events'[i].id == events[i].id && events'[i].kind == events[i].kind
    ensures SpanTrue(s', events')
  {
    hide KindAt;
    SameKinds(events, events', s.startEvent);
    SameKinds(events, events', s.endEvent);
  }

  lemma SameKinds(events: seq<FlowEvent>, events': seq<FlowEvent>, id: nat)
    requires |events'| == |events|
    requires forall i :: 0 <= i < |events| ==> events'[i].id == events[i].id && events'[i].kind == events[i].kind
    ensures forall kind :: KindAt(events', id, kind) <==> KindAt(events, id, kind)
  {}
}
