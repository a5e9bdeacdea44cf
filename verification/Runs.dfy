/** What holds of the reconstructor after every record stream. */
module Runs {
  import opened TraceTypes
  import opened Machine
  import opened Lanes
  import opened SpanIds
  import opened Laminar
  import opened Evidence
  import opened Origin
  import opened Tally
  import opened Steps
  import opened Symbols
  import opened Recon

  /** How many of the rows are rows of this task. */
  function Count(rows: seq<ThreadState>, k: Key): nat {
    if rows == [] then 0
    else Count(rows[..|rows| - 1], k) + if (rows[|rows| - 1].pid, rows[|rows| - 1].tid) == k then 1 else 0
  }

  lemma CountLast(rows: seq<ThreadState>, th: ThreadState, k: Key)
    ensures Count(rows + [th], k) == Count(rows, k) + if (th.pid, th.tid) == k then 1 else 0
  {
    assert (rows + [th])[..|rows|] == rows;
  }

  /** The generation in a thread's id is the number of rows of its task that were retired before. */
  ghost predicate GenerationsOk(r: Recon) {
    && (forall k :: Generation(r.generation, k) == Count(r.m.retired, k))
    && (forall k :: k in r.m.threads ==> r.m.threads[k].id == ThreadId(k.1, Generation(r.generation, k)))
    && RetiredOk(r.m.retired)
  }

  ghost predicate RetiredOk(retired: seq<ThreadState>) {
    forall i :: 0 <= i < |retired| ==> IsGeneration(retired[i], Count(retired[..i], (retired[i].pid, retired[i].tid)))
  }

  predicate IsGeneration(th: ThreadState, n: nat) {
    th.id == ThreadId(th.tid, n) && th.stack == []
  }

  ghost predicate ReconInv(images: seq<Image>, r: Recon, zeros: bool) {
    && Inv(r.m, r.minAbs, zeros)
    && TablesInv(images, r.tables)
    && GenerationsOk(r)
    && r.m.samples == r.m.nextEvent
  }

  // ----- samples -----

  lemma WithThreadKeepsInv(m: State, key: Key, generation: nat, min: Option<nat>, zeros: bool)
    requires Inv(m, min, zeros)
    ensures Inv(WithThread(m, key, generation), min, zeros)
  {
    hide TallyInv, LanesInv, OriginInv;
    if key !in m.threads {
      var r := WithThread(m, key, generation);
      var th := NewThread(ThreadId(key.1, generation), key);
      NewThreadKeepsTally(m, key, ThreadId(key.1, generation));
      assert Calm(m.threads, r.threads);
      CalmKeepsLanes(m.threads, r.threads, m.spans, m.nextSpan, m.events, m.nextEvent);
      SetThreadKeepsOrigin(m, key, th, min, zeros);
      OriginIgnoresOrder(SetThread(m, key, th), r, min, zeros);
    }
  }

  lemma OriginIgnoresOrder(m: State, r: State, min: Option<nat>, zeros: bool)
    requires OriginInv(m, min, zeros) && r == m.(order := r.order)
    ensures OriginInv(r, min, zeros)
  {}

  lemma TouchKeepsInv(m: State, key: Key, time: Option<nat>, min: Option<nat>, zeros: bool)
    requires Inv(m, min, zeros) && key in m.threads
    ensures Inv(Touch(m, key, time), min, zeros)
  {
    hide LanesInv;
    var r := Touch(m, key, time);
    assert ThreadGood(m.threads[key], min, zeros);
    SetThreadKeepsOrigin(m, key, r.threads[key], min, zeros);
    SetThreadKeepsTally(m, key, r.threads[key], r);
    SetThreadIsCalm(m, key, r.threads[key]);
    CalmKeepsLanes(m.threads, r.threads, m.spans, m.nextSpan, m.events, m.nextEvent);
  }

  lemma AdvanceKeepsInv(m: State, key: Key, time: Option<nat>, min: Option<nat>, zeros: bool)
    requires Inv(m, min, zeros) && key in m.threads && Good(time, min, true)
    requires Regresses(m.threads[key].lastAbs, time) ==> Good(time, min, zeros)
    ensures Inv(Advance(m, key, time), min, zeros)
    ensures var r := Advance(m, key, time);
            r.threads[key].id == m.threads[key].id && (time.Some? ==> r.threads[key].lastAbs == time)
            && r.events == m.events && r.nextEvent == m.nextEvent
  {
    hide Inv;
    var prev := m.threads[key].lastAbs;
    ThreadIsGood(m, key, min, zeros);
    var m1 := m;
    if Regresses(prev, time) {
      InterruptKeepsInv(m, key, min, zeros);
      GapKeepsInv(Interrupt(m, key), key, TimeRegression, prev, time, true, min, zeros);
      m1 := ThreadGap(Interrupt(m, key), key, TimeRegression, prev, time, true);
      assert m1.threads[key].stack == [];
    }
    if time.Some? {
      ThreadIsGood(m1, key, min, zeros);
      SetThreadKeepsInv(m1, key, m1.threads[key].(lastAbs := time), min, zeros);
    }
  }

  lemma ThreadIsGood(m: State, key: Key, min: Option<nat>, zeros: bool)
    requires Inv(m, min, zeros) && key in m.threads
    ensures ThreadGood(m.threads[key], min, zeros) && (m.threads[key].pid, m.threads[key].tid) == key
  {}

  lemma RetainKeepsInv(m: State, key: Key, s: Sample, from: Resolved, to: Resolved, min: Option<nat>, zeros: bool)
    requires Inv(m, min, zeros) && key in m.threads
    requires Skipped(FlagsKind(s.flags), FlagsBoundary(s.flags), from, to) || Good(s.time, min, zeros)
    ensures var r := Retain(m, key, s, from, to);
            && Inv(r, min, zeros) && r.nextEvent == m.nextEvent + 1 && r.threads[key].lastAbs == m.threads[key].lastAbs
            && (!Skipped(FlagsKind(s.flags), FlagsBoundary(s.flags), from, to) ==>
                  Has(r.events, m.nextEvent, r.threads[key].id))
  {
    hide Ids, LaminarInv, LineageInv;
    var r := Retain(m, key, s, from, to);
    if Skipped(FlagsKind(s.flags), FlagsBoundary(s.flags), from, to) {
      hide OriginInv;
      assert EvidenceInv(r.threads, r.spans, r.events, r.nextEvent);
      assert TallyInv(r) by { TallyIgnoresEventIds(m, r); }
      assert OriginInv(r, min, zeros) by { OriginIgnoresEventIds(m, r, min, zeros); }
    } else {
      var e := EventOf(m, key, s, from, to);
      assert r.events[|m.events|] == e;
      StoredEventKeepsInv(m, key, e, r, min, zeros);
    }
  }

  lemma TallyIgnoresEventIds(m: State, r: State)
    requires TallyInv(m) && r == m.(nextEvent := m.nextEvent + 1)
    ensures TallyInv(r)
  {}

  lemma OriginIgnoresEventIds(m: State, r: State, min: Option<nat>, zeros: bool)
    requires OriginInv(m, min, zeros) && r == m.(nextEvent := m.nextEvent + 1)
    ensures OriginInv(r, min, zeros)
  {}

  lemma StoredEventKeepsInv(m: State, key: Key, e: FlowEvent, r: State, min: Option<nat>, zeros: bool)
    requires Inv(m, min, zeros) && key in m.threads && e.id == m.nextEvent && Good(e.time, min, zeros)
    requires var th := m.threads[key];
             r == SetThread(m, key, th.(retained := th.retained + 1))
                    .(events := m.events + [e], nextEvent := m.nextEvent + 1)
    ensures Inv(r, min, zeros)
  {
    hide Ids, LaminarInv, LineageInv, EvidenceInv, OriginInv;
    var th := m.threads[key];
    SetThreadKeepsTally(m, key, r.threads[key], r);
    SetThreadIsCalm(m, key, r.threads[key]);
    CalmKeepsLanes(m.threads, r.threads, m.spans, m.nextSpan, m.events, m.nextEvent);
    EventKeepsEvidence(r.threads, m.spans, m.events, e, m.nextEvent);
    StoredEventKeepsOrigin(m, key, e, r, min, zeros);
  }

  lemma StoredEventKeepsOrigin(m: State, key: Key, e: FlowEvent, r: State, min: Option<nat>, zeros: bool)
    requires OriginInv(m, min, zeros) && key in m.threads && Good(e.time, min, zeros)
    requires var th := m.threads[key];
             r == SetThread(m, key, th.(retained := th.retained + 1))
                    .(events := m.events + [e], nextEvent := m.nextEvent + 1)
    ensures OriginInv(r, min, zeros)
  {}

  /** What `ApplyFlow` leaves alone, whatever the sample. */
  /** The row is the same task's, at the same sample. */
  predicate SameTurn(th: ThreadState, th': ThreadState) {
    th'.id == th.id && th'.lastSeq == th.lastSeq && th'.branches == th.branches
  }

  ghost predicate SameOutside(m: State, r: State) {
    && r.threads.Keys == m.threads.Keys
    && (forall k :: k in m.threads ==> SameTurn(m.threads[k], r.threads[k]))
    && r.retired == m.retired && r.order == m.order
    && r.samples == m.samples && r.nextEvent == m.nextEvent && r.events == m.events
  }

  lemma {:induction false} InterruptOutside(m: State, key: Key)
    requires key in m.threads
    ensures SameOutside(m, Interrupt(m, key))
    decreases |m.threads[key].stack|
  {
    var th := m.threads[key];
    if th.stack != [] { InterruptOutside(PopEmit(m, key, None, th.Top().startEvent, InterruptedByGap), key); }
  }

  lemma {:induction false} CloseOpenOutside(m: State, key: Key, end: Option<nat>)
    requires key in m.threads
    ensures SameOutside(m, CloseOpen(m, key, end))
    decreases |m.threads[key].stack|
  {
    var th := m.threads[key];
    if th.stack != [] {
      CloseOpenOutside(PopEmit(m, key, end, th.Top().startEvent, OpenLabel(th.Top().completeness)), key, end);
    }
  }

  lemma OpenOutside(m: State, key: Key, func: Option<nat>, abs: Option<nat>, eid: nat, c: Completeness,
                    site: Option<nat>)
    requires key in m.threads
    ensures SameOutside(m, PushOpen(m, key, func, abs, eid, c, site))
  {}

  lemma OpenKnownOutside(m: State, key: Key, f: Flow)
    requires key in m.threads
    ensures SameOutside(m, OpenKnown(m, key, f))
  {}

  /** Losing continuity and charging the thread a gap for it. */
  lemma BreakOutside(m: State, key: Key, kind: GapKind, start: Option<nat>, end: Option<nat>, known: bool)
    requires key in m.threads
    ensures SameOutside(m, ThreadGap(Interrupt(m, key), key, kind, start, end, known))
  {
    hide Interrupt, ThreadGap;
    InterruptOutside(m, key);
    GapOutside(Interrupt(m, key), key, kind, start, end, known);
  }

  lemma SettleOutside(m: State, key: Key, pending: PendingEnd, f: Flow)
    requires key in m.threads
    ensures SameOutside(m, SettlePending(m, key, pending, f).0)
  {
    hide Interrupt, OpenKnown, PushOpen, ThreadGap;
    if RingHole(pending, f) || !f.boundary.traceBegin || !(pending.fromFn.Some? && f.to.func == pending.fromFn) {
      var kind := if RingHole(pending, f) then RingTruncation else UnknownGap;
      var end := if RingHole(pending, f) then Or(f.cpuFirst, f.abs) else f.abs;
      var known := RingHole(pending, f) && pending.abs.Some? && end.Some?;
      BreakOutside(m, key, kind, pending.abs, end, known);
      OpenKnownOutside(ThreadGap(Interrupt(m, key), key, kind, pending.abs, end, known), key, f);
    } else {
      var g := ThreadGap(m, key, TraceBoundary, pending.abs, f.abs, pending.abs.Some? && f.abs.Some?);
      assert SameOutside(m, g) by {
        GapOutside(m, key, TraceBoundary, pending.abs, f.abs, pending.abs.Some? && f.abs.Some?);
      }
      OpenOutside(g, key, f.to.func, Or(pending.abs, f.abs), f.eid, OpenStart, f.site);
    }
  }

  lemma GapOutside(m: State, key: Key, kind: GapKind, start: Option<nat>, end: Option<nat>, known: bool)
    requires key in m.threads
    ensures SameOutside(m, ThreadGap(m, key, kind, start, end, known))
  {}

  lemma FlowOutside(m: State, key: Key, f: Flow)
    requires key in m.threads
    ensures SameOutside(m, ApplyFlow(m, key, f))
  {
    hide Interrupt, SettlePending, ApplyBoundary, ApplyTransfer;
    var pending := m.threads[key].pendingEnd;
    var m0 := SetPending(m, key, None);
    var m1 := m;
    if pending.Some? {
      SettleOutside(m0, key, pending.value, f);
      m1 := SettlePending(m0, key, pending.value, f).0;
    }
    BoundaryOutside(m1, key, f);
    TransferOutside(m1, key, f);
  }

  lemma BoundaryOutside(m: State, key: Key, f: Flow)
    requires key in m.threads
    ensures SameOutside(m, ApplyBoundary(m, key, f))
  {
    hide Interrupt;
    InterruptOutside(m, key);
  }

  lemma TransferOutside(m: State, key: Key, f: Flow)
    requires key in m.threads
    ensures SameOutside(m, ApplyTransfer(m, key, f))
  {
    hide ApplyJump, ApplyReturn;
    assert SameOutside(m, ApplyJump(m, key, f)) by { JumpOutside(m, key, f); }
    assert SameOutside(m, ApplyReturn(m, key, f)) by { ReturnOutside(m, key, f); }
  }

  lemma JumpOutside(m: State, key: Key, f: Flow)
    requires key in m.threads
    ensures SameOutside(m, ApplyJump(m, key, f))
  {}

  lemma ReturnOutside(m: State, key: Key, f: Flow)
    requires key in m.threads
    ensures SameOutside(m, ApplyReturn(m, key, f))
  {}

  /** Every sample keeps the whole invariant. */
  lemma PushSampleKeepsInv(images: seq<Image>, r: Recon, s: Sample, zeros: bool)
    requires ReconInv(images, r, zeros) && (zeros || !WritesZero(images, r, SampleRecord(s)))
    ensures ReconInv(images, PushSample(images, r, s), zeros)
  {
    hide Inv, TablesInv, GenerationsOk, Resolve, ApplyFlow, Advance, Retain, Has, SampleWritesTime;
    var key := (s.pid, s.tid);
    var min := NoteAbs(r.minAbs, s.time);
    NoteKeepsInv(r.m, r.minAbs, s.time, zeros);
    if !zeros && s.time == Some(0) { NothingWritten(images, r, s); }
    var m0 := WithThread(r.m, key, Generation(r.generation, key));
    WithThreadKeepsInv(r.m, key, Generation(r.generation, key), min, zeros);
    var mt := Touch(m0, key, s.time);
    TouchKeepsInv(m0, key, s.time, min, zeros);
    var m1 := Advance(mt, key, s.time);
    AdvanceKeepsInv(mt, key, s.time, min, zeros);
    ResolveOk(images, r.tables, s.pid, s.ip);
    var (from, t1) := Resolve(images, r.tables, s.pid, s.ip);
    ResolveOk(images, t1, s.pid, s.addr);
    var (to, t2) := Resolve(images, t1, s.pid, s.addr);
    var m2 := Retain(m1, key, s, from, to);
    RetainKeepsInv(m1, key, s, from, to, min, zeros);
    var f := FlowOf(s, from, to, r.cpuFirst, m1.nextEvent);
    if Good(s.time, min, zeros) {
      FlowKeepsInv(m2, key, f, min, zeros);
    } else {
      FlowWithoutTime(m2, key, f);
      FlowKeepsInv(m2, key, f.(abs := None), min, zeros);
    }
    SampleKeepsGenerations(images, r, s);
  }

  /** When a sample of time 0 writes no time: it is a jump that is not stored, and it is not the end of a gap. */
  lemma NothingWritten(images: seq<Image>, r: Recon, s: Sample)
    requires s.time == Some(0) && !WritesZero(images, r, SampleRecord(s))
    ensures var key := (s.pid, s.tid);
            var mt := Touch(WithThread(r.m, key, Generation(r.generation, key)), key, s.time);
            var m1 := Advance(mt, key, s.time);
            var (from, t1) := Resolve(images, r.tables, s.pid, s.ip);
            var (to, t2) := Resolve(images, t1, s.pid, s.addr);
            var m2 := Retain(m1, key, s, from, to);
            var f := FlowOf(s, from, to, r.cpuFirst, m1.nextEvent);
            && !Regresses(mt.threads[key].lastAbs, s.time) && Skipped(f.kind, f.boundary, from, to) && Intra(f)
            && (m2.threads[key].pendingEnd.Some? ==> RingHole(m2.threads[key].pendingEnd.value, f) && f.cpuFirst.Some?)
  {
    hide Resolve;
  }

  /** A jump that is not stored does the same without its time. */
  lemma FlowWithoutTime(m: State, key: Key, f: Flow)
    requires key in m.threads && Intra(f)
    requires m.threads[key].pendingEnd.Some? ==> RingHole(m.threads[key].pendingEnd.value, f) && f.cpuFirst.Some?
    ensures ApplyFlow(m, key, f) == ApplyFlow(m, key, f.(abs := None))
  {
    hide Interrupt;
  }

  lemma NoteKeepsInv(m: State, min: Option<nat>, t: Option<nat>, zeros: bool)
    requires Inv(m, min, zeros)
    ensures Inv(m, NoteAbs(min, t), zeros) && Good(t, NoteAbs(min, t), zeros || t == Some(0))
  {
    hide TallyInv, LanesInv, OriginInv;
    NoteKeepsOrigin(m, min, zeros, t);
  }

  lemma AdvanceOutside(m: State, key: Key, time: Option<nat>)
    requires key in m.threads
    ensures SameOutside(m, Advance(m, key, time))
  {
    hide Interrupt;
    InterruptOutside(m, key);
  }

  lemma SampleOutside(images: seq<Image>, r: Recon, s: Sample)
    ensures var key := (s.pid, s.tid);
            var m0 := WithThread(r.m, key, Generation(r.generation, key));
            var m' := PushSample(images, r, s).m;
            && m'.threads.Keys == m0.threads.Keys
            && (forall k :: k in m0.threads ==> m'.threads[k].id == m0.threads[k].id)
            && m'.retired == r.m.retired
            && m'.samples == r.m.samples + 1 && m'.nextEvent == r.m.nextEvent + 1
            && PushSample(images, r, s).generation == r.generation
  {
    hide Interrupt, Resolve, ApplyFlow, Advance;
    var key := (s.pid, s.tid);
    var mt := Touch(WithThread(r.m, key, Generation(r.generation, key)), key, s.time);
    AdvanceOutside(mt, key, s.time);
    var m1 := Advance(mt, key, s.time);
    var (from, t1) := Resolve(images, r.tables, s.pid, s.ip);
    var (to, t2) := Resolve(images, t1, s.pid, s.addr);
    FlowOutside(Retain(m1, key, s, from, to), key, FlowOf(s, from, to, r.cpuFirst, m1.nextEvent));
  }

  lemma SampleKeepsGenerations(images: seq<Image>, r: Recon, s: Sample)
    requires GenerationsOk(r) && r.m.samples == r.m.nextEvent
    ensures var r' := PushSample(images, r, s); GenerationsOk(r') && r'.m.samples == r'.m.nextEvent
  {
    SampleOutside(images, r, s);
    hide PushSample;
  }

  // ----- the other records -----

  lemma RetireKeepsInv(m: State, key: Key, abs: Option<nat>, min: Option<nat>, zeros: bool)
    requires Inv(m, min, zeros) && key in m.threads && Good(abs, min, zeros)
    ensures Inv(Retire(m, key, abs), min, zeros)
  {
    hide TallyInv, LanesInv, OriginInv, CloseOpen;
    CloseOpenKeepsInv(m, key, abs, min, zeros);
    var c := CloseOpen(m, key, abs);
    var row := c.threads[key].(pendingEnd := None);
    DropKeepsTally(c, key, row);
    assert Calm(c.threads, c.threads - {key});
    CalmKeepsLanes(c.threads, c.threads - {key}, c.spans, c.nextSpan, c.events, c.nextEvent);
    DropKeepsOrigin(c, Retire(m, key, abs), key, min, zeros);
  }

  lemma DropKeepsOrigin(m: State, r: State, key: Key, min: Option<nat>, zeros: bool)
    requires OriginInv(m, min, zeros)
    requires r == m.(threads := m.threads - {key}, order := r.order, retired := r.retired)
    ensures OriginInv(r, min, zeros)
  {}

  lemma TaskKeepsGenerations(r: Recon, t: TaskEvent)
    requires GenerationsOk(r) && r.m.samples == r.m.nextEvent
    requires Table(r.m.threads, r.m.order)
    ensures var r' := PushTask(r, t); GenerationsOk(r') && r'.m.samples == r'.m.nextEvent
  {
    var key := (t.pid, t.tid);
    if t.kind == Exit && key in r.m.threads {
      assert (r.m.threads[key].pid, r.m.threads[key].tid) == key;
      hide GenerationsOk, Table;
      RetiredRow(r.m, key, t.time);
      RetireKeepsGenerations(r, key, PushTask(r, t));
    }
  }

  /** Retiring moves one row, emptied, to the end of the retired list. */
  lemma RetiredRow(m: State, key: Key, time: Option<nat>)
    requires key in m.threads
    ensures var r, th := Retire(m, key, time), m.threads[key];
            && |r.retired| == |m.retired| + 1 && r.retired[..|m.retired|] == m.retired
            && r.retired[|m.retired|].stack == [] && r.retired[|m.retired|].id == th.id
            && r.retired[|m.retired|].pid == th.pid && r.retired[|m.retired|].tid == th.tid
            && r.threads.Keys == m.threads.Keys - {key}
            && (forall k :: k in r.threads ==> r.threads[k].id == m.threads[k].id)
            && r.samples == m.samples && r.nextEvent == m.nextEvent
  {
    hide CloseOpen, Without;
    CloseOpenOutside(m, key, time);
    CloseOpenEmpties(m, key, time);
  }

  lemma {:induction false} CloseOpenEmpties(m: State, key: Key, end: Option<nat>)
    requires key in m.threads
    ensures var th := CloseOpen(m, key, end).threads[key];
            th.stack == [] && th.pid == m.threads[key].pid && th.tid == m.threads[key].tid
    decreases |m.threads[key].stack|
  {
    var th := m.threads[key];
    if th.stack != [] {
      CloseOpenEmpties(PopEmit(m, key, end, th.Top().startEvent, OpenLabel(th.Top().completeness)), key, end);
    }
  }

  lemma RetireKeepsGenerations(r: Recon, key: Key, r': Recon)
    requires GenerationsOk(r) && key in r.m.threads && (r.m.threads[key].pid, r.m.threads[key].tid) == key
    requires |r'.m.retired| == |r.m.retired| + 1 && r'.m.retired[..|r.m.retired|] == r.m.retired
    requires var row := r'.m.retired[|r.m.retired|];
             row.stack == [] && row.id == r.m.threads[key].id && (row.pid, row.tid) == key
    requires r'.m.threads.Keys == r.m.threads.Keys - {key}
    requires forall k :: k in r'.m.threads ==> r'.m.threads[k].id == r.m.threads[k].id
    requires r'.generation == r.generation[key := Generation(r.generation, key) + 1]
    ensures GenerationsOk(r')
  {
    var n := |r.m.retired|;
    var row := r'.m.retired[n];
    assert r'.m.retired == r.m.retired + [row];
    forall k ensures Generation(r'.generation, k) == Count(r'.m.retired, k) {
      CountLast(r.m.retired, row, k);
    }
    forall i | 0 <= i <= n
      ensures IsGeneration(r'.m.retired[i], Count(r'.m.retired[..i], (r'.m.retired[i].pid, r'.m.retired[i].tid)))
    {
      assert r'.m.retired[..i] == r.m.retired[..i];
      if i < n { assert r'.m.retired[i] == r.m.retired[i]; }
    }
  }

  lemma ErrorKeepsInv(r: Recon, e: DecoderErrorEvent, zeros: bool)
    requires Inv(r.m, r.minAbs, zeros) && (zeros || e.time != Some(0))
    ensures var r' := PushError(r, e); Inv(r'.m, r'.minAbs, zeros)
  {
    hide Inv, Interrupt, ThreadGap;
    var min := NoteAbs(r.minAbs, e.time);
    var kind := if e.code == Some(5) then MissingImage else DecoderError;
    NoteKeepsInv(r.m, r.minAbs, e.time, zeros);
    if e.pid.Some? && e.tid.Some? {
      var key := (e.pid.value, e.tid.value);
      var m0 := WithThread(r.m, key, Generation(r.generation, key));
      WithThreadKeepsInv(r.m, key, Generation(r.generation, key), min, zeros);
      InterruptKeepsInv(m0, key, min, zeros);
      GapKeepsInv(Interrupt(m0, key), key, kind, e.time, None, false, min, zeros);
    } else {
      UnchargedGapKeepsInv(r.m, kind, e.time, None, false, min, zeros);
    }
  }

  lemma UnchargedGapKeepsInv(m: State, kind: GapKind, start: Option<nat>, end: Option<nat>, known: bool,
                             min: Option<nat>, zeros: bool)
    requires Inv(m, min, zeros) && Good(start, min, zeros) && Good(end, min, zeros)
    ensures Inv(AddGap(m, UnknownThread, kind, start, end, known), min, zeros)
  {
    hide TallyInv, LanesInv;
    UnchargedGapKeepsTally(m, kind, start, end, known);
  }

  lemma ErrorKeepsGenerations(r: Recon, e: DecoderErrorEvent)
    requires GenerationsOk(r) && r.m.samples == r.m.nextEvent
    ensures var r' := PushError(r, e); GenerationsOk(r') && r'.m.samples == r'.m.nextEvent
  {
    hide Interrupt, ThreadGap;
    var r' := PushError(r, e);
    if e.pid.Some? && e.tid.Some? {
      var key := (e.pid.value, e.tid.value);
      var kind := if e.code == Some(5) then MissingImage else DecoderError;
      BreakOutside(WithThread(r.m, key, Generation(r.generation, key)), key, kind, e.time, None, false);
    }
  }

  // ----- runs -----

  lemma NotedKeepsInv(images: seq<Image>, r: Recon, rec: Record, zeros: bool)
    requires ReconInv(images, r, zeros)
    ensures ReconInv(images, Noted(r, rec), zeros)
  {}

  /** Every record, kept or filtered out, keeps the whole invariant. */
  lemma PushKeepsInv(images: seq<Image>, r: Recon, rec: Record, zeros: bool)
    requires ReconInv(images, r, zeros) && (zeros || !PushWritesZero(images, r, rec))
    ensures ReconInv(images, Push(images, r, rec), zeros)
  {
    hide Inv, TablesInv, GenerationsOk, PushSample, PushTask, PushError, AddMapping, Noted, SampleWritesTime;
    NotedKeepsInv(images, r, rec, zeros);
    var n := Noted(r, rec);
    NotedKeepsMin(r, rec);
    if Keeps(r, rec) {
      match rec {
        case SampleRecord(s) => PushSampleKeepsInv(images, n, s, zeros);
        case MmapRecord(m) =>
          NoteKeepsInv(n.m, n.minAbs, m.time, zeros);
          AddMappingOk(images, n.tables, m);
          SidebandKeepsGenerations(n, n.(tables := AddMapping(n.tables, m), minAbs := NoteAbs(n.minAbs, m.time)));
        case TaskRecord(t) => TaskKeepsInv(images, n, t, zeros);
        case SwitchRecord(t) =>
          NoteKeepsInv(n.m, n.minAbs, t, zeros);
          SidebandKeepsGenerations(n, n.(minAbs := NoteAbs(n.minAbs, t)));
        case LostRecord =>
          UnchargedGapKeepsInv(n.m, PtLoss, None, None, false, n.minAbs, zeros);
          SidebandKeepsGenerations(n, n.(m := AddGap(n.m, UnknownThread, PtLoss, None, None, false)));
        case DecoderErrorRecord(e) =>
          ErrorKeepsInv(n, e, zeros);
          ErrorKeepsGenerations(n, e);
          ErrorKeepsTables(n, e);
      }
    }
  }

  lemma NotedKeepsMin(r: Recon, rec: Record)
    ensures Noted(r, rec).minAbs == r.minAbs && Noted(r, rec).m == r.m && Noted(r, rec).tables == r.tables
  {}

  lemma ErrorKeepsTables(r: Recon, e: DecoderErrorEvent)
    ensures PushError(r, e).tables == r.tables
  {}

  lemma TaskKeepsInv(images: seq<Image>, r: Recon, t: TaskEvent, zeros: bool)
    requires ReconInv(images, r, zeros) && (zeros || !WritesZero(images, r, TaskRecord(t)))
    ensures ReconInv(images, PushTask(r, t), zeros)
  {
    hide Inv, TablesInv, GenerationsOk, Table, PushTask;
    InvHasTable(r.m, r.minAbs, zeros);
    TaskMayWrite(images, r, t);
    TaskKeepsRows(r, t, zeros);
    TaskKeepsGenerations(r, t);
    TaskKeepsTables(r, t);
  }

  lemma InvHasTable(m: State, min: Option<nat>, zeros: bool)
    requires Inv(m, min, zeros)
    ensures Table(m.threads, m.order)
  {}

  lemma TaskMayWrite(images: seq<Image>, r: Recon, t: TaskEvent)
    ensures WritesZero(images, r, TaskRecord(t)) <==>
              t.time == Some(0) && t.kind == Exit && Row(r, (t.pid, t.tid)).stack != []
  {}

  lemma TaskKeepsTables(r: Recon, t: TaskEvent)
    ensures PushTask(r, t).tables == r.tables
  {}

  lemma TaskKeepsRows(r: Recon, t: TaskEvent, zeros: bool)
    requires Inv(r.m, r.minAbs, zeros)
    requires zeros || t.time != Some(0) || t.kind != Exit || Row(r, (t.pid, t.tid)).stack == []
    ensures Inv(PushTask(r, t).m, PushTask(r, t).minAbs, zeros)
  {
    hide Inv, Retire;
    NoteKeepsInv(r.m, r.minAbs, t.time, zeros);
    var key := (t.pid, t.tid);
    if t.kind == Exit && key in r.m.threads {
      var time := if zeros || t.time != Some(0) then t.time else None;
      RetireKeepsInv(r.m, key, time, NoteAbs(r.minAbs, t.time), zeros);
      if r.m.threads[key].stack == [] { RetireIdle(r.m, key, t.time); }
    }
  }

  /** With nothing open, the time of the exit is not written anywhere. */
  lemma RetireIdle(m: State, key: Key, time: Option<nat>)
    requires key in m.threads && m.threads[key].stack == []
    ensures Retire(m, key, time) == Retire(m, key, None)
  {}

  lemma SidebandKeepsGenerations(r: Recon, r': Recon)
    requires GenerationsOk(r) && r'.generation == r.generation
    requires r'.m.threads == r.m.threads && r'.m.retired == r.m.retired
    ensures GenerationsOk(r')
  {}

  predicate NoZeroTimes(recs: seq<Record>) {
    forall i :: 0 <= i < |recs| ==> RecordTime(recs[i]) != Some(0)
  }

  /** No record of the stream writes the time 0, each judged where it is pushed. */
  predicate NoZeroWritten(images: seq<Image>, r: Recon, recs: seq<Record>)
    decreases |recs|
  {
    recs == [] || (!PushWritesZero(images, r, recs[0]) && NoZeroWritten(images, Push(images, r, recs[0]), recs[1..]))
  }

  lemma {:induction false} NoZeroTimesNoneWritten(images: seq<Image>, r: Recon, recs: seq<Record>)
    requires NoZeroTimes(recs)
    ensures NoZeroWritten(images, r, recs)
    decreases |recs|
  {
    hide Push, Keeps, SampleWritesTime;
    if recs != [] {
      assert RecordTime(recs[0]) != Some(0);
      NoZeroTimesNoneWritten(images, Push(images, r, recs[0]), recs[1..]);
    }
  }

  lemma {:induction false} PushAllKeepsInv(images: seq<Image>, r: Recon, recs: seq<Record>, zeros: bool)
    requires ReconInv(images, r, zeros) && (zeros || NoZeroWritten(images, r, recs))
    ensures ReconInv(images, PushAll(images, r, recs), zeros)
    decreases |recs|
  {
    hide ReconInv, Push, PushWritesZero;
    if recs != [] {
      PushKeepsInv(images, r, recs[0], zeros);
      PushAllKeepsInv(images, Push(images, r, recs[0]), recs[1..], zeros);
    }
  }

  lemma NewHasInv(images: seq<Image>, filter: Option<Tracker>, zeros: bool)
    ensures ReconInv(images, New(filter), zeros)
  {
    hide LanesInv, TablesInv, TallyInv;
    EmptyLanes();
    EmptyTally(EMPTY);
    EmptyTables(images);
  }

  lemma EmptyLanes()
    ensures LanesInv(map[], [], 0, [], 0)
  {
    hide Ids, LaminarInv, EvidenceInv;
    EmptyIds();
    EmptyLaminar();
    EmptyEvidence();
  }

  lemma EmptyIds()
    ensures Ids(map[], [], 0)
  {
    assert OpenOk(map[], 0);
  }

  lemma EmptyLaminar()
    ensures LaminarInv(map[], [])
  {}

  lemma EmptyEvidence()
    ensures EvidenceInv(map[], [], [], 0)
  {}

  lemma EmptyTally(m: State)
    requires |m.threads| == 0 && |m.order| == 0 && |m.retired| == 0
    requires |m.events| == 0 && |m.spans| == 0 && |m.gaps| == 0 && m.nextGap == 0 && m.samples == 0
    ensures TallyInv(m)
  {}

  lemma EmptyTables(images: seq<Image>)
    ensures TablesInv(images, NO_TABLES)
  {}

  /** The invariant holds after every record stream, from the empty reconstructor. */
  lemma AnyRun(images: seq<Image>, filter: Option<Tracker>, recs: seq<Record>)
    ensures ReconInv(images, PushAll(images, New(filter), recs), true)
    ensures NoZeroWritten(images, New(filter), recs) ==> ReconInv(images, PushAll(images, New(filter), recs), false)
  {
    hide ReconInv, New;
    NewHasInv(images, filter, true);
    PushAllKeepsInv(images, New(filter), recs, true);
    if NoZeroWritten(images, New(filter), recs) {
      NewHasInv(images, filter, false);
      PushAllKeepsInv(images, New(filter), recs, false);
    }
  }
}
