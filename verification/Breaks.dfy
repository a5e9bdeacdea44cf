/**
 * The gaps that trace ends and asynchronous transfers leave, in order. Whether a thread's trace has ended,
 * and whether the ring it resumes on reaches back, is read off the records.
 */
module Breaks {
  import opened TraceTypes
  import opened Machine
  import opened Symbols
  import opened Recon
  import opened Runs
  import opened Events
  import opened Gaps
  import opened Rings
  import RoundTrip
  import Results
  import Tracking
  import Jumps

  // ----- what the records say -----

  /** The sample with which a thread left the trace, and the function it left. */
  datatype Halt = Halt(sample: Sample, fromFn: Option<nat>)

  /** The trace end that the task's last kept sample left behind, if its trace has not resumed. */
  function Halted(images: seq<Image>, filter: Option<Tracker>, recs: seq<Record>, key: Key): Option<Halt> {
    if recs == [] then None
    else
      var init, last := recs[..|recs| - 1], recs[|recs| - 1];
      var halt := Halted(images, filter, init, key);
      if !KeptLast(images, filter, recs) then halt
      else if IsSampleOf(last, key) then
        HaltAfter(halt, last.sample, FromFn(images, PushAll(images, New(filter), init), last.sample))
      else if IsExitOf(last, key) then None
      else halt
  }

  /** A sample that resumes the trace settles the end before it, even if it ends the trace again. */
  function HaltAfter(halt: Option<Halt>, s: Sample, fromFn: Option<nat>): Option<Halt> {
    if halt.Some? && TrStart in s.flags then None
    else if TrEnd in s.flags then Some(Halt(s, fromFn))
    else None
  }

  /** When the processor's ring begins, if it has shown a time. */
  ghost function RingStart(recs: seq<Record>, cpu: nat): (r: Option<nat>)
    ensures r.Some? ==> FirstTime(recs, cpu, r.value)
    ensures r.None? ==> forall t: nat :: !FirstTime(recs, cpu, t)
  {
    if exists t: nat :: FirstTime(recs, cpu, t) then (var t: nat :| FirstTime(recs, cpu, t); Some(t)) else None
  }

  /** A task's gap. */
  function TaskGap(tid: nat, kind: GapKind, start: Option<nat>, end: Option<nat>, known: bool): Notice {
    Notice(kind, Some(tid), start, end, known)
  }

  /** The gap between a trace end and the task's next sample. */
  ghost function Unseen(recs: seq<Record>, halt: Halt, s: Sample, toFn: Option<nat>): Notice {
    var e := halt.sample;
    if s.cpu.Some? && !Covered(recs, e, s) then
      var end := Or(RingStart(recs, s.cpu.value), s.time);
      TaskGap(s.tid, RingTruncation, e.time, end, end.Some?)
    else if TrStart in s.flags && halt.fromFn.Some? && toFn == halt.fromFn then
      TaskGap(s.tid, TraceBoundary, e.time, s.time, e.time.Some? && s.time.Some?)
    else TaskGap(s.tid, UnknownGap, e.time, s.time, false)
  }

  predicate Foreign(s: Sample) { s.flags * {Async, HwInt, Int, Iret, TxAbort} != {} }

  /** What a kept sample leaves: the stretch since a trace end, and its own transfer if that is asynchronous. */
  ghost function BreaksOf(recs: seq<Record>, halt: Option<Halt>, s: Sample, toFn: Option<nat>): seq<Notice> {
    (if halt.Some? then [Unseen(recs, halt.value, s, toFn)] else [])
    + (if !(halt.Some? && TrStart in s.flags) && TrEnd !in s.flags && Foreign(s)
       then [TaskGap(s.tid, UnknownGap, s.time, None, false)] else [])
  }

  ghost function ExpectedBreaks(images: seq<Image>, filter: Option<Tracker>, recs: seq<Record>): seq<Notice> {
    if recs == [] then []
    else
      var init, last := recs[..|recs| - 1], recs[|recs| - 1];
      ExpectedBreaks(images, filter, init)
      + if KeptLast(images, filter, recs) && last.SampleRecord? then
          var s := last.sample;
          BreaksOf(recs, Halted(images, filter, init, (s.pid, s.tid)), s,
                   ToFn(images, PushAll(images, New(filter), init), s))
        else []
  }

  /** The gaps that no record announces. */
  function BreakNotices(gaps: seq<Gap>): seq<Notice> {
    if gaps == [] then []
    else
      var g := gaps[|gaps| - 1];
      BreakNotices(gaps[..|gaps| - 1]) + if Announced(g.kind) then [] else [NoticeOf(g)]
  }

  // ----- one sample on the machine -----

  /** The gaps from `m` to `r`, none of them announced. */
  ghost predicate Adds(m: State, r: State, bs: seq<Notice>) {
    && m.gaps <= r.gaps && |r.gaps| == |m.gaps| + |bs|
    && forall a :: 0 <= a < |bs| ==> NoticeOf(r.gaps[|m.gaps| + a]) == bs[a] && !Announced(bs[a].kind)
  }

  lemma AddsTwice(m: State, n: State, r: State, a: seq<Notice>, b: seq<Notice>)
    requires Adds(m, n, a) && Adds(n, r, b)
    ensures Adds(m, r, a + b)
  {
    forall i | 0 <= i < |a + b|
      ensures NoticeOf(r.gaps[|m.gaps| + i]) == (a + b)[i] && !Announced((a + b)[i].kind)
    {
      if i < |a| {
        assert r.gaps[|m.gaps| + i] == n.gaps[|m.gaps| + i];
      } else {
        assert r.gaps[|n.gaps| + (i - |a|)] == r.gaps[|m.gaps| + i];
      }
    }
  }

  /** The row keeps its name and its trace end. */
  predicate SameHalt(m: State, r: State, key: Key) {
    key in m.threads && key in r.threads && r.threads[key].id == m.threads[key].id
      && r.threads[key].pendingEnd == m.threads[key].pendingEnd
  }

  lemma {:induction false} InterruptSameHalt(m: State, key: Key)
    requires key in m.threads
    ensures SameHalt(m, Interrupt(m, key), key) && Interrupt(m, key).gaps == m.gaps
    decreases |m.threads[key].stack|
  {
    var th := m.threads[key];
    if th.stack != [] { InterruptSameHalt(PopEmit(m, key, None, th.Top().startEvent, InterruptedByGap), key); }
  }

  lemma CutAdds(m: State, key: Key, kind: GapKind, start: Option<nat>, end: Option<nat>, known: bool)
    requires key in m.threads && m.threads[key].id.ThreadId? && !Announced(kind)
    ensures var r := ThreadGap(Interrupt(m, key), key, kind, start, end, known);
            SameHalt(m, r, key) && Adds(m, r, [TaskGap(m.threads[key].id.tid, kind, start, end, known)])
  {
    hide Interrupt;
    InterruptSameHalt(m, key);
  }

  lemma OpenKnownAdds(m: State, key: Key, f: Flow)
    requires key in m.threads
    ensures SameHalt(m, OpenKnown(m, key, f), key) && OpenKnown(m, key, f).gaps == m.gaps
  {}

  /** The gap with which a trace end is settled. */
  function SettleNotice(tid: nat, p: PendingEnd, f: Flow): Notice {
    if RingHole(p, f) then
      var end := Or(f.cpuFirst, f.abs);
      TaskGap(tid, RingTruncation, p.abs, end, p.abs.Some? && end.Some?)
    else if f.boundary.traceBegin && p.fromFn.Some? && f.to.func == p.fromFn then
      TaskGap(tid, TraceBoundary, p.abs, f.abs, p.abs.Some? && f.abs.Some?)
    else TaskGap(tid, UnknownGap, p.abs, f.abs, false)
  }

  lemma SettleAdds(m: State, key: Key, p: PendingEnd, f: Flow)
    requires key in m.threads && m.threads[key].id.ThreadId?
    ensures var r := SettlePending(m, key, p, f);
            && SameHalt(m, r.0, key) && Adds(m, r.0, [SettleNotice(m.threads[key].id.tid, p, f)])
            && (r.1 <==> f.boundary.traceBegin)
  {
    hide Interrupt, OpenKnown;
    var hole := RingHole(p, f);
    if !hole && f.boundary.traceBegin && p.fromFn.Some? && f.to.func == p.fromFn {
    } else {
      var kind, end := if hole then RingTruncation else UnknownGap, if hole then Or(f.cpuFirst, f.abs) else f.abs;
      var known := hole && p.abs.Some? && end.Some?;
      CutAdds(m, key, kind, p.abs, end, known);
      OpenKnownAdds(ThreadGap(Interrupt(m, key), key, kind, p.abs, end, known), key, f);
    }
  }

  function AsyncNotices(tid: nat, f: Flow): seq<Notice> {
    if !f.boundary.traceEnd && (f.boundary.asyncEvent || f.boundary.interrupt || f.boundary.transaction)
    then [TaskGap(tid, UnknownGap, f.abs, None, false)] else []
  }

  lemma BoundaryAdds(m: State, key: Key, f: Flow)
    requires key in m.threads && m.threads[key].id.ThreadId? && m.threads[key].pendingEnd.None?
    ensures var r := ApplyBoundary(m, key, f);
            && Adds(m, r, AsyncNotices(m.threads[key].id.tid, f)) && r.threads[key].id == m.threads[key].id
            && r.threads[key].pendingEnd == (if f.boundary.traceEnd
                                             then Some(PendingEnd(f.from.func, f.from.loc, f.abs, f.cpu)) else None)
  {
    hide Interrupt, OpenKnown;
    CutAdds(m, key, UnknownGap, f.abs, None, false);
    OpenKnownAdds(m, key, f);
  }

  lemma TransferAdds(m: State, key: Key, f: Flow)
    requires key in m.threads
    ensures SameHalt(m, ApplyTransfer(m, key, f), key) && ApplyTransfer(m, key, f).gaps == m.gaps
  {}

  function FlowNotices(tid: nat, pending: Option<PendingEnd>, f: Flow): seq<Notice> {
    (if pending.Some? then [SettleNotice(tid, pending.value, f)] else [])
    + (if pending.Some? && f.boundary.traceBegin then [] else AsyncNotices(tid, f))
  }

  lemma FlowAdds(m: State, key: Key, f: Flow)
    requires key in m.threads && m.threads[key].id.ThreadId?
    ensures var r, pending := ApplyFlow(m, key, f), m.threads[key].pendingEnd;
            && Adds(m, r, FlowNotices(m.threads[key].id.tid, pending, f)) && r.threads[key].id == m.threads[key].id
            && r.threads[key].pendingEnd
               == (if !(pending.Some? && f.boundary.traceBegin) && f.boundary.traceEnd
                   then Some(PendingEnd(f.from.func, f.from.loc, f.abs, f.cpu)) else None)
  {
    hide SettlePending, ApplyBoundary, ApplyTransfer, Adds, SettleNotice;
    var pending, tid := m.threads[key].pendingEnd, m.threads[key].id.tid;
    var m1, a := m, [];
    AddsNothing(m, m);
    if pending.Some? {
      var m0 := SetPending(m, key, None);
      SettleAdds(m0, key, pending.value, f);
      m1 := SettlePending(m0, key, pending.value, f).0;
      a := [SettleNotice(tid, pending.value, f)];
      AddsNothing(m, m0);
      AddsTwice(m, m0, m1, [], a);
      assert [] + a == a;
    }
    if !(pending.Some? && f.boundary.traceBegin) {
      BoundaryAdds(m1, key, f);
      TransferAdds(m1, key, f);
      AddsNothing(m1, ApplyTransfer(m1, key, f));
      var r := ApplyFlow(m, key, f);
      AddsTwice(m, m1, r, a, AsyncNotices(tid, f));
    } else {
      assert FlowNotices(tid, pending, f) == a;
    }
  }

  lemma AddsNothing(m: State, r: State)
    requires r.gaps == m.gaps
    ensures Adds(m, r, [])
  {}

  lemma BreakAppended(gaps: seq<Gap>, g: Gap)
    ensures BreakNotices(gaps + [g]) == BreakNotices(gaps) + if Announced(g.kind) then [] else [NoticeOf(g)]
  {
    assert (gaps + [g])[..|gaps|] == gaps;
  }

  lemma {:induction false} AddsBreaks(m: State, r: State, bs: seq<Notice>)
    requires Adds(m, r, bs)
    ensures BreakNotices(r.gaps) == BreakNotices(m.gaps) + bs
    decreases |bs|
  {
    hide Announced, BreakNotices;
    if bs == [] {
      assert r.gaps == m.gaps;
    } else {
      var n, init := |r.gaps| - 1, bs[..|bs| - 1];
      assert n == |m.gaps| + |init| && NoticeOf(r.gaps[n]) == bs[|init|];
      AddsBreaks(m, r.(gaps := r.gaps[..n]), init);
      BreakAppended(r.gaps[..n], r.gaps[n]);
      assert r.gaps == r.gaps[..n] + [r.gaps[n]];
      assert BreakNotices(m.gaps) + init + [bs[|init|]] == BreakNotices(m.gaps) + bs;
    }
  }

  // ----- one record -----

  /** The row before the flow of a sample is applied. */
  lemma SampleAdvances(r: Recon, s: Sample)
    ensures var key := (s.pid, s.tid);
            var mt := Touch(WithThread(r.m, key, Generation(r.generation, key)), key, s.time);
            var m1 := Advance(mt, key, s.time);
            && key in m1.threads && m1.threads[key].id == Row(r, key).id
            && m1.threads[key].pendingEnd == Row(r, key).pendingEnd && BreakNotices(m1.gaps) == BreakNotices(r.m.gaps)
  {
    hide Interrupt, BreakNotices, Quiet;
    var key := (s.pid, s.tid);
    var mt := Touch(WithThread(r.m, key, Generation(r.generation, key)), key, s.time);
    InterruptSameHalt(mt, key);
    InterruptQuiet(mt, key);
    BreakAppended(mt.gaps, Gap(mt.nextGap, mt.threads[key].id, TimeRegression, mt.threads[key].lastAbs, s.time, true));
  }

  lemma RetainSameHalt(m: State, key: Key, s: Sample, from: Resolved, to: Resolved)
    requires key in m.threads
    ensures SameHalt(m, Retain(m, key, s, from, to), key) && Retain(m, key, s, from, to).gaps == m.gaps
  {}

  lemma SampleAdds(images: seq<Image>, r: Recon, s: Sample)
    requires Row(r, (s.pid, s.tid)).id.ThreadId? && Row(r, (s.pid, s.tid)).id.tid == s.tid
    ensures var key, r' := (s.pid, s.tid), PushSample(images, r, s);
            var (from, t1) := Resolve(images, r.tables, s.pid, s.ip);
            var (to, t2) := Resolve(images, t1, s.pid, s.addr);
            var f, pending := FlowOf(s, from, to, r.cpuFirst, 0), Row(r, key).pendingEnd;
            && BreakNotices(r'.m.gaps) == BreakNotices(r.m.gaps) + FlowNotices(s.tid, pending, f)
            && Row(r', key).pendingEnd
               == (if !(pending.Some? && f.boundary.traceBegin) && f.boundary.traceEnd
                   then Some(PendingEnd(from.func, from.loc, s.time, s.cpu)) else None)
  {
    hide Advance, Retain, Touch, WithThread, Resolve, ApplyFlow, BreakNotices, Adds, FlagsKind, FlagsBoundary;
    var key := (s.pid, s.tid);
    SampleAdvances(r, s);
    var m1 := Advance(Touch(WithThread(r.m, key, Generation(r.generation, key)), key, s.time), key, s.time);
    var (from, t1) := Resolve(images, r.tables, s.pid, s.ip);
    var (to, t2) := Resolve(images, t1, s.pid, s.addr);
    RetainSameHalt(m1, key, s, from, to);
    var m2 := Retain(m1, key, s, from, to);
    var f := FlowOf(s, from, to, r.cpuFirst, m1.nextEvent);
    FlowAdds(m2, key, f);
    AddsBreaks(m2, ApplyFlow(m2, key, f), FlowNotices(s.tid, Row(r, key).pendingEnd, f));
    SameNotices(s.tid, Row(r, key).pendingEnd, f, FlowOf(s, from, to, r.cpuFirst, 0));
  }

  lemma SameNotices(tid: nat, pending: Option<PendingEnd>, f: Flow, g: Flow)
    requires g == f.(eid := g.eid)
    ensures FlowNotices(tid, pending, g) == FlowNotices(tid, pending, f)
  {}

  /** The row waits for its trace exactly if the records say so. */
  predicate Waits(pending: Option<PendingEnd>, halt: Option<Halt>) {
    if halt.None? then pending.None?
    else
      && pending.Some? && pending.value.abs == halt.value.sample.time && pending.value.cpu == halt.value.sample.cpu
      && pending.value.fromFn == halt.value.fromFn
  }

  lemma FlagsSay(s: Sample)
    ensures var b := FlagsBoundary(s.flags);
            && (b.traceBegin <==> TrStart in s.flags) && (b.traceEnd <==> TrEnd in s.flags)
            && (b.asyncEvent || b.interrupt || b.transaction <==> Foreign(s))
  {
    var odd := s.flags * {Async, HwInt, Int, Iret, TxAbort};
    assert forall x :: x in odd <==>
             x in s.flags && (x == Async || x == HwInt || x == Int || x == Iret || x == TxAbort);
    if odd != {} {
      var x :| x in odd;
    }
  }

  /** In terms of the records, what the machine does with a trace end and an asynchronous transfer. */
  lemma NoticesAre(recs: seq<Record>, first: map<nat, nat>, halt: Option<Halt>, s: Sample, pending: Option<PendingEnd>,
                   f: Flow)
    requires Waits(pending, halt) && (s.cpu.Some? ==> Knows(first, recs, s.cpu.value))
    requires f.boundary == FlagsBoundary(s.flags) && f.abs == s.time && f.cpu == s.cpu
    requires f.cpuFirst == if s.cpu.Some? && s.cpu.value in first then Some(first[s.cpu.value]) else None
    ensures FlowNotices(s.tid, pending, f) == BreaksOf(recs, halt, s, f.to.func)
  {
    hide FlagsBoundary, Foreign, RingHole, Covered, HoleEnds, Knows;
    FlagsSay(s);
    if halt.Some? {
      HoleIff(recs, first, halt.value.sample, s, pending.value, f);
      if RingHole(pending.value, f) {
        HoleNeedsTimes(pending.value, f);
        HoleEndIs(recs, s, Or(f.cpuFirst, f.abs));
      } else {
        AloneIsCovered(recs, halt.value.sample, s);
      }
    }
  }

  lemma HoleNeedsTimes(p: PendingEnd, f: Flow)
    requires RingHole(p, f)
    ensures p.abs.Some? && f.cpu.Some?
  {}

  lemma AloneIsCovered(recs: seq<Record>, e: Sample, s: Sample)
    ensures s.cpu.None? ==> Covered(recs, e, s)
  {}

  lemma HoleEndIs(recs: seq<Record>, s: Sample, end: Option<nat>)
    requires HoleEnds(recs, s, end)
    ensures s.cpu.Some? && end == Or(RingStart(recs, s.cpu.value), s.time)
  {}

  /** The rows of other tasks wait as before. */
  ghost predicate OthersWait(r: Recon, r': Recon, key: Key) {
    forall k :: k != key ==> Row(r', k).pendingEnd == Row(r, k).pendingEnd
  }

  lemma SampleRecordBreaks(images: seq<Image>, recs: seq<Record>, r: Recon, s: Sample, halt: Option<Halt>)
    requires Keeps(r, SampleRecord(s)) && Row(r, (s.pid, s.tid)).id.ThreadId? && Row(r, (s.pid, s.tid)).id.tid == s.tid
    requires Waits(Row(r, (s.pid, s.tid)).pendingEnd, halt)
    requires s.cpu.Some? ==> Knows(Push(images, r, SampleRecord(s)).cpuFirst, recs, s.cpu.value)
    ensures var key, r' := (s.pid, s.tid), Push(images, r, SampleRecord(s));
            && BreakNotices(r'.m.gaps) == BreakNotices(r.m.gaps) + BreaksOf(recs, halt, s, ToFn(images, r, s))
            && Waits(Row(r', key).pendingEnd, HaltAfter(halt, s, FromFn(images, r, s))) && OthersWait(r, r', key)
  {
    hide PushSample, Push, Keeps, Resolve, BreakNotices, BreaksOf, FlowNotices, Knows, FlagsKind, FlagsBoundary, Noted;
    var key, n := (s.pid, s.tid), Noted(r, SampleRecord(s));
    RowsOfNoted(r, SampleRecord(s));
    KeptPush(images, r, s);
    SampleAdds(images, n, s);
    PushNotes(images, r, SampleRecord(s));
    PushNotes(images, n, SampleRecord(s));
    NotedCpus(r, SampleRecord(s));
    var (from, t1) := Resolve(images, r.tables, s.pid, s.ip);
    var (to, t2) := Resolve(images, t1, s.pid, s.addr);
    NoticesAre(recs, n.cpuFirst, halt, s, Row(r, key).pendingEnd, FlowOf(s, from, to, n.cpuFirst, 0));
    FlagsSay(s);
    SampleOthersWait(images, r, s);
  }

  lemma NotedCpus(r: Recon, rec: Record)
    ensures Noted(r, rec).cpuFirst == NoteCpu(r.cpuFirst, rec)
  {}

  lemma SampleOthersWait(images: seq<Image>, r: Recon, s: Sample)
    requires Keeps(r, SampleRecord(s))
    ensures OthersWait(r, Push(images, r, SampleRecord(s)), (s.pid, s.tid))
  {
    hide Keeps, PushSample, Noted;
    Jumps.SampleElsewhere(images, r, s);
    KeptPush(images, r, s);
    SampleKeepsGeneration(images, Noted(r, SampleRecord(s)), s);
  }

  lemma SampleKeepsGeneration(images: seq<Image>, r: Recon, s: Sample)
    ensures PushSample(images, r, s).generation == r.generation
  {}

  lemma ErrorBreaks(r: Recon, e: DecoderErrorEvent)
    ensures var r' := PushError(r, e);
            && BreakNotices(r'.m.gaps) == BreakNotices(r.m.gaps)
            && forall k :: Row(r', k).pendingEnd == Row(r, k).pendingEnd
  {
    hide Interrupt, BreakNotices, Quiet;
    var kind := if e.code == Some(5) then MissingImage else DecoderError;
    if e.pid.Some? && e.tid.Some? {
      var key := (e.pid.value, e.tid.value);
      var m := WithThread(r.m, key, Generation(r.generation, key));
      InterruptSameHalt(m, key);
      InterruptQuiet(m, key);
      InterruptOutside(m, key);
      BreakAppended(m.gaps, Gap(m.nextGap, m.threads[key].id, kind, e.time, None, false));
      forall k | k != key ensures Row(PushError(r, e), k).pendingEnd == Row(r, k).pendingEnd {
        if k in r.m.threads { ErrorElsewhere(r, e, k); }
      }
    } else {
      BreakAppended(r.m.gaps, Gap(r.m.nextGap, UnknownThread, kind, e.time, None, false));
    }
  }

  lemma ExitBreaks(r: Recon, t: TaskEvent)
    ensures var r' := PushTask(r, t);
            && r'.m.gaps == r.m.gaps
            && forall k ::
                 Row(r', k).pendingEnd == if IsExitOf(TaskRecord(t), k) then None else Row(r, k).pendingEnd
  {
    hide CloseOpen, Without, Quiet;
    var key := (t.pid, t.tid);
    if t.kind == Exit && key in r.m.threads {
      CloseQuiet(r.m, key, t.time);
      forall k | k != key ensures Row(PushTask(r, t), k).pendingEnd == Row(r, k).pendingEnd {
        if k in r.m.threads { ExitElsewhere(r, t, k); } else { ExitAddsNone(r, t, k); }
      }
    }
  }

  lemma ExitAddsNone(r: Recon, t: TaskEvent, k: Key)
    requires (t.pid, t.tid) in r.m.threads && t.kind == Exit && k !in r.m.threads
    ensures k !in PushTask(r, t).m.threads
  {
    hide CloseOpen, Without;
    CloseOpenKeys(r.m, (t.pid, t.tid), t.time);
  }

  // ----- over a run -----

  ghost predicate Broken(images: seq<Image>, filter: Option<Tracker>, recs: seq<Record>, r: Recon) {
    && BreakNotices(r.m.gaps) == ExpectedBreaks(images, filter, recs)
    && forall k :: Waits(Row(r, k).pendingEnd, Halted(images, filter, recs, k))
  }

  lemma HaltStep(images: seq<Image>, filter: Option<Tracker>, init: seq<Record>, rec: Record, r: Recon)
    requires r == PushAll(images, New(filter), init)
    ensures var recs, kept := init + [rec], Keeps(r, rec);
            && ExpectedBreaks(images, filter, recs)
               == ExpectedBreaks(images, filter, init)
                  + (if kept && rec.SampleRecord? then
                       BreaksOf(recs, Halted(images, filter, init, (rec.sample.pid, rec.sample.tid)), rec.sample,
                                ToFn(images, r, rec.sample))
                     else [])
            && forall k ::
                 Halted(images, filter, recs, k)
                 == (if kept && IsSampleOf(rec, k) then
                       HaltAfter(Halted(images, filter, init, k), rec.sample, FromFn(images, r, rec.sample))
                     else if kept && IsExitOf(rec, k) then None else Halted(images, filter, init, k))
  {
    hide PushAll, Keeps, BreaksOf, HaltAfter, FromFn, ToFn;
    assert (init + [rec])[..|init|] == init;
  }

  lemma OtherBreaks(images: seq<Image>, r: Recon, rec: Record)
    requires !rec.SampleRecord? || !Keeps(r, rec)
    ensures var r' := Push(images, r, rec);
            && BreakNotices(r'.m.gaps) == BreakNotices(r.m.gaps)
            && forall k ::
                 Row(r', k).pendingEnd == if Keeps(r, rec) && IsExitOf(rec, k) then None else Row(r, k).pendingEnd
  {
    hide PushSample, PushTask, PushError, AddMapping, BreakNotices, Row, Keeps;
    var n := Noted(r, rec);
    RowsOfNoted(r, rec);
    if Keeps(r, rec) {
      match rec
      case TaskRecord(t) => ExitBreaks(n, t);
      case DecoderErrorRecord(e) => ErrorBreaks(n, e);
      case LostRecord =>
        BreakAppended(r.m.gaps, Gap(r.m.nextGap, UnknownThread, PtLoss, None, None, false));
        SameRows(r, Push(images, r, rec));
      case _ => SameRows(r, Push(images, r, rec));
    } else {
      SameRows(r, Push(images, r, rec));
    }
  }

  lemma BrokenStep(images: seq<Image>, filter: Option<Tracker>, init: seq<Record>, rec: Record, r: Recon)
    requires r == PushAll(images, New(filter), init) && Broken(images, filter, init, r)
    requires forall k :: Row(r, k).id.ThreadId? && Row(r, k).id.tid == k.1
    requires Push(images, r, rec) == PushAll(images, New(filter), init + [rec])
    ensures Broken(images, filter, init + [rec], Push(images, r, rec))
  {
    hide PushAll, Push, Keeps, Row, Waits, BreaksOf, HaltAfter, FromFn, ToFn, Knows, BreakNotices, Halted,
         ExpectedBreaks, New;
    HaltStep(images, filter, init, rec, r);
    if rec.SampleRecord? && Keeps(r, rec) {
      var s := rec.sample;
      var key := (s.pid, s.tid);
      if s.cpu.Some? { RunKnows(images, filter, init + [rec], s.cpu.value); }
      SampleRecordBreaks(images, init + [rec], r, s, Halted(images, filter, init, key));
    } else {
      OtherBreaks(images, r, rec);
      NothingWaits();
    }
  }

  lemma NothingWaits()
    ensures Waits(None, None)
  {}

  lemma {:induction false} RunBroken(images: seq<Image>, filter: Option<Tracker>, recs: seq<Record>)
    ensures Broken(images, filter, recs, PushAll(images, New(filter), recs))
    decreases |recs|
  {
    hide ReconInv, Push, PushAll, Row, Broken;
    if recs == [] {
      Tracking.PushedNothing(images, New(filter));
      NothingBroken(images, filter);
    } else {
      var init, rec := recs[..|recs| - 1], recs[|recs| - 1];
      assert recs == init + [rec];
      var r := PushAll(images, New(filter), init);
      RoundTrip.PushAllConcat(images, New(filter), init, [rec]);
      Tracking.PushedOne(images, r, rec);
      RunBroken(images, filter, init);
      AnyRun(images, filter, init);
      forall k ensures Row(r, k).id.ThreadId? && Row(r, k).id.tid == k.1 { RowTid(images, r, k); }
      BrokenStep(images, filter, init, rec, r);
    }
  }

  lemma NothingBroken(images: seq<Image>, filter: Option<Tracker>)
    ensures Broken(images, filter, [], New(filter))
  {}

  /**
   * For every stream and filter: all other gaps of a returned analysis are exactly those that the trace ends and
   * asynchronous transfers of the kept samples leave, in order, with their kinds, times and threads.
   */
  lemma BreaksAreTrue(images: seq<Image>, filter: Option<Tracker>, recs: seq<Record>)
    ensures var r := PushAll(images, New(filter), recs);
            && (forall k :: k in r.m.order <==> k in r.m.threads)
            && (Finish(r).Ok? ==>
                  var a := Finish(r).value;
                  BreakNotices(Gaps.OnClock(a.gaps, a.origin)) == ExpectedBreaks(images, filter, recs))
  {
    hide ReconInv, PushAll, ExpectedBreaks, SortById, BreakNotices, Halted;
    AnyRun(images, filter, recs);
    RunBroken(images, filter, recs);
    var r := PushAll(images, New(filter), recs);
    Results.ClosedHasInv(images, r, true);
    FinishedGaps(r);
  }
}
