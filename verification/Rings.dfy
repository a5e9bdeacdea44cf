/**
 * Per-processor rings. How far back each reaches is read off the records, and decides
 * whether a thread that moves between processors at a trace end keeps its frames.
 */
module Rings {
  import opened TraceTypes
  import opened Machine
  import opened Symbols
  import opened Recon
  import opened Runs
  import opened RoundTrip
  import opened Reconstruction
  import opened Behaviour
  import Jumps
  import Tracking

  /** The time that a sample shows for a processor, kept or foreign. */
  function TimeOn(rec: Record, cpu: nat): Option<nat> {
    if rec.SampleRecord? && rec.sample.cpu == Some(cpu) then rec.sample.time else None
  }

  /** The i-th record is the first sample of the processor that has a time, and this is the time. */
  predicate FirstAt(recs: seq<Record>, i: nat, cpu: nat, t: nat)
    requires i < |recs|
  {
    TimeOn(recs[i], cpu) == Some(t) && forall j :: 0 <= j < i ==> TimeOn(recs[j], cpu).None?
  }

  /** The ring of the processor begins at this time. */
  ghost predicate FirstTime(recs: seq<Record>, cpu: nat, t: nat) {
    exists i :: 0 <= i < |recs| && FirstAt(recs, i, cpu, t)
  }

  // ----- what the reconstructor knows of it -----

  lemma PushNotes(images: seq<Image>, r: Recon, rec: Record)
    ensures Push(images, r, rec).cpuFirst == NoteCpu(r.cpuFirst, rec)
  {
    hide NoteCpu, PushSample, PushTask, PushError, AddMapping;
    match rec
    case SampleRecord(s) => SampleNotes(images, Noted(r, rec), s);
    case TaskRecord(t) => TaskNotes(Noted(r, rec), t);
    case DecoderErrorRecord(e) => ErrorNotes(Noted(r, rec), e);
    case _ =>
  }

  lemma SampleNotes(images: seq<Image>, r: Recon, s: Sample)
    ensures PushSample(images, r, s).cpuFirst == r.cpuFirst
  {}

  lemma TaskNotes(r: Recon, t: TaskEvent)
    ensures PushTask(r, t).cpuFirst == r.cpuFirst
  {}

  lemma ErrorNotes(r: Recon, e: DecoderErrorEvent)
    ensures PushError(r, e).cpuFirst == r.cpuFirst
  {}

  ghost predicate Knows(first: map<nat, nat>, recs: seq<Record>, cpu: nat) {
    && (cpu in first ==> FirstTime(recs, cpu, first[cpu]))
    && (cpu !in first ==> forall j :: 0 <= j < |recs| ==> TimeOn(recs[j], cpu).None?)
  }

  lemma KnowsMore(first: map<nat, nat>, recs: seq<Record>, rec: Record, cpu: nat)
    requires Knows(first, recs, cpu)
    ensures Knows(NoteCpu(first, rec), recs + [rec], cpu)
  {
    var all := recs + [rec];
    if cpu in first {
      var i :| 0 <= i < |recs| && FirstAt(recs, i, cpu, first[cpu]);
      assert FirstAt(all, i, cpu, first[cpu]);
    } else if TimeOn(rec, cpu).Some? {
      assert FirstAt(all, |recs|, cpu, TimeOn(rec, cpu).value);
    }
  }

  lemma {:induction false} RunKnows(images: seq<Image>, filter: Option<Tracker>, recs: seq<Record>, cpu: nat)
    ensures Knows(PushAll(images, New(filter), recs).cpuFirst, recs, cpu)
    decreases |recs|
  {
    hide Push, PushAll, Knows;
    if recs == [] {
      Tracking.PushedNothing(images, New(filter));
      NothingKnown(filter, cpu);
    } else {
      var init, rec := recs[..|recs| - 1], recs[|recs| - 1];
      assert recs == init + [rec];
      var r := PushAll(images, New(filter), init);
      PushAllConcat(images, New(filter), init, [rec]);
      Tracking.PushedOne(images, r, rec);
      RunKnows(images, filter, init, cpu);
      PushNotes(images, r, rec);
      KnowsMore(r.cpuFirst, init, rec, cpu);
    }
  }

  lemma NothingKnown(filter: Option<Tracker>, cpu: nat)
    ensures Knows(New(filter).cpuFirst, [], cpu)
  {}

  lemma FirstIsOne(recs: seq<Record>, i: nat, j: nat, cpu: nat, t: nat, u: nat)
    requires i < |recs| && j < |recs| && FirstAt(recs, i, cpu, t) && FirstAt(recs, j, cpu, u)
    ensures i == j && t == u
  {}

  lemma FirstIsUnique(recs: seq<Record>, cpu: nat, t: nat, u: nat)
    requires FirstTime(recs, cpu, t) && FirstTime(recs, cpu, u)
    ensures t == u
  {
    var i :| 0 <= i < |recs| && FirstAt(recs, i, cpu, t);
    var j :| 0 <= j < |recs| && FirstAt(recs, j, cpu, u);
    FirstIsOne(recs, i, j, cpu, t, u);
  }

  /**
   * For every stream and filter: what is kept for a processor is the time of its first timed sample, kept or
   * foreign.
   */
  lemma FirstSeenIff(images: seq<Image>, filter: Option<Tracker>, recs: seq<Record>, cpu: nat, t: nat)
    ensures var first := PushAll(images, New(filter), recs).cpuFirst;
            (cpu in first && first[cpu] == t) <==> FirstTime(recs, cpu, t)
  {
    hide PushAll;
    RunKnows(images, filter, recs, cpu);
    var first := PushAll(images, New(filter), recs).cpuFirst;
    if FirstTime(recs, cpu, t) {
      var i :| 0 <= i < |recs| && FirstAt(recs, i, cpu, t);
      if cpu in first { FirstIsUnique(recs, cpu, t, first[cpu]); }
    }
  }

  // ----- records that leave a thread alone -----

  /** A sample, an exit or an error of this task. */
  predicate Touches(rec: Record, key: Key) {
    match rec
    case SampleRecord(s) => (s.pid, s.tid) == key
    case TaskRecord(t) => t.kind == Exit && (t.pid, t.tid) == key
    case DecoderErrorRecord(e) => e.pid == Some(key.0) && e.tid == Some(key.1)
    case _ => false
  }

  lemma OthersLeave(images: seq<Image>, r: Recon, rec: Record, key: Key)
    requires !Touches(rec, key) && key in r.m.threads
    ensures var r' := Push(images, r, rec); key in r'.m.threads && r'.m.threads[key] == r.m.threads[key]
  {
    hide PushSample, PushTask, PushError, AddMapping;
    match rec
    case SampleRecord(s) =>
      Jumps.SampleElsewhere(images, r, s);
      SampleKeepsKey(images, r, s, key);
    case TaskRecord(t) => ExitElsewhere(Noted(r, rec), t, key);
    case DecoderErrorRecord(e) => ErrorElsewhere(Noted(r, rec), e, key);
    case _ =>
  }

  lemma SampleKeepsKey(images: seq<Image>, r: Recon, s: Sample, key: Key)
    requires key in r.m.threads
    ensures key in Push(images, r, SampleRecord(s)).m.threads
  {
    hide PushSample;
    SampleOutside(images, Noted(r, SampleRecord(s)), s);
  }

  lemma ExitElsewhere(r: Recon, t: TaskEvent, key: Key)
    requires key in r.m.threads && !(t.kind == Exit && (t.pid, t.tid) == key)
    ensures var r' := PushTask(r, t); key in r'.m.threads && r'.m.threads[key] == r.m.threads[key]
  {
    hide Retire;
    if t.kind == Exit && (t.pid, t.tid) in r.m.threads { ExitClosesAll(r.m, (t.pid, t.tid), t.time); }
  }

  lemma ErrorElsewhere(r: Recon, e: DecoderErrorEvent, key: Key)
    requires key in r.m.threads && !(e.pid == Some(key.0) && e.tid == Some(key.1))
    ensures var r' := PushError(r, e); key in r'.m.threads && r'.m.threads[key] == r.m.threads[key]
  {
    hide Interrupt;
    if e.pid.Some? && e.tid.Some? {
      var k := (e.pid.value, e.tid.value);
      var kind := if e.code == Some(5) then MissingImage else DecoderError;
      BreakIsLocal(WithThread(r.m, k, Generation(r.generation, k)), k, kind, e.time, None, false);
    }
  }

  lemma {:induction false} AllLeave(images: seq<Image>, r: Recon, recs: seq<Record>, key: Key)
    requires key in r.m.threads && forall i :: 0 <= i < |recs| ==> !Touches(recs[i], key)
    ensures var r' := PushAll(images, r, recs); key in r'.m.threads && r'.m.threads[key] == r.m.threads[key]
    decreases |recs|
  {
    hide Push, Touches;
    if recs != [] {
      OthersLeave(images, r, recs[0], key);
      AllLeave(images, Push(images, r, recs[0]), recs[1..], key);
    }
  }

  // ----- one kept sample -----

  /** The functions that a sample's addresses resolve to when it is pushed. */
  function FromFn(images: seq<Image>, r: Recon, s: Sample): Option<nat> {
    Resolve(images, r.tables, s.pid, s.ip).0.func
  }

  function ToFn(images: seq<Image>, r: Recon, s: Sample): Option<nat> {
    Resolve(images, Resolve(images, r.tables, s.pid, s.ip).1, s.pid, s.addr).0.func
  }

  /** A kept sample whose time does not run backwards is applied to its own row, as it stood. */
  lemma SamplePushed(images: seq<Image>, r: Recon, s: Sample)
    requires Keeps(r, SampleRecord(s)) && !Regresses(Row(r, (s.pid, s.tid)).lastAbs, s.time)
    ensures var key := (s.pid, s.tid);
            var r' := Push(images, r, SampleRecord(s));
            var (from, t1) := Resolve(images, r.tables, s.pid, s.ip);
            var (to, t2) := Resolve(images, t1, s.pid, s.addr);
            var m := Settled(images, r, s, from, to);
            && m.threads[key].stack == Row(r, key).stack && m.threads[key].pendingEnd == Row(r, key).pendingEnd
            && m.threads[key].id == Row(r, key).id && m.threads[key].lastAbs == Or(s.time, Row(r, key).lastAbs)
            && m.spans == r.m.spans && m.gaps == r.m.gaps && m.nextGap == r.m.nextGap && m.nextSpan == r.m.nextSpan
            && r'.m == ApplyFlow(m, key, FlowOf(s, from, to, r'.cpuFirst, r.m.nextEvent))
  {
    hide Resolve, ApplyFlow, Retain, Advance, Touch, WithThread, NoteCpu;
    var (from, t1) := Resolve(images, r.tables, s.pid, s.ip);
    var (to, t2) := Resolve(images, t1, s.pid, s.addr);
    SettledShape(images, r, s, from, to);
    SettledGaps(images, r, s, from, to);
    EventIdOf(r, s);
    PushNotes(images, r, SampleRecord(s));
    KeptSample(images, r, s);
  }

  lemma SettledGaps(images: seq<Image>, r: Recon, s: Sample, from: Resolved, to: Resolved)
    requires !Regresses(Row(r, (s.pid, s.tid)).lastAbs, s.time)
    ensures Settled(images, r, s, from, to).nextGap == r.m.nextGap
  {}

  lemma KeptSample(images: seq<Image>, r: Recon, s: Sample)
    requires Keeps(r, SampleRecord(s))
    ensures Push(images, r, SampleRecord(s)).m == PushSample(images, Noted(r, SampleRecord(s)), s).m
  {
    hide PushSample;
  }

  // ----- moving between processors -----

  /** The trace of a thread ends; no frame of it is lost yet. */
  lemma EndWaits(images: seq<Image>, r: Recon, e: Sample)
    requires var key := (e.pid, e.tid);
             && Keeps(r, SampleRecord(e)) && !Regresses(Row(r, key).lastAbs, e.time)
             && Row(r, key).pendingEnd.None? && TrEnd in e.flags
    ensures var key := (e.pid, e.tid);
            var r' := Push(images, r, SampleRecord(e));
            && key in r'.m.threads && r'.m.spans == r.m.spans && Row(r', key).stack == Row(r, key).stack
            && Row(r', key).id == Row(r, key).id && Row(r', key).pendingEnd.Some?
            && Row(r', key).lastAbs == Or(e.time, Row(r, key).lastAbs)
            && var p := Row(r', key).pendingEnd.value;
               p.abs == e.time && p.cpu == e.cpu && p.fromFn == FromFn(images, r, e)
  {
    hide Resolve, Settled, Push, Keeps, Regresses, FlagsKind;
    SamplePushed(images, r, e);
  }

  /** The ring of the processor where the trace resumes reaches back to where it ended, or it is the same processor. */
  ghost predicate Covered(recs: seq<Record>, e: Sample, f: Sample) {
    || f.cpu.None? || f.cpu == e.cpu || e.time.None?
    || exists t: nat :: FirstTime(recs, f.cpu.value, t) && t <= e.time.value
  }

  /** Where the unknown stretch ends: at the first time the ring shows, else when the thread is seen again. */
  ghost predicate HoleEnds(recs: seq<Record>, f: Sample, end: Option<nat>) {
    && f.cpu.Some?
    && (forall t: nat :: FirstTime(recs, f.cpu.value, t) ==> end == Some(t))
    && ((forall t: nat :: !FirstTime(recs, f.cpu.value, t)) ==> end == f.time)
  }

  /** All frames end at an unknown time, and one of the target's function is open from here. */
  ghost predicate CutAt(images: seq<Image>, r: Recon, r': Recon, f: Sample) {
    var key := (f.pid, f.tid);
    var fn := if ToFn(images, r, f).Some? then ToFn(images, r, f) else FromFn(images, r, f);
    && r'.m.spans == r.m.spans + Unwound(Row(r, key).stack, Row(r, key).id, None, true)
    && (fn.None? ==> Row(r', key).stack == [])
    && (fn.Some? ==>
          && |Row(r', key).stack| == 1
          && var top := Row(r', key).stack[0];
             top.func == fn && top.start == f.time && top.completeness == OpenStart && top.parent.None?)
  }

  /** The trace of a thread resumes after its end: what that costs, by the records alone. */
  ghost predicate Resumed(images: seq<Image>, recs: seq<Record>, e: Sample, fromFn: Option<nat>, r: Recon, r': Recon,
                          f: Sample) {
    var key := (f.pid, f.tid);
    var known := e.time.Some? && f.time.Some?;
    var id := Row(r, key).id;
    if !Covered(recs, e, f) then
      && CutAt(images, r, r', f)
      && exists end :: HoleEnds(recs, f, end)
           && r'.m.gaps == r.m.gaps + [Gap(r.m.nextGap, id, RingTruncation, e.time, end, end.Some?)]
    else if fromFn.Some? && ToFn(images, r, f) == fromFn then
      && Row(r', key).stack == Row(r, key).stack && r'.m.spans == r.m.spans
      && r'.m.gaps == r.m.gaps + [Gap(r.m.nextGap, id, TraceBoundary, e.time, f.time, known)]
    else
      && CutAt(images, r, r', f)
      && r'.m.gaps == r.m.gaps + [Gap(r.m.nextGap, id, UnknownGap, e.time, f.time, false)]
  }

  /** What a trace start finds to settle, in terms of the machine. */
  lemma CutEffect(m: State, key: Key, f: Flow, kind: GapKind, start: Option<nat>, end: Option<nat>, known: bool)
    requires key in m.threads
    ensures var b := ThreadGap(Interrupt(m, key), key, kind, start, end, known);
            var fn := Or(f.to.func, f.from.func);
            && key in b.threads
            && var r := OpenKnown(b, key, f);
            && r.spans == m.spans + Unwound(m.threads[key].stack, m.threads[key].id, None, true)
            && r.gaps == m.gaps + [Gap(m.nextGap, m.threads[key].id, kind, start, end, known)]
            && key in r.threads
            && r.threads[key].stack
               == if fn.None? then [] else [Frame(m.nextSpan, fn, None, f.abs, f.eid, OpenStart, f.site)]
  {
    InterruptIsEmptied(m, key);
    hide Interrupt, Unwound;
  }

  lemma ResumeEffect(m: State, key: Key, f: Flow)
    requires key in m.threads && m.threads[key].pendingEnd.Some? && m.threads[key].stack != [] && f.boundary.traceBegin
    ensures var r, p := ApplyFlow(m, key, f), m.threads[key].pendingEnd.value;
            var th, fn := m.threads[key], Or(f.to.func, f.from.func);
            var hole := RingHole(p, f);
            if !hole && p.fromFn.Some? && f.to.func == p.fromFn then
              && r.threads[key].stack == th.stack && r.spans == m.spans
              && r.gaps == m.gaps + [Gap(m.nextGap, th.id, TraceBoundary, p.abs, f.abs, p.abs.Some? && f.abs.Some?)]
            else
              var end := if hole then Or(f.cpuFirst, f.abs) else f.abs;
              && r.spans == m.spans + Unwound(th.stack, th.id, None, true)
              && r.threads[key].stack
                 == (if fn.None? then [] else [Frame(m.nextSpan, fn, None, f.abs, f.eid, OpenStart, f.site)])
              && r.gaps == m.gaps + [Gap(m.nextGap, th.id, if hole then RingTruncation else UnknownGap, p.abs, end,
                                         hole && p.abs.Some? && end.Some?)]
  {
    var p := m.threads[key].pendingEnd.value;
    var hole := RingHole(p, f);
    var end := if hole then Or(f.cpuFirst, f.abs) else f.abs;
    CutEffect(SetPending(m, key, None), key, f, if hole then RingTruncation else UnknownGap, p.abs, end,
              hole && p.abs.Some? && end.Some?);
    hide Interrupt, Unwound, OpenKnown;
  }

  /** What the reconstructor knows of the ring agrees with the records. */
  lemma HoleIff(recs: seq<Record>, first: map<nat, nat>, e: Sample, f: Sample, p: PendingEnd, flow: Flow)
    requires f.cpu.Some? ==> Knows(first, recs, f.cpu.value)
    requires p.abs == e.time && p.cpu == e.cpu && flow.cpu == f.cpu && flow.abs == f.time
    requires flow.cpuFirst == if f.cpu.Some? && f.cpu.value in first then Some(first[f.cpu.value]) else None
    ensures RingHole(p, flow) <==> !Covered(recs, e, f)
    ensures RingHole(p, flow) ==> HoleEnds(recs, f, Or(flow.cpuFirst, flow.abs))
  {
    if f.cpu.Some? {
      var d := f.cpu.value;
      forall t: nat | FirstTime(recs, d, t) ensures d in first && first[d] == t {
        var i :| 0 <= i < |recs| && FirstAt(recs, i, d, t);
        assert d in first;
        FirstIsUnique(recs, d, t, first[d]);
      }
    }
  }

  /**
   * A thread with open frames leaves the trace, records of other tasks follow, and it resumes. It keeps its frames
   * exactly if it resumes where it left and the ring it resumes on had begun by then; only the records decide.
   */
  lemma ResumeAfterEnd(images: seq<Image>, filter: Option<Tracker>, before: seq<Record>, e: Sample,
                       between: seq<Record>, f: Sample)
    requires var key := (e.pid, e.tid);
             var r := PushAll(images, New(filter), before);
             && (f.pid, f.tid) == key && Keeps(r, SampleRecord(e)) && !Regresses(Row(r, key).lastAbs, e.time)
             && Row(r, key).stack != [] && Row(r, key).pendingEnd.None?
             && TrEnd in e.flags && TrStart in f.flags
             && (forall i :: 0 <= i < |between| ==> !Touches(between[i], key))
             && !Regresses(Or(e.time, Row(r, key).lastAbs), f.time)
    ensures var key := (e.pid, e.tid);
            var r := PushAll(images, New(filter), before);
            var r2 := PushAll(images, New(filter), before + [SampleRecord(e)] + between);
            var r3 := PushAll(images, New(filter), before + [SampleRecord(e)] + between + [SampleRecord(f)]);
            && Row(r2, key).stack == Row(r, key).stack
            && Resumed(images, before + [SampleRecord(e)] + between + [SampleRecord(f)], e, FromFn(images, r, e), r2,
                       r3, f)
  {
    hide PushAll, New, Push, Touches, Keeps, Resumed, Regresses, FromFn, ToFn;
    var key := (e.pid, e.tid);
    var r := PushAll(images, New(filter), before);
    var r1 := Push(images, r, SampleRecord(e));
    var r2 := PushAll(images, r1, between);
    EndWaits(images, r, e);
    AllLeave(images, r1, between, key);
    RunsApart(images, New(filter), before, SampleRecord(e), between, SampleRecord(f));
    Tracking.KeptStaysKept(images, r, e, [SampleRecord(e)] + between, f);
    var all := before + [SampleRecord(e)] + between + [SampleRecord(f)];
    if f.cpu.Some? { RunKnows(images, filter, all, f.cpu.value); }
    ResumeStep(images, all, e, FromFn(images, r, e), r2, f);
  }

  lemma RunsApart(images: seq<Image>, r: Recon, before: seq<Record>, e: Record, between: seq<Record>, f: Record)
    ensures PushAll(images, r, before + [e] + between)
            == PushAll(images, Push(images, PushAll(images, r, before), e), between)
            == PushAll(images, PushAll(images, r, before), [e] + between)
    ensures PushAll(images, r, before + [e] + between + [f])
            == Push(images, PushAll(images, r, before + [e] + between), f)
  {
    hide Push, PushAll;
    PushAllConcat(images, r, before + [e] + between, [f]);
    Tracking.PushedOne(images, PushAll(images, r, before + [e] + between), f);
    assert before + [e] + between == before + ([e] + between);
    PushAllConcat(images, r, before, [e] + between);
    PushAllConcat(images, PushAll(images, r, before), [e], between);
    Tracking.PushedOne(images, PushAll(images, r, before), e);
  }

  lemma ResumeStep(images: seq<Image>, recs: seq<Record>, e: Sample, fromFn: Option<nat>, r: Recon, f: Sample)
    requires var key := (f.pid, f.tid);
             && Keeps(r, SampleRecord(f)) && !Regresses(Row(r, key).lastAbs, f.time) && TrStart in f.flags
             && Row(r, key).stack != [] && Row(r, key).pendingEnd.Some?
             && var p := Row(r, key).pendingEnd.value;
                p.abs == e.time && p.cpu == e.cpu && p.fromFn == fromFn
    requires f.cpu.Some? ==> Knows(Push(images, r, SampleRecord(f)).cpuFirst, recs, f.cpu.value)
    ensures Resumed(images, recs, e, fromFn, r, Push(images, r, SampleRecord(f)), f)
  {
    hide Resolve, Settled, Push, Keeps, Regresses, ApplyFlow, RingHole, Unwound, Covered, HoleEnds, Knows, FlagsKind;
    var key := (f.pid, f.tid);
    SamplePushed(images, r, f);
    var r' := Push(images, r, SampleRecord(f));
    var (from, t1) := Resolve(images, r.tables, f.pid, f.ip);
    var (to, t2) := Resolve(images, t1, f.pid, f.addr);
    var m := Settled(images, r, f, from, to);
    var flow := FlowOf(f, from, to, r'.cpuFirst, r.m.nextEvent);
    ResumeEffect(m, key, flow);
    HoleIff(recs, r'.cpuFirst, e, f, Row(r, key).pendingEnd.value, flow);
    if RingHole(Row(r, key).pendingEnd.value, flow) { HoleKnowsStart(Row(r, key).pendingEnd.value, flow); }
  }

  lemma HoleKnowsStart(p: PendingEnd, f: Flow)
    requires RingHole(p, f)
    ensures p.abs.Some?
  {}
}
