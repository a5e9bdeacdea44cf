/**
 * The gaps that the stream itself announces, in order: lost records, decoder errors and clocks
 * that run backwards, and nothing else. Also what a row's clock shows.
 */
module Gaps {
  import opened TraceTypes
  import opened Machine
  import opened Symbols
  import opened Recon
  import opened Runs
  import opened Events
  import RoundTrip
  import Results
  import Tracking

  // ----- what the stream announces -----

  /** A gap without its id; the thread is given by its tid, if it is known. */
  datatype Notice = Notice(kind: GapKind, tid: Option<nat>, start: Option<nat>, end: Option<nat>, known: bool)

  predicate Announced(kind: GapKind) { kind == PtLoss || kind == MissingImage || kind == DecoderError
      || kind == TimeRegression }

  function NoticeOf(g: Gap): Notice {
    Notice(g.kind, if g.thread.ThreadId? then Some(g.thread.tid) else None, g.start, g.end, g.extentKnown)
  }

  /** The notices among these gaps. */
  function Notices(gaps: seq<Gap>): seq<Notice> {
    if gaps == [] then []
    else
      var g := gaps[|gaps| - 1];
      Notices(gaps[..|gaps| - 1]) + if Announced(g.kind) then [NoticeOf(g)] else []
  }

  /** The last time shown by a kept sample of the task since its last kept exit. */
  function Clock(images: seq<Image>, filter: Option<Tracker>, recs: seq<Record>, key: Key): Option<nat> {
    if recs == [] then None
    else
      var t, last := Clock(images, filter, recs[..|recs| - 1], key), recs[|recs| - 1];
      if !KeptLast(images, filter, recs) then t
      else if IsSampleOf(last, key) then Or(last.sample.time, t)
      else if IsExitOf(last, key) then None
      else t
  }

  /** The first such time. */
  function FirstClock(images: seq<Image>, filter: Option<Tracker>, recs: seq<Record>, key: Key): Option<nat> {
    if recs == [] then None
    else
      var t, last := FirstClock(images, filter, recs[..|recs| - 1], key), recs[|recs| - 1];
      if !KeptLast(images, filter, recs) then t
      else if IsSampleOf(last, key) then Or(t, last.sample.time)
      else if IsExitOf(last, key) then None
      else t
  }

  /** What a kept record announces, given the last time its task showed. */
  function Announces(rec: Record, clock: Option<nat>): seq<Notice> {
    match rec
    case LostRecord => [Notice(PtLoss, None, None, None, false)]
    case DecoderErrorRecord(e) =>
      [Notice(if e.code == Some(5) then MissingImage else DecoderError,
              if e.pid.Some? then e.tid else None, e.time, None, false)]
    case SampleRecord(s) =>
      if clock.Some? && s.time.Some? && s.time.value < clock.value then
        [Notice(TimeRegression, Some(s.tid), clock, s.time, true)]
      else []
    case _ => []
  }

  function TaskOf(rec: Record): Key { if rec.SampleRecord? then (rec.sample.pid, rec.sample.tid) else (0, 0) }

  /** What the kept records of the stream announce, in order. */
  function Expected(images: seq<Image>, filter: Option<Tracker>, recs: seq<Record>): seq<Notice> {
    if recs == [] then []
    else
      var init, last := recs[..|recs| - 1], recs[|recs| - 1];
      Expected(images, filter, init)
      + if KeptLast(images, filter, recs) then Announces(last, Clock(images, filter, init, TaskOf(last))) else []
  }

  // ----- steps that announce nothing -----

  /** No clock moves, and the gaps that are added are those of trace ends and foreign transfers. */
  ghost predicate Quiet(m: State, r: State) {
    && r.threads.Keys == m.threads.Keys
    && (forall k :: k in m.threads ==> SameClock(m.threads[k], r.threads[k]))
    && m.gaps <= r.gaps && forall a :: |m.gaps| <= a < |r.gaps| ==> !Announced(r.gaps[a].kind)
  }

  predicate SameClock(th: ThreadState, th': ThreadState) { th'.lastAbs == th.lastAbs && th'.firstAbs == th.firstAbs }

  lemma QuietTwice(m: State, n: State, r: State)
    requires Quiet(m, n) && Quiet(n, r)
    ensures Quiet(m, r)
  {}

  lemma {:induction false} InterruptQuiet(m: State, key: Key)
    requires key in m.threads
    ensures Quiet(m, Interrupt(m, key)) && Interrupt(m, key).gaps == m.gaps && Interrupt(m, key).nextGap == m.nextGap
    decreases |m.threads[key].stack|
  {
    var th := m.threads[key];
    if th.stack != [] {
      var n := PopEmit(m, key, None, th.Top().startEvent, InterruptedByGap);
      InterruptQuiet(n, key);
      QuietTwice(m, n, Interrupt(n, key));
    }
  }

  lemma {:induction false} CloseQuiet(m: State, key: Key, end: Option<nat>)
    requires key in m.threads
    ensures Quiet(m, CloseOpen(m, key, end)) && CloseOpen(m, key, end).gaps == m.gaps
    decreases |m.threads[key].stack|
  {
    var th := m.threads[key];
    if th.stack != [] {
      var n := PopEmit(m, key, end, th.Top().startEvent, OpenLabel(th.Top().completeness));
      CloseQuiet(n, key, end);
      QuietTwice(m, n, CloseOpen(n, key, end));
    }
  }

  lemma GapQuiet(m: State, key: Key, kind: GapKind, start: Option<nat>, end: Option<nat>, known: bool)
    requires key in m.threads && !Announced(kind)
    ensures Quiet(m, ThreadGap(m, key, kind, start, end, known))
  {}

  lemma BreakQuiet(m: State, key: Key, kind: GapKind, start: Option<nat>, end: Option<nat>, known: bool)
    requires key in m.threads && !Announced(kind)
    ensures Quiet(m, ThreadGap(Interrupt(m, key), key, kind, start, end, known))
  {
    hide Quiet, Interrupt, ThreadGap;
    InterruptQuiet(m, key);
    GapQuiet(Interrupt(m, key), key, kind, start, end, known);
    QuietTwice(m, Interrupt(m, key), ThreadGap(Interrupt(m, key), key, kind, start, end, known));
  }

  lemma OpenQuiet(m: State, key: Key, func: Option<nat>, abs: Option<nat>, eid: nat, c: Completeness, site: Option<nat>)
    requires key in m.threads
    ensures Quiet(m, PushOpen(m, key, func, abs, eid, c, site))
  {}

  lemma OpenKnownQuiet(m: State, key: Key, f: Flow)
    requires key in m.threads
    ensures Quiet(m, OpenKnown(m, key, f))
  {}

  lemma SettleQuiet(m: State, key: Key, pending: PendingEnd, f: Flow)
    requires key in m.threads
    ensures Quiet(m, SettlePending(m, key, pending, f).0)
  {
    hide Quiet, Interrupt, ThreadGap, OpenKnown, PushOpen;
    var hole := RingHole(pending, f);
    if !hole && f.boundary.traceBegin && pending.fromFn.Some? && f.to.func == pending.fromFn {
      var g := ThreadGap(m, key, TraceBoundary, pending.abs, f.abs, pending.abs.Some? && f.abs.Some?);
      GapQuiet(m, key, TraceBoundary, pending.abs, f.abs, pending.abs.Some? && f.abs.Some?);
      QuietKey(m, g, key);
      OpenQuiet(g, key, f.to.func, Or(pending.abs, f.abs), f.eid, OpenStart, f.site);
      QuietTwice(m, g, PushOpen(g, key, f.to.func, Or(pending.abs, f.abs), f.eid, OpenStart, f.site));
    } else {
      var kind, end := if hole then RingTruncation else UnknownGap, if hole then Or(f.cpuFirst, f.abs) else f.abs;
      var known := hole && pending.abs.Some? && end.Some?;
      var g := ThreadGap(Interrupt(m, key), key, kind, pending.abs, end, known);
      BreakQuiet(m, key, kind, pending.abs, end, known);
      QuietKey(m, g, key);
      OpenKnownQuiet(g, key, f);
      QuietTwice(m, g, OpenKnown(g, key, f));
    }
  }

  lemma QuietKey(m: State, r: State, key: Key)
    requires key in m.threads && Quiet(m, r)
    ensures key in r.threads
  {}

  lemma ReturnQuiet(m: State, key: Key, f: Flow)
    requires key in m.threads
    ensures Quiet(m, ApplyReturn(m, key, f))
  {}

  lemma JumpQuiet(m: State, key: Key, f: Flow)
    requires key in m.threads
    ensures Quiet(m, ApplyJump(m, key, f))
  {}

  lemma NothingQuiet(m: State)
    ensures Quiet(m, m)
  {}

  lemma TransferQuiet(m: State, key: Key, f: Flow)
    requires key in m.threads
    ensures Quiet(m, ApplyTransfer(m, key, f))
  {
    hide Quiet, ApplyReturn, ApplyJump, PushOpen;
    OpenQuiet(m, key, f.to.func, f.abs, f.eid, OpenEnd, f.site);
    ReturnQuiet(m, key, f);
    JumpQuiet(m, key, f);
    NothingQuiet(m);
  }

  lemma PendingQuiet(m: State, key: Key, pending: Option<PendingEnd>)
    requires key in m.threads
    ensures Quiet(m, SetPending(m, key, pending)) && key in SetPending(m, key, pending).threads
  {}

  lemma BoundaryQuiet(m: State, key: Key, f: Flow)
    requires key in m.threads
    ensures Quiet(m, ApplyBoundary(m, key, f))
  {
    hide Quiet, Interrupt, ThreadGap, OpenKnown, SetPending;
    PendingQuiet(m, key, Some(PendingEnd(f.from.func, f.from.loc, f.abs, f.cpu)));
    BreakQuiet(m, key, UnknownGap, f.abs, None, false);
    OpenKnownQuiet(m, key, f);
    NothingQuiet(m);
  }

  lemma FlowQuiet(m: State, key: Key, f: Flow)
    requires key in m.threads
    ensures Quiet(m, ApplyFlow(m, key, f))
  {
    hide Quiet, SettlePending, ApplyBoundary, ApplyTransfer, SetPending;
    var pending := m.threads[key].pendingEnd;
    var m1 := m;
    NothingQuiet(m);
    if pending.Some? {
      var m0 := SetPending(m, key, None);
      PendingQuiet(m, key, None);
      SettleQuiet(m0, key, pending.value, f);
      m1 := SettlePending(m0, key, pending.value, f).0;
      QuietTwice(m, m0, m1);
    }
    BoundaryQuiet(m1, key, f);
    TransferQuiet(m1, key, f);
    QuietTwice(m, m1, ApplyBoundary(m1, key, f));
    QuietTwice(m, m1, ApplyTransfer(m1, key, f));
  }

  /** A clock that runs backwards is announced, with the two times; then the new time is the clock. */
  lemma AdvanceAnnounces(m: State, key: Key, time: Option<nat>)
    requires key in m.threads
    ensures var r, prev := Advance(m, key, time), m.threads[key].lastAbs;
            && r.threads.Keys == m.threads.Keys && r.threads[key].lastAbs == Or(time, prev)
            && r.threads[key].firstAbs == m.threads[key].firstAbs && r.threads[key].id == m.threads[key].id
            && (forall k :: k in m.threads && k != key ==> SameClock(m.threads[k], r.threads[k]))
            && (if Regresses(prev, time) then
                  r.gaps == m.gaps + [Gap(m.nextGap, m.threads[key].id, TimeRegression, prev, time, true)]
                else r.gaps == m.gaps)
  {
    InterruptQuiet(m, key);
    InterruptOutside(m, key);
    hide Interrupt;
  }

  lemma {:induction false} NoNotices(gaps: seq<Gap>, gaps': seq<Gap>)
    requires gaps <= gaps' && forall a :: |gaps| <= a < |gaps'| ==> !Announced(gaps'[a].kind)
    ensures Notices(gaps') == Notices(gaps)
    decreases |gaps'|
  {
    if |gaps'| > |gaps| {
      NoNotices(gaps, gaps'[..|gaps'| - 1]);
    } else {
      assert gaps' == gaps;
    }
  }

  lemma OneNotice(gaps: seq<Gap>, g: Gap)
    ensures Notices(gaps + [g]) == Notices(gaps) + if Announced(g.kind) then [NoticeOf(g)] else []
  {
    assert (gaps + [g])[..|gaps|] == gaps;
  }

  // ----- one record -----

  lemma EnterClock(r: Recon, key: Key, time: Option<nat>)
    ensures var mt := Touch(WithThread(r.m, key, Generation(r.generation, key)), key, time);
            && key in mt.threads && mt.gaps == r.m.gaps && mt.threads[key].id == Row(r, key).id
            && mt.threads[key].lastAbs == Row(r, key).lastAbs
            && mt.threads[key].firstAbs == Or(Row(r, key).firstAbs, time)
            && mt.threads.Keys == r.m.threads.Keys + {key}
            && forall k :: k in r.m.threads && k != key ==> SameClock(r.m.threads[k], mt.threads[k])
  {}

  lemma RetainQuiet(m: State, key: Key, s: Sample, from: Resolved, to: Resolved)
    requires key in m.threads
    ensures Quiet(m, Retain(m, key, s, from, to))
  {}

  /** After its clock has moved, a sample announces nothing more. */
  lemma SampleQuiet(images: seq<Image>, r: Recon, s: Sample)
    ensures var key, r' := (s.pid, s.tid), PushSample(images, r, s);
            var mt := Touch(WithThread(r.m, key, Generation(r.generation, key)), key, s.time);
            && key in mt.threads && Quiet(Advance(mt, key, s.time), r'.m) && r'.generation == r.generation
  {
    hide Retain, Touch, WithThread, Resolve, ApplyFlow, Regresses;
    var key := (s.pid, s.tid);
    EnterClock(r, key, s.time);
    var mt := Touch(WithThread(r.m, key, Generation(r.generation, key)), key, s.time);
    AdvanceAnnounces(mt, key, s.time);
    hide Advance;
    var m1 := Advance(mt, key, s.time);
    var (from, t1) := Resolve(images, r.tables, s.pid, s.ip);
    var (to, t2) := Resolve(images, t1, s.pid, s.addr);
    RetainQuiet(m1, key, s, from, to);
    var m2 := Retain(m1, key, s, from, to);
    var f := FlowOf(s, from, to, r.cpuFirst, m1.nextEvent);
    FlowQuiet(m2, key, f);
    QuietTwice(m1, m2, ApplyFlow(m2, key, f));
  }

  lemma SampleAnnounces(images: seq<Image>, r: Recon, s: Sample)
    requires Row(r, (s.pid, s.tid)).id.ThreadId? && Row(r, (s.pid, s.tid)).id.tid == s.tid
    ensures var key, r' := (s.pid, s.tid), PushSample(images, r, s);
            && Notices(r'.m.gaps) == Notices(r.m.gaps) + Announces(SampleRecord(s), Row(r, key).lastAbs)
            && Row(r', key).lastAbs == Or(s.time, Row(r, key).lastAbs)
            && Row(r', key).firstAbs == Or(Row(r, key).firstAbs, s.time)
            && forall k :: k != key ==> SameClock(Row(r, k), Row(r', k))
  {
    hide Advance, Touch, WithThread, PushSample, Notices;
    var key := (s.pid, s.tid);
    EnterClock(r, key, s.time);
    var mt := Touch(WithThread(r.m, key, Generation(r.generation, key)), key, s.time);
    AdvanceAnnounces(mt, key, s.time);
    SampleQuiet(images, r, s);
    var m1, m3 := Advance(mt, key, s.time), PushSample(images, r, s).m;
    NoNotices(m1.gaps, m3.gaps);
    if Regresses(mt.threads[key].lastAbs, s.time) {
      OneNotice(mt.gaps, Gap(mt.nextGap, mt.threads[key].id, TimeRegression, mt.threads[key].lastAbs, s.time, true));
    }
    forall k | k != key ensures SameClock(Row(r, k), Row(PushSample(images, r, s), k)) {
      if k in r.m.threads { assert SameClock(m1.threads[k], m3.threads[k]); }
    }
  }

  lemma RowMade(r: Recon, key: Key)
    ensures var m := WithThread(r.m, key, Generation(r.generation, key));
            && m.threads.Keys == r.m.threads.Keys + {key} && m.gaps == r.m.gaps && m.nextGap == r.m.nextGap
            && m.threads[key] == Row(r, key) && forall k :: k in r.m.threads ==> m.threads[k] == r.m.threads[k]
  {}

  lemma ErrorAnnounces(r: Recon, e: DecoderErrorEvent)
    requires forall k :: Row(r, k).id.ThreadId? && Row(r, k).id.tid == k.1
    ensures Notices(PushError(r, e).m.gaps) == Notices(r.m.gaps) + Announces(DecoderErrorRecord(e), None)
  {
    hide Interrupt, Notices, WithThread;
    var kind := if e.code == Some(5) then MissingImage else DecoderError;
    if e.pid.Some? && e.tid.Some? {
      var key := (e.pid.value, e.tid.value);
      assert Row(r, key).id.tid == key.1;
      var m := WithThread(r.m, key, Generation(r.generation, key));
      RowMade(r, key);
      InterruptQuiet(m, key);
      InterruptOutside(m, key);
      OneNotice(m.gaps, Gap(m.nextGap, m.threads[key].id, kind, e.time, None, false));
    } else {
      OneNotice(r.m.gaps, Gap(r.m.nextGap, UnknownThread, kind, e.time, None, false));
    }
  }

  lemma ErrorClocks(r: Recon, e: DecoderErrorEvent)
    ensures forall k :: SameClock(Row(r, k), Row(PushError(r, e), k))
  {
    hide Interrupt, WithThread;
    if e.pid.Some? && e.tid.Some? {
      var key := (e.pid.value, e.tid.value);
      RowMade(r, key);
      InterruptQuiet(WithThread(r.m, key, Generation(r.generation, key)), key);
    }
  }

  lemma ExitQuiet(r: Recon, t: TaskEvent)
    ensures var r' := PushTask(r, t);
            && r'.m.gaps == r.m.gaps
            && forall k ::
                 && Row(r', k).lastAbs == (if IsExitOf(TaskRecord(t), k) then None else Row(r, k).lastAbs)
                 && Row(r', k).firstAbs == (if IsExitOf(TaskRecord(t), k) then None else Row(r, k).firstAbs)
  {
    hide CloseOpen, Without;
    var key := (t.pid, t.tid);
    if t.kind == Exit && key in r.m.threads { CloseQuiet(r.m, key, t.time); }
  }

  /** Whatever the record is: what it announces is added to the notices, and only its own task's clock moves. */
  lemma RecordAnnounces(images: seq<Image>, r: Recon, rec: Record)
    requires forall k :: Row(r, k).id.ThreadId? && Row(r, k).id.tid == k.1
    ensures var r', kept := Push(images, r, rec), Keeps(r, rec);
            && Notices(r'.m.gaps)
               == Notices(r.m.gaps) + (if kept then Announces(rec, Row(r, TaskOf(rec)).lastAbs) else [])
            && forall k ::
                 && Row(r', k).lastAbs
                    == (if kept && IsSampleOf(rec, k) then Or(rec.sample.time, Row(r, k).lastAbs)
                        else if kept && IsExitOf(rec, k) then None else Row(r, k).lastAbs)
                 && Row(r', k).firstAbs
                    == (if kept && IsSampleOf(rec, k) then Or(Row(r, k).firstAbs, rec.sample.time)
                        else if kept && IsExitOf(rec, k) then None else Row(r, k).firstAbs)
  {
    hide PushSample, PushTask, PushError, AddMapping, Notices, Row;
    var n := Noted(r, rec);
    RowsOfNoted(r, rec);
    if Keeps(r, rec) {
      match rec
      case SampleRecord(s) =>
        assert Row(r, (s.pid, s.tid)).id.tid == s.tid;
        SampleAnnounces(images, n, s);
        KeptPush(images, r, s);
      case TaskRecord(t) => ExitQuiet(n, t);
      case DecoderErrorRecord(e) =>
        ErrorAnnounces(n, e);
        ErrorClocks(n, e);
      case LostRecord =>
        OneNotice(r.m.gaps, Gap(r.m.nextGap, UnknownThread, PtLoss, None, None, false));
        SameRows(r, Push(images, r, rec));
      case _ => SameRows(r, Push(images, r, rec));
    } else {
      SameRows(r, Push(images, r, rec));
    }
  }

  lemma SameRows(r: Recon, r': Recon)
    requires r'.m.threads == r.m.threads && r'.generation == r.generation
    ensures forall k :: Row(r', k) == Row(r, k)
  {}

  // ----- over a run -----

  ghost predicate Clocked(images: seq<Image>, filter: Option<Tracker>, recs: seq<Record>, r: Recon) {
    && Notices(r.m.gaps) == Expected(images, filter, recs)
    && forall k ::
         && Row(r, k).lastAbs == Clock(images, filter, recs, k)
         && Row(r, k).firstAbs == FirstClock(images, filter, recs, k)
  }

  lemma ClockStep(images: seq<Image>, filter: Option<Tracker>, init: seq<Record>, rec: Record)
    ensures var recs := init + [rec];
            var kept := Keeps(PushAll(images, New(filter), init), rec);
            && Expected(images, filter, recs)
               == Expected(images, filter, init)
                  + (if kept then Announces(rec, Clock(images, filter, init, TaskOf(rec))) else [])
            && forall k ::
                 && Clock(images, filter, recs, k)
                    == (if kept && IsSampleOf(rec, k) then Or(rec.sample.time, Clock(images, filter, init, k))
                        else if kept && IsExitOf(rec, k) then None else Clock(images, filter, init, k))
                 && FirstClock(images, filter, recs, k)
                    == (if kept && IsSampleOf(rec, k) then Or(FirstClock(images, filter, init, k), rec.sample.time)
                        else if kept && IsExitOf(rec, k) then None else FirstClock(images, filter, init, k))
  {
    hide PushAll, Keeps, Announces;
    assert (init + [rec])[..|init|] == init;
  }

  lemma {:induction false} RunClocked(images: seq<Image>, filter: Option<Tracker>, recs: seq<Record>)
    ensures Clocked(images, filter, recs, PushAll(images, New(filter), recs))
    decreases |recs|
  {
    hide ReconInv, Push, PushAll, Keeps, Row, Notices, Announces, Expected, Clock, FirstClock;
    if recs == [] {
      Tracking.PushedNothing(images, New(filter));
      NothingClocked(images, filter);
    } else {
      var init, rec := recs[..|recs| - 1], recs[|recs| - 1];
      assert recs == init + [rec];
      var r := PushAll(images, New(filter), init);
      RoundTrip.PushAllConcat(images, New(filter), init, [rec]);
      Tracking.PushedOne(images, r, rec);
      RunClocked(images, filter, init);
      AnyRun(images, filter, init);
      forall k ensures Row(r, k).id.ThreadId? && Row(r, k).id.tid == k.1 { RowTid(images, r, k); }
      RecordAnnounces(images, r, rec);
      ClockStep(images, filter, init, rec);
    }
  }

  lemma NothingClocked(images: seq<Image>, filter: Option<Tracker>)
    ensures Clocked(images, filter, [], New(filter))
  {}

  // ----- and in the analysis -----

  function Back(t: Option<nat>, origin: nat): Option<nat> { if t.Some? then Some(t.value + origin) else None }

  /** The gaps with their times counted from the clock's own zero. */
  function OnClock(gaps: seq<Gap>, origin: nat): (gs: seq<Gap>)
    ensures |gs| == |gaps|
    ensures forall i :: 0 <= i < |gaps| ==>
              gs[i] == gaps[i].(start := Back(gaps[i].start, origin), end := Back(gaps[i].end, origin))
  {
    seq(|gaps|, i requires 0 <= i < |gaps| =>
      gaps[i].(start := Back(gaps[i].start, origin), end := Back(gaps[i].end, origin)))
  }

  lemma {:induction false} CloseAllQuiet(m: State, keys: seq<Key>)
    requires forall k :: k in keys ==> k in m.threads
    ensures CloseAll(m, keys).gaps == m.gaps
    decreases |keys|
  {
    hide CloseOpen;
    if keys != [] {
      var m0 := SetPending(m, keys[0], None);
      CloseQuiet(m0, keys[0], None);
      CloseAllQuiet(CloseOpen(m0, keys[0], None), keys[1..]);
    }
  }

  /**
   * For every stream and filter: lost records, decoder errors and backward clocks appear in a returned analysis exactly
   * as the kept records announce them, in order, with their times and threads.
   */
  lemma GapsAreTrue(images: seq<Image>, filter: Option<Tracker>, recs: seq<Record>)
    ensures var r := PushAll(images, New(filter), recs);
            && (forall k :: k in r.m.order <==> k in r.m.threads)
            && (Finish(r).Ok? ==>
                  var a := Finish(r).value; Notices(OnClock(a.gaps, a.origin)) == Expected(images, filter, recs))
  {
    hide ReconInv, PushAll, Expected, SortById, Notices;
    AnyRun(images, filter, recs);
    RunClocked(images, filter, recs);
    var r := PushAll(images, New(filter), recs);
    Results.ClosedHasInv(images, r, true);
    FinishedGaps(r);
  }

  lemma FinishedGaps(r: Recon)
    requires forall k :: k in r.m.order <==> k in r.m.threads
    ensures Finish(r).Ok? ==> OnClock(Finish(r).value.gaps, Finish(r).value.origin) == r.m.gaps
  {
    hide SortById, CloseAll;
    CloseAllQuiet(r.m, r.m.order);
    if Finish(r).Ok? {
      var a := Finish(r).value;
      forall i | 0 <= i < |a.gaps| ensures OnClock(a.gaps, a.origin)[i] == r.m.gaps[i] {
        assert Rebasable(r.m.gaps[i].start, a.origin) && Rebasable(r.m.gaps[i].end, a.origin);
      }
    }
  }
}
