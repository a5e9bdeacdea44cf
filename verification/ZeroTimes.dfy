/**
 * Which streams `finish` refuses: those in which some record writes the time 0,
 * as it can be told record by record before each is pushed.
 */
module ZeroTimes {
  import opened TraceTypes
  import opened Machine
  import opened Origin
  import opened Symbols
  import opened Recon
  import opened Runs
  import opened Results
  import opened Reconstruction
  import opened Behaviour

  // ----- rows are never taken back -----

  predicate Grown(m: State, r: State) {
    m.events <= r.events && m.spans <= r.spans && m.gaps <= r.gaps
  }

  lemma InterruptGrows(m: State, key: Key)
    requires key in m.threads
    ensures Grown(m, Interrupt(m, key))
  {
    hide Interrupt;
    InterruptIsEmptied(m, key);
  }

  lemma FlowGrows(m: State, key: Key, f: Flow)
    requires key in m.threads
    ensures Grown(m, ApplyFlow(m, key, f))
  {
    hide ApplyFlow;
    SampleIsLocal(m, key, f);
    FlowOutside(m, key, f);
  }

  lemma AdvanceGrows(m: State, key: Key, time: Option<nat>)
    requires key in m.threads
    ensures Grown(m, Advance(m, key, time))
  {
    hide Interrupt;
    InterruptGrows(m, key);
  }

  lemma SampleGrows(images: seq<Image>, r: Recon, s: Sample)
    ensures Grown(r.m, PushSample(images, r, s).m)
  {
    hide Advance, ApplyFlow, Resolve;
    var key := (s.pid, s.tid);
    var mt := Touch(WithThread(r.m, key, Generation(r.generation, key)), key, s.time);
    AdvanceGrows(mt, key, s.time);
    var m1 := Advance(mt, key, s.time);
    var (from, t1) := Resolve(images, r.tables, s.pid, s.ip);
    var (to, t2) := Resolve(images, t1, s.pid, s.addr);
    FlowGrows(Retain(m1, key, s, from, to), key, FlowOf(s, from, to, r.cpuFirst, m1.nextEvent));
  }

  lemma RetireGrows(m: State, key: Key, time: Option<nat>)
    requires key in m.threads
    ensures Grown(m, Retire(m, key, time))
  {
    hide CloseOpen;
    CloseOpenIsEmptied(m, key, time);
  }

  lemma ErrorGrows(r: Recon, e: DecoderErrorEvent)
    ensures Grown(r.m, PushError(r, e).m)
  {
    hide Interrupt;
    if e.pid.Some? && e.tid.Some? {
      var key := (e.pid.value, e.tid.value);
      InterruptGrows(WithThread(r.m, key, Generation(r.generation, key)), key);
    }
  }

  lemma PushGrows(images: seq<Image>, r: Recon, rec: Record)
    ensures Grown(r.m, Push(images, r, rec).m)
  {
    hide PushSample, PushError, Retire, AddMapping, Tracker.Observe, Tracker.Drops;
    var n := Noted(r, rec);
    match rec
    case SampleRecord(s) => SampleGrows(images, n, s);
    case TaskRecord(t) => if (t.pid, t.tid) in n.m.threads { RetireGrows(n.m, (t.pid, t.tid), t.time); }
    case DecoderErrorRecord(e) => ErrorGrows(n, e);
    case _ =>
  }

  lemma {:induction false} PushAllGrows(images: seq<Image>, r: Recon, recs: seq<Record>)
    ensures Grown(r.m, PushAll(images, r, recs).m)
    decreases |recs|
  {
    hide Push;
    if recs != [] {
      PushGrows(images, r, recs[0]);
      PushAllGrows(images, Push(images, r, recs[0]), recs[1..]);
    }
  }

  lemma {:induction false} CloseAllGrows(m: State, keys: seq<Key>)
    requires forall k :: k in keys ==> k in m.threads
    ensures Grown(m, CloseAll(m, keys))
    decreases |keys|
  {
    hide CloseOpen;
    if keys != [] {
      var m0 := SetPending(m, keys[0], None);
      CloseOpenIsEmptied(m0, keys[0], None);
      CloseOpenKeys(m0, keys[0], None);
      CloseAllGrows(CloseOpen(m0, keys[0], None), keys[1..]);
    }
  }

  lemma ZeroStays(m: State, r: State)
    requires StoresZero(m) && Grown(m, r)
    ensures StoresZero(r)
  {
    if a :| 0 <= a < |m.events| && m.events[a].time == Some(0) {
      assert r.events[a].time == Some(0);
    } else if a :| 0 <= a < |m.spans| && (m.spans[a].start == Some(0) || m.spans[a].end == Some(0)) {
      assert r.spans[a] == m.spans[a];
    } else if a :| 0 <= a < |m.gaps| && (m.gaps[a].start == Some(0) || m.gaps[a].end == Some(0)) {
      assert r.gaps[a] == m.gaps[a];
    }
  }

  // ----- a record that writes 0 leaves it in a row -----

  lemma GapStores(m: State, key: Key, kind: GapKind, start: Option<nat>, end: Option<nat>, known: bool)
    requires key in m.threads && (start == Some(0) || end == Some(0))
    ensures StoresZero(ThreadGap(m, key, kind, start, end, known))
  {
    var r := ThreadGap(m, key, kind, start, end, known);
    assert r.gaps[|m.gaps|] == Gap(m.nextGap, m.threads[key].id, kind, start, end, known);
  }

  /** A regression to 0 is the end of a gap. */
  lemma RegressionStores(m: State, key: Key, time: Option<nat>)
    requires key in m.threads && time == Some(0) && Regresses(m.threads[key].lastAbs, time)
    ensures StoresZero(Advance(m, key, time))
  {
    hide Interrupt, ThreadGap, StoresZero;
    var prev := m.threads[key].lastAbs;
    var g := ThreadGap(Interrupt(m, key), key, TimeRegression, prev, time, true);
    GapStores(Interrupt(m, key), key, TimeRegression, prev, time, true);
    GapKeepsRow(Interrupt(m, key), key, TimeRegression, prev, time, true);
    ZeroStays(g, SetThread(g, key, g.threads[key].(lastAbs := time)));
  }

  lemma GapKeepsRow(m: State, key: Key, kind: GapKind, start: Option<nat>, end: Option<nat>, known: bool)
    requires key in m.threads
    ensures key in ThreadGap(m, key, kind, start, end, known).threads
  {}

  /** A stored event keeps the time of its sample. */
  lemma EventStores(m: State, key: Key, s: Sample, from: Resolved, to: Resolved)
    requires key in m.threads && s.time == Some(0) && !Skipped(FlagsKind(s.flags), FlagsBoundary(s.flags), from, to)
    ensures StoresZero(Retain(m, key, s, from, to))
  {
    assert Retain(m, key, s, from, to).events[|m.events|].time == Some(0);
  }

  /** A jump of time 0 after a trace end is the end of the gap, unless the ring's start is. */
  lemma PendingStores(m: State, key: Key, f: Flow)
    requires key in m.threads && m.threads[key].pendingEnd.Some? && f.abs == Some(0) && !f.boundary.TakesPrecedence()
    requires !(RingHole(m.threads[key].pendingEnd.value, f) && f.cpuFirst.Some?)
    ensures StoresZero(ApplyFlow(m, key, f))
  {
    var pending := m.threads[key].pendingEnd.value;
    var m0 := SetPending(m, key, None);
    hide Interrupt, ThreadGap, StoresZero, ApplyTransfer;
    var i := Interrupt(m0, key);
    var hole := RingHole(pending, f);
    var kind := if hole then RingTruncation else UnknownGap;
    GapStores(i, key, kind, pending.abs, f.abs, hole && pending.abs.Some? && f.abs.Some?);
    GapKeepsRow(i, key, kind, pending.abs, f.abs, hole && pending.abs.Some? && f.abs.Some?);
    var g := ThreadGap(i, key, kind, pending.abs, f.abs, hole && pending.abs.Some? && f.abs.Some?);
    TransferIsLocal(g, key, f);
    TransferOutside(g, key, f);
    ZeroStays(g, ApplyTransfer(g, key, f));
  }

  /** The settled machine of a sample knows what its row knew. */
  lemma EnteredRow(r: Recon, key: Key, time: Option<nat>)
    ensures var mt := Touch(WithThread(r.m, key, Generation(r.generation, key)), key, time);
            && mt.threads[key].lastAbs == Row(r, key).lastAbs && mt.nextEvent == r.m.nextEvent
            && (!Regresses(Row(r, key).lastAbs, time) ==>
                  && Advance(mt, key, time).threads[key].pendingEnd == Row(r, key).pendingEnd
                  && Advance(mt, key, time).nextEvent == r.m.nextEvent)
  {}

  lemma SampleStores(images: seq<Image>, r: Recon, s: Sample)
    requires WritesZero(images, r, SampleRecord(s))
    ensures StoresZero(PushSample(images, r, s).m)
  {
    hide Advance, ApplyFlow, Resolve, StoresZero, Retain, Touch, WithThread, RingHole, Skipped;
    var key := (s.pid, s.tid);
    EnteredRow(r, key, s.time);
    var mt := Touch(WithThread(r.m, key, Generation(r.generation, key)), key, s.time);
    var m1 := Advance(mt, key, s.time);
    var (from, t1) := Resolve(images, r.tables, s.pid, s.ip);
    var (to, t2) := Resolve(images, t1, s.pid, s.addr);
    var m2 := Retain(m1, key, s, from, to);
    var f := FlowOf(s, from, to, r.cpuFirst, m1.nextEvent);
    FlowGrows(m2, key, f);
    if !Skipped(f.kind, f.boundary, from, to) {
      EventStores(m1, key, s, from, to);
      ZeroStays(m2, ApplyFlow(m2, key, f));
    } else if Regresses(Row(r, key).lastAbs, s.time) {
      RegressionStores(mt, key, s.time);
      RetainGrows(m1, key, s, from, to);
      ZeroStays(m1, m2);
      ZeroStays(m2, ApplyFlow(m2, key, f));
    } else {
      RetainGrows(m1, key, s, from, to);
      SkippedIsPlain(f.kind, f.boundary, from, to);
      PendingStores(m2, key, f);
    }
  }

  lemma SkippedIsPlain(kind: FlowKind, boundary: Boundary, from: Resolved, to: Resolved)
    requires Skipped(kind, boundary, from, to)
    ensures !boundary.TakesPrecedence()
  {}

  lemma RetainGrows(m: State, key: Key, s: Sample, from: Resolved, to: Resolved)
    requires key in m.threads
    ensures Grown(m, Retain(m, key, s, from, to))
    ensures Retain(m, key, s, from, to).threads[key].pendingEnd == m.threads[key].pendingEnd
  {}

  lemma ExitStores(r: Recon, t: TaskEvent)
    requires t.time == Some(0) && t.kind == Exit && Row(r, (t.pid, t.tid)).stack != []
    ensures StoresZero(PushTask(r, t).m)
  {
    hide CloseOpen;
    var key := (t.pid, t.tid);
    CloseOpenIsEmptied(r.m, key, t.time);
    var th := r.m.threads[key];
    assert PushTask(r, t).m.spans == r.m.spans + Unwound(th.stack, th.id, t.time, false);
    assert PushTask(r, t).m.spans[|r.m.spans|].end == Some(0);
  }

  lemma ErrorStores(r: Recon, e: DecoderErrorEvent)
    requires e.time == Some(0)
    ensures StoresZero(PushError(r, e).m)
  {
    hide Interrupt;
    var kind := if e.code == Some(5) then MissingImage else DecoderError;
    if e.pid.Some? && e.tid.Some? {
      var key := (e.pid.value, e.tid.value);
      GapStores(Interrupt(WithThread(r.m, key, Generation(r.generation, key)), key), key, kind, e.time, None, false);
    } else {
      assert PushError(r, e).m.gaps[|r.m.gaps|].start == Some(0);
    }
  }

  lemma ZeroIsWritten(images: seq<Image>, r: Recon, rec: Record)
    requires PushWritesZero(images, r, rec)
    ensures StoresZero(Push(images, r, rec).m)
  {
    hide PushSample, PushError, PushTask, StoresZero, Noted, SampleWritesTime;
    var n := Noted(r, rec);
    match rec
    case SampleRecord(s) => SampleStores(images, n, s);
    case TaskRecord(t) => ExitStores(n, t);
    case DecoderErrorRecord(e) => ErrorStores(n, e);
    case _ =>
  }

  // ----- the exact condition -----

  lemma {:induction false} WrittenStays(images: seq<Image>, r: Recon, recs: seq<Record>)
    requires !NoZeroWritten(images, r, recs)
    ensures StoresZero(PushAll(images, r, recs).m)
    decreases |recs|
  {
    hide Push, PushWritesZero, StoresZero;
    if recs != [] {
      var r1 := Push(images, r, recs[0]);
      if PushWritesZero(images, r, recs[0]) {
        ZeroIsWritten(images, r, recs[0]);
        PushAllGrows(images, r1, recs[1..]);
        ZeroStays(r1.m, PushAll(images, r1, recs[1..]).m);
      } else {
        WrittenStays(images, r1, recs[1..]);
      }
    }
  }

  /** For every stream with a time in it: `finish` refuses it if and only if some record of it writes the time 0. */
  lemma RefusedIff(images: seq<Image>, filter: Option<Tracker>, recs: seq<Record>)
    ensures var r := PushAll(images, New(filter), recs);
            && (forall k :: k in r.m.order <==> k in r.m.threads)
            && (Finish(r) == Err(NoTimestamps) <==> Earliest(filter, recs, None).None?)
            && (Finish(r) == Err(PrecedesOrigin) <==>
                  Earliest(filter, recs, None).Some? && !NoZeroWritten(images, New(filter), recs))
            && (Finish(r).Ok? ==> Finish(r).value.origin == Earliest(filter, recs, None).value)
  {
    hide ReconInv, StoresZero, NoZeroWritten, Finish, OriginInv;
    FinishFailsIff(images, filter, recs);
    MinIsEarliest(images, New(filter), recs);
    AnyRun(images, filter, recs);
    var r := PushAll(images, New(filter), recs);
    FinishOrigin(r);
    if NoZeroWritten(images, New(filter), recs) {
      ClosedHasInv(images, r, false);
      InvOrigin(Closed(r), r.minAbs, false);
      CleanStoresNone(Closed(r), r.minAbs);
    } else {
      WrittenStays(images, New(filter), recs);
      CloseAllGrows(r.m, r.m.order);
      ZeroStays(r.m, Closed(r));
    }
  }

  lemma FinishOrigin(r: Recon)
    requires forall k :: k in r.m.order <==> k in r.m.threads
    ensures Finish(r).Ok? ==> r.minAbs == Some(Finish(r).value.origin)
  {}

  lemma CleanStoresNone(m: State, min: Option<nat>)
    requires OriginInv(m, min, false)
    ensures !StoresZero(m)
  {}

  /** A decoder error at time 0 is refused, whatever time comes after it. */
  lemma ZeroErrorIsRefused(images: seq<Image>)
    ensures var recs := [DecoderErrorRecord(DecoderErrorEvent(Some(0), None, None, None)), SwitchRecord(Some(5))];
            var r := PushAll(images, New(None), recs);
            (forall k :: k in r.m.order <==> k in r.m.threads) && Finish(r) == Err(PrecedesOrigin)
  {
    var a, b := DecoderErrorRecord(DecoderErrorEvent(Some(0), None, None, None)), SwitchRecord(Some(5));
    var recs := [a, b];
    assert recs[1..] == [b] && [b][1..] == [];
    assert PushWritesZero(images, New(None), a);
    assert Earliest(None, [], Some(5)) == Some(5);
    assert Earliest(None, [b], None) == Some(5);
    assert NoteAbs(None, RecordTime(a)) == None;
    assert Earliest(None, recs, None) == Earliest(None, recs[1..], None);
    hide Finish, PushAll;
    RefusedIff(images, None, recs);
  }
}
