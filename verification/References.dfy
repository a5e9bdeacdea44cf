/** Every function, location, event and thread that a row names is one of the rows. */
module References {
  import opened TraceTypes
  import opened Machine
  import opened Steps
  import opened SpanIds
  import opened Symbols
  import opened Recon
  import opened Runs
  import opened Results
  import opened Evidence
  import opened Owners

  predicate Below(id: Option<nat>, n: nat) {
    id.Some? ==> id.value < n
  }

  ghost predicate RowNames(th: ThreadState, n: nat) {
    && (forall i :: 0 <= i < |th.stack| ==> Below(th.stack[i].func, n))
    && (th.pendingEnd.Some? ==> Below(th.pendingEnd.value.fromFn, n))
  }

  /** Frames, spans and pending trace ends name functions below `n`, events locations below `l`. */
  ghost predicate Grounded(m: State, n: nat, l: nat) {
    && (forall k :: k in m.threads ==> RowNames(m.threads[k], n))
    && (forall a :: 0 <= a < |m.spans| ==> Below(m.spans[a].func, n))
    && (forall a :: 0 <= a < |m.events| ==> Below(m.events[a].from, l) && Below(m.events[a].to, l))
  }

  lemma NamedMore(m: State, n: nat, l: nat, n': nat, l': nat)
    requires Grounded(m, n, l) && n <= n' && l <= l'
    ensures Grounded(m, n', l')
  {
    forall k | k in m.threads ensures RowNames(m.threads[k], n') {
      assert RowNames(m.threads[k], n);
    }
  }

  /** Rows and spans change by one row and by spans of known functions. */
  lemma StepNamed(m: State, r: State, key: Key, n: nat, l: nat)
    requires Grounded(m, n, l) && key in r.threads && RowNames(r.threads[key], n)
    requires forall k :: k in r.threads && k != key ==> k in m.threads && r.threads[k] == m.threads[k]
    requires m.spans <= r.spans && (forall a :: |m.spans| <= a < |r.spans| ==> Below(r.spans[a].func, n))
    requires r.events == m.events
    ensures Grounded(r, n, l)
  {
    forall a | 0 <= a < |r.spans| ensures Below(r.spans[a].func, n) {
      if a < |m.spans| { assert r.spans[a] == m.spans[a]; }
    }
  }

  lemma OpenNamed(m: State, key: Key, func: Option<nat>, abs: Option<nat>, eid: nat, c: Completeness, site: Option<nat>,
                  n: nat, l: nat)
    requires Grounded(m, n, l) && key in m.threads && Below(func, n)
    ensures Grounded(PushOpen(m, key, func, abs, eid, c, site), n, l)
  {
    assert RowNames(m.threads[key], n);
    StepNamed(m, PushOpen(m, key, func, abs, eid, c, site), key, n, l);
  }

  lemma PopNamed(m: State, key: Key, end: Option<nat>, endEvent: nat, c: Completeness, n: nat, l: nat)
    requires Grounded(m, n, l) && key in m.threads && m.threads[key].stack != []
    ensures Grounded(PopEmit(m, key, end, endEvent, c), n, l)
  {
    assert RowNames(m.threads[key], n);
    StepNamed(m, PopEmit(m, key, end, endEvent, c), key, n, l);
  }

  lemma GapNamed(m: State, key: Key, kind: GapKind, start: Option<nat>, end: Option<nat>, known: bool, n: nat, l: nat)
    requires Grounded(m, n, l) && key in m.threads
    ensures Grounded(ThreadGap(m, key, kind, start, end, known), n, l)
  {
    assert RowNames(m.threads[key], n);
    StepNamed(m, ThreadGap(m, key, kind, start, end, known), key, n, l);
  }

  lemma {:induction false} InterruptNamed(m: State, key: Key, n: nat, l: nat)
    requires Grounded(m, n, l) && key in m.threads
    ensures Grounded(Interrupt(m, key), n, l)
    decreases |m.threads[key].stack|
  {
    hide Grounded;
    var th := m.threads[key];
    if th.stack != [] {
      PopNamed(m, key, None, th.Top().startEvent, InterruptedByGap, n, l);
      InterruptNamed(PopEmit(m, key, None, th.Top().startEvent, InterruptedByGap), key, n, l);
    }
  }

  lemma {:induction false} CloseNamed(m: State, key: Key, end: Option<nat>, n: nat, l: nat)
    requires Grounded(m, n, l) && key in m.threads
    ensures Grounded(CloseOpen(m, key, end), n, l)
    decreases |m.threads[key].stack|
  {
    hide Grounded;
    var th := m.threads[key];
    if th.stack != [] {
      var c := OpenLabel(th.Top().completeness);
      PopNamed(m, key, end, th.Top().startEvent, c, n, l);
      CloseNamed(PopEmit(m, key, end, th.Top().startEvent, c), key, end, n, l);
    }
  }

  lemma PendingNamed(m: State, key: Key, pending: Option<PendingEnd>, n: nat, l: nat)
    requires Grounded(m, n, l) && key in m.threads && (pending.Some? ==> Below(pending.value.fromFn, n))
    ensures Grounded(SetPending(m, key, pending), n, l)
  {
    assert RowNames(m.threads[key], n);
    StepNamed(m, SetPending(m, key, pending), key, n, l);
  }

  /** The ends of the sample are in the tables. */
  predicate EndsBelow(f: Flow, n: nat) { Below(f.from.func, n) && Below(f.to.func, n) }

  lemma OpenKnownNamed(m: State, key: Key, f: Flow, n: nat, l: nat)
    requires Grounded(m, n, l) && key in m.threads && EndsBelow(f, n)
    ensures Grounded(OpenKnown(m, key, f), n, l)
  {
    hide Grounded, PushOpen;
    var fn := Or(f.to.func, f.from.func);
    if fn.Some? { OpenNamed(m, key, fn, f.abs, f.eid, OpenStart, f.site, n, l); }
  }

  lemma BreakNamed(m: State, key: Key, kind: GapKind, start: Option<nat>, end: Option<nat>, known: bool, n: nat, l: nat)
    requires Grounded(m, n, l) && key in m.threads
    ensures var r := ThreadGap(Interrupt(m, key), key, kind, start, end, known); key in r.threads && Grounded(r, n, l)
  {
    hide Grounded, Interrupt;
    InterruptNamed(m, key, n, l);
    GapNamed(Interrupt(m, key), key, kind, start, end, known, n, l);
  }

  lemma SettleNamed(m: State, key: Key, pending: PendingEnd, f: Flow, n: nat, l: nat)
    requires Grounded(m, n, l) && key in m.threads && EndsBelow(f, n)
    ensures Grounded(SettlePending(m, key, pending, f).0, n, l)
  {
    hide Grounded, Interrupt, OpenKnown, PushOpen;
    var hole := RingHole(pending, f);
    if hole || !f.boundary.traceBegin || !(pending.fromFn.Some? && f.to.func == pending.fromFn) {
      var kind, end := if hole then RingTruncation else UnknownGap, if hole then Or(f.cpuFirst, f.abs) else f.abs;
      var known := hole && pending.abs.Some? && end.Some?;
      BreakNamed(m, key, kind, pending.abs, end, known, n, l);
      OpenKnownNamed(ThreadGap(Interrupt(m, key), key, kind, pending.abs, end, known), key, f, n, l);
    } else {
      var known := pending.abs.Some? && f.abs.Some?;
      GapNamed(m, key, TraceBoundary, pending.abs, f.abs, known, n, l);
      OpenNamed(ThreadGap(m, key, TraceBoundary, pending.abs, f.abs, known), key, f.to.func, Or(pending.abs, f.abs),
                f.eid, OpenStart, f.site, n, l);
    }
  }

  lemma BoundaryNamed(m: State, key: Key, f: Flow, n: nat, l: nat)
    requires Grounded(m, n, l) && key in m.threads && EndsBelow(f, n)
    ensures Grounded(ApplyBoundary(m, key, f), n, l)
  {
    hide Grounded, Interrupt, OpenKnown, SetPending, ThreadGap;
    PendingNamed(m, key, Some(PendingEnd(f.from.func, f.from.loc, f.abs, f.cpu)), n, l);
    BreakNamed(m, key, UnknownGap, f.abs, None, false, n, l);
    OpenKnownNamed(m, key, f, n, l);
  }

  lemma ReturnNamed(m: State, key: Key, f: Flow, n: nat, l: nat)
    requires Grounded(m, n, l) && key in m.threads && EndsBelow(f, n)
    ensures Grounded(ApplyReturn(m, key, f), n, l)
  {
    var th := m.threads[key];
    if th.stack != [] {
      PopNamed(m, key, f.abs, f.eid, ReturnLabel(th.Top().completeness), n, l);
    } else {
      assert RowNames(th, n);
      var u := EmitUnmatched(m, key, f.from.func, f.abs, f.eid);
      StepNamed(m, u, key, n, l);
      hide Grounded;
      if f.to.func.Some? { OpenNamed(u, key, f.to.func, f.abs, f.eid, OpenStart, f.site, n, l); }
    }
  }

  lemma JumpNamed(m: State, key: Key, f: Flow, n: nat, l: nat)
    requires Grounded(m, n, l) && key in m.threads && EndsBelow(f, n)
    ensures Grounded(ApplyJump(m, key, f), n, l)
  {
    assert RowNames(m.threads[key], n);
    StepNamed(m, ApplyJump(m, key, f), key, n, l);
  }

  lemma FlowNamed(m: State, key: Key, f: Flow, n: nat, l: nat)
    requires Grounded(m, n, l) && key in m.threads && EndsBelow(f, n)
    ensures Grounded(ApplyFlow(m, key, f), n, l)
  {
    hide Grounded, SettlePending, ApplyBoundary, ApplyReturn, ApplyJump, PushOpen;
    var pending := m.threads[key].pendingEnd;
    var m1 := m;
    if pending.Some? {
      PendingNamed(m, key, None, n, l);
      SettleNamed(SetPending(m, key, None), key, pending.value, f, n, l);
      m1 := SettlePending(SetPending(m, key, None), key, pending.value, f).0;
    }
    BoundaryNamed(m1, key, f, n, l);
    OpenNamed(m1, key, f.to.func, f.abs, f.eid, OpenEnd, f.site, n, l);
    ReturnNamed(m1, key, f, n, l);
    JumpNamed(m1, key, f, n, l);
  }

  // ----- whole records -----

  lemma EnteredNamed(r: Recon, key: Key, time: Option<nat>, n: nat, l: nat)
    requires Grounded(r.m, n, l)
    ensures Grounded(Touch(WithThread(r.m, key, Generation(r.generation, key)), key, time), n, l)
  {
    var mt := Touch(WithThread(r.m, key, Generation(r.generation, key)), key, time);
    if key in r.m.threads { assert RowNames(r.m.threads[key], n); }
    StepNamed(r.m, mt, key, n, l);
  }

  lemma AdvanceNamed(m: State, key: Key, time: Option<nat>, n: nat, l: nat)
    requires Grounded(m, n, l) && key in m.threads
    ensures Grounded(Advance(m, key, time), n, l)
  {
    hide Interrupt;
    var prev := m.threads[key].lastAbs;
    var m1 := m;
    if Regresses(prev, time) {
      BreakNamed(m, key, TimeRegression, prev, time, true, n, l);
      m1 := ThreadGap(Interrupt(m, key), key, TimeRegression, prev, time, true);
    }
    assert RowNames(m1.threads[key], n);
    StepNamed(m1, Advance(m, key, time), key, n, l);
  }

  lemma RetainNamed(m: State, key: Key, s: Sample, from: Resolved, to: Resolved, n: nat, l: nat)
    requires Grounded(m, n, l) && key in m.threads && Below(from.loc, l) && Below(to.loc, l)
    ensures Grounded(Retain(m, key, s, from, to), n, l)
  {
    var r := Retain(m, key, s, from, to);
    forall k | k in r.threads ensures RowNames(r.threads[k], n) {
      assert RowNames(m.threads[k], n);
    }
  }

  /** What an address resolves to is in the tables it leaves behind. */
  lemma ResolvedBelow(images: seq<Image>, t: Tables, pid: nat, ip: Option<nat>)
    requires TablesInv(images, t)
    ensures var (r, t') := Resolve(images, t, pid, ip);
            && Below(r.func, |t'.functions|) && Below(r.loc, |t'.locations|)
            && |t.functions| <= |t'.functions| && |t.locations| <= |t'.locations| && TablesInv(images, t')
  {
    hide Resolve, PlaceOf;
    ResolveOk(images, t, pid, ip);
  }

  /** The functions that locations name are in the table. */
  ghost predicate LocationsNamed(t: Tables) {
    forall i :: 0 <= i < |t.locations| ==> Below(t.locations[i].func, |t.functions|)
  }

  ghost predicate AllGrounded(r: Recon) {
    Grounded(r.m, |r.tables.functions|, |r.tables.locations|) && LocationsNamed(r.tables)
  }

  lemma UncachedNamed(images: seq<Image>, t: Tables, pid: nat, ip: nat)
    requires TablesInv(images, t) && LocationsNamed(t)
    ensures LocationsNamed(ResolveUncached(images, t, pid, ip).1)
  {
    hide LocationsOk, CacheOk, InternFunction, InternLocation, NoteMissing, FunctionsOk;
    var place := PlaceOf(images, t, pid, ip);
    if place.Some? {
      PlaceIsMapped(images, t, pid, ip);
      var t0 := NoteMissing(images, t, place.value);
      MissingNoted(images, t, place.value);
      MissingNames(images, t, place.value);
      FunctionNamed(t0, place.value);
      var (func, t1) := InternFunction(t0, place.value);
      LocationNamed(t1, place.value, ip, func);
    }
  }

  lemma MissingNames(images: seq<Image>, t: Tables, p: Place)
    requires p.map_ < |t.mappings|
    ensures var t' := NoteMissing(images, t, p); t'.locations == t.locations && t'.functions == t.functions
  {}

  lemma FunctionNamed(t: Tables, p: Place)
    requires FunctionsOk(t) && LocationsNamed(t)
    ensures var (func, t') := InternFunction(t, p); Below(func, |t'.functions|) && LocationsNamed(t')
  {}

  lemma LocationNamed(t: Tables, p: Place, ip: nat, func: Option<nat>)
    requires LocationsNamed(t) && Below(func, |t.functions|)
    ensures LocationsNamed(InternLocation(t, p, ip, func).1)
  {}

  lemma ResolveNamed(images: seq<Image>, t: Tables, pid: nat, ip: Option<nat>)
    requires TablesInv(images, t) && LocationsNamed(t)
    ensures LocationsNamed(Resolve(images, t, pid, ip).1)
  {
    hide ResolveUncached;
    if ip.Some? { UncachedNamed(images, t, pid, ip.value); }
  }

  lemma SampleNamed(images: seq<Image>, r: Recon, s: Sample)
    requires AllGrounded(r) && TablesInv(images, r.tables)
    ensures AllGrounded(PushSample(images, r, s))
  {
    hide Grounded, TablesInv, Resolve, Advance, ApplyFlow, Retain, Touch, WithThread;
    var key := (s.pid, s.tid);
    ResolvedBelow(images, r.tables, s.pid, s.ip);
    var (from, t1) := Resolve(images, r.tables, s.pid, s.ip);
    ResolveNamed(images, r.tables, s.pid, s.ip);
    ResolvedBelow(images, t1, s.pid, s.addr);
    ResolveNamed(images, t1, s.pid, s.addr);
    var (to, t2) := Resolve(images, t1, s.pid, s.addr);
    var n, l := |t2.functions|, |t2.locations|;
    NamedMore(r.m, |r.tables.functions|, |r.tables.locations|, n, l);
    EnteredNamed(r, key, s.time, n, l);
    var mt := Touch(WithThread(r.m, key, Generation(r.generation, key)), key, s.time);
    AdvanceNamed(mt, key, s.time, n, l);
    var m1 := Advance(mt, key, s.time);
    RetainNamed(m1, key, s, from, to, n, l);
    FlowNamed(Retain(m1, key, s, from, to), key, FlowOf(s, from, to, r.cpuFirst, m1.nextEvent), n, l);
  }

  lemma RetireNamed(m: State, key: Key, time: Option<nat>, n: nat, l: nat)
    requires Grounded(m, n, l) && key in m.threads
    ensures Grounded(Retire(m, key, time), n, l)
  {
    hide CloseOpen;
    CloseNamed(m, key, time, n, l);
  }

  lemma ErrorNamed(r: Recon, e: DecoderErrorEvent, n: nat, l: nat)
    requires Grounded(r.m, n, l)
    ensures Grounded(PushError(r, e).m, n, l)
  {
    hide Interrupt, ThreadGap;
    if e.pid.Some? && e.tid.Some? {
      var key := (e.pid.value, e.tid.value);
      var m0 := WithThread(r.m, key, Generation(r.generation, key));
      if key in r.m.threads { assert RowNames(r.m.threads[key], n); }
      StepNamed(r.m, m0, key, n, l);
      BreakNamed(m0, key, if e.code == Some(5) then MissingImage else DecoderError, e.time, None, false, n, l);
    }
  }

  lemma PushNamed(images: seq<Image>, r: Recon, rec: Record)
    requires AllGrounded(r) && TablesInv(images, r.tables)
    ensures AllGrounded(Push(images, r, rec))
  {
    hide Grounded, PushSample, PushError, Retire, Tracker.Observe, Tracker.Drops, TablesInv;
    var n := Noted(r, rec);
    match rec
    case SampleRecord(s) => SampleNamed(images, n, s);
    case TaskRecord(t) => if (t.pid, t.tid) in n.m.threads {
      RetireNamed(n.m, (t.pid, t.tid), t.time, |r.tables.functions|, |r.tables.locations|);
    }
    case DecoderErrorRecord(e) => ErrorNamed(n, e, |r.tables.functions|, |r.tables.locations|); ErrorKeepsTables(n, e);
    case LostRecord => UnchargedGapNamed(n.m, |r.tables.functions|, |r.tables.locations|);
    case _ =>
  }

  lemma UnchargedGapNamed(m: State, n: nat, l: nat)
    requires Grounded(m, n, l)
    ensures Grounded(AddGap(m, UnknownThread, PtLoss, None, None, false), n, l)
  {}

  lemma {:induction false} RunNamed(images: seq<Image>, r: Recon, recs: seq<Record>)
    requires AllGrounded(r) && ReconInv(images, r, true)
    ensures AllGrounded(PushAll(images, r, recs))
    decreases |recs|
  {
    if recs != [] {
      PushNamed(images, r, recs[0]);
      PushKeepsInv(images, r, recs[0], true);
      hide AllGrounded, ReconInv, Push;
      RunNamed(images, Push(images, r, recs[0]), recs[1..]);
    }
  }

  lemma AnyRunNamed(images: seq<Image>, filter: Option<Tracker>, recs: seq<Record>)
    ensures AllGrounded(PushAll(images, New(filter), recs))
  {
    hide ReconInv;
    NewHasInv(images, filter, true);
    RunNamed(images, New(filter), recs);
  }

  lemma {:induction false} CloseAllNamed(m: State, keys: seq<Key>, n: nat, l: nat)
    requires Grounded(m, n, l) && forall k :: k in keys ==> k in m.threads
    ensures Grounded(CloseAll(m, keys), n, l)
    decreases |keys|
  {
    hide CloseOpen, Grounded;
    if keys != [] {
      var m0 := SetPending(m, keys[0], None);
      PendingNamed(m, keys[0], None, n, l);
      CloseNamed(m0, keys[0], None, n, l);
      CloseOpenKeys(m0, keys[0], None);
      CloseAllNamed(CloseOpen(m0, keys[0], None), keys[1..], n, l);
    }
  }

  /** Every id that a row of the analysis names is that of a record it holds. */
  ghost predicate NoDangling(a: Analysis) {
    && ThreadsAreRows(a) && (forall i :: 0 <= i < |a.spans| ==> Backed(a.events, a.spans[i]))
    && RecordsNamed(a)
  }

  /** Functions and locations are named by their index. */
  ghost predicate RecordsNamed(a: Analysis) {
    && (forall i :: 0 <= i < |a.spans| ==> Below(a.spans[i].func, |a.functions|))
    && (forall i :: 0 <= i < |a.events| ==>
          Below(a.events[i].from, |a.locations|) && Below(a.events[i].to, |a.locations|))
    && (forall i :: 0 <= i < |a.locations| ==> Below(a.locations[i].func, |a.functions|))
    && (forall i :: 0 <= i < |a.functions| ==> a.functions[i].id == i)
    && (forall i :: 0 <= i < |a.locations| ==> a.locations[i].id == i)
  }

  /** For every record stream, a returned analysis names nothing that it does not hold. */
  lemma FinishNamesWhatItHolds(images: seq<Image>, filter: Option<Tracker>, recs: seq<Record>)
    ensures var r := PushAll(images, New(filter), recs);
            && (forall k :: k in r.m.order <==> k in r.m.threads)
            && (Finish(r).Ok? ==> NoDangling(Finish(r).value))
  {
    hide ReconInv, Finish, RecordsNamed, ThreadsAreRows, Owned, Owners.Named;
    AnyRun(images, filter, recs);
    AnyRunNamed(images, filter, recs);
    AnyRunOwned(images, filter, recs);
    FinishIsSound(images, filter, recs);
    var r := PushAll(images, New(filter), recs);
    ClosedHasInv(images, r, true);
    FinishedNames(images, r);
    FinishedOwners(r);
  }

  lemma FinishedNames(images: seq<Image>, r: Recon)
    requires AllGrounded(r) && ReconInv(images, r, true) && forall k :: k in r.m.order <==> k in r.m.threads
    ensures Finish(r).Ok? ==> RecordsNamed(Finish(r).value)
  {
    hide CloseAll, ReconInv, Rows, SortById, RecordsNamed, Grounded;
    CloseAllNamed(r.m, r.m.order, |r.tables.functions|, |r.tables.locations|);
    TableIds(images, r);
    if Finish(r).Ok? {
      var m, a := CloseAll(r.m, r.m.order), Finish(r).value;
      SpansStayAmong(images, r, m, a);
      NamesCarry(m, a);
    }
  }

  lemma NamesCarry(m: State, a: Analysis)
    requires Grounded(m, |a.functions|, |a.locations|) && AllRebasable(m, a.origin)
             && a.events == RebaseEvents(m.events, a.origin)
    requires forall i :: 0 <= i < |a.spans| ==> FromSpan(a.spans[i], m.spans, a.origin)
    requires forall i :: 0 <= i < |a.functions| ==> a.functions[i].id == i
    requires forall i :: 0 <= i < |a.locations| ==> a.locations[i].id == i && Below(a.locations[i].func, |a.functions|)
    ensures RecordsNamed(a)
  {}

  lemma TableIds(images: seq<Image>, r: Recon)
    requires ReconInv(images, r, true)
    ensures forall i :: 0 <= i < |r.tables.functions| ==> r.tables.functions[i].id == i
    ensures forall i :: 0 <= i < |r.tables.locations| ==> r.tables.locations[i].id == i
  {}

  lemma SpansStayAmong(images: seq<Image>, r: Recon, m: State, a: Analysis)
    requires ReconInv(images, r, true) && (forall k :: k in r.m.order <==> k in r.m.threads) && Finish(r) == Ok(a)
             && m == Closed(r)
    ensures forall i :: 0 <= i < |a.spans| ==> FromSpan(a.spans[i], m.spans, a.origin)
  {
    hide Inv, ReconInv, SortById, FromSpan;
    ClosedHasInv(images, r, true);
    ClosedSpans(m, r.minAbs, true);
    SortedSpans(m.spans, a.origin, m.nextSpan);
  }
}
