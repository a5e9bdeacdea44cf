/** Every thread that a span, an event or a gap names has a row. */
module Owners {
  import opened TraceTypes
  import opened Machine
  import opened Symbols
  import opened Recon
  import opened Runs
  import opened Results
  import opened Behaviour

  /** A row of the table or a retired one has this id. */
  ghost predicate HasRow(m: State, id: ThreadId) {
    (exists k :: k in m.threads && m.threads[k].id == id) || (exists i :: 0 <= i < |m.retired| && m.retired[i].id == id)
  }

  /** A gap may also belong to no known thread. */
  ghost predicate Owned(m: State) {
    && (forall a :: 0 <= a < |m.spans| ==> HasRow(m, m.spans[a].thread))
    && (forall a :: 0 <= a < |m.events| ==> HasRow(m, m.events[a].thread))
    && (forall a :: 0 <= a < |m.gaps| ==> m.gaps[a].thread.UnknownThread? || HasRow(m, m.gaps[a].thread))
  }

  /** Rows are at most moved, and what is added names the thread `id`, which has a row. */
  ghost predicate Grows(m: State, r: State, id: ThreadId) {
    && (forall i: ThreadId :: HasRow(m, i) ==> HasRow(r, i)) && (id.UnknownThread? || HasRow(r, id))
    && m.spans <= r.spans && m.events <= r.events && m.gaps <= r.gaps
    && (forall a :: |m.spans| <= a < |r.spans| ==> r.spans[a].thread == id && !id.UnknownThread?)
    && (forall a :: |m.events| <= a < |r.events| ==> r.events[a].thread == id && !id.UnknownThread?)
    && (forall a :: |m.gaps| <= a < |r.gaps| ==> r.gaps[a].thread == id)
  }

  lemma StaysOwned(m: State, r: State, id: ThreadId)
    requires Owned(m) && Grows(m, r, id)
    ensures Owned(r)
  {
    hide HasRow;
    forall a | 0 <= a < |r.spans| ensures HasRow(r, r.spans[a].thread) {
      if a < |m.spans| { assert r.spans[a] == m.spans[a]; }
    }
    forall a | 0 <= a < |r.events| ensures HasRow(r, r.events[a].thread) {
      if a < |m.events| { assert r.events[a] == m.events[a]; }
    }
    forall a | 0 <= a < |r.gaps| ensures r.gaps[a].thread.UnknownThread? || HasRow(r, r.gaps[a].thread) {
      if a < |m.gaps| { assert r.gaps[a] == m.gaps[a]; }
    }
  }

  lemma RowsStay(m: State, r: State, id: ThreadId)
    requires SameOutside(m, r) && HasRow(m, id)
    ensures HasRow(r, id)
  {
    if k :| k in m.threads && m.threads[k].id == id { assert k in r.threads; }
  }

  /** A local step that leaves the rows where they are. */
  lemma LocalGrows(m: State, r: State, key: Key)
    requires key in m.threads && Local(m, r, key) && SameOutside(m, r) && m.threads[key].id.ThreadId?
    ensures Grows(m, r, m.threads[key].id)
  {
    forall i | HasRow(m, i) ensures HasRow(r, i) { RowsStay(m, r, i); }
    assert key in r.threads;
  }

  lemma AdvanceIsLocal(m: State, key: Key, time: Option<nat>)
    requires key in m.threads
    ensures Local(m, Advance(m, key, time), key)
  {
    hide Interrupt;
    BreakIsLocal(m, key, TimeRegression, m.threads[key].lastAbs, time, true);
  }

  lemma {:induction false} CloseIsLocal(m: State, key: Key, end: Option<nat>)
    requires key in m.threads
    ensures Local(m, CloseOpen(m, key, end), key)
    decreases |m.threads[key].stack|
  {
    var th := m.threads[key];
    if th.stack != [] {
      var n := PopEmit(m, key, end, th.Top().startEvent, OpenLabel(th.Top().completeness));
      CloseIsLocal(n, key, end);
      LocalTwice(m, n, CloseOpen(n, key, end), key);
    }
  }

  /** Every row has a proper id. */
  ghost predicate Named(m: State) {
    forall k :: k in m.threads ==> m.threads[k].id.ThreadId?
  }

  lemma EnterOwned(r: Recon, key: Key, time: Option<nat>)
    requires Owned(r.m) && Named(r.m)
    ensures var m := WithThread(r.m, key, Generation(r.generation, key)); Owned(m) && Named(m)
    ensures var m := Touch(WithThread(r.m, key, Generation(r.generation, key)), key, time); Owned(m) && Named(m)
  {
    var m := WithThread(r.m, key, Generation(r.generation, key));
    RowsEnter(r.m, m);
    StaysOwned(r.m, m, UnknownThread);
    var t := Touch(m, key, time);
    RowsEnter(m, t);
    StaysOwned(m, t, UnknownThread);
  }

  lemma RowsEnter(m: State, r: State)
    requires r.retired == m.retired && r.spans == m.spans && r.events == m.events && r.gaps == m.gaps
    requires forall k :: k in m.threads ==> k in r.threads && r.threads[k].id == m.threads[k].id
    ensures Grows(m, r, UnknownThread)
  {
    forall i | HasRow(m, i) ensures HasRow(r, i) {
      if k :| k in m.threads && m.threads[k].id == i { assert k in r.threads; }
    }
  }

  lemma RetainGrows(m: State, key: Key, s: Sample, from: Resolved, to: Resolved)
    requires key in m.threads && m.threads[key].id.ThreadId?
    ensures Grows(m, Retain(m, key, s, from, to), m.threads[key].id)
  {
    var r := Retain(m, key, s, from, to);
    forall i | HasRow(m, i) ensures HasRow(r, i) {
      if k :| k in m.threads && m.threads[k].id == i { assert k in r.threads; }
    }
    assert r.threads[key].id == m.threads[key].id;
  }

  lemma SampleOwned(images: seq<Image>, r: Recon, s: Sample)
    requires Owned(r.m) && Named(r.m)
    ensures Owned(PushSample(images, r, s).m) && Named(PushSample(images, r, s).m)
  {
    hide Owned, Local, Grows, Advance, Retain, ApplyFlow, Touch, WithThread, Resolve;
    var key := (s.pid, s.tid);
    EnterOwned(r, key, s.time);
    var mt := Touch(WithThread(r.m, key, Generation(r.generation, key)), key, s.time);
    AdvanceIsLocal(mt, key, s.time);
    AdvanceOutside(mt, key, s.time);
    var m1 := Advance(mt, key, s.time);
    LocalGrows(mt, m1, key);
    StaysOwned(mt, m1, mt.threads[key].id);
    var (from, t1) := Resolve(images, r.tables, s.pid, s.ip);
    var (to, t2) := Resolve(images, t1, s.pid, s.addr);
    var m2 := Retain(m1, key, s, from, to);
    RetainGrows(m1, key, s, from, to);
    StaysOwned(m1, m2, m1.threads[key].id);
    RetainNames(m1, key, s, from, to);
    var f := FlowOf(s, from, to, r.cpuFirst, m1.nextEvent);
    SampleIsLocal(m2, key, f);
    FlowOutside(m2, key, f);
    LocalGrows(m2, ApplyFlow(m2, key, f), key);
    StaysOwned(m2, ApplyFlow(m2, key, f), m2.threads[key].id);
  }

  lemma RetainNames(m: State, key: Key, s: Sample, from: Resolved, to: Resolved)
    requires key in m.threads && Named(m)
    ensures Named(Retain(m, key, s, from, to))
  {}

  lemma ErrorOwned(r: Recon, e: DecoderErrorEvent)
    requires Owned(r.m) && Named(r.m)
    ensures Owned(PushError(r, e).m) && Named(PushError(r, e).m)
  {
    hide Owned, Local, Grows, Interrupt, WithThread, ThreadGap;
    var kind := if e.code == Some(5) then MissingImage else DecoderError;
    if e.pid.Some? && e.tid.Some? {
      var key := (e.pid.value, e.tid.value);
      EnterOwned(r, key, e.time);
      var m := WithThread(r.m, key, Generation(r.generation, key));
      BreakIsLocal(m, key, kind, e.time, None, false);
      BreakOutside(m, key, kind, e.time, None, false);
      var g := ThreadGap(Interrupt(m, key), key, kind, e.time, None, false);
      LocalGrows(m, g, key);
      StaysOwned(m, g, m.threads[key].id);
    } else {
      UnknownGapOwned(r.m, kind, e.time);
    }
  }

  lemma UnknownGapOwned(m: State, kind: GapKind, time: Option<nat>)
    requires Owned(m) && Named(m)
    ensures var g := AddGap(m, UnknownThread, kind, time, None, false); Owned(g) && Named(g)
  {
    var g := AddGap(m, UnknownThread, kind, time, None, false);
    forall i | HasRow(m, i) ensures HasRow(g, i) {
      if k :| k in m.threads && m.threads[k].id == i { assert k in g.threads; }
    }
    StaysOwned(m, g, UnknownThread);
  }

  lemma ClosedOwned(m: State, key: Key, end: Option<nat>)
    requires key in m.threads && Owned(m) && Named(m)
    ensures var r := CloseOpen(m, key, end); Owned(r) && Named(r)
  {
    hide Owned, Local, Grows, CloseOpen;
    CloseIsLocal(m, key, end);
    CloseOpenOutside(m, key, end);
    LocalGrows(m, CloseOpen(m, key, end), key);
    StaysOwned(m, CloseOpen(m, key, end), m.threads[key].id);
  }

  /** A retired row is still a row. */
  lemma RetireOwned(m: State, key: Key, end: Option<nat>)
    requires key in m.threads && Owned(m) && Named(m)
    ensures Owned(Retire(m, key, end)) && Named(Retire(m, key, end))
  {
    hide CloseOpen, Without, Owned;
    ClosedOwned(m, key, end);
    var c, r := CloseOpen(m, key, end), Retire(m, key, end);
    forall i | HasRow(c, i) ensures HasRow(r, i) { MovedRow(c, r, key, i); }
    StaysOwned(c, r, UnknownThread);
  }

  lemma MovedRow(c: State, r: State, key: Key, id: ThreadId)
    requires key in c.threads && HasRow(c, id) && r.threads == c.threads - {key}
    requires r.retired == c.retired + [c.threads[key].(pendingEnd := None)]
    ensures HasRow(r, id)
  {
    if k :| k in c.threads && c.threads[k].id == id {
      if k == key { assert r.retired[|c.retired|].id == id; } else { assert k in r.threads; }
    } else {
      var i :| 0 <= i < |c.retired| && c.retired[i].id == id;
      assert r.retired[i] == c.retired[i];
    }
  }

  lemma PushOwned(images: seq<Image>, r: Recon, rec: Record)
    requires Owned(r.m) && Named(r.m)
    ensures Owned(Push(images, r, rec).m) && Named(Push(images, r, rec).m)
  {
    hide Owned, Named, PushSample, PushError, Retire, Tracker.Observe, Tracker.Drops;
    var n := Noted(r, rec);
    match rec
    case SampleRecord(s) => SampleOwned(images, n, s);
    case TaskRecord(t) => if (t.pid, t.tid) in n.m.threads { RetireOwned(n.m, (t.pid, t.tid), t.time); }
    case DecoderErrorRecord(e) => ErrorOwned(n, e);
    case LostRecord => UnknownGapOwned(n.m, PtLoss, None);
    case _ =>
  }

  lemma {:induction false} RunOwned(images: seq<Image>, r: Recon, recs: seq<Record>)
    requires Owned(r.m) && Named(r.m)
    ensures Owned(PushAll(images, r, recs).m) && Named(PushAll(images, r, recs).m)
    decreases |recs|
  {
    hide Owned, Named, Push;
    if recs != [] {
      PushOwned(images, r, recs[0]);
      RunOwned(images, Push(images, r, recs[0]), recs[1..]);
    }
  }

  lemma AnyRunOwned(images: seq<Image>, filter: Option<Tracker>, recs: seq<Record>)
    ensures var r := PushAll(images, New(filter), recs); Owned(r.m) && Named(r.m)
  {
    hide PushAll;
    RunOwned(images, New(filter), recs);
  }

  lemma {:induction false} CloseAllOwned(m: State, keys: seq<Key>)
    requires Owned(m) && Named(m) && forall k :: k in keys ==> k in m.threads
    ensures Owned(CloseAll(m, keys)) && CloseAll(m, keys).retired == m.retired
    ensures var r := CloseAll(m, keys); r.threads.Keys == m.threads.Keys
    decreases |keys|
  {
    hide CloseOpen, Owned, Named;
    if keys != [] {
      var m0 := SetPending(m, keys[0], None);
      PendingOwned(m, keys[0]);
      ClosedOwned(m0, keys[0], None);
      CloseOpenOutside(m0, keys[0], None);
      CloseAllOwned(CloseOpen(m0, keys[0], None), keys[1..]);
    }
  }

  lemma PendingOwned(m: State, key: Key)
    requires Owned(m) && Named(m) && key in m.threads
    ensures Owned(SetPending(m, key, None)) && Named(SetPending(m, key, None))
  {
    var r := SetPending(m, key, None);
    RowsEnter(m, r);
    StaysOwned(m, r, UnknownThread);
  }

  // ----- and in the analysis -----

  ghost predicate IsRow(a: Analysis, id: ThreadId) {
    exists i :: 0 <= i < |a.threads| && a.threads[i].id == id
  }

  /** Spans and events name rows of the analysis, and so do gaps that name a thread at all. */
  ghost predicate ThreadsAreRows(a: Analysis) {
    && (forall i :: 0 <= i < |a.spans| ==> IsRow(a, a.spans[i].thread))
    && (forall i :: 0 <= i < |a.events| ==> IsRow(a, a.events[i].thread))
    && (forall i :: 0 <= i < |a.gaps| ==> a.gaps[i].thread.UnknownThread? || IsRow(a, a.gaps[i].thread))
  }

  lemma RowIsThere(m: State, order: seq<Key>, a: Analysis, id: ThreadId)
    requires (forall k :: k in order <==> k in m.threads) && a.threads == m.retired + Rows(m, order) && HasRow(m, id)
    ensures IsRow(a, id)
  {
    if i :| 0 <= i < |m.retired| && m.retired[i].id == id {
      assert a.threads[i] == m.retired[i];
    } else {
      var k :| k in m.threads && m.threads[k].id == id;
      var i :| 0 <= i < |order| && order[i] == k;
      assert a.threads[|m.retired| + i] == Rows(m, order)[i];
    }
  }

  lemma FinishedOwners(r: Recon)
    requires Owned(r.m) && Named(r.m) && forall k :: k in r.m.order <==> k in r.m.threads
    ensures Finish(r).Ok? ==> ThreadsAreRows(Finish(r).value)
  {
    hide CloseAll, Owned, Named, Rows, IsRow, HasRow, SortById;
    CloseAllOwned(r.m, r.m.order);
    if Finish(r).Ok? {
      var m, a := CloseAll(r.m, r.m.order), Finish(r).value;
      forall id | HasRow(m, id) ensures IsRow(a, id) { RowIsThere(m, r.m.order, a, id); }
      SortAddsNone(RebaseSpans(m.spans, a.origin));
      OwnersCarry(m, a);
    }
  }

  lemma {:induction false} InsertAddsOne(spans: seq<Span>, s: Span)
    ensures forall x :: x in InsertById(spans, s) ==> x in spans || x == s
  {
    if spans != [] { InsertAddsOne(spans[..|spans| - 1], s); }
  }

  lemma {:induction false} SortAddsNone(spans: seq<Span>)
    ensures forall x :: x in SortById(spans) ==> x in spans
  {
    if spans != [] {
      SortAddsNone(spans[..|spans| - 1]);
      InsertAddsOne(SortById(spans[..|spans| - 1]), spans[|spans| - 1]);
    }
  }

  lemma OwnersCarry(m: State, a: Analysis)
    requires Owned(m) && (forall id :: HasRow(m, id) ==> IsRow(a, id)) && AllRebasable(m, a.origin)
    requires a.events == RebaseEvents(m.events, a.origin) && a.gaps == RebaseGaps(m.gaps, a.origin)
    requires forall s :: s in a.spans ==> s in RebaseSpans(m.spans, a.origin)
    ensures ThreadsAreRows(a)
  {
    hide HasRow, IsRow;
    forall i | 0 <= i < |a.spans| ensures IsRow(a, a.spans[i].thread) {
      assert a.spans[i] in a.spans;
      var j :| 0 <= j < |m.spans| && RebaseSpans(m.spans, a.origin)[j] == a.spans[i];
      assert HasRow(m, m.spans[j].thread);
    }
  }
}
