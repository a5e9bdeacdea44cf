/** What `finish` returns, for every record stream. */
module Results {
  import opened TraceTypes
  import opened Machine
  import opened Lanes
  import opened SpanIds
  import opened Laminar
  import opened Evidence
  import opened Origin
  import opened Tally
  import opened Steps
  import opened Symbols
  import opened Recon
  import opened Runs

  // ----- sorting by id -----

  ghost predicate Increasing(spans: seq<Span>) {
    forall i, j :: 0 <= i < j < |spans| ==> spans[i].id < spans[j].id
  }

  lemma {:induction false} InsertSorts(sorted: seq<Span>, s: Span)
    requires Increasing(sorted) && (forall i :: 0 <= i < |sorted| ==> sorted[i].id != s.id)
    ensures Increasing(InsertById(sorted, s)) && |InsertById(sorted, s)| == |sorted| + 1
    ensures forall x :: x in InsertById(sorted, s) <==> x in sorted || x == s
  {
    if sorted == [] || sorted[|sorted| - 1].id <= s.id {
    } else {
      var init, last := sorted[..|sorted| - 1], sorted[|sorted| - 1];
      InsertSorts(init, s);
      var t := InsertById(init, s);
      assert sorted == init + [last];
      forall i | 0 <= i < |t|
        ensures t[i].id < last.id
      {
        assert t[i] in t;
      }
    }
  }

  lemma {:induction false} SortSorts(spans: seq<Span>)
    requires forall a, b :: 0 <= a < b < |spans| ==> spans[a].id != spans[b].id
    ensures Increasing(SortById(spans)) && |SortById(spans)| == |spans|
    ensures forall x :: x in SortById(spans) <==> x in spans
  {
    if spans != [] {
      var init, last := spans[..|spans| - 1], spans[|spans| - 1];
      SortSorts(init);
      var t := SortById(init);
      forall i | 0 <= i < |t|
        ensures t[i].id != last.id
      {
        assert t[i] in init;
      }
      InsertSorts(t, last);
      assert spans == init + [last];
    }
  }

  /** Increasing ids that cover 0..n are exactly 0..n. */
  lemma {:induction false} IdsAreIndices(spans: seq<Span>, n: nat, i: nat)
    requires Increasing(spans) && (forall a :: 0 <= a < |spans| ==> spans[a].id < n)
    requires forall id: nat :: id < n ==> Emitted(spans, id)
    requires i <= n
    ensures i <= |spans| && (forall a :: 0 <= a < i ==> spans[a].id == a)
  {
    if i > 0 {
      IdsAreIndices(spans, n, i - 1);
      assert Emitted(spans, i - 1);
      var b :| 0 <= b < |spans| && spans[b].id == i - 1;
      if b > i - 1 { assert spans[i - 1].id < spans[b].id; IdAtLeastIndex(spans, i - 1); }
    }
  }

  lemma {:induction false} IdAtLeastIndex(spans: seq<Span>, i: nat)
    requires Increasing(spans) && i < |spans|
    ensures spans[i].id >= i
  {
    if i > 0 { IdAtLeastIndex(spans, i - 1); }
  }

  // ----- closing what is left -----

  lemma {:induction false} CloseAllKeepsInv(m: State, keys: seq<Key>, min: Option<nat>, zeros: bool)
    requires Inv(m, min, zeros) && (forall k :: k in keys ==> k in m.threads)
    requires forall k :: k in m.threads && k !in keys ==> m.threads[k].stack == []
    ensures Inv(CloseAll(m, keys), min, zeros)
    ensures forall k :: k in CloseAll(m, keys).threads ==> CloseAll(m, keys).threads[k].stack == []
    ensures CloseAll(m, keys).order == m.order && CloseAll(m, keys).retired == m.retired
    decreases |keys|
  {
    hide Inv, CloseOpen;
    if keys != [] {
      var key := keys[0];
      PendingKeepsInv(m, key, None, min, zeros);
      var m0 := SetPending(m, key, None);
      CloseOpenKeepsInv(m0, key, None, min, zeros);
      CloseOpenOutside(m0, key, None);
      CloseOpenElsewhere(m0, key, None);
      CloseAllKeepsInv(CloseOpen(m0, key, None), keys[1..], min, zeros);
    }
  }

  lemma {:induction false} CloseOpenElsewhere(m: State, key: Key, end: Option<nat>)
    requires key in m.threads
    ensures var r := CloseOpen(m, key, end);
            r.threads.Keys == m.threads.Keys && forall k :: k in m.threads && k != key ==> r.threads[k] == m.threads[k]
    decreases |m.threads[key].stack|
  {
    var th := m.threads[key];
    if th.stack != [] {
      CloseOpenElsewhere(PopEmit(m, key, end, th.Top().startEvent, OpenLabel(th.Top().completeness)), key, end);
    }
  }

  /** The reconstructor with every frame closed, as `finish` leaves it before rebasing. */
  function Closed(r: Recon): State
    requires forall k :: k in r.m.order <==> k in r.m.threads
  {
    CloseAll(r.m, r.m.order)
  }

  lemma ClosedHasInv(images: seq<Image>, r: Recon, zeros: bool)
    requires ReconInv(images, r, zeros)
    ensures forall k :: k in r.m.order <==> k in r.m.threads
    ensures Inv(Closed(r), r.minAbs, zeros) && (forall k :: StackOf(Closed(r).threads, k) == [])
    ensures Closed(r).order == r.m.order && Closed(r).retired == r.m.retired
  {
    hide Inv, ReconInv;
    RunParts(images, r, zeros);
    CloseAllKeepsInv(r.m, r.m.order, r.minAbs, zeros);
  }

  lemma RunParts(images: seq<Image>, r: Recon, zeros: bool)
    requires ReconInv(images, r, zeros)
    ensures Inv(r.m, r.minAbs, zeros) && forall k :: k in r.m.order <==> k in r.m.threads
  {}

  // ----- success and failure -----

  /** Some stored event, span or gap carries the time 0. */
  ghost predicate StoresZero(m: State) {
    || (exists a :: 0 <= a < |m.events| && m.events[a].time == Some(0))
    || (exists a :: 0 <= a < |m.spans| && (m.spans[a].start == Some(0) || m.spans[a].end == Some(0)))
    || (exists a :: 0 <= a < |m.gaps| && (m.gaps[a].start == Some(0) || m.gaps[a].end == Some(0)))
  }

  lemma RebasableIffNoZero(m: State, origin: nat)
    requires OriginInv(m, Some(origin), true)
    ensures AllRebasable(m, origin) <==> !StoresZero(m)
  {}

  lemma NoZeroIsRebasable(m: State, origin: nat)
    requires OriginInv(m, Some(origin), false)
    ensures AllRebasable(m, origin)
  {}

  /** Rebasing fails exactly when a time of 0 was stored, which `note_abs` never takes as the origin. */
  lemma FinishFailsIff(images: seq<Image>, filter: Option<Tracker>, recs: seq<Record>)
    ensures var r := PushAll(images, New(filter), recs);
            && (forall k :: k in r.m.order <==> k in r.m.threads)
            && (Finish(r) == Err(NoTimestamps) <==> r.minAbs.None?)
            && (Finish(r) == Err(PrecedesOrigin) <==> r.minAbs.Some? && StoresZero(Closed(r)))
  {
    hide ReconInv, New, StoresZero;
    AnyRun(images, filter, recs);
    var r := PushAll(images, New(filter), recs);
    ClosedHasInv(images, r, true);
    if r.minAbs.Some? {
      InvOrigin(Closed(r), r.minAbs, true);
      RebasableIffNoZero(Closed(r), r.minAbs.value);
    }
  }

  lemma InvOrigin(m: State, min: Option<nat>, zeros: bool)
    requires Inv(m, min, zeros)
    ensures OriginInv(m, min, zeros)
  {}

  /** The earliest nonzero time among the records that the filter keeps. */
  function Earliest(filter: Option<Tracker>, recs: seq<Record>, min: Option<nat>): Option<nat>
    decreases |recs|
  {
    if recs == [] then min
    else
      var f := if filter.Some? then Some(filter.value.Observe(recs[0])) else None;
      var kept := f.None? || !f.value.Drops(recs[0]);
      Earliest(f, recs[1..], if kept then NoteAbs(min, RecordTime(recs[0])) else min)
  }

  /** The filter as the records make it. */
  function FilterAfter(filter: Option<Tracker>, recs: seq<Record>): Option<Tracker>
    decreases |recs|
  {
    if recs == [] || filter.None? then filter else FilterAfter(Some(filter.value.Observe(recs[0])), recs[1..])
  }

  /** The time of a record, if the filter keeps the record where it stands. */
  function KeptTime(filter: Option<Tracker>, recs: seq<Record>, i: nat): Option<nat>
    requires i < |recs|
  {
    var f := FilterAfter(filter, recs[..i + 1]);
    if f.None? || !f.value.Drops(recs[i]) then RecordTime(recs[i]) else None
  }

  /** Some kept record carries the nonzero time `t`. */
  ghost predicate Carried(filter: Option<Tracker>, recs: seq<Record>, t: nat) {
    t != 0 && exists i: nat :: i < |recs| && KeptTime(filter, recs, i) == Some(t)
  }

  lemma KeptTimeLater(filter: Option<Tracker>, recs: seq<Record>, i: nat)
    requires i + 1 < |recs|
    ensures var f := if filter.Some? then Some(filter.value.Observe(recs[0])) else None;
            KeptTime(filter, recs, i + 1) == KeptTime(f, recs[1..], i)
  {
    hide Tracker.Observe, Tracker.Drops;
    assert recs[..i + 2][1..] == recs[1..][..i + 1];
    assert recs[..i + 2][0] == recs[0];
    NoFilter(recs[..i + 2]);
    NoFilter(recs[1..][..i + 1]);
  }

  lemma NoFilter(recs: seq<Record>)
    ensures FilterAfter(None, recs) == None
  {}

  lemma KeptTimeFirst(filter: Option<Tracker>, recs: seq<Record>)
    requires recs != []
    ensures var f := if filter.Some? then Some(filter.value.Observe(recs[0])) else None;
            KeptTime(filter, recs, 0) == if f.None? || !f.value.Drops(recs[0]) then RecordTime(recs[0]) else None
  {
    hide Tracker.Observe, Tracker.Drops;
    assert recs[..1][1..] == [] && recs[..1][0] == recs[0];
    if filter.Some? {
      assert FilterAfter(Some(filter.value.Observe(recs[0])), []) == Some(filter.value.Observe(recs[0]));
    }
  }

  lemma CarriedSplits(filter: Option<Tracker>, recs: seq<Record>, t: nat)
    requires recs != []
    ensures var f := if filter.Some? then Some(filter.value.Observe(recs[0])) else None;
            Carried(filter, recs, t) <==> (t != 0 && KeptTime(filter, recs, 0) == Some(t)) || Carried(f, recs[1..], t)
  {
    hide Tracker.Observe, KeptTime;
    var f := if filter.Some? then Some(filter.value.Observe(recs[0])) else None;
    forall i: nat | i + 1 < |recs| ensures KeptTime(filter, recs, i + 1) == KeptTime(f, recs[1..], i) {
      KeptTimeLater(filter, recs, i);
    }
    if Carried(filter, recs, t) {
      var i: nat :| i < |recs| && KeptTime(filter, recs, i) == Some(t);
      if i > 0 { assert KeptTime(f, recs[1..], i - 1) == Some(t); }
    }
    if Carried(f, recs[1..], t) {
      var i: nat :| i < |recs[1..]| && KeptTime(f, recs[1..], i) == Some(t);
      assert KeptTime(filter, recs, i + 1) == Some(t);
    }
  }

  /** The least of a time in hand and of all carried times. */
  ghost predicate IsLeast(filter: Option<Tracker>, recs: seq<Record>, min: Option<nat>, r: Option<nat>) {
    && (r.None? <==> min.None? && forall u: nat :: !Carried(filter, recs, u))
    && (r.Some? ==> (min == r || Carried(filter, recs, r.value)) && (min.Some? ==> r.value <= min.value)
                    && forall u: nat :: Carried(filter, recs, u) ==> r.value <= u)
  }

  lemma {:induction false} EarliestIsLeast(filter: Option<Tracker>, recs: seq<Record>, min: Option<nat>)
    ensures IsLeast(filter, recs, min, Earliest(filter, recs, min))
    decreases |recs|
  {
    hide Tracker.Observe, Tracker.Drops, KeptTime;
    if recs != [] {
      var f := if filter.Some? then Some(filter.value.Observe(recs[0])) else None;
      KeptTimeFirst(filter, recs);
      var min' := if f.None? || !f.value.Drops(recs[0]) then NoteAbs(min, RecordTime(recs[0])) else min;
      EarliestIsLeast(f, recs[1..], min');
      LeastOfBoth(filter, recs, min, min', Earliest(f, recs[1..], min'));
    }
  }

  lemma LeastOfBoth(filter: Option<Tracker>, recs: seq<Record>, min: Option<nat>, min': Option<nat>, r: Option<nat>)
    requires recs != [] && min' == NoteAbs(min, KeptTime(filter, recs, 0))
    requires IsLeast(if filter.Some? then Some(filter.value.Observe(recs[0])) else None, recs[1..], min', r)
    ensures IsLeast(filter, recs, min, r)
  {
    hide Tracker.Observe, KeptTime, Carried;
    forall u: nat
      ensures Carried(filter, recs, u) <==>
              ((u != 0 && KeptTime(filter, recs, 0) == Some(u))
               || Carried(if filter.Some? then Some(filter.value.Observe(recs[0])) else None, recs[1..], u))
    {
      CarriedSplits(filter, recs, u);
    }
  }

  /** The origin is the least nonzero time that a kept record carries, and there is none exactly when none does. */
  lemma EarliestIff(filter: Option<Tracker>, recs: seq<Record>, t: nat)
    ensures Earliest(filter, recs, None) == Some(t) <==>
            Carried(filter, recs, t) && forall u: nat :: Carried(filter, recs, u) ==> t <= u
    ensures Earliest(filter, recs, None).None? <==> forall u: nat :: !Carried(filter, recs, u)
  {
    hide Earliest, Carried;
    EarliestIsLeast(filter, recs, None);
    var r := Earliest(filter, recs, None);
    if Carried(filter, recs, t) && (forall u: nat :: Carried(filter, recs, u) ==> t <= u) {
      assert r.Some? && Carried(filter, recs, r.value);
    }
  }

  lemma PushMin(images: seq<Image>, r: Recon, rec: Record)
    ensures var f := if r.filter.Some? then Some(r.filter.value.Observe(rec)) else None;
            && Push(images, r, rec).filter == f
            && Push(images, r, rec).minAbs
               == if f.None? || !f.value.Drops(rec) then NoteAbs(r.minAbs, RecordTime(rec)) else r.minAbs
  {
    hide ApplyFlow, Resolve, Advance, Retain, Touch, WithThread, Retire, ThreadGap, Interrupt, AddMapping, AddGap;
    hide FlowOf, Tracker.ObserveTask, Tracker.Drops;
  }

  lemma {:induction false} MinIsEarliest(images: seq<Image>, r: Recon, recs: seq<Record>)
    ensures PushAll(images, r, recs).minAbs == Earliest(r.filter, recs, r.minAbs)
    decreases |recs|
  {
    hide Push, NoteAbs, Tracker.Observe, Tracker.Drops;
    if recs != [] {
      PushMin(images, r, recs[0]);
      MinIsEarliest(images, Push(images, r, recs[0]), recs[1..]);
    }
  }

  /** Rebasing never fails: with no zero times, `finish` succeeds iff some kept record carries a time. */
  lemma FinishSucceedsIff(images: seq<Image>, filter: Option<Tracker>, recs: seq<Record>)
    requires NoZeroTimes(recs)
    ensures var r := PushAll(images, New(filter), recs);
            && (forall k :: k in r.m.order <==> k in r.m.threads)
            && (Finish(r).Ok? <==> Earliest(filter, recs, None).Some?)
            && (Finish(r).Ok? ==> Finish(r).value.origin == Earliest(filter, recs, None).value)
  {
    hide ReconInv, NoZeroWritten, NoZeroTimes;
    NoZeroTimesNoneWritten(images, New(filter), recs);
    AnyRun(images, filter, recs);
    var r := PushAll(images, New(filter), recs);
    MinIsEarliest(images, New(filter), recs);
    ClosedHasInv(images, r, false);
    if r.minAbs.Some? {
      InvOrigin(Closed(r), r.minAbs, false);
      NoZeroIsRebasable(Closed(r), r.minAbs.value);
    }
  }

  // ----- the returned analysis -----

  /** The rows that readers rely on. */
  ghost predicate Sound(a: Analysis) {
    && (forall i :: 0 <= i < |a.spans| ==> a.spans[i].id == i)
    && (forall i :: 0 <= i < |a.spans| && a.spans[i].parent.Some? ==>
          a.spans[i].parent.value < i && a.spans[a.spans[i].parent.value].thread == a.spans[i].thread)
    && (forall i :: 0 <= i < |a.spans| ==> Backed(a.events, a.spans[i]))
    && Nested(a.spans)
    && Past(Spans, a.threads) == |a.spans|
    && Past(Retained, a.threads) == |a.events|
    && Past(Gaps, a.threads) == Charged(a.gaps)
  }

  lemma {:induction false} RowsTotal(c: Counter, m: State, keys: seq<Key>)
    requires forall k :: k in keys ==> k in m.threads
    ensures Past(c, Rows(m, keys)) == Live(c, keys, m.threads)
  {
    if keys != [] {
      RowsTotal(c, m, keys[1..]);
      assert Rows(m, keys) == [m.threads[keys[0]]] + Rows(m, keys[1..]);
      PastConcat(c, [m.threads[keys[0]]], Rows(m, keys[1..]));
      PastAppend(c, [], m.threads[keys[0]]);
      assert [] + [m.threads[keys[0]]] == [m.threads[keys[0]]];
    }
  }

  lemma {:induction false} PastConcat(c: Counter, a: seq<ThreadState>, b: seq<ThreadState>)
    ensures Past(c, a + b) == Past(c, a) + Past(c, b)
  {
    if b == [] {
      assert a + b == a;
    } else {
      var init, last := b[..|b| - 1], b[|b| - 1];
      PastConcat(c, a, init);
      assert a + b == (a + init) + [last];
      PastAppend(c, a + init, last);
    }
  }

  lemma {:induction false} ChargedByThread(g: seq<Gap>, h: seq<Gap>)
    requires |g| == |h| && forall i :: 0 <= i < |g| ==> g[i].thread == h[i].thread
    ensures Charged(g) == Charged(h)
  {
    if g != [] { ChargedByThread(g[..|g| - 1], h[..|h| - 1]); }
  }

  /** Rebased and sorted spans are the emitted spans, each at the index of its id. */
  lemma SortedSpans(spans: seq<Span>, origin: nat, n: nat)
    requires forall a :: 0 <= a < |spans| ==> Rebasable(spans[a].start, origin) && Rebasable(spans[a].end, origin)
    requires EmittedOk(spans, n) && (forall id: nat :: id < n ==> Emitted(spans, id))
    ensures var out := SortById(RebaseSpans(spans, origin));
            && |out| == n
            && (forall i :: 0 <= i < n ==> out[i].id == i)
            && (forall a :: 0 <= a < |spans| ==> out[spans[a].id] == RebaseSpan(spans[a], origin))
            && (forall i :: 0 <= i < n ==> FromSpan(out[i], spans, origin))
  {
    var rb := RebaseSpans(spans, origin);
    SortSorts(rb);
    var out := SortById(rb);
    hide SortById;
    forall i | 0 <= i < |out|
      ensures out[i].id < n && FromSpan(out[i], spans, origin)
    {
      assert out[i] in rb;
      var a :| 0 <= a < |rb| && rb[a] == out[i];
      assert rb[a] == RebaseSpan(spans[a], origin);
    }
    forall id: nat | id < n
      ensures Emitted(out, id)
    {
      assert Emitted(spans, id);
      var a :| 0 <= a < |spans| && spans[a].id == id;
      assert rb[a] in out;
    }
    IdsAreIndices(out, n, n);
    if |out| > n { IdAtLeastIndex(out, n); }
    forall a | 0 <= a < |spans|
      ensures out[spans[a].id] == RebaseSpan(spans[a], origin)
    {
      assert rb[a] in out;
    }
  }

  ghost predicate FromSpan(s: Span, spans: seq<Span>, origin: nat)
    requires forall a :: 0 <= a < |spans| ==> Rebasable(spans[a].start, origin) && Rebasable(spans[a].end, origin)
  {
    exists a :: 0 <= a < |spans| && s == RebaseSpan(spans[a], origin)
  }

  /** Subtracting one origin and reordering by id keeps the spans laminar. */
  lemma SortedIsNested(spans: seq<Span>, out: seq<Span>, origin: nat)
    requires forall a :: 0 <= a < |spans| ==> Rebasable(spans[a].start, origin) && Rebasable(spans[a].end, origin)
    requires forall i :: 0 <= i < |out| ==> out[i].id == i && FromSpan(out[i], spans, origin)
    requires Nested(spans)
    ensures Nested(out)
  {
    forall i | 0 <= i < |out| && Timed(out[i])
      ensures out[i].start.value <= out[i].end.value
    {
      assert FromSpan(out[i], spans, origin);
    }
    forall i, j | 0 <= i < |out| && 0 <= j < |out|
      ensures ChildOf(out[i], out[j]) ==>
                out[j].start.value <= out[i].start.value && out[i].end.value <= out[j].end.value
      ensures i < j && Siblings(out[i], out[j]) ==> out[i].end.value <= out[j].start.value && out[i].id < out[j].id
    {
      assert FromSpan(out[i], spans, origin) && FromSpan(out[j], spans, origin);
      RebasedPair(spans, out[i], out[j], origin);
    }
  }

  lemma RebasedPair(spans: seq<Span>, s: Span, t: Span, origin: nat)
    requires forall a :: 0 <= a < |spans| ==> Rebasable(spans[a].start, origin) && Rebasable(spans[a].end, origin)
    requires FromSpan(s, spans, origin) && FromSpan(t, spans, origin) && Nested(spans)
    ensures ChildOf(s, t) ==> t.start.value <= s.start.value && s.end.value <= t.end.value
    ensures s.id < t.id && Siblings(s, t) ==> s.end.value <= t.start.value
  {}

  /** With every stack empty, all allocated ids are emitted and all parents are emitted on the same thread. */
  lemma ClosedSpans(m: State, min: Option<nat>, zeros: bool)
    requires Inv(m, min, zeros) && (forall k :: StackOf(m.threads, k) == [])
    ensures EmittedOk(m.spans, m.nextSpan) && (forall id: nat :: id < m.nextSpan ==> Emitted(m.spans, id))
    ensures forall a :: 0 <= a < |m.spans| && m.spans[a].parent.Some? ==>
              EmittedOn(m.spans, m.spans[a].parent.value, m.spans[a].thread)
    ensures Nested(m.spans) && (forall a :: 0 <= a < |m.spans| ==> Backed(m.events, m.spans[a]))
  {}

  lemma SortedParents(spans: seq<Span>, out: seq<Span>, origin: nat, i: nat)
    requires forall a :: 0 <= a < |spans| ==> Rebasable(spans[a].start, origin) && Rebasable(spans[a].end, origin)
    requires forall a :: 0 <= a < |spans| ==> spans[a].id < |out| && out[spans[a].id] == RebaseSpan(spans[a], origin)
    requires EmittedOk(spans, |out|)
    requires forall a :: 0 <= a < |spans| && spans[a].parent.Some? ==>
               EmittedOn(spans, spans[a].parent.value, spans[a].thread)
    requires i < |out| && out[i].id == i && FromSpan(out[i], spans, origin) && out[i].parent.Some?
    ensures out[i].parent.value < i && out[out[i].parent.value].thread == out[i].thread
  {}

  lemma SpansAreSound(m: State, origin: nat, zeros: bool)
    requires Inv(m, Some(origin), zeros) && (forall k :: StackOf(m.threads, k) == []) && AllRebasable(m, origin)
    ensures var out := SortById(RebaseSpans(m.spans, origin));
            && |out| == |m.spans| == m.nextSpan && Nested(out)
            && (forall i :: 0 <= i < |out| ==> out[i].id == i)
            && (forall i :: 0 <= i < |out| && out[i].parent.Some? ==>
                  out[i].parent.value < i && out[out[i].parent.value].thread == out[i].thread)
            && (forall i :: 0 <= i < |out| ==> Backed(RebaseEvents(m.events, origin), out[i]))
  {
    ClosedSpans(m, Some(origin), zeros);
    hide Inv, Nested, Backed, EmittedOk, RebaseSpan, RebaseEvents;
    SortedSpans(m.spans, origin, m.nextSpan);
    SortSorts(RebaseSpans(m.spans, origin)) by { RebaseKeepsIds(m.spans, origin, m.nextSpan); }
    var out := SortById(RebaseSpans(m.spans, origin));
    hide SortById;
    SortedIsNested(m.spans, out, origin);
    SortedEvidence(m.events, m.spans, out, origin);
    SortedIdsBounded(m.spans, m.nextSpan);
    forall i | 0 <= i < |out| && out[i].parent.Some?
      ensures out[i].parent.value < i && out[out[i].parent.value].thread == out[i].thread
    {
      hide FromSpan, Rebasable;
      SortedParents(m.spans, out, origin, i);
    }
  }

  lemma SortedEvidence(events: seq<FlowEvent>, spans: seq<Span>, out: seq<Span>, origin: nat)
    requires forall a :: 0 <= a < |events| ==> Rebasable(events[a].time, origin)
    requires forall a :: 0 <= a < |spans| ==> Rebasable(spans[a].start, origin) && Rebasable(spans[a].end, origin)
    requires forall i :: 0 <= i < |out| ==> FromSpan(out[i], spans, origin)
    requires forall a :: 0 <= a < |spans| ==> Backed(events, spans[a])
    ensures forall i :: 0 <= i < |out| ==> Backed(RebaseEvents(events, origin), out[i])
  {}

  lemma SortedIdsBounded(spans: seq<Span>, n: nat)
    requires EmittedOk(spans, n)
    ensures forall a :: 0 <= a < |spans| ==> spans[a].id < n
  {}

  lemma RebaseKeepsIds(spans: seq<Span>, origin: nat, n: nat)
    requires forall a :: 0 <= a < |spans| ==> Rebasable(spans[a].start, origin) && Rebasable(spans[a].end, origin)
    requires EmittedOk(spans, n)
    ensures var rb := RebaseSpans(spans, origin); forall a, b :: 0 <= a < b < |rb| ==> rb[a].id != rb[b].id
  {}

  lemma RowsAreSound(m: State, keys: seq<Key>, c: Counter)
    requires TallyInv(m) && keys == m.order
    ensures Past(c, m.retired + Rows(m, keys)) == Total(c, m)
  {
    PastConcat(c, m.retired, Rows(m, keys));
    RowsTotal(c, m, keys);
  }

  /** Whatever records were pushed, an analysis that `finish` returns is sound. */
  lemma FinishIsSound(images: seq<Image>, filter: Option<Tracker>, recs: seq<Record>)
    ensures var r := PushAll(images, New(filter), recs);
            && (forall k :: k in r.m.order <==> k in r.m.threads)
            && (Finish(r).Ok? ==> Sound(Finish(r).value))
  {
    hide ReconInv, New, Finish, Sound;
    AnyRun(images, filter, recs);
    var r := PushAll(images, New(filter), recs);
    ClosedHasInv(images, r, true);
    FinishedIsSound(images, r);
  }

  lemma FinishedIsSound(images: seq<Image>, r: Recon)
    requires ReconInv(images, r, true) && forall k :: k in r.m.order <==> k in r.m.threads
    ensures Finish(r).Ok? ==> Sound(Finish(r).value)
  {
    hide ReconInv, Inv, Nested, Backed, TallyInv, Rows, SortById, Past, Charged;
    ClosedHasInv(images, r, true);
    var m := Closed(r);
    if Finish(r).Ok? {
      var a := Finish(r).value;
      SpansAreSound(m, r.minAbs.value, true);
      InvTally(m, r.minAbs, true);
      RowsAreSound(m, r.m.order, Spans);
      RowsAreSound(m, r.m.order, Retained);
      RowsAreSound(m, r.m.order, Gaps);
      ChargedByThread(a.gaps, m.gaps);
    }
  }

  lemma InvTally(m: State, min: Option<nat>, zeros: bool)
    requires Inv(m, min, zeros)
    ensures TallyInv(m)
  {}
}
