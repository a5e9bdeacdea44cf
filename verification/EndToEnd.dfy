/** From the record stream to the returned analysis. */
module EndToEnd {
  import opened TraceTypes
  import opened Machine
  import opened Lanes
  import opened SpanIds
  import opened Laminar
  import opened Origin
  import opened Tally
  import opened Steps
  import opened Symbols
  import opened Recon
  import opened Runs
  import opened Results
  import opened RoundTrip
  import opened SelfTime
  import ZeroTimes

  /**
   * In every analysis that `finish` returns, whatever the records were, the self times
   * of a wholly measured call tree add up to the inclusive time of its root.
   */
  lemma AnalysisConservesSelfTime(images: seq<Image>, filter: Option<Tracker>, recs: seq<Record>, i: nat)
    ensures var r := PushAll(images, New(filter), recs);
            && (forall k :: k in r.m.order <==> k in r.m.threads)
            && (Finish(r).Ok? ==>
                  var spans := Finish(r).value.spans;
                  TreeRows(spans)
                  && (i < |spans| && Measured(spans, i) ==> InclusiveElapsed(spans[i]) == Some(TreeSelf(spans, i))))
  {
    hide Finish, New, Measured, TreeSelf, InclusiveElapsed;
    FinishIsSound(images, filter, recs);
    var r := PushAll(images, New(filter), recs);
    if Finish(r).Ok? {
      var spans := Finish(r).value.spans;
      if i < |spans| && Measured(spans, i) { SelfTimeConserved(spans, i); }
    }
  }

  // ----- the round trip through `finish` -----

  /** Closing threads whose stacks are empty emits nothing. */
  lemma {:induction false} CloseAllIdle(m: State, keys: seq<Key>)
    requires forall k :: k in keys ==> k in m.threads
    requires forall k :: k in m.threads ==> m.threads[k].stack == []
    ensures CloseAll(m, keys).spans == m.spans && CloseAll(m, keys).nextSpan == m.nextSpan
    decreases |keys|
  {
    if keys != [] { CloseAllIdle(SetPending(m, keys[0], None), keys[1..]); }
  }

  /** The reconstructor has seen no sample yet. */
  predicate Fresh(r: Recon) {
    r.m.threads == map[] && r.m.spans == [] && r.m.nextSpan == 0 && r.m.nextEvent == 0
  }

  /**
   * Push any sideband, then a printed forest; the analysis then holds exactly the spans of
   * that forest, each at the index of its calling order, with times relative to the origin.
   */
  lemma AnalysisRoundTrip(images: seq<Image>, filter: Option<Tracker>, sideband: seq<Record>, key: Key, f: Forest)
    requires var r := PushAll(images, New(filter), sideband);
             && Fresh(r) && RoundTrip.Live(r, key)
             && WellFormed(images, r.tables, key, f) && NonDecreasing(None, Print(f))
    ensures var r := PushAll(images, New(filter), sideband);
            var r' := PushAll(images, New(filter), sideband + Records(Print(f)));
            && (forall k :: k in r'.m.order <==> k in r'.m.threads)
            && (Finish(r').Ok? <==> Earliest(filter, sideband + Records(Print(f)), None).Some?
                                    && NoZeroWritten(images, New(filter), sideband + Records(Print(f))))
            && (Finish(r').Ok? ==>
                  var a := Finish(r').value;
                  var want := Expected(f, images, r'.tables, Row(r, key).id, None, 0, 0);
                  && |a.spans| == |want| == Calls(f)
                  && a.functions == r'.tables.functions
                  && forall j :: 0 <= j < |want| ==>
                       want[j].id < |a.spans| && IsRebased(a.spans[want[j].id], want[j], a.origin))
  {
    hide New, PushAll, ReconInv, WellFormed, Rebuilt, NonDecreasing, Finish, Expected, Calls, Records, Earliest,
         NoZeroWritten;
    var r := PushAll(images, New(filter), sideband);
    var r' := PushAll(images, New(filter), sideband + Records(Print(f)));
    AnyRun(images, filter, sideband);
    AnyRun(images, filter, sideband + Records(Print(f)));
    PushAllConcat(images, New(filter), sideband, Records(Print(f)));
    FreshRoundTrip(images, r, r', key, f);
    OnlyKey(images, r, r', key, f);
    FinishEmitted(images, r');
    ExpectedCount(f, images, r'.tables, Row(r, key).id, None, 0, 0);
    ZeroTimes.RefusedIff(images, filter, sideband + Records(Print(f)));
    EitherWay(Finish(r'));
  }

  lemma EitherWay<T>(x: Result<T>)
    ensures x.Ok? || x == Err(NoTimestamps) || x == Err(PrecedesOrigin)
  {
    match x
    case Ok(_) =>
    case Err(e) => assert e == NoTimestamps || e == PrecedesOrigin;
  }

  /** With nothing open, `finish` returns the emitted spans, rebased, each at its id. */
  lemma FinishEmitted(images: seq<Image>, r: Recon)
    requires ReconInv(images, r, true) && (forall k :: k in r.m.threads ==> r.m.threads[k].stack == [])
    ensures forall k :: k in r.m.order <==> k in r.m.threads
    ensures Finish(r).Ok? ==>
              var a := Finish(r).value;
              && |a.spans| == |r.m.spans| && a.functions == r.tables.functions
              && forall j :: 0 <= j < |r.m.spans| ==>
                   r.m.spans[j].id < |a.spans| && IsRebased(a.spans[r.m.spans[j].id], r.m.spans[j], a.origin)
    ensures Finish(r).Ok? ==> forall i: nat :: i < |Finish(r).value.spans| ==> Emitted(r.m.spans, i)
  {
    hide ReconInv, Inv, Nested;
    ClosedHasInv(images, r, true);
    if Finish(r).Ok? {
      var origin := r.minAbs.value;
      var m := Closed(r);
      CloseAllIdle(r.m, r.m.order);
      ClosedSpans(m, r.minAbs, true);
      SpansAreSound(m, origin, true);
      SortedIdsBounded(m.spans, m.nextSpan);
      hide EmittedOk, SortById, RebaseSpan;
      SortedSpans(m.spans, origin, m.nextSpan);
    }
  }

  predicate IsRebased(s: Span, want: Span, origin: nat) {
    && Rebasable(want.start, origin) && Rebasable(want.end, origin)
    && s == RebaseSpan(want, origin)
  }

  lemma FreshRoundTrip(images: seq<Image>, r: Recon, r': Recon, key: Key, f: Forest)
    requires Fresh(r) && RoundTrip.Live(r, key) && ReconInv(images, r, true)
    requires WellFormed(images, r.tables, key, f) && NonDecreasing(None, Print(f))
    requires r' == PushAll(images, r, Records(Print(f)))
    ensures Rebuilt(images, r, r', key, f)
    ensures r'.m.spans == Expected(f, images, r'.tables, Row(r, key).id, None, 0, 0) && Row(r', key).stack == []
  {
    hide ReconInv, PushAll, WellFormed, NonDecreasing, Expected;
    ForestRoundTrip(images, r, key, f);
  }

  lemma {:induction false} ExpectedCount(f: Forest, images: seq<Image>, t: Tables, thread: ThreadId,
                                         parent: Option<nat>, sid: nat, eid: nat)
    ensures |Expected(f, images, t, thread, parent, sid, eid)| == Calls(f)
  {
    match f
    case Leaf =>
    case JumpThen(_, rest) => ExpectedCount(rest, images, t, thread, parent, sid, eid + 1);
    case CallThen(_, body, _, rest) =>
      ExpectedCount(body, images, t, thread, Some(sid), sid + 1, eid + 1);
      ExpectedCount(rest, images, t, thread, parent, sid + 1 + Calls(body), eid + 2 + |Print(body)|);
  }

  /** Samples of one task create no other thread. */
  lemma {:induction false} SamplesOfOneTask(images: seq<Image>, r: Recon, samples: seq<Sample>, key: Key)
    requires forall i :: 0 <= i < |samples| ==> (samples[i].pid, samples[i].tid) == key
    ensures PushAll(images, r, Records(samples)).m.threads.Keys <= r.m.threads.Keys + {key}
    decreases |samples|
  {
    if samples != [] {
      hide PushSample;
      assert Records(samples)[1..] == Records(samples[1..]);
      SampleOutside(images, Noted(r, SampleRecord(samples[0])), samples[0]);
      SamplesOfOneTask(images, Push(images, r, SampleRecord(samples[0])), samples[1..], key);
    }
  }

  lemma {:induction false} PrintedTask(images: seq<Image>, t: Tables, key: Key, f: Forest)
    requires WellFormed(images, t, key, f)
    ensures forall i :: 0 <= i < |Print(f)| ==> (Print(f)[i].pid, Print(f)[i].tid) == key
  {
    match f
    case Leaf =>
    case JumpThen(_, rest) => PrintedTask(images, t, key, rest);
    case CallThen(_, body, _, rest) =>
      PrintedTask(images, t, key, body);
      PrintedTask(images, t, key, rest);
  }

  lemma OnlyKey(images: seq<Image>, r: Recon, r': Recon, key: Key, f: Forest)
    requires Fresh(r) && WellFormed(images, r.tables, key, f) && r' == PushAll(images, r, Records(Print(f)))
    requires Row(r', key).stack == []
    ensures forall k :: k in r'.m.threads ==> r'.m.threads[k].stack == []
  {
    hide PushAll;
    PrintedTask(images, r.tables, key, f);
    SamplesOfOneTask(images, r, Print(f), key);
  }
}
