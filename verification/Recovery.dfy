/** The reader recovers every bundle: its parameters, its sideband, its rings, and whom each ring belongs to. */
module Recovery {
  import opened Lines
  import opened Bytes
  import opened PerfFile
  import opened Bundle
  import opened Recording
  import TraceTypes

  // ----- the parts of a bundle -----

  predicate OnlySides(items: seq<Item>) {
    forall k :: 0 <= k < |items| ==> !items[k].InfoItem? && !items[k].AuxItem?
  }

  predicate OnlyRings(items: seq<Item>) {
    forall k :: 0 <= k < |items| ==> items[k].AuxItem?
  }

  lemma {:induction false} MapsAreSides(pid: U32, time: U64, maps: seq<Mapping>)
    ensures OnlySides(MapItems(pid, time, maps))
  {
    if maps != [] { MapsAreSides(pid, time, maps[..|maps| - 1]); }
  }

  lemma {:induction false} ProcessesAreSides(ps: seq<Process>, root: TraceTypes.Option<U32>)
    ensures OnlySides(ProcessesItems(ps, root))
  {
    if ps != [] {
      var p := ps[|ps| - 1];
      ProcessesAreSides(ps[..|ps| - 1], root);
      MapsAreSides(p.pid, if p.exec.Some? then p.exec.value else 0, p.maps);
    }
  }

  lemma {:induction false} ThreadsAreSides(es: Events)
    ensures OnlySides(ThreadsItems(es))
  {
    if es != [] { ThreadsAreSides(es[..|es| - 1]); }
  }

  lemma {:induction false} RingsAreRings(es: Events)
    ensures OnlyRings(RingItems(es))
  {
    if es != [] { RingsAreRings(es[..|es| - 1]); }
  }

  lemma {:induction false} AuxConcat(a: seq<Item>, b: seq<Item>)
    ensures AuxOf(a + b) == AuxOf(a) + AuxOf(b)
    decreases |b|
  {
    if b == [] {
      assert a + b == a;
    } else {
      AuxConcat(a, b[..|b| - 1]);
      assert (a + b)[..|a + b| - 1] == a + b[..|b| - 1];
    }
  }

  lemma {:induction false} AuxAmong(items: seq<Item>)
    ensures (forall k :: 0 <= k < |items| ==> !items[k].AuxItem?) ==> AuxOf(items) == []
    ensures OnlyRings(items) ==> AuxOf(items) == items
  {
    if items != [] {
      AuxAmong(items[..|items| - 1]);
      assert items == items[..|items| - 1] + [items[|items| - 1]];
    }
  }

  /** The rings of a capture, in order, each under the number of its event. */
  ghost predicate RingsOf(es: Events, rings: seq<Item>) {
    && (forall j :: 0 <= j < |rings| ==> IsRing(es, rings[j]))
    && (forall j, k :: 0 <= j < k < |rings| ==> Ordered(rings[j], rings[k]))
    && (forall n :: 0 <= n < |es| && HasRing(es[n]) ==> RingFor(es, n) in rings)
  }

  predicate Ordered(a: Item, b: Item) { a.AuxItem? && b.AuxItem? && a.cpu < b.cpu }

  function RingFor(es: Events, n: nat): Item
    requires n < |es| && HasRing(es[n])
  {
    AuxItem(es[n].tid, n, es[n].snapshot.value)
  }

  predicate IsRing(es: Events, i: Item) {
    i.AuxItem? && i.cpu < |es| && HasRing(es[i.cpu]) && i == RingFor(es, i.cpu)
  }

  lemma {:induction false} RingItemsAre(es: Events)
    ensures RingsOf(es, RingItems(es))
  {
    if es != [] {
      var n := |es| - 1;
      var e, before, after := es[n], RingItems(es[..n]), RingItems(es);
      RingItemsAre(es[..n]);
      assert after == before + if HasRing(e) then [RingFor(es, n)] else [];
      hide RingItems;
      forall j | 0 <= j < |after| ensures IsRing(es, after[j]) && (j < |before| ==> after[j].cpu < n) {
        if j < |before| { assert IsRing(es[..n], before[j]); }
      }
      forall j, k | 0 <= j < k < |after| ensures Ordered(after[j], after[k]) {
        if k < |before| { assert Ordered(before[j], before[k]); }
      }
      forall k | 0 <= k < |es| && HasRing(es[k]) ensures RingFor(es, k) in after {
        if k < n { assert HasRing(es[..n][k]) && RingFor(es[..n], k) in before; }
      }
    }
  }

  // ----- reading a bundle -----

  /** Every record's size fits, and so does the whole. */
  ghost predicate Writable(c: Capture) {
    AllRepresentable(Items(c)) && |EncodeAll(Items(c))| < 0x1_0000_0000_0000_0000
  }

  lemma PartsOfItems(c: Capture)
    ensures AuxOf(Items(c)) == RingItems(c.events)
    ensures Items(c) != [] && Items(c)[0] == InfoItem(c.info) && forall k :: 0 < k < |Items(c)| ==>
              !Items(c)[k].InfoItem?
  {
    hide ProcessesItems, ThreadsItems, RingItems;
    var info, ps, ts, rs := [InfoItem(c.info)], ProcessesItems(c.processes, c.root), ThreadsItems(c.events),
      RingItems(c.events);
    ProcessesAreSides(c.processes, c.root);
    ThreadsAreSides(c.events);
    RingsAreRings(c.events);
    SidesThenRings(InfoItem(c.info), ps, ts, rs);
  }

  lemma SidesThenRings(info: Item, ps: seq<Item>, ts: seq<Item>, rs: seq<Item>)
    requires info.InfoItem? && OnlySides(ps) && OnlySides(ts) && OnlyRings(rs)
    ensures var items := [info] + ps + ts + rs;
            AuxOf(items) == rs && forall k :: 0 < k < |items| ==> !items[k].InfoItem?
  {
    hide AuxOf;
    var sides := [info] + ps + ts;
    assert forall k :: 0 < k < |sides| ==> !sides[k].InfoItem? && !sides[k].AuxItem?;
    AuxConcat(sides, rs);
    AuxAmong(sides);
    AuxAmong(rs);
  }

  /** What a bundle says is what was captured; the sideband in stable time order. */
  lemma BundleRoundTrip(c: Capture)
    requires Writable(c)
    ensures var r := ReadPerfData(BundleBytes(c));
            && r.Read? && r.value.info == c.info && r.value.sampleType == SAMPLE_TYPE
            && r.value.sideband == SortByTime(ItemSides(Items(c)))
            && RingsOf(c.events, RingItems(c.events)) && RingsRead(BundleBytes(c), r.value.blobs, RingItems(c.events))
  {
    var items := Items(c);
    var data := EncodeAll(items);
    var file := BundleBytes(c);
    hide Items, Preamble, Entries, EntriesOf, EncodeAll, AuxOf, ItemSides, RingItems, RingsRead, RingsOf, InfoOf,
         SidesOf, BlobsOf, AllRepresentable, Word, SortByTime;
    HeldHalves(Preamble(c, |data|), data);
    PreambleReads(c, |data|, file);
    PartsOfItems(c);
    ItemsRead(file, 264, items);
    EntriesMean(items, 264);
    EntriesHold(file, items, 264);
    InfoFirst(items, 264, c.info);
    RingItemsAre(c.events);
  }

  lemma HeldHalves(a: Blob, b: Blob)
    ensures Holds(a + b, 0, a) && Holds(a + b, |a|, b)
  {}

  // ----- schedules -----

  /** A task running on a processor from some time on. */
  datatype Run = Run(time: nat, pid: nat, tid: nat)

  predicate SwitchesIn(s: Sideband, cpu: nat) {
    (s.Switch? && !s.out && s.cpu == cpu) || (s.ItraceStart? && s.cpu == cpu)
  }

  function Runs(ss: seq<Sideband>, cpu: nat): seq<Run> {
    if ss == [] then []
    else
      var s := ss[|ss| - 1];
      Runs(ss[..|ss| - 1], cpu) + if SwitchesIn(s, cpu) then [Run(s.time, s.pid, s.tid)] else []
  }

  predicate Before(a: Run, b: Run) {
    a.time < b.time || (a.time == b.time && (a.pid < b.pid || (a.pid == b.pid && a.tid < b.tid)))
  }

  function InsertRun(sorted: seq<Run>, r: Run): seq<Run> {
    if sorted == [] || Before(sorted[|sorted| - 1], r) then sorted + [r]
    else if sorted[|sorted| - 1] == r then sorted
    else InsertRun(sorted[..|sorted| - 1], r) + [sorted[|sorted| - 1]]
  }

  /** Sorting and removing repetitions. */
  function Distinct(rs: seq<Run>): seq<Run> {
    if rs == [] then [] else InsertRun(Distinct(rs[..|rs| - 1]), rs[|rs| - 1])
  }

  ghost predicate Ascending(rs: seq<Run>) {
    forall i, j :: 0 <= i < j < |rs| ==> Before(rs[i], rs[j])
  }

  lemma {:induction false} InsertRunHolds(sorted: seq<Run>, r: Run)
    ensures forall x :: x in InsertRun(sorted, r) <==> x in sorted || x == r
  {
    hide Before;
    if sorted != [] {
      var n := |sorted| - 1;
      assert sorted == sorted[..n] + [sorted[n]];
      InsertRunHolds(sorted[..n], r);
    }
  }

  lemma {:induction false} InsertRunIs(sorted: seq<Run>, r: Run)
    requires Ascending(sorted)
    ensures Ascending(InsertRun(sorted, r))
    ensures forall x :: x in InsertRun(sorted, r) <==> x in sorted || x == r
  {
    InsertRunHolds(sorted, r);
    if sorted == [] {
    } else if Before(sorted[|sorted| - 1], r) {
      LastAscends(sorted, r);
    } else if sorted[|sorted| - 1] != r {
      var n := |sorted| - 1;
      InsertRunIs(sorted[..n], r);
      var t := InsertRun(sorted[..n], r);
      forall i | 0 <= i < |t| ensures Before(t[i], sorted[n]) {
        assert t[i] in t;
      }
    }
  }

  lemma LastAscends(sorted: seq<Run>, r: Run)
    requires Ascending(sorted) && sorted != [] && Before(sorted[|sorted| - 1], r)
    ensures Ascending(sorted + [r])
  {}

  /** A schedule is strictly ascending and holds exactly the runs on its processor. */
  lemma {:induction false} DistinctIs(rs: seq<Run>)
    ensures Ascending(Distinct(rs)) && forall x :: x in Distinct(rs) <==> x in rs
  {
    if rs != [] {
      DistinctIs(rs[..|rs| - 1]);
      InsertRunIs(Distinct(rs[..|rs| - 1]), rs[|rs| - 1]);
      assert rs == rs[..|rs| - 1] + [rs[|rs| - 1]];
    }
  }

  function ScheduleFor(ss: seq<Sideband>, cpu: nat): seq<Run> { Distinct(Runs(ss, cpu)) }

  // ----- whom a ring belongs to -----

  lemma {:induction false} RunsOfMoment(ss: seq<Sideband>, cpu: nat, t: nat)
    requires forall s :: s in ss && SwitchesIn(s, cpu) ==> s.time == t
    ensures Runs(ss, cpu) == Runs(Moment(ss, t), cpu)
  {
    if ss != [] {
      var init, s := ss[..|ss| - 1], ss[|ss| - 1];
      RunsOfMoment(init, cpu, t);
      if s.time == t {
        assert (Moment(init, t) + [s])[..|Moment(init, t)|] == Moment(init, t);
      } else {
        assert Moment(ss, t) == Moment(init, t);
      }
    }
  }

  lemma {:induction false} InsertHolds(sorted: seq<Sideband>, s: Sideband)
    ensures forall x :: x in InsertByTime(sorted, s) <==> x in sorted || x == s
  {
    if sorted != [] {
      var n := |sorted| - 1;
      assert sorted == sorted[..n] + [sorted[n]];
      InsertHolds(sorted[..n], s);
    }
  }

  lemma {:induction false} InSorted(ss: seq<Sideband>)
    ensures forall s :: s in SortByTime(ss) <==> s in ss
  {
    if ss != [] {
      var init := ss[..|ss| - 1];
      assert ss == init + [ss[|ss| - 1]];
      InSorted(init);
      InsertHolds(SortByTime(init), ss[|ss| - 1]);
    }
  }

  function StartRuns(items: seq<Item>, cpu: nat): seq<Run> {
    if items == [] then []
    else
      var i := items[|items| - 1];
      StartRuns(items[..|items| - 1], cpu) + if i.StartItem? && i.cpu == cpu then [Run(0, i.pid, i.tid)] else []
  }

  /** Only the thread starts switch a task in, all of them at time 0. */
  lemma {:induction false} RunsOfItems(items: seq<Item>, cpu: nat)
    ensures Runs(ItemSides(items), cpu) == StartRuns(items, cpu)
    ensures forall s :: s in ItemSides(items) && SwitchesIn(s, cpu) ==> s.time == 0
  {
    if items != [] {
      var init, i := items[..|items| - 1], items[|items| - 1];
      RunsOfItems(init, cpu);
      var e := Meaning(i, 0);
      if e.Side? {
        assert (ItemSides(init) + [e.side])[..|ItemSides(init)|] == ItemSides(init);
      } else {
        assert ItemSides(items) == ItemSides(init);
      }
    }
  }

  lemma {:induction false} StartsConcat(a: seq<Item>, b: seq<Item>, cpu: nat)
    ensures StartRuns(a + b, cpu) == StartRuns(a, cpu) + StartRuns(b, cpu)
    decreases |b|
  {
    if b == [] {
      assert a + b == a;
    } else {
      StartsConcat(a, b[..|b| - 1], cpu);
      assert (a + b)[..|a + b| - 1] == a + b[..|b| - 1];
    }
  }

  lemma {:induction false} NoStarts(items: seq<Item>, cpu: nat)
    requires forall k :: 0 <= k < |items| ==> !items[k].StartItem?
    ensures StartRuns(items, cpu) == []
  {
    if items != [] { NoStarts(items[..|items| - 1], cpu); }
  }

  lemma {:induction false} MapsNoStarts(pid: U32, time: U64, maps: seq<Mapping>)
    ensures forall k :: 0 <= k < |MapItems(pid, time, maps)| ==> !MapItems(pid, time, maps)[k].StartItem?
  {
    if maps != [] { MapsNoStarts(pid, time, maps[..|maps| - 1]); }
  }

  lemma {:induction false} ProcessesNoStarts(ps: seq<Process>, root: TraceTypes.Option<U32>)
    ensures forall k :: 0 <= k < |ProcessesItems(ps, root)| ==> !ProcessesItems(ps, root)[k].StartItem?
  {
    if ps != [] {
      var p := ps[|ps| - 1];
      ProcessesNoStarts(ps[..|ps| - 1], root);
      MapsNoStarts(p.pid, if p.exec.Some? then p.exec.value else 0, p.maps);
    }
  }

  lemma {:induction false} ThreadStarts(es: Events, n: nat)
    ensures StartRuns(ThreadsItems(es), n) == if n < |es| then [Run(0, es[n].pid, es[n].tid)] else []
  {
    if es != [] {
      hide StartRuns, ThreadItems;
      var k := |es| - 1;
      ThreadStarts(es[..k], n);
      StartsConcat(ThreadsItems(es[..k]), ThreadItems(es[k], k), n);
      OneThreadStarts(es[k], k, n);
    } else {
      NoStarts([], n);
    }
  }

  lemma OneThreadStarts(e: Event, k: U32, n: nat)
    ensures StartRuns(ThreadItems(e, k), n) == if n == k then [Run(0, e.pid, e.tid)] else []
  {
    var items := ThreadItems(e, k);
    NoStarts(items[..|items| - 1], n);
    assert items[|items| - 1] == StartItem(e.pid, e.tid, k);
  }

  /** The schedule of a ring's pseudo processor is its one thread, running from time 0. */
  lemma RingBelongs(c: Capture, n: nat)
    requires Writable(c) && n < |c.events|
    ensures ReadPerfData(BundleBytes(c)).Read?
    ensures ScheduleFor(ReadPerfData(BundleBytes(c)).value.sideband, n) == [Run(0, c.events[n].pid, c.events[n].tid)]
  {
    hide AllRepresentable, EncodeAll, RingsRead, RingsOf, BundleBytes, ReadPerfData, ItemSides, SortByTime, Runs;
    BundleRoundTrip(c);
    var sides := ItemSides(Items(c));
    RunsOfItems(Items(c), n);
    InSorted(sides);
    SortIsStable(sides, 0);
    RunsOfMoment(sides, n, 0);
    RunsOfMoment(SortByTime(sides), n, 0);
    StartsOfItems(c, n);
    var r := Run(0, c.events[n].pid, c.events[n].tid);
    assert [r][..0] == [];
    assert Distinct([r]) == [r];
  }

  lemma StartsOfItems(c: Capture, n: nat)
    requires n < |c.events|
    ensures StartRuns(Items(c), n) == [Run(0, c.events[n].pid, c.events[n].tid)]
  {
    hide ProcessesItems, ThreadsItems, RingItems;
    var info, ps, ts, rs := [InfoItem(c.info)], ProcessesItems(c.processes, c.root), ThreadsItems(c.events),
      RingItems(c.events);
    ProcessesNoStarts(c.processes, c.root);
    RingsAreRings(c.events);
    StartsConcat(info + ps + ts, rs, n);
    StartsConcat(info + ps, ts, n);
    NoStarts(info + ps, n);
    NoStarts(rs, n);
    ThreadStarts(c.events, n);
  }
}
