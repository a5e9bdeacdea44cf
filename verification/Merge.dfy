/**
 * The k-way merge of time-ordered record streams: a reference merge, what it
 * keeps, and the heap-driven method that computes it from batched channels.
 */
module Merge {
  import opened TraceTypes

  /** A record with the timestamp it is merged by. */
  type Tagged = (Option<nat>, Record)

  /** A record and the stream it came from. */
  type Entry = (nat, Tagged)

  function KeyOf(t: Tagged): nat {
    if t.0.Some? then t.0.value else 0
  }

  predicate Sideband(r: Record) {
    r.MmapRecord? || r.TaskRecord? || r.SwitchRecord? || r.LostRecord?
  }

  /** (time, stream) order. */
  predicate LexLeq(a: (nat, nat), b: (nat, nat)) {
    a.0 < b.0 || (a.0 == b.0 && a.1 <= b.1)
  }

  function Rank(e: Entry): (nat, nat) {
    (KeyOf(e.1), e.0)
  }

  // ----- the reference merge -----

  /** The stream whose head comes first, among the streams from `i` on. */
  function First(ss: seq<seq<Tagged>>, i: nat): (r: Option<nat>)
    requires i <= |ss|
    ensures r.None? <==> forall k :: i <= k < |ss| ==> ss[k] == []
    ensures r.Some? ==> i <= r.value < |ss| && ss[r.value] != []
    ensures r.Some? ==> forall k :: i <= k < |ss| && ss[k] != [] ==>
              LexLeq((KeyOf(ss[r.value][0]), r.value), (KeyOf(ss[k][0]), k))
    decreases |ss| - i
  {
    if i == |ss| then None
    else
      var rest := First(ss, i + 1);
      if ss[i] == [] then rest
      else if rest.None? || KeyOf(ss[i][0]) <= KeyOf(ss[rest.value][0]) then Some(i)
      else rest
  }

  function Total(ss: seq<seq<Tagged>>): nat {
    if ss == [] then 0 else Total(ss[..|ss| - 1]) + |ss[|ss| - 1]|
  }

  lemma {:induction false} TotalDrops(ss: seq<seq<Tagged>>, i: nat)
    requires i < |ss| && ss[i] != []
    ensures Total(ss[i := ss[i][1..]]) == Total(ss) - 1
  {
    var last := |ss| - 1;
    if i == last {
      assert ss[i := ss[i][1..]][..last] == ss[..last];
    } else {
      assert ss[i := ss[i][1..]][..last] == ss[..last][i := ss[i][1..]];
      TotalDrops(ss[..last], i);
    }
  }

  function MergeOf(ss: seq<seq<Tagged>>): seq<Entry>
    decreases Total(ss)
  {
    var first := First(ss, 0);
    if first.None? then []
    else
      var i := first.value;
      TotalDrops(ss, i);
      [(i, ss[i][0])] + MergeOf(ss[i := ss[i][1..]])
  }

  /** What reaches the sink: everything but the sideband of streams other than 0. */
  function Delivered(entries: seq<Entry>): seq<Record> {
    if entries == [] then []
    else
      var (i, t) := entries[0];
      (if Sideband(t.1) && i != 0 then [] else [t.1]) + Delivered(entries[1..])
  }

  /** The records of stream `i`, in the order they appear. */
  function Stream(entries: seq<Entry>, i: nat): seq<Tagged> {
    if entries == [] then []
    else (if entries[0].0 == i then [entries[0].1] else []) + Stream(entries[1..], i)
  }

  /** Nothing is lost, duplicated or reordered within a stream. */
  lemma {:induction false} MergeKeepsStreams(ss: seq<seq<Tagged>>, k: nat)
    requires k < |ss|
    ensures Stream(MergeOf(ss), k) == ss[k]
    decreases Total(ss)
  {
    var first := First(ss, 0);
    if first.Some? {
      var i := first.value;
      TotalDrops(ss, i);
      var rest := ss[i := ss[i][1..]];
      MergeKeepsStreams(rest, k);
      assert MergeOf(ss)[1..] == MergeOf(rest);
      if i == k { assert ss[k] == [ss[k][0]] + rest[k]; }
    }
  }

  /** A record without a time counts as one of time 0: while one stands at a head, nothing later goes first. */
  lemma UntimedGoFirst(ss: seq<seq<Tagged>>, k: nat)
    requires k < |ss| && ss[k] != [] && ss[k][0].0.None?
    ensures MergeOf(ss) != [] && (MergeOf(ss)[0].1.0.None? || MergeOf(ss)[0].1.0 == Some(0))
    ensures forall j :: 0 <= j < k && ss[j] != [] && ss[j][0].0.None? ==> MergeOf(ss)[0].0 <= j
  {}

  lemma {:induction false} MergeStreamsInRange(ss: seq<seq<Tagged>>)
    ensures forall j :: 0 <= j < |MergeOf(ss)| ==> MergeOf(ss)[j].0 < |ss|
    decreases Total(ss)
  {
    var first := First(ss, 0);
    if first.Some? {
      TotalDrops(ss, first.value);
      MergeStreamsInRange(ss[first.value := ss[first.value][1..]]);
    }
  }

  // ----- sorted streams -----

  ghost predicate KeySorted(s: seq<Tagged>) {
    forall i, j :: 0 <= i < j < |s| ==> KeyOf(s[i]) <= KeyOf(s[j])
  }

  ghost predicate LexSorted(entries: seq<Entry>) {
    forall i, j :: 0 <= i < j < |entries| ==> LexLeq(Rank(entries[i]), Rank(entries[j]))
  }

  /** Every entry of a merge of sorted streams ranks at or after every head. */
  lemma {:induction false} MergeIsSorted(ss: seq<seq<Tagged>>)
    requires forall k :: 0 <= k < |ss| ==> KeySorted(ss[k])
    ensures LexSorted(MergeOf(ss))
    ensures First(ss, 0).Some? ==>
              var i := First(ss, 0).value;
              forall j :: 0 <= j < |MergeOf(ss)| ==> LexLeq((KeyOf(ss[i][0]), i), Rank(MergeOf(ss)[j]))
    decreases Total(ss)
  {
    var first := First(ss, 0);
    if first.Some? {
      var i := first.value;
      TotalDrops(ss, i);
      var rest := ss[i := ss[i][1..]];
      assert MergeOf(ss) == [(i, ss[i][0])] + MergeOf(rest);
      assert MergeOf(rest) != [] ==> First(rest, 0).Some?;
      hide MergeOf, Total;
      RestIsSorted(ss, i);
      MergeIsSorted(rest);
      hide First;
      if First(rest, 0).Some? { HeadsAscend(ss, i, First(rest, 0).value); }
      FirstThenSorted((i, ss[i][0]), MergeOf(rest));
    }
  }

  lemma RestIsSorted(ss: seq<seq<Tagged>>, i: nat)
    requires i < |ss| && ss[i] != [] && forall k :: 0 <= k < |ss| ==> KeySorted(ss[k])
    ensures var rest := ss[i := ss[i][1..]]; forall k :: 0 <= k < |rest| ==> KeySorted(rest[k])
  {}

  /** The next head of the merge ranks at or after the present one. */
  lemma HeadsAscend(ss: seq<seq<Tagged>>, i: nat, n: nat)
    requires First(ss, 0) == Some(i) && KeySorted(ss[i]) && n < |ss| && ss[i := ss[i][1..]][n] != []
    ensures LexLeq((KeyOf(ss[i][0]), i), (KeyOf(ss[i := ss[i][1..]][n][0]), n))
  {}

  lemma FirstThenSorted(e: Entry, rest: seq<Entry>)
    requires LexSorted(rest) && (rest != [] ==> LexLeq(Rank(e), Rank(rest[0])))
    ensures LexSorted([e] + rest) && forall j :: 0 <= j < |[e] + rest| ==> LexLeq(Rank(e), Rank(([e] + rest)[j]))
  {}

  /** A sorted interleaving is determined by its streams. */
  lemma {:induction false} SortedIsUnique(a: seq<Entry>, b: seq<Entry>)
    requires LexSorted(a) && LexSorted(b) && (forall i: nat :: Stream(a, i) == Stream(b, i))
    ensures a == b
  {
    if a == [] {
      if b != [] {
        HasOwnStream(b);
        assert false;
      }
    } else {
      var i := a[0].0;
      assert Stream(a, i) == Stream(b, i) && Stream(a, i)[0] == a[0].1;
      HeadOfStream(b, i);
      var j := b[0].0;
      assert Stream(b, j) == Stream(a, j) && Stream(b, j)[0] == b[0].1;
      HeadOfStream(a, j);
      assert i == j && a[0] == b[0];
      forall k: nat
        ensures Stream(a[1..], k) == Stream(b[1..], k)
      {
        assert Stream(a, k) == Stream(b, k);
        if k == i {
          assert Stream(a, k)[1..] == Stream(a[1..], k) && Stream(b, k)[1..] == Stream(b[1..], k);
        } else {
          assert Stream(a, k) == Stream(a[1..], k) && Stream(b, k) == Stream(b[1..], k);
        }
      }
      SortedIsUnique(a[1..], b[1..]);
      assert a == [a[0]] + a[1..] && b == [b[0]] + b[1..];
    }
  }

  lemma HasOwnStream(b: seq<Entry>)
    requires b != []
    ensures Stream(b, b[0].0) != [] && Stream([], b[0].0) == []
  {}

  /** The first record of a stream ranks at or after the first entry. */
  lemma {:induction false} HeadOfStream(b: seq<Entry>, i: nat)
    requires LexSorted(b) && b != [] && Stream(b, i) != []
    ensures LexLeq(Rank(b[0]), (KeyOf(Stream(b, i)[0]), i))
  {
    if b[0].0 != i {
      HeadOfStream(b[1..], i);
      assert LexLeq(Rank(b[0]), Rank(b[1]));
    }
  }

  // ----- the stable sort it equals -----

  function Label(s: seq<Tagged>, i: nat): (r: seq<Entry>)
    ensures |r| == |s| && forall k :: 0 <= k < |s| ==> r[k] == (i, s[k])
  {
    seq(|s|, k requires 0 <= k < |s| => (i, s[k]))
  }

  function Concat(ss: seq<seq<Tagged>>): seq<Entry> {
    if ss == [] then [] else Concat(ss[..|ss| - 1]) + Label(ss[|ss| - 1], |ss| - 1)
  }

  /** Insertion after every entry with an equal or smaller time. */
  function InsertByTime(sorted: seq<Entry>, e: Entry): seq<Entry> {
    if sorted == [] || KeyOf(sorted[|sorted| - 1].1) <= KeyOf(e.1) then sorted + [e]
    else InsertByTime(sorted[..|sorted| - 1], e) + [sorted[|sorted| - 1]]
  }

  /** A stable sort by time alone. */
  function StableSort(xs: seq<Entry>): seq<Entry> {
    if xs == [] then [] else InsertByTime(StableSort(xs[..|xs| - 1]), xs[|xs| - 1])
  }

  lemma {:induction false} StreamAppend(xs: seq<Entry>, ys: seq<Entry>, i: nat)
    ensures Stream(xs + ys, i) == Stream(xs, i) + Stream(ys, i)
  {
    if xs == [] {
      assert xs + ys == ys;
    } else {
      assert (xs + ys)[1..] == xs[1..] + ys;
      StreamAppend(xs[1..], ys, i);
      var h := if xs[0].0 == i then [xs[0].1] else [];
      assert Stream(xs + ys, i) == h + Stream(xs[1..] + ys, i) && Stream(xs, i) == h + Stream(xs[1..], i);
      hide Stream;
      assert h + (Stream(xs[1..], i) + Stream(ys, i)) == h + Stream(xs[1..], i) + Stream(ys, i);
    }
  }

  lemma StreamOne(e: Entry, i: nat)
    ensures Stream([e], i) == if e.0 == i then [e.1] else []
  {}

  /** Inserting an entry no earlier than its own stream appends it to that stream. */
  lemma {:induction false} InsertKeepsStreams(sorted: seq<Entry>, e: Entry, i: nat)
    requires forall k :: 0 <= k < |sorted| && sorted[k].0 == e.0 ==> KeyOf(sorted[k].1) <= KeyOf(e.1)
    ensures Stream(InsertByTime(sorted, e), i) == Stream(sorted, i) + Stream([e], i)
  {
    hide Stream;
    if sorted == [] || KeyOf(sorted[|sorted| - 1].1) <= KeyOf(e.1) {
      StreamAppend(sorted, [e], i);
    } else {
      var init, last := sorted[..|sorted| - 1], sorted[|sorted| - 1];
      InsertKeepsStreams(init, e, i);
      StreamAppend(InsertByTime(init, e), [last], i);
      StreamAppend(init, [last], i);
      assert sorted == init + [last];
      StreamOne(e, i);
      StreamOne(last, i);
    }
  }

  /** The new entry comes from the highest stream so far, so ties order by stream. */
  lemma {:induction false} InsertSorts(sorted: seq<Entry>, e: Entry)
    requires LexSorted(sorted) && (forall k :: 0 <= k < |sorted| ==> sorted[k].0 <= e.0)
    ensures LexSorted(InsertByTime(sorted, e))
    ensures forall x :: x in InsertByTime(sorted, e) <==> x in sorted || x == e
  {
    if sorted == [] || KeyOf(sorted[|sorted| - 1].1) <= KeyOf(e.1) {
      InsertLast(sorted, e);
    } else {
      hide LexLeq, Rank;
      var init, last := sorted[..|sorted| - 1], sorted[|sorted| - 1];
      assert sorted == init + [last];
      InsertSorts(init, e);
      InsertBefore(init, InsertByTime(init, e), last, e);
    }
  }

  lemma InsertLast(sorted: seq<Entry>, e: Entry)
    requires LexSorted(sorted) && (forall k :: 0 <= k < |sorted| ==> sorted[k].0 <= e.0)
    requires sorted == [] || KeyOf(sorted[|sorted| - 1].1) <= KeyOf(e.1)
    ensures LexSorted(sorted + [e])
  {
    forall k | 0 <= k < |sorted| ensures LexLeq(Rank(sorted[k]), Rank(e)) {
      if k < |sorted| - 1 { assert LexLeq(Rank(sorted[k]), Rank(sorted[|sorted| - 1])); }
    }
  }

  lemma InsertBefore(init: seq<Entry>, t: seq<Entry>, last: Entry, e: Entry)
    requires LexSorted(init + [last]) && LexSorted(t) && (forall x :: x in t <==> x in init || x == e)
    requires KeyOf(e.1) < KeyOf(last.1)
    ensures LexSorted(t + [last])
  {
    var sorted := init + [last];
    assert LexLeq(Rank(e), Rank(last));
    hide LexLeq, Rank;
    forall k | 0 <= k < |t| ensures LexLeq(Rank(t[k]), Rank(last)) {
      assert t[k] in t;
      if t[k] != e {
        var m :| 0 <= m < |init| && init[m] == t[k];
        assert LexLeq(Rank(sorted[m]), Rank(sorted[|init|]));
      }
    }
  }

  /** Entries in stream order, each stream in time order. */
  ghost predicate Orderly(xs: seq<Entry>) {
    forall i, j :: 0 <= i < j < |xs| ==> xs[i].0 <= xs[j].0 && (xs[i].0 == xs[j].0 ==> KeyOf(xs[i].1) <= KeyOf(xs[j].1))
  }

  lemma {:induction false} StableSortSorts(xs: seq<Entry>, i: nat)
    requires Orderly(xs)
    ensures LexSorted(StableSort(xs)) && (forall x :: x in StableSort(xs) <==> x in xs)
    ensures Stream(StableSort(xs), i) == Stream(xs, i)
  {
    if xs != [] {
      var init, e := xs[..|xs| - 1], xs[|xs| - 1];
      assert xs == init + [e];
      StableSortSorts(init, i);
      var t := StableSort(init);
      forall k | 0 <= k < |t|
        ensures t[k].0 <= e.0 && (t[k].0 == e.0 ==> KeyOf(t[k].1) <= KeyOf(e.1))
      {
        assert t[k] in init;
      }
      InsertSorts(t, e);
      InsertKeepsStreams(t, e, i);
      StreamAppend(init, [e], i);
    }
  }

  lemma {:induction false} ConcatIsOrderly(ss: seq<seq<Tagged>>)
    requires forall k :: 0 <= k < |ss| ==> KeySorted(ss[k])
    ensures Orderly(Concat(ss)) && (forall j :: 0 <= j < |Concat(ss)| ==> Concat(ss)[j].0 < |ss|)
  {
    if ss != [] {
      ConcatIsOrderly(ss[..|ss| - 1]);
      assert KeySorted(ss[|ss| - 1]);
    }
  }

  lemma {:induction false} StreamOfLabel(s: seq<Tagged>, i: nat, k: nat)
    ensures Stream(Label(s, i), k) == if k == i then s else []
  {
    if s != [] {
      assert Label(s, i)[1..] == Label(s[1..], i);
      StreamOfLabel(s[1..], i, k);
      assert s == [s[0]] + s[1..];
    }
  }

  lemma {:induction false} StreamOfConcat(ss: seq<seq<Tagged>>, k: nat)
    ensures Stream(Concat(ss), k) == if k < |ss| then ss[k] else []
  {
    if ss != [] {
      var last := |ss| - 1;
      StreamOfConcat(ss[..last], k);
      StreamOfLabel(ss[last], last, k);
      StreamAppend(Concat(ss[..last]), Label(ss[last], last), k);
    }
  }

  lemma {:induction false} StreamOutOfRange(entries: seq<Entry>, n: nat, k: nat)
    requires (forall j :: 0 <= j < |entries| ==> entries[j].0 < n) && k >= n
    ensures Stream(entries, k) == []
  {
    if entries != [] { StreamOutOfRange(entries[1..], n, k); }
  }

  /** On sorted streams the merge is the stable sort by time of the streams laid end to end. */
  lemma MergeIsStableSort(ss: seq<seq<Tagged>>)
    requires forall k :: 0 <= k < |ss| ==> KeySorted(ss[k])
    ensures MergeOf(ss) == StableSort(Concat(ss))
  {
    MergeIsSorted(ss);
    ConcatIsOrderly(ss);
    hide LexSorted, KeySorted, Orderly, MergeOf, StableSort, Concat;
    forall i: nat
      ensures LexSorted(StableSort(Concat(ss))) && Stream(MergeOf(ss), i) == Stream(StableSort(Concat(ss)), i)
    {
      StableSortSorts(Concat(ss), i);
      StreamOfConcat(ss, i);
      if i < |ss| {
        MergeKeepsStreams(ss, i);
      } else {
        MergeStreamsInRange(ss);
        StreamOutOfRange(MergeOf(ss), |ss|, i);
      }
    }
    StableSortSorts(Concat(ss), 0);
    SortedIsUnique(MergeOf(ss), StableSort(Concat(ss)));
  }

  // ----- batches -----

  type Batch = seq<Tagged>

  function Flatten(batches: seq<Batch>): seq<Tagged> {
    if batches == [] then [] else batches[0] + Flatten(batches[1..])
  }

  /** Pulls batches from a channel and hands out records one at a time. */
  class BatchedRx {
    var channel: seq<Batch>
    var cur: Batch

    constructor (channel: seq<Batch>)
      ensures Remaining() == Flatten(channel)
    {
      this.channel := channel;
      this.cur := [];
    }

    /** The records not handed out yet, whatever their batching. */
    ghost function Remaining(): seq<Tagged>
      reads this
    {
      cur + Flatten(channel)
    }

    method Next() returns (r: Option<Tagged>)
      modifies this
      ensures old(Remaining()) == [] ==> r.None? && Remaining() == []
      ensures old(Remaining()) != [] ==> r == Some(old(Remaining())[0]) && Remaining() == old(Remaining())[1..]
    {
      while true
        invariant Remaining() == old(Remaining())
        decreases |channel|
      {
        if cur != [] {
          r := Some(cur[0]);
          cur := cur[1..];
          return;
        }
        if channel == [] { return None; }
        cur := channel[0];
        channel := channel[1..];
      }
    }
  }

  // ----- the merge itself -----

  /** The entry that a heap of (time, stream) pairs gives up first. */
  predicate IsLeast(heap: set<(nat, nat)>, x: (nat, nat)) {
    x in heap && forall y :: y in heap ==> LexLeq(x, y)
  }

  lemma {:induction false} HasLeast(heap: set<(nat, nat)>)
    requires heap != {}
    ensures exists x :: IsLeast(heap, x)
    decreases |heap|
  {
    var x :| x in heap;
    if heap == {x} {
      assert IsLeast(heap, x);
    } else {
      var rest := heap - {x};
      assert heap == rest + {x};
      HasLeast(rest);
      var y :| IsLeast(rest, y);
      forall z | z in heap
        ensures LexLeq(x, y) ==> LexLeq(x, z)
        ensures !LexLeq(x, y) ==> LexLeq(y, z)
      {
        assert z == x || z in rest;
      }
      assert IsLeast(heap, x) || IsLeast(heap, y);
    }
  }

  /** What is left of a stream: the head in hand, then the channel. */
  function Pending(head: Option<Tagged>, rest: seq<Tagged>): seq<Tagged> {
    if head.Some? then [head.value] + rest else []
  }

  /** The heap holds exactly the (time, stream) of every head in hand. */
  ghost predicate HeapOk(heap: set<(nat, nat)>, heads: seq<Option<Tagged>>) {
    forall x :: x in heap <==> x.1 < |heads| && heads[x.1].Some? && x.0 == KeyOf(heads[x.1].value)
  }

  lemma HeapAdds(heap: set<(nat, nat)>, heads: seq<Option<Tagged>>, h: Option<Tagged>)
    requires HeapOk(heap, heads)
    ensures HeapOk(if h.Some? then heap + {(KeyOf(h.value), |heads|)} else heap, heads + [h])
  {}

  lemma HeapHasHead(heap: set<(nat, nat)>, heads: seq<Option<Tagged>>, x: (nat, nat))
    requires HeapOk(heap, heads) && x in heap
    ensures x.1 < |heads| && heads[x.1].Some?
  {}

  /** Swapping one head for the next of its stream, in the heap and in hand. */
  lemma HeapSwaps(heap: set<(nat, nat)>, heads: seq<Option<Tagged>>, x: (nat, nat), h: Option<Tagged>)
    requires HeapOk(heap, heads) && x in heap
    ensures HeapOk(if h.Some? then heap - {x} + {(KeyOf(h.value), x.1)} else heap - {x}, heads[x.1 := h])
  {}

  /** One step of the reference merge, as the sink sees it. */
  lemma DeliveredStep(ss: seq<seq<Tagged>>, i: nat)
    requires First(ss, 0) == Some(i)
    ensures var rec := ss[i][0].1;
            Delivered(MergeOf(ss)) == (if Sideband(rec) && i != 0 then [] else [rec])
              + Delivered(MergeOf(ss[i := ss[i][1..]]))
  {
    assert MergeOf(ss)[1..] == MergeOf(ss[i := ss[i][1..]]);
  }

  lemma LeastIsFirst(heap: set<(nat, nat)>, heads: seq<Option<Tagged>>, ss: seq<seq<Tagged>>, x: (nat, nat))
    requires HeapOk(heap, heads) && IsLeast(heap, x) && |ss| == |heads|
    requires forall k :: 0 <= k < |ss| ==>
               (ss[k] != [] <==> heads[k].Some?) && (heads[k].Some? ==> ss[k][0] == heads[k].value)
    ensures First(ss, 0) == Some(x.1)
  {
    var first := First(ss, 0);
    assert ss[x.1] != [];
    var i := first.value;
    assert (KeyOf(ss[i][0]), i) in heap;
  }

  lemma EmptyHeapIsDone(heap: set<(nat, nat)>, heads: seq<Option<Tagged>>, ss: seq<seq<Tagged>>)
    requires HeapOk(heap, heads) && heap == {} && |ss| == |heads|
    requires forall k :: 0 <= k < |ss| ==> (ss[k] != [] <==> heads[k].Some?)
    ensures Delivered(MergeOf(ss)) == []
  {
    if First(ss, 0).Some? {
      HeadIsInHeap(heap, heads, First(ss, 0).value);
      assert false;
    }
  }

  lemma HeadIsInHeap(heap: set<(nat, nat)>, heads: seq<Option<Tagged>>, i: nat)
    requires HeapOk(heap, heads) && i < |heads| && heads[i].Some?
    ensures heap != {}
  {
    assert (KeyOf(heads[i].value), i) in heap;
  }

  /** What the receivers and the heads in hand still hold. */
  ghost function Left(rxs: seq<BatchedRx>, heads: seq<Option<Tagged>>): (ss: seq<seq<Tagged>>)
    requires |heads| == |rxs|
    reads rxs
    ensures |ss| == |rxs| && forall k :: 0 <= k < |ss| ==> ss[k] == Pending(heads[k], rxs[k].Remaining())
  {
    seq(|rxs|, k requires 0 <= k < |rxs| reads rxs => Pending(heads[k], rxs[k].Remaining()))
  }

  ghost function AllRemaining(rxs: seq<BatchedRx>): (ss: seq<seq<Tagged>>)
    reads rxs
    ensures |ss| == |rxs| && forall k :: 0 <= k < |ss| ==> ss[k] == rxs[k].Remaining()
  {
    seq(|rxs|, k requires 0 <= k < |rxs| reads rxs => rxs[k].Remaining())
  }

  ghost predicate Distinct(rxs: seq<BatchedRx>) {
    forall i, j :: 0 <= i < j < |rxs| ==> rxs[i] != rxs[j]
  }

  /** A missing head means a drained channel. */
  ghost predicate Drained(rxs: seq<BatchedRx>, heads: seq<Option<Tagged>>)
    requires |heads| == |rxs|
    reads rxs
  {
    forall k :: 0 <= k < |rxs| && heads[k].None? ==> rxs[k].Remaining() == []
  }

  lemma PendingNext(h: Option<Tagged>, was: seq<Tagged>, rest: seq<Tagged>)
    requires was == [] ==> h.None? && rest == []
    requires was != [] ==> h == Some(was[0]) && rest == was[1..]
    ensures HeadTaken(h, was, rest)
  {}

  /** The head in hand and what follows are the stream as it was. */
  predicate HeadTaken(h: Option<Tagged>, was: seq<Tagged>, rest: seq<Tagged>) {
    Pending(h, rest) == was && (h.None? ==> rest == [])
  }

  /** Take the first record of every stream. */
  method TakeHeads(rxs: seq<BatchedRx>) returns (heads: seq<Option<Tagged>>, heap: set<(nat, nat)>)
    requires Distinct(rxs)
    modifies rxs
    ensures |heads| == |rxs| && HeapOk(heap, heads) && Drained(rxs, heads)
    ensures forall k :: 0 <= k < |rxs| ==> Pending(heads[k], rxs[k].Remaining()) == old(rxs[k].Remaining())
  {
    heads, heap := [], {};
    assert HeapOk(heap, heads);
    hide HeapOk, Flatten, Pending;
    ghost var was := AllRemaining(rxs);
    for i := 0 to |rxs|
      invariant |heads| == i && HeapOk(heap, heads)
      invariant forall k :: 0 <= k < i ==> HeadTaken(heads[k], was[k], rxs[k].Remaining())
      invariant forall k :: i <= k < |rxs| ==> rxs[k].Remaining() == was[k]
    {
      ghost var left := AllRemaining(rxs);
      var h := rxs[i].Next();
      PendingNext(h, was[i], rxs[i].Remaining());
      forall k | 0 <= k < |rxs| && k != i ensures rxs[k].Remaining() == left[k] {
        assert rxs[k] != rxs[i];
      }
      HeapAdds(heap, heads, h);
      heads := heads + [h];
      if h.Some? { heap := heap + {(KeyOf(h.value), i)}; }
    }
  }

  /** Pop the least head, deliver it, and refill from its stream. */
  method MergeStep(rxs: seq<BatchedRx>, heads: seq<Option<Tagged>>, heap: set<(nat, nat)>)
    returns (heads': seq<Option<Tagged>>, heap': set<(nat, nat)>, out: seq<Record>)
    requires Distinct(rxs) && |heads| == |rxs| && HeapOk(heap, heads) && Drained(rxs, heads) && heap != {}
    modifies rxs
    ensures |heads'| == |rxs| && HeapOk(heap', heads') && Drained(rxs, heads')
    ensures out + Delivered(MergeOf(Left(rxs, heads'))) == Delivered(MergeOf(old(Left(rxs, heads))))
    ensures Total(Left(rxs, heads')) < Total(old(Left(rxs, heads))) && |out| <= 1
  {
    hide MergeOf, Delivered, Total, First, HeapOk, Flatten, LexLeq, Sideband;
    ghost var before := Left(rxs, heads);
    HasLeast(heap);
    var top :| top in heap && IsLeast(heap, top);
    HeapHasHead(heap, heads, top);
    LeastIsFirst(heap, heads, before, top);
    var i := top.1;
    TotalDrops(before, i);
    DeliveredStep(before, i);
    var rec := heads[i].value.1;
    out := if Sideband(rec) && i != 0 then [] else [rec];
    heads', heap' := Refill(rxs, heads, heap, top);
  }

  /** Replace the popped head by the next record of its stream, if there is one. */
  method Refill(rxs: seq<BatchedRx>, heads: seq<Option<Tagged>>, heap: set<(nat, nat)>, top: (nat, nat))
    returns (heads': seq<Option<Tagged>>, heap': set<(nat, nat)>)
    requires Distinct(rxs) && |heads| == |rxs| && HeapOk(heap, heads) && Drained(rxs, heads) && top in heap
    requires top.1 < |rxs| && heads[top.1].Some?
    modifies rxs
    ensures |heads'| == |rxs| && HeapOk(heap', heads') && Drained(rxs, heads')
    ensures var i := top.1; Left(rxs, heads') == old(Left(rxs, heads))[i := old(Left(rxs, heads))[i][1..]]
  {
    hide HeapOk, Flatten;
    var i := top.1;
    ghost var before, rest := Left(rxs, heads), rxs[i].Remaining();
    assert before[i][1..] == rest;
    hide Pending;
    var next := rxs[i].Next();
    PendingNext(next, rest, rxs[i].Remaining());
    ghost var after := before[i := rest];
    HeapSwaps(heap, heads, top, next);
    heap' := heap - {top};
    heads' := heads[i := next];
    if next.Some? { heap' := heap' + {(KeyOf(next.value), i)}; }
    forall k | 0 <= k < |rxs|
      ensures Left(rxs, heads')[k] == after[k]
    {
      if k != i { assert rxs[k] != rxs[i]; }
    }
    assert Left(rxs, heads') == after;
  }

  /** What the sink has seen: everything, or, if it fails, as much as it accepts. */
  predicate SinkSaw(all: seq<Record>, failing: Option<nat>, ok: bool, out: seq<Record>) {
    && (ok <==> failing.None? || |all| <= failing.value)
    && out == if ok then all else all[..failing.value]
  }

  lemma SinkFails(out: seq<Record>, some: seq<Record>, rest: seq<Record>, was: seq<Record>, all: seq<Record>,
                  failing: Option<nat>)
    requires out + was == all && some + rest == was && some != [] && failing == Some(|out|)
    ensures SinkSaw(all, failing, false, out)
  {
    assert |all| > |out| && all[..|out|] == out;
  }

  lemma SinkAccepts(out: seq<Record>, some: seq<Record>, rest: seq<Record>, was: seq<Record>, all: seq<Record>,
                    failing: Option<nat>)
    requires out + was == all && some + rest == was && |some| <= 1
    requires Accepted(out, failing) && (some == [] || failing != Some(|out|))
    ensures out + some + rest == all && Accepted(out + some, failing)
  {}

  predicate Accepted(out: seq<Record>, failing: Option<nat>) { failing.Some? ==> |out| <= failing.value }

  lemma SinkDone(out: seq<Record>, failing: Option<nat>)
    requires Accepted(out, failing)
    ensures SinkSaw(out, failing, true, out)
  {}

  /**
   * For any batching, the sink receives the delivered part of the reference merge, and no head
   * is ever missing. A sink that fails after `failing` records ends the merge there.
   */
  method MergeRecords(rxs: seq<BatchedRx>, failing: Option<nat>) returns (ok: bool, out: seq<Record>)
    requires Distinct(rxs)
    modifies rxs
    ensures SinkSaw(Delivered(MergeOf(old(AllRemaining(rxs)))), failing, ok, out)
  {
    hide MergeOf, Delivered, Total, First, HeapOk, Flatten, Sideband, SinkSaw, Accepted;
    ghost var all := Delivered(MergeOf(AllRemaining(rxs)));
    var heads, heap := TakeHeads(rxs);
    ok, out := true, [];
    assert Left(rxs, heads) == old(AllRemaining(rxs));
    NoneYet(failing);
    while heap != {}
      invariant ok && |heads| == |rxs| && HeapOk(heap, heads) && Drained(rxs, heads)
      invariant out + Delivered(MergeOf(Left(rxs, heads))) == all && Accepted(out, failing)
      decreases Total(Left(rxs, heads))
    {
      ghost var was := Delivered(MergeOf(Left(rxs, heads)));
      var some;
      heads, heap, some := MergeStep(rxs, heads, heap);
      ghost var rest := Delivered(MergeOf(Left(rxs, heads)));
      if some != [] && failing == Some(|out|) {
        SinkFails(out, some, rest, was, all, failing);
        return false, out;
      }
      SinkAccepts(out, some, rest, was, all, failing);
      out := out + some;
    }
    EmptyHeapIsDone(heap, heads, Left(rxs, heads));
    assert out == all;
    SinkDone(out, failing);
  }

  lemma NoneYet(failing: Option<nat>)
    ensures Accepted([], failing)
  {}

  // ----- what is delivered, stream by stream -----

  /** The entries that reach the sink. */
  function Passed(entries: seq<Entry>): seq<Entry> {
    if entries == [] then []
    else (if Sideband(entries[0].1.1) && entries[0].0 != 0 then [] else [entries[0]]) + Passed(entries[1..])
  }

  function RecordsOf(entries: seq<Entry>): (rs: seq<Record>)
    ensures |rs| == |entries| && forall k :: 0 <= k < |rs| ==> rs[k] == entries[k].1.1
  {
    seq(|entries|, k requires 0 <= k < |entries| => entries[k].1.1)
  }

  /** What a later stream says of the trace itself: its samples and its decoder errors. */
  function Decoded(ts: seq<Tagged>): seq<Tagged> {
    if ts == [] then []
    else (if ts[0].1.SampleRecord? || ts[0].1.DecoderErrorRecord? then [ts[0]] else []) + Decoded(ts[1..])
  }

  lemma RecordsOfMore(some: seq<Entry>, more: seq<Entry>)
    ensures RecordsOf(some + more) == RecordsOf(some) + RecordsOf(more)
    ensures some == [] ==> RecordsOf(some) == []
    ensures |some| == 1 ==> RecordsOf(some) == [some[0].1.1]
  {}

  lemma {:induction false} PassedRecords(entries: seq<Entry>)
    ensures RecordsOf(Passed(entries)) == Delivered(entries)
  {
    if entries != [] {
      var e, rest := entries[0], entries[1..];
      PassedRecords(rest);
      RecordsOfMore(if Sideband(e.1.1) && e.0 != 0 then [] else [e], Passed(rest));
    }
  }

  lemma DecodedMore(t: Tagged, ts: seq<Tagged>)
    ensures Decoded([t] + ts) == (if Sideband(t.1) then [] else [t]) + Decoded(ts)
  {
    assert ([t] + ts)[1..] == ts;
  }

  lemma {:induction false} PassedStream(entries: seq<Entry>, i: nat)
    ensures Stream(Passed(entries), i) == if i == 0 then Stream(entries, 0) else Decoded(Stream(entries, i))
  {
    if entries != [] {
      var e, rest := entries[0], entries[1..];
      PassedStream(rest, i);
      var head := if Sideband(e.1.1) && e.0 != 0 then [] else [e];
      assert Passed(entries) == head + Passed(rest);
      StreamAppend(head, Passed(rest), i);
      StreamOne(e, i);
      if e.0 == i {
        assert Stream(entries, i) == [e.1] + Stream(rest, i);
        DecodedMore(e.1, Stream(rest, i));
      } else {
        assert Stream(head, i) == [] && [] + Stream(Passed(rest), i) == Stream(Passed(rest), i);
        assert Stream(entries, i) == Stream(rest, i);
      }
    }
  }

  /**
   * Of the first stream everything is delivered, of every other exactly its samples and decoder errors, each
   * in order.
   */
  lemma DeliveredStreams(ss: seq<seq<Tagged>>)
    ensures var passed := Passed(MergeOf(ss));
            && Delivered(MergeOf(ss)) == RecordsOf(passed)
            && forall i :: 0 <= i < |ss| ==> Stream(passed, i) == if i == 0 then ss[0] else Decoded(ss[i])
  {
    PassedRecords(MergeOf(ss));
    forall i | 0 <= i < |ss| ensures Stream(Passed(MergeOf(ss)), i) == if i == 0 then ss[0] else Decoded(ss[i]) {
      PassedStream(MergeOf(ss), i);
      MergeKeepsStreams(ss, i);
    }
  }
}
