/**
 * Self time is the part of a span that no child covers, and over any wholly
 * measured call tree the self times add up to the root's inclusive time.
 */
module SelfTime {
  import opened TraceTypes
  import opened Laminar

  /** [start, end) in nanoseconds. */
  type Interval = (nat, nat)

  function InclusiveElapsed(s: Span): Option<nat> {
    if s.completeness != Complete || s.end.None? || s.start.None? then None
    else Some(if s.end.value < s.start.value then 0 else s.end.value - s.start.value)
  }

  // ----- counting instants -----

  ghost predicate Covers(iv: seq<Interval>, t: nat) {
    exists i :: 0 <= i < |iv| && iv[i].0 <= t < iv[i].1
  }

  /** How many instants of [lo, hi) lie in none of the intervals. */
  ghost function Uncovered(iv: seq<Interval>, lo: nat, hi: nat): nat
    decreases hi - lo
  {
    if hi <= lo then 0 else Uncovered(iv, lo, hi - 1) + (if Covers(iv, hi - 1) then 0 else 1)
  }

  lemma {:induction false} UncoveredDepends(iv: seq<Interval>, jv: seq<Interval>, lo: nat, hi: nat)
    requires forall t: nat :: lo <= t < hi ==> (Covers(iv, t) <==> Covers(jv, t))
    ensures Uncovered(iv, lo, hi) == Uncovered(jv, lo, hi)
    decreases hi - lo
  {
    if lo < hi { UncoveredDepends(iv, jv, lo, hi - 1); }
  }

  lemma {:induction false} UncoveredSplit(iv: seq<Interval>, lo: nat, mid: nat, hi: nat)
    requires lo <= mid <= hi
    ensures Uncovered(iv, lo, hi) == Uncovered(iv, lo, mid) + Uncovered(iv, mid, hi)
    decreases hi - mid
  {
    if mid < hi { UncoveredSplit(iv, lo, mid, hi - 1); }
  }

  lemma {:induction false} NoneCovered(iv: seq<Interval>, lo: nat, hi: nat)
    requires lo <= hi && forall t: nat :: lo <= t < hi ==> !Covers(iv, t)
    ensures Uncovered(iv, lo, hi) == hi - lo
    decreases hi - lo
  {
    if lo < hi { NoneCovered(iv, lo, hi - 1); }
  }

  lemma {:induction false} AllCovered(iv: seq<Interval>, lo: nat, hi: nat)
    requires forall t: nat :: lo <= t < hi ==> Covers(iv, t)
    ensures Uncovered(iv, lo, hi) == 0
    decreases hi - lo
  {
    if lo < hi { AllCovered(iv, lo, hi - 1); }
  }

  lemma CoversAppend(iv: seq<Interval>, x: Interval, t: nat)
    ensures Covers(iv + [x], t) <==> Covers(iv, t) || x.0 <= t < x.1
  {
    if Covers(iv, t) {
      var i :| 0 <= i < |iv| && iv[i].0 <= t < iv[i].1;
      assert (iv + [x])[i] == iv[i];
    }
    if x.0 <= t < x.1 { assert (iv + [x])[|iv|] == x; }
    if Covers(iv + [x], t) {
      var i :| 0 <= i < |iv + [x]| && (iv + [x])[i].0 <= t < (iv + [x])[i].1;
      if i < |iv| { assert iv[i] == (iv + [x])[i]; }
    }
  }

  // ----- clamping and sorting -----

  predicate Before(a: Interval, b: Interval) {
    a.0 < b.0 || (a.0 == b.0 && a.1 <= b.1)
  }

  ghost predicate Sorted(iv: seq<Interval>) {
    forall i, j :: 0 <= i < j < |iv| ==> Before(iv[i], iv[j])
  }

  /** The order that `sort_unstable` establishes on pairs. */
  function Insert(iv: seq<Interval>, x: Interval): seq<Interval> {
    if iv == [] || Before(iv[|iv| - 1], x) then iv + [x]
    else Insert(iv[..|iv| - 1], x) + [iv[|iv| - 1]]
  }

  function Sort(iv: seq<Interval>): seq<Interval> {
    if iv == [] then [] else Insert(Sort(iv[..|iv| - 1]), iv[|iv| - 1])
  }

  lemma {:induction false} InsertSorts(iv: seq<Interval>, x: Interval)
    requires Sorted(iv)
    ensures Sorted(Insert(iv, x)) && forall y :: y in Insert(iv, x) <==> y in iv || y == x
  {
    if iv == [] || Before(iv[|iv| - 1], x) {
      assert forall i :: 0 <= i < |iv| ==> Before(iv[i], x);
    } else {
      var init, last := iv[..|iv| - 1], iv[|iv| - 1];
      InsertSorts(init, x);
      var t := Insert(init, x);
      forall i | 0 <= i < |t|
        ensures Before(t[i], last)
      {
        assert t[i] in t;
      }
      assert iv == init + [last];
    }
  }

  lemma {:induction false} SortSorts(iv: seq<Interval>)
    ensures Sorted(Sort(iv)) && forall y :: y in Sort(iv) <==> y in iv
  {
    if iv != [] {
      SortSorts(iv[..|iv| - 1]);
      InsertSorts(Sort(iv[..|iv| - 1]), iv[|iv| - 1]);
      assert iv == iv[..|iv| - 1] + [iv[|iv| - 1]];
    }
  }

  function Max(a: nat, b: nat): nat { if a < b then b else a }

  lemma SameMembersCover(iv: seq<Interval>, jv: seq<Interval>, t: nat)
    requires forall y :: y in iv <==> y in jv
    ensures Covers(iv, t) <==> Covers(jv, t)
  {
    if Covers(iv, t) {
      var i :| 0 <= i < |iv| && iv[i].0 <= t < iv[i].1;
      assert iv[i] in jv;
    }
    if Covers(jv, t) {
      var i :| 0 <= i < |jv| && jv[i].0 <= t < jv[i].1;
      assert jv[i] in iv;
    }
  }

  // ----- the sweep -----

  /** The sweep has counted the prefix `done`, reaching `cur`. */
  ghost predicate Swept(done: seq<Interval>, lo: nat, hi: nat, cur: nat, union: nat) {
    && lo <= cur <= hi
    && (forall i :: 0 <= i < |done| ==> lo <= done[i].0 < done[i].1 <= cur)
    && (cur == lo || exists i :: 0 <= i < |done| && done[i].1 == cur)
    && union + Uncovered(done, lo, hi) == hi - lo
  }

  lemma SweepStep(done: seq<Interval>, x: Interval, lo: nat, hi: nat, cur: nat, union: nat)
    requires Swept(done, lo, hi, cur, union) && Sorted(done + [x]) && lo <= x.0 < x.1 <= hi
    ensures var s := Max(x.0, cur);
            if x.1 > s then Swept(done + [x], lo, hi, x.1, union + (x.1 - s)) else Swept(done + [x], lo, hi, cur, union)
  {
    var s := Max(x.0, cur);
    var e := Max(x.1, cur);
    var next := done + [x];
    assert next[|done|] == x;
    forall t: nat
      ensures Covers(next, t) <==> Covers(done, t) || x.0 <= t < x.1
    {
      CoversAppend(done, x, t);
    }
    // before s nothing changes, because [x.0, cur) is covered already
    forall t: nat | lo <= t < s && x.0 <= t < x.1
      ensures Covers(done, t)
    {
      var i :| 0 <= i < |done| && done[i].1 == cur;
      assert Before(next[i], next[|done|]);
    }
    UncoveredDepends(done, next, lo, s);
    UncoveredSplit(done, lo, s, hi);
    UncoveredSplit(next, lo, s, hi);
    if x.1 > s {
      UncoveredSplit(done, s, x.1, hi);
      UncoveredSplit(next, s, x.1, hi);
      NoneCovered(done, s, x.1);
      AllCovered(next, s, x.1);
      UncoveredDepends(done, next, x.1, hi);
    } else {
      UncoveredDepends(done, next, s, hi);
      if cur != lo {
        var i :| 0 <= i < |done| && done[i].1 == cur;
        assert next[i].1 == cur;
      }
    }
  }

  function Clamp(child: Interval, lo: nat, hi: nat): Interval {
    (Max(child.0, lo), Min(child.1, hi))
  }

  /** The children cut down to the parent, empty pieces dropped. */
  method ClampChildren(lo: nat, hi: nat, children: seq<Interval>) returns (iv: seq<Interval>)
    ensures forall i :: 0 <= i < |iv| ==> lo <= iv[i].0 < iv[i].1 <= hi
    ensures forall t: nat :: lo <= t < hi ==> (Covers(iv, t) <==> Covers(children, t))
  {
    iv := [];
    for k := 0 to |children|
      invariant forall i :: 0 <= i < |iv| ==> lo <= iv[i].0 < iv[i].1 <= hi
      invariant forall t: nat :: lo <= t < hi ==> (Covers(iv, t) <==> Covers(children[..k], t))
    {
      var c := Clamp(children[k], lo, hi);
      var next := if c.1 > c.0 then iv + [c] else iv;
      assert children[..k + 1] == children[..k] + [children[k]];
      forall t: nat | lo <= t < hi
        ensures Covers(next, t) <==> Covers(children[..k + 1], t)
      {
        CoversAppend(children[..k], children[k], t);
        CoversAppend(iv, c, t);
      }
      iv := next;
    }
    assert children[..|children|] == children;
  }

  /** Self time: exactly the instants of the parent that no child covers. */
  method SelfElapsed(lo: nat, hi: nat, children: seq<Interval>, certain: bool) returns (r: Option<nat>)
    ensures r == if !certain || hi < lo then None else Some(Uncovered(children, lo, hi))
  {
    if !certain || hi < lo { return None; }
    var iv := ClampChildren(lo, hi, children);
    var sorted := Sort(iv);
    SortSorts(iv);
    SortKeepsUncovered(iv, children, lo, hi);
    hide Sort, Uncovered, Sorted;
    forall k | 0 <= k < |sorted| ensures lo <= sorted[k].0 < sorted[k].1 <= hi {
      assert sorted[k] in iv;
    }
    var union := Sweep(sorted, lo, hi);
    return Some(hi - lo - union);
  }

  /** The length of the union of sorted intervals, kept up with one running end. */
  method Sweep(sorted: seq<Interval>, lo: nat, hi: nat) returns (union: nat)
    requires lo <= hi && Sorted(sorted) && forall k :: 0 <= k < |sorted| ==> lo <= sorted[k].0 < sorted[k].1 <= hi
    ensures union <= hi - lo && Uncovered(sorted, lo, hi) == hi - lo - union
  {
    hide Swept, Sorted, Uncovered;
    union := 0;
    var cur := lo;
    SweepStart(lo, hi);
    for k := 0 to |sorted|
      invariant Swept(sorted[..k], lo, hi, cur, union)
    {
      var (s0, e) := sorted[k];
      assert sorted[..k + 1] == sorted[..k] + [sorted[k]];
      SortedPrefix(sorted, k + 1);
      SweepStep(sorted[..k], sorted[k], lo, hi, cur, union);
      var s := Max(s0, cur);
      if e > s {
        union := union + (e - s);
        cur := e;
      }
    }
    assert sorted[..|sorted|] == sorted;
    SweepEnd(sorted, lo, hi, cur, union);
  }

  lemma SweepStart(lo: nat, hi: nat)
    requires lo <= hi
    ensures Swept([], lo, hi, lo, 0)
  {
    NoneCovered([], lo, hi);
  }

  lemma SweepEnd(done: seq<Interval>, lo: nat, hi: nat, cur: nat, union: nat)
    requires Swept(done, lo, hi, cur, union)
    ensures union + Uncovered(done, lo, hi) == hi - lo
  {}

  lemma SortedPrefix(iv: seq<Interval>, k: nat)
    requires Sorted(iv) && k <= |iv|
    ensures Sorted(iv[..k])
  {}

  lemma SortKeepsUncovered(iv: seq<Interval>, children: seq<Interval>, lo: nat, hi: nat)
    requires forall t: nat :: lo <= t < hi ==> (Covers(iv, t) <==> Covers(children, t))
    ensures Uncovered(Sort(iv), lo, hi) == Uncovered(children, lo, hi)
  {
    SortSorts(iv);
    forall t: nat
      ensures Covers(Sort(iv), t) <==> Covers(iv, t)
    {
      SameMembersCover(Sort(iv), iv, t);
    }
    UncoveredDepends(Sort(iv), children, lo, hi);
  }

  // ----- whole trees -----

  function Length(iv: Interval): nat {
    if iv.1 < iv.0 then 0 else iv.1 - iv.0
  }

  function TotalLength(iv: seq<Interval>): nat {
    if iv == [] then 0 else TotalLength(iv[..|iv| - 1]) + Length(iv[|iv| - 1])
  }

  /** Intervals inside [lo, hi), one after the other. */
  ghost predicate Laid(iv: seq<Interval>, lo: nat, hi: nat) {
    && (forall i :: 0 <= i < |iv| ==> lo <= iv[i].0 <= iv[i].1 <= hi)
    && (forall i, j :: 0 <= i < j < |iv| ==> iv[i].1 <= iv[j].0)
  }

  /** Disjoint children take from their parent exactly the sum of their lengths. */
  lemma {:induction false} LaidUncovered(iv: seq<Interval>, lo: nat, hi: nat)
    requires lo <= hi && Laid(iv, lo, hi)
    ensures Uncovered(iv, lo, hi) + TotalLength(iv) == hi - lo
  {
    if iv == [] {
      NoneCovered(iv, lo, hi);
    } else {
      var init, x := iv[..|iv| - 1], iv[|iv| - 1];
      LaidUncovered(init, lo, hi);
      assert iv == init + [x];
      forall t: nat
        ensures Covers(iv, t) <==> Covers(init, t) || x.0 <= t < x.1
      {
        CoversAppend(init, x, t);
      }
      UncoveredSplit(init, lo, x.0, hi);
      UncoveredSplit(init, x.0, x.1, hi);
      UncoveredSplit(iv, lo, x.0, hi);
      UncoveredSplit(iv, x.0, x.1, hi);
      UncoveredDepends(init, iv, lo, x.0);
      UncoveredDepends(init, iv, x.1, hi);
      NoneCovered(init, x.0, x.1);
      AllCovered(iv, x.0, x.1);
    }
  }

  /** The spans below index `n` whose parent is `p`, in id order: what `child_index` lists. */
  function Kids(spans: seq<Span>, p: nat, n: nat): (kids: seq<nat>)
    requires n <= |spans|
    ensures forall i :: 0 <= i < |kids| ==> kids[i] < n && spans[kids[i]].parent == Some(p)
    ensures forall i, j :: 0 <= i < j < |kids| ==> kids[i] < kids[j]
    ensures forall c: nat :: c < n && spans[c].parent == Some(p) ==> c in kids
  {
    if n == 0 then []
    else Kids(spans, p, n - 1) + (if spans[n - 1].parent == Some(p) then [n - 1] else [])
  }

  /** Rows as `finish` returns them: dense ids, parents before children, laminar. */
  ghost predicate TreeRows(spans: seq<Span>) {
    && (forall i :: 0 <= i < |spans| ==> spans[i].id == i && (spans[i].parent.Some? ==> spans[i].parent.value < i))
    && Nested(spans)
  }

  function IntervalOf(s: Span): Interval
    requires Timed(s)
  {
    (s.start.value, s.end.value)
  }

  function Intervals(spans: seq<Span>, kids: seq<nat>): (iv: seq<Interval>)
    requires forall i :: 0 <= i < |kids| ==> kids[i] < |spans| && Timed(spans[kids[i]])
    ensures |iv| == |kids| && forall i :: 0 <= i < |iv| ==> iv[i] == IntervalOf(spans[kids[i]])
  {
    seq(|kids|, i requires 0 <= i < |kids| => IntervalOf(spans[kids[i]]))
  }

  /** The span and everything below it can be measured. */
  ghost predicate Measured(spans: seq<Span>, i: nat)
    requires TreeRows(spans) && i < |spans|
    ensures Measured(spans, i) ==> Timed(spans[i])
    decreases |spans| - i
  {
    var kids := Kids(spans, i, |spans|);
    Timed(spans[i]) && forall k :: 0 <= k < |kids| ==> i < kids[k] && Measured(spans, kids[k])
  }

  /** The self time that the aggregation computes for a measured span. */
  ghost function SelfOf(spans: seq<Span>, i: nat): nat
    requires TreeRows(spans) && i < |spans| && Measured(spans, i)
  {
    Uncovered(Intervals(spans, Kids(spans, i, |spans|)), spans[i].start.value, spans[i].end.value)
  }

  /** The self times of a measured span and of all its descendants. */
  ghost function TreeSelf(spans: seq<Span>, i: nat): nat
    requires TreeRows(spans) && i < |spans| && Measured(spans, i)
    decreases |spans| - i, 1, 0
  {
    SelfOf(spans, i) + ForestSelf(spans, i, Kids(spans, i, |spans|))
  }

  ghost function ForestSelf(spans: seq<Span>, p: nat, kids: seq<nat>): nat
    requires TreeRows(spans) && p < |spans|
    requires forall i :: 0 <= i < |kids| ==> p < kids[i] < |spans| && Timed(spans[kids[i]]) && Measured(spans, kids[i])
    decreases |spans| - p, 0, |kids|
  {
    if kids == [] then 0
    else ForestSelf(spans, p, kids[..|kids| - 1]) + TreeSelf(spans, kids[|kids| - 1])
  }

  lemma StartsFirst(spans: seq<Span>, i: nat)
    requires TreeRows(spans) && i < |spans| && Timed(spans[i])
    ensures spans[i].start.value <= spans[i].end.value
  {}

  /** Conservation: over a measured tree, self times sum to the inclusive time of the root. */
  lemma {:induction false} SelfTimeConserved(spans: seq<Span>, i: nat)
    requires TreeRows(spans) && i < |spans| && Measured(spans, i)
    ensures InclusiveElapsed(spans[i]) == Some(TreeSelf(spans, i))
    decreases |spans| - i, 1, 0
  {
    hide TreeRows, Uncovered, Kids, Laid, TotalLength;
    var kids := Kids(spans, i, |spans|);
    StartsFirst(spans, i);
    assert AllTimed(spans, kids);
    TimedKidsAreLaid(spans, i);
    LaidUncovered(Intervals(spans, kids), spans[i].start.value, spans[i].end.value);
    ForestConserved(spans, i, kids);
  }

  lemma {:induction false} ForestConserved(spans: seq<Span>, p: nat, kids: seq<nat>)
    requires TreeRows(spans) && p < |spans|
    requires forall i :: 0 <= i < |kids| ==> p < kids[i] < |spans| && Timed(spans[kids[i]]) && Measured(spans, kids[i])
    ensures TotalLength(Intervals(spans, kids)) == ForestSelf(spans, p, kids)
    decreases |spans| - p, 0, |kids|
  {
    hide Nested, Measured, TreeSelf;
    if kids != [] {
      var init, k := kids[..|kids| - 1], kids[|kids| - 1];
      ForestConserved(spans, p, init);
      SelfTimeConserved(spans, k);
      assert Intervals(spans, kids)[..|kids| - 1] == Intervals(spans, init);
    }
  }

  // ----- as the aggregation finds it -----

  /** The children of every span that has any. */
  ghost predicate Indexed(spans: seq<Span>, n: nat, children: map<nat, seq<nat>>)
    requires n <= |spans|
  {
    forall p: nat :: Kids(spans, p, n) == if p in children then children[p] else []
  }

  method ChildIndex(spans: seq<Span>) returns (children: map<nat, seq<nat>>)
    requires forall i :: 0 <= i < |spans| ==> spans[i].id == i
    ensures Indexed(spans, |spans|, children)
  {
    hide Indexed;
    children := map[];
    NothingIndexed(spans);
    for n := 0 to |spans|
      invariant Indexed(spans, n, children)
    {
      var s := spans[n];
      OneMoreIndexed(spans, n, children);
      if s.parent.Some? {
        var p := s.parent.value;
        children := children[p := (if p in children then children[p] else []) + [s.id]];
      }
    }
  }

  lemma NothingIndexed(spans: seq<Span>)
    ensures Indexed(spans, 0, map[])
  {}

  lemma OneMoreIndexed(spans: seq<Span>, n: nat, children: map<nat, seq<nat>>)
    requires n < |spans| && Indexed(spans, n, children)
    ensures match spans[n].parent
            case None => Indexed(spans, n + 1, children)
            case Some(p) => Indexed(spans, n + 1, children[p := (if p in children then children[p] else []) + [n]])
  {
    forall p: nat ensures Kids(spans, p, n + 1) == Kids(spans, p, n) + if spans[n].parent == Some(p) then [n] else [] {}
    hide Kids;
  }

  predicate AllTimed(spans: seq<Span>, kids: seq<nat>)
    requires forall k :: 0 <= k < |kids| ==> kids[k] < |spans|
  {
    forall k :: 0 <= k < |kids| ==> Timed(spans[kids[k]])
  }

  /** The children's intervals, as long as all are known. */
  method KnownIntervals(spans: seq<Span>, kids: seq<nat>) returns (iv: seq<Interval>, certain: bool)
    requires forall k :: 0 <= k < |kids| ==> kids[k] < |spans|
    ensures certain <==> AllTimed(spans, kids)
    ensures certain ==> iv == Intervals(spans, kids)
  {
    iv := [];
    for k := 0 to |kids|
      invariant |iv| == k && forall j :: 0 <= j < k ==> Timed(spans[kids[j]]) && iv[j] == IntervalOf(spans[kids[j]])
    {
      if !Timed(spans[kids[k]]) { return iv, false; }
      iv := iv + [IntervalOf(spans[kids[k]])];
    }
    return iv, true;
  }

  /** Self time of one row: unknown if a child's interval is, else the instants that no child covers. */
  method SelfOfRow(spans: seq<Span>, i: nat, children: map<nat, seq<nat>>) returns (r: Option<nat>)
    requires i < |spans| && Indexed(spans, |spans|, children)
    ensures r == RowSelf(spans, i)
  {
    if !Timed(spans[i]) { return None; }
    var kids := if i in children then children[i] else [];
    assert kids == Kids(spans, i, |spans|);
    hide Indexed, Kids, Uncovered, Intervals;
    var iv, certain := KnownIntervals(spans, kids);
    r := SelfElapsed(spans[i].start.value, spans[i].end.value, iv, certain);
  }

  ghost function RowSelf(spans: seq<Span>, i: nat): Option<nat>
    requires i < |spans|
  {
    var kids := Kids(spans, i, |spans|);
    if !Timed(spans[i]) || spans[i].end.value < spans[i].start.value || !AllTimed(spans, kids) then None
    else Some(Uncovered(Intervals(spans, kids), spans[i].start.value, spans[i].end.value))
  }

  /**
   * A row of a returned analysis has a self time exactly if it and its children are timed; then it is what
   * its children leave.
   */
  lemma RowSelfIs(spans: seq<Span>, i: nat)
    requires TreeRows(spans) && i < |spans|
    ensures var kids := Kids(spans, i, |spans|);
            && (RowSelf(spans, i).Some? <==> Timed(spans[i]) && AllTimed(spans, kids))
            && (RowSelf(spans, i).Some? ==>
                  RowSelf(spans, i).value + TotalLength(Intervals(spans, kids))
                    == spans[i].end.value - spans[i].start.value)
            && (Measured(spans, i) ==> RowSelf(spans, i) == Some(SelfOf(spans, i)))
  {
    hide Uncovered, Laid, TotalLength, Nested;
    var kids := Kids(spans, i, |spans|);
    if Timed(spans[i]) {
      StartsFirst(spans, i);
      if AllTimed(spans, kids) {
        TimedKidsAreLaid(spans, i);
        LaidUncovered(Intervals(spans, kids), spans[i].start.value, spans[i].end.value);
      }
    }
  }

  /** The children of a span are laid out inside it. */
  lemma TimedKidsAreLaid(spans: seq<Span>, p: nat)
    requires TreeRows(spans) && p < |spans| && Timed(spans[p])
    requires AllTimed(spans, Kids(spans, p, |spans|))
    ensures Laid(Intervals(spans, Kids(spans, p, |spans|)), spans[p].start.value, spans[p].end.value)
  {}
}
