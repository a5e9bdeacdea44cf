/**
 * Threads do not interfere: what a run holds of one thread is what pushing that
 * thread's samples alone would give, with ids and events renumbered.  So any
 * interleaving of printed forests rebuilds every one of them.
 */
module NonInterference {
  import opened TraceTypes
  import opened Machine
  import opened Symbols
  import opened Recon
  import opened Runs
  import opened RoundTrip
  import opened Results
  import opened EndToEnd
  import opened Jumps
  import opened Interleaving
  import ZeroTimes

  // ----- the samples of one thread -----

  /** The samples of thread `k` among the first `n`. */
  function Lane(xs: seq<Sample>, n: nat, k: Key): (ys: seq<Sample>)
    requires n <= |xs|
    ensures forall q :: 0 <= q < |ys| ==> KeyOf(ys[q]) == k
  {
    if n == 0 then []
    else Lane(xs, n - 1, k) + if KeyOf(xs[n - 1]) == k then [xs[n - 1]] else []
  }

  /** Where position `n` falls within the thread's own samples. */
  function Rank(xs: seq<Sample>, n: nat, k: Key): nat
    requires n <= |xs|
  {
    |Lane(xs, n, k)|
  }

  lemma {:induction false} LaneGrows(xs: seq<Sample>, m: nat, n: nat, k: Key)
    requires m <= n <= |xs|
    ensures Lane(xs, m, k) <= Lane(xs, n, k)
    decreases n - m
  {
    if m < n { LaneGrows(xs, m + 1, n, k); }
  }

  lemma RankedSample(xs: seq<Sample>, i: nat, n: nat, k: Key)
    requires i < n <= |xs| && KeyOf(xs[i]) == k
    ensures Rank(xs, i, k) < Rank(xs, n, k) && Rank(xs, i + 1, k) == Rank(xs, i, k) + 1
    ensures Lane(xs, n, k)[Rank(xs, i, k)] == xs[i]
  {
    LaneGrows(xs, i + 1, n, k);
    assert Lane(xs, i + 1, k) == Lane(xs, i, k) + [xs[i]];
  }

  /** The position of the thread's q-th sample. */
  function Place(xs: seq<Sample>, n: nat, k: Key, q: nat): (i: nat)
    requires n <= |xs| && q < Rank(xs, n, k)
    ensures i < n && KeyOf(xs[i]) == k && Rank(xs, i, k) == q
  {
    if KeyOf(xs[n - 1]) == k && q == Rank(xs, n - 1, k) then n - 1 else Place(xs, n - 1, k, q)
  }

  function Ranks(xs: seq<Sample>, o: seq<nat>, k: Key): (rs: seq<nat>)
    requires forall i :: 0 <= i < |o| ==> o[i] <= |xs|
    ensures |rs| == |o| && forall i :: 0 <= i < |o| ==> rs[i] == Rank(xs, o[i], k)
  {
    seq(|o|, i requires 0 <= i < |o| => Rank(xs, o[i], k))
  }

  /** The open calls of a thread behind one more sample of it, at position `n`. */
  function OneMore(o: seq<nat>, s: Sample, n: nat): seq<nat> {
    if IsCall(s) then o + [n] else if IsReturn(s) && o != [] then o[..|o| - 1] else o
  }

  lemma OpenOwn(xs: seq<Sample>, n: nat, k: Key)
    requires n < |xs|
    ensures Open(xs, n + 1, k) == if KeyOf(xs[n]) == k then OneMore(Open(xs, n, k), xs[n], n) else Open(xs, n, k)
  {
    hide FlagsKind;
  }

  lemma RanksOneMore(xs: seq<Sample>, o: seq<nat>, s: Sample, n: nat, k: Key)
    requires n <= |xs| && forall i :: 0 <= i < |o| ==> o[i] <= |xs|
    ensures Ranks(xs, OneMore(o, s, n), k) == OneMore(Ranks(xs, o, k), s, Rank(xs, n, k))
  {
    hide Lane, IsCall, IsReturn;
  }

  /** The thread's open calls are those of its own samples. */
  lemma {:induction false} OpenInLane(xs: seq<Sample>, n: nat, k: Key)
    requires n <= |xs|
    ensures Rank(xs, n, k) <= Rank(xs, |xs|, k)
    ensures Open(Lane(xs, |xs|, k), Rank(xs, n, k), k) == Ranks(xs, Open(xs, n, k), k)
    decreases n
  {
    hide Lane, Open, OneMore, IsCall;
    RankBounds(xs, n, k);
    if n == 0 {
      NothingRanked(xs, k);
    } else {
      var m := n - 1;
      OpenInLane(xs, m, k);
      OpenOwn(xs, m, k);
      RankStep(xs, m, k);
      if KeyOf(xs[m]) == k {
        OpenOwn(Lane(xs, |xs|, k), Rank(xs, m, k), k);
        RanksOneMore(xs, Open(xs, m, k), xs[m], m, k);
      }
    }
  }

  lemma RankBounds(xs: seq<Sample>, n: nat, k: Key)
    requires n <= |xs|
    ensures Rank(xs, n, k) <= Rank(xs, |xs|, k)
  {
    LaneGrows(xs, n, |xs|, k);
  }

  lemma NothingRanked(xs: seq<Sample>, k: Key)
    ensures Rank(xs, 0, k) == 0 && Open(Lane(xs, |xs|, k), 0, k) == Ranks(xs, Open(xs, 0, k), k) == []
    ensures Pairs(Lane(xs, |xs|, k), 0) == RankPairs(xs, Of(xs, Pairs(xs, 0), k), k) == []
  {}

  /** A sample of the thread is the next one of its lane; another thread's sample leaves the lane where it was. */
  lemma RankStep(xs: seq<Sample>, n: nat, k: Key)
    requires n < |xs|
    ensures Rank(xs, n + 1, k) == Rank(xs, n, k) + (if KeyOf(xs[n]) == k then 1 else 0)
    ensures KeyOf(xs[n]) == k ==> Rank(xs, n, k) < Rank(xs, |xs|, k) && Lane(xs, |xs|, k)[Rank(xs, n, k)] == xs[n]
  {
    if KeyOf(xs[n]) == k { RankedSample(xs, n, |xs|, k); }
  }

  lemma {:induction false} SeenInLane(r: Recon, xs: seq<Sample>, n: nat, k: Key)
    requires n <= |xs|
    ensures Rank(xs, n, k) <= Rank(xs, |xs|, k)
    ensures LastSeen(r, Lane(xs, |xs|, k), Rank(xs, n, k), k) == LastSeen(r, xs, n, k)
    decreases n
  {
    LaneGrows(xs, n, |xs|, k);
    if n > 0 {
      SeenInLane(r, xs, n - 1, k);
      if KeyOf(xs[n - 1]) == k {
        RankedSample(xs, n - 1, |xs|, k);
      } else {
        assert Lane(xs, n, k) == Lane(xs, n - 1, k);
      }
    }
  }

  // ----- its matches -----

  /** The pairs of thread `k`, in order. */
  function Of(xs: seq<Sample>, ps: seq<(nat, nat)>, k: Key): (qs: seq<(nat, nat)>)
    requires forall p :: p in ps ==> p.0 < |xs| && p.1 < |xs|
    ensures forall q :: q in qs ==> q in ps && KeyOf(xs[q.1]) == k
  {
    if ps == [] then []
    else
      var p := ps[|ps| - 1];
      Of(xs, ps[..|ps| - 1], k) + if KeyOf(xs[p.1]) == k then [p] else []
  }

  function RankPairs(xs: seq<Sample>, ps: seq<(nat, nat)>, k: Key): (qs: seq<(nat, nat)>)
    requires forall p :: p in ps ==> p.0 < |xs| && p.1 < |xs|
    ensures |qs| == |ps| && forall i :: 0 <= i < |ps| ==> qs[i] == (Rank(xs, ps[i].0, k), Rank(xs, ps[i].1, k))
  {
    seq(|ps|, i requires 0 <= i < |ps| => assert ps[i] in ps; (Rank(xs, ps[i].0, k), Rank(xs, ps[i].1, k)))
  }

  /** The pair that the sample at `n` adds to those of thread `k`. */
  function NewPair(o: seq<nat>, s: Sample, n: nat): seq<(nat, nat)> {
    if IsReturn(s) && o != [] then [(o[|o| - 1], n)] else []
  }

  lemma PairsOwn(xs: seq<Sample>, n: nat)
    requires n < |xs|
    ensures Pairs(xs, n + 1) == Pairs(xs, n) + NewPair(Open(xs, n, KeyOf(xs[n])), xs[n], n)
  {
    hide Open, IsReturn;
  }

  lemma OfOwn(xs: seq<Sample>, n: nat, k: Key)
    requires n < |xs|
    ensures Of(xs, Pairs(xs, n + 1), k) == Of(xs, Pairs(xs, n), k) + if KeyOf(xs[n]) == k then
              NewPair(Open(xs, n, k), xs[n], n) else []
  {
    hide Open, IsReturn, Pairs, Of;
    PairsOwn(xs, n);
    var o := Open(xs, n, KeyOf(xs[n]));
    if IsReturn(xs[n]) && o != [] {
      OfOneMore(xs, Pairs(xs, n), (o[|o| - 1], n), k);
    } else {
      assert Pairs(xs, n + 1) == Pairs(xs, n);
    }
  }

  lemma RankPairsOneMore(xs: seq<Sample>, ps: seq<(nat, nat)>, o: seq<nat>, n: nat, k: Key)
    requires (forall p :: p in ps ==> p.0 < |xs| && p.1 < |xs|) && n < |xs| && forall i :: 0 <= i < |o| ==> o[i] < |xs|
    ensures RankPairs(xs, ps + NewPair(o, xs[n], n), k)
            == RankPairs(xs, ps, k) + NewPair(Ranks(xs, o, k), xs[n], Rank(xs, n, k))
  {
    hide Lane, IsReturn;
  }

  /** The thread's pairs are those of its own samples. */
  lemma {:induction false} PairsInLane(xs: seq<Sample>, n: nat, k: Key)
    requires n <= |xs|
    ensures Rank(xs, n, k) <= Rank(xs, |xs|, k)
    ensures Pairs(Lane(xs, |xs|, k), Rank(xs, n, k)) == RankPairs(xs, Of(xs, Pairs(xs, n), k), k)
    decreases n
  {
    hide Lane, Open, Pairs, Of, NewPair, IsCall, IsReturn;
    RankBounds(xs, n, k);
    if n == 0 {
      NothingRanked(xs, k);
    } else {
      var m := n - 1;
      PairsInLane(xs, m, k);
      OfOwn(xs, m, k);
      RankStep(xs, m, k);
      if KeyOf(xs[m]) == k {
        OpenInLane(xs, m, k);
        PairsOwn(Lane(xs, |xs|, k), Rank(xs, m, k));
        RankPairsOneMore(xs, Of(xs, Pairs(xs, m), k), Open(xs, m, k), m, k);
      } else {
        assert Of(xs, Pairs(xs, n), k) == Of(xs, Pairs(xs, m), k);
      }
    }
  }

  lemma OfOneMore(xs: seq<Sample>, ps: seq<(nat, nat)>, p: (nat, nat), k: Key)
    requires (forall p :: p in ps ==> p.0 < |xs| && p.1 < |xs|) && p.0 < |xs| && p.1 < |xs|
    ensures Of(xs, ps + [p], k) == Of(xs, ps, k) + if KeyOf(xs[p.1]) == k then [p] else []
  {
    assert (ps + [p])[..|ps|] == ps;
  }

  // ----- a stream and its lanes -----

  lemma LaneIsStream(images: seq<Image>, r: Recon, xs: seq<Sample>, k: Key)
    requires Stream(images, r, xs) && Balanced(xs)
    ensures Stream(images, r, Lane(xs, |xs|, k)) && Balanced(Lane(xs, |xs|, k))
  {
    hide Lane, Open, LastSeen, PlainJump, RoundTrip.Live, Regresses, IsCall, IsReturn;
    var ys := Lane(xs, |xs|, k);
    forall q: nat | q < |ys|
      ensures exists i: nat :: i < |xs| && xs[i] == ys[q] && LastSeen(r, ys, q, k) == LastSeen(r, xs, i, k)
                               && (Open(xs, i, k) != [] ==> Open(ys, q, k) != [])
    {
      var i := Place(xs, |xs|, k, q);
      RankedSample(xs, i, |xs|, k);
      SeenInLane(r, xs, i, k);
      OpenInLane(xs, i, k);
    }
  }

  lemma LanesMakeStream(images: seq<Image>, r: Recon, xs: seq<Sample>)
    requires forall n :: 0 <= n < |xs| ==>
               Stream(images, r, Lane(xs, |xs|, KeyOf(xs[n]))) && Balanced(Lane(xs, |xs|, KeyOf(xs[n])))
    ensures Stream(images, r, xs) && Balanced(xs)
  {
    hide Lane, Open, LastSeen, PlainJump, RoundTrip.Live, Regresses, IsCall, IsReturn;
    forall n: nat | n < |xs|
      ensures var k := KeyOf(xs[n]);
              && RoundTrip.Live(r, k) && Row(r, k).pendingEnd.None?
              && (IsCall(xs[n]) || IsReturn(xs[n]) || PlainJump(images, r.tables, xs[n]))
              && !Regresses(LastSeen(r, xs, n, k), xs[n].time) && (IsReturn(xs[n]) ==> Open(xs, n, k) != [])
    {
      var k := KeyOf(xs[n]);
      RankedSample(xs, n, |xs|, k);
      SeenInLane(r, xs, n, k);
      OpenInLane(xs, n, k);
    }
  }

  // ----- one thread seen in the run and alone -----

  /** The parents that the call at `i` gets in the run and alone are the same call's, or what was open before. */
  ghost predicate SameParent(r: Recon, xs: seq<Sample>, k: Key, i: nat, inRun: Option<nat>, alone: Option<nat>)
    requires i < |xs|
  {
    var o := Open(xs, i, k);
    if o == [] then inRun == alone == ParentOf(Row(r, k).stack)
    else inRun == Some(IdAt(r, xs, o[|o| - 1])) && alone == Some(AloneId(r, xs, k, o[|o| - 1]))
  }

  /** The id the call at `i` would get if its thread ran alone. */
  function AloneId(r: Recon, xs: seq<Sample>, k: Key, i: nat): nat
    requires i <= |xs|
  {
    RankBounds(xs, i, k);
    IdAt(r, Lane(xs, |xs|, k), Rank(xs, i, k))
  }

  /** The span of pair `p` in the run is the span `b` of its thread alone, renumbered. */
  ghost predicate Counterparts(images: seq<Image>, r: Recon, xs: seq<Sample>, k: Key, t: Tables, p: (nat, nat),
                               t': Tables, b: Span)
    requires p.0 < |xs| && p.1 < |xs|
  {
    var a := SpanAt(images, t, r, xs, p);
    && a.id == IdAt(r, xs, p.0) && b.id == AloneId(r, xs, k, p.0) && SameParent(r, xs, k, p.0, a.parent, b.parent)
    && b.thread == a.thread == Row(r, k).id && b.start == a.start && b.end == a.end && b.callSite == a.callSite
    && b.completeness == a.completeness == Complete && SameFunction(t, a.func, t', b.func)
    && a.startEvent == r.m.nextEvent + p.0 && a.endEvent == r.m.nextEvent + p.1
    && b.startEvent == r.m.nextEvent + Rank(xs, p.0, k) && b.endEvent == r.m.nextEvent + Rank(xs, p.1, k)
  }

  lemma SameNamed(images: seq<Image>, t: Tables, t': Tables, s: Sample)
    requires SameMaps(t, t') && Named(images, t, s) && Named(images, t', s)
    ensures SameFunction(t, FnId(images, t, s.pid, s.addr), t', FnId(images, t', s.pid, s.addr))
  {
    SameKey(images, t, t', s.pid, s.addr);
  }

  lemma ParentsAgree(r: Recon, xs: seq<Sample>, k: Key, i: nat)
    requires i < |xs| && KeyOf(xs[i]) == k
    ensures Rank(xs, i, k) < Rank(xs, |xs|, k)
    ensures SameParent(r, xs, k, i, ParentIn(r, xs, i), ParentIn(r, Lane(xs, |xs|, k), Rank(xs, i, k)))
  {
    hide Lane, Open;
    RankedSample(xs, i, |xs|, k);
    OpenInLane(xs, i, k);
  }

  lemma SpanOfPair(images: seq<Image>, r: Recon, xs: seq<Sample>, k: Key, t: Tables, p: (nat, nat), t': Tables)
    requires p.0 < p.1 < |xs| && KeyOf(xs[p.0]) == KeyOf(xs[p.1]) == k && SameMaps(t, t')
    requires Named(images, t, xs[p.0]) && Named(images, t', xs[p.0])
    ensures Rank(xs, p.0, k) < Rank(xs, |xs|, k) && Rank(xs, p.1, k) < Rank(xs, |xs|, k)
    ensures Counterparts(images, r, xs, k, t, p, t',
                         SpanAt(images, t', r, Lane(xs, |xs|, k), (Rank(xs, p.0, k), Rank(xs, p.1, k))))
  {
    hide Lane, Open, ParentIn, SameParent, Named, SameMaps, FnId, SameFunction, IdAt;
    RankedSample(xs, p.0, |xs|, k);
    RankedSample(xs, p.1, |xs|, k);
    ParentsAgree(r, xs, k, p.0);
    SameNamed(images, t, t', xs[p.0]);
  }

  /** Renumbering keeps the order of the calls. */
  lemma TwinsKeepOrder(r: Recon, xs: seq<Sample>, k: Key, i: nat, j: nat)
    requires i < j < |xs| && KeyOf(xs[i]) == KeyOf(xs[j]) == k && IsCall(xs[i])
    ensures IdAt(r, xs, i) < IdAt(r, xs, j) && AloneId(r, xs, k, i) < AloneId(r, xs, k, j)
  {
    MoreCalls(xs, i, j);
    RankedSample(xs, i, |xs|, k);
    RankedSample(xs, i, j, k);
    RankBounds(xs, j, k);
    MoreCalls(Lane(xs, |xs|, k), Rank(xs, i, k), Rank(xs, j, k));
  }

  lemma {:induction false} MoreCalls(xs: seq<Sample>, i: nat, j: nat)
    requires i < j <= |xs| && IsCall(xs[i])
    ensures CallsBefore(xs, i) < CallsBefore(xs, j)
    decreases j
  {
    if i < j - 1 { MoreCalls(xs, i, j - 1); }
  }

  /** What the run holds of thread `k`, against the run of the thread's samples alone. */
  ghost predicate SeenAlone(images: seq<Image>, r: Recon, xs: seq<Sample>, k: Key, r1: Recon, r2: Recon) {
    var mine := Of(xs, Pairs(xs, |xs|), k);
    && |r2.m.spans| == |r.m.spans| + |mine|
    && (forall i :: 0 <= i < |mine| ==>
          Counterparts(images, r, xs, k, r1.tables, mine[i], r2.tables, r2.m.spans[|r.m.spans| + i]))
    && |Row(r1, k).stack| == |Row(r2, k).stack| && Row(r1, k).lastAbs == Row(r2, k).lastAbs
  }

  lemma MineAreNamed(images: seq<Image>, xs: seq<Sample>, k: Key, t: Tables, t': Tables)
    requires forall i :: 0 <= i < |xs| && IsCall(xs[i]) ==> Named(images, t, xs[i])
    requires var ys := Lane(xs, |xs|, k); forall q :: 0 <= q < |ys| && IsCall(ys[q]) ==> Named(images, t', ys[q])
    ensures forall p :: p in Of(xs, Pairs(xs, |xs|), k) ==> Named(images, t, xs[p.0]) && Named(images, t', xs[p.0])
  {
    hide Lane, Named, Pairs, Of;
    forall p | p in Of(xs, Pairs(xs, |xs|), k) ensures Named(images, t, xs[p.0]) && Named(images, t', xs[p.0]) {
      RankedSample(xs, p.0, |xs|, k);
    }
  }

  lemma MineAreCounterparts(images: seq<Image>, r: Recon, xs: seq<Sample>, k: Key, t: Tables, t': Tables,
                            alone: seq<Span>)
    requires SameMaps(t, t') && forall p :: p in Of(xs, Pairs(xs, |xs|), k) ==>
               Named(images, t, xs[p.0]) && Named(images, t', xs[p.0])
    requires alone == SpansAt(images, t', r, Lane(xs, |xs|, k), Pairs(Lane(xs, |xs|, k), |Lane(xs, |xs|, k)|))
    ensures var mine := Of(xs, Pairs(xs, |xs|), k);
            |alone| == |mine| && forall i :: 0 <= i < |mine| ==>
              Counterparts(images, r, xs, k, t, mine[i], t', alone[i])
  {
    hide Lane, Named, Pairs, Of, SpanAt, SameMaps, Counterparts;
    var mine := Of(xs, Pairs(xs, |xs|), k);
    PairsInLane(xs, |xs|, k);
    forall i | 0 <= i < |mine| ensures Counterparts(images, r, xs, k, t, mine[i], t', alone[i]) {
      assert mine[i] in mine;
      SpanOfPair(images, r, xs, k, t, mine[i], t');
    }
  }

  lemma RenderedParts(images: seq<Image>, r: Recon, xs: seq<Sample>, r': Recon, k: Key)
    requires Rendered(images, r, xs, |xs|, r')
    ensures SameMaps(r.tables, r'.tables) && r'.m.gaps == r.m.gaps && ReconInv(images, r', true)
    ensures r'.m.spans == r.m.spans + SpansAt(images, r'.tables, r, xs, Pairs(xs, |xs|))
    ensures Row(r', k).lastAbs == LastSeen(r, xs, |xs|, k)
            && |Row(r', k).stack| == |Row(r, k).stack| + |Open(xs, |xs|, k)|
    ensures Open(xs, |xs|, k) == [] ==> Row(r', k).stack == Row(r, k).stack
    ensures forall i :: 0 <= i < |xs| && IsCall(xs[i]) ==> Named(images, r'.tables, xs[i])
  {
    hide ReconInv, SameMaps, Extends, Named, Open, Pairs, SpansAt, LastSeen;
    assert RowIs(images, r, xs, |xs|, r', k);
  }

  lemma TwoWays(t: Tables, t1: Tables, t2: Tables)
    requires SameMaps(t, t1) && SameMaps(t, t2)
    ensures SameMaps(t1, t2)
  {}

  /** Every thread fares as it would alone, whatever the others do in between. */
  lemma ThreadsDoNotInterfere(images: seq<Image>, r: Recon, xs: seq<Sample>, k: Key)
    requires ReconInv(images, r, true) && Stream(images, r, xs) && Balanced(xs)
    ensures SeenAlone(images, r, xs, k, PushAll(images, r, Records(xs)), PushAll(images, r, Records(Lane(xs, |xs|, k))))
  {
    hide ReconInv, Stream, Balanced, Rendered, PushAll, Records, SameMaps, Named, Of, Pairs, Open, LastSeen, Lane,
         SpansAt, Counterparts;
    var ys := Lane(xs, |xs|, k);
    var r1, r2 := PushAll(images, r, Records(xs)), PushAll(images, r, Records(ys));
    LaneIsStream(images, r, xs, k);
    assert xs[..|xs|] == xs && ys[..|ys|] == ys;
    RunRendered(images, r, xs, |xs|);
    RunRendered(images, r, ys, |ys|);
    RenderedParts(images, r, xs, r1, k);
    RenderedParts(images, r, ys, r2, k);
    TwoWays(r.tables, r1.tables, r2.tables);
    MineAreNamed(images, xs, k, r1.tables, r2.tables);
    MineAreCounterparts(images, r, xs, k, r1.tables, r2.tables, SpansAt(images, r2.tables, r, ys, Pairs(ys, |ys|)));
    OpenInLane(xs, |xs|, k);
    SeenInLane(r, xs, |xs|, k);
  }

  // ----- forests -----

  lemma {:induction false} FormedSamples(images: seq<Image>, t: Tables, k: Key, f: Forest, s: Sample)
    requires WellFormed(images, t, k, f) && s in Print(f)
    ensures KeyOf(s) == k && (IsCall(s) || IsReturn(s) || PlainJump(images, t, s))
  {
    match f
    case JumpThen(_, rest) => if s in Print(rest) { FormedSamples(images, t, k, rest, s); }
    case CallThen(_, body, _, rest) =>
      if s in Print(body) { FormedSamples(images, t, k, body, s); }
      if s in Print(rest) { FormedSamples(images, t, k, rest, s); }
  }

  /** Every return from `a` on and before `b` finds a call open. */
  predicate ReturnsMatch(zs: seq<Sample>, a: nat, b: nat, k: Key)
    requires b <= |zs|
  {
    forall n :: a <= n < b && IsReturn(zs[n]) ==> Open(zs, n, k) != []
  }

  predicate Stands(ys: seq<Sample>, zs: seq<Sample>, a: nat) {
    a + |ys| <= |zs| && zs[a..a + |ys|] == ys
  }

  /** A printed forest inside a stream: each return finds a call open, and in the end all is as before. */
  lemma {:induction false} ForestOpens(images: seq<Image>, t: Tables, k: Key, f: Forest, zs: seq<Sample>, a: nat)
    requires WellFormed(images, t, k, f) && Stands(Print(f), zs, a) && a + |Print(f)| <= |zs|
    ensures Open(zs, a + |Print(f)|, k) == Open(zs, a, k) && ReturnsMatch(zs, a, a + |Print(f)|, k)
    decreases f
  {
    hide Open, PlainJump, IsCall, IsReturn, FlagsKind, Stands, ReturnsMatch;
    match f
    case Leaf => NoneToMatch(zs, a, k);
    case JumpThen(j, rest) =>
      Led(zs, a, j, Print(rest));
      JumpIsNeither(images, t, j);
      ForestOpens(images, t, k, rest, zs, a + 1);
      JumpOpens(zs, a, a + 1 + |Print(rest)|, k);
    case CallThen(c, body, ret, rest) =>
      var b := a + 1 + |Print(body)|;
      Placed(zs, a, c, Print(body), ret, Print(rest));
      ForestOpens(images, t, k, body, zs, a + 1);
      ForestOpens(images, t, k, rest, zs, b + 1);
      IsCallAndReturn(images, t, k, f);
      CallOpens(zs, a, b, k);
      JoinMatches(zs, a, b + 1, b + 1 + |Print(rest)|, k);
  }

  lemma NoneToMatch(zs: seq<Sample>, a: nat, k: Key)
    requires a <= |zs|
    ensures ReturnsMatch(zs, a, a, k)
  {}

  lemma JoinMatches(zs: seq<Sample>, a: nat, b: nat, c: nat, k: Key)
    requires a <= b <= c <= |zs| && ReturnsMatch(zs, a, b, k) && ReturnsMatch(zs, b, c, k)
    ensures ReturnsMatch(zs, a, c, k)
  {
    hide Open, IsReturn;
  }

  lemma JumpOpens(zs: seq<Sample>, a: nat, b: nat, k: Key)
    requires a < b <= |zs| && !IsCall(zs[a]) && !IsReturn(zs[a]) && ReturnsMatch(zs, a + 1, b, k)
    ensures Open(zs, a + 1, k) == Open(zs, a, k) && ReturnsMatch(zs, a, b, k)
  {
    hide Open, FlagsKind;
    OpenOwn(zs, a, k);
  }

  lemma Led(zs: seq<Sample>, a: nat, j: Sample, ys: seq<Sample>)
    requires Stands([j] + ys, zs, a)
    ensures a < |zs| && zs[a] == j && Stands(ys, zs, a + 1)
  {
    var w := zs[a..a + 1 + |ys|];
    assert w[0] == j && w[1..] == ys;
  }

  lemma IsCallAndReturn(images: seq<Image>, t: Tables, k: Key, f: Forest)
    requires f.CallThen? && WellFormed(images, t, k, f)
    ensures IsCall(f.call) && IsReturn(f.ret)
  {}

  lemma JumpIsNeither(images: seq<Image>, t: Tables, j: Sample)
    requires PlainJump(images, t, j)
    ensures !IsCall(j) && !IsReturn(j)
  {}

  lemma CallOpens(zs: seq<Sample>, a: nat, b: nat, k: Key)
    requires a < b < |zs| && IsCall(zs[a]) && KeyOf(zs[a]) == k && IsReturn(zs[b]) && KeyOf(zs[b]) == k
    requires Open(zs, b, k) == Open(zs, a + 1, k) && ReturnsMatch(zs, a + 1, b, k)
    ensures Open(zs, b + 1, k) == Open(zs, a, k) && ReturnsMatch(zs, a, b + 1, k)
  {
    hide Open, FlagsKind;
    CallIsNoReturn(zs[a]);
    CallIsNoReturn(zs[b]);
    OpenOwn(zs, a, k);
    OpenOwn(zs, b, k);
    assert (Open(zs, a, k) + [a])[..|Open(zs, a, k)|] == Open(zs, a, k);
  }

  lemma Placed(zs: seq<Sample>, a: nat, c: Sample, xs: seq<Sample>, ret: Sample, ys: seq<Sample>)
    requires Stands([c] + xs + [ret] + ys, zs, a)
    ensures a + 1 + |xs| < |zs| && zs[a] == c && zs[a + 1 + |xs|] == ret
    ensures Stands(xs, zs, a + 1) && Stands(ys, zs, a + 2 + |xs|)
  {
    var w := zs[a..a + 2 + |xs| + |ys|];
    assert w[0] == c && w[1 + |xs|] == ret;
    assert w[1..1 + |xs|] == xs && w[2 + |xs|..] == ys;
  }

  lemma {:induction false} LaneTimes(r: Recon, ys: seq<Sample>, n: nat, k: Key)
    requires n <= |ys| && (forall q :: 0 <= q < |ys| ==> KeyOf(ys[q]) == k) && NonDecreasing(Row(r, k).lastAbs, ys)
    ensures LastSeen(r, ys, n, k) == LastTime(Row(r, k).lastAbs, ys[..n])
    ensures n < |ys| ==> !Regresses(LastSeen(r, ys, n, k), ys[n].time)
    decreases n
  {
    var last := Row(r, k).lastAbs;
    if n > 0 {
      LaneTimes(r, ys, n - 1, k);
      assert ys[..n] == ys[..n - 1] + [ys[n - 1]];
      NonDecreasingConcat(last, ys[..n - 1], [ys[n - 1]]);
      OneThenTimes(LastTime(last, ys[..n - 1]), ys[n - 1], []);
      assert [ys[n - 1]] + [] == [ys[n - 1]];
    }
    if n < |ys| {
      assert ys == ys[..n] + ([ys[n]] + ys[n + 1..]);
      NonDecreasingConcat(last, ys[..n], [ys[n]] + ys[n + 1..]);
      OneThenTimes(LastTime(last, ys[..n]), ys[n], ys[n + 1..]);
    }
  }

  /** One forest per thread, each printed in order, interleaved in any way. */
  ghost predicate Interleaves(images: seq<Image>, r: Recon, xs: seq<Sample>, forests: map<Key, Forest>) {
    && (forall n :: 0 <= n < |xs| ==> KeyOf(xs[n]) in forests)
    && forall k :: k in forests ==>
         && Lane(xs, |xs|, k) == Print(forests[k]) && WellFormed(images, r.tables, k, forests[k])
         && RoundTrip.Live(r, k) && Row(r, k).pendingEnd.None? && NonDecreasing(Row(r, k).lastAbs, Print(forests[k]))
  }

  lemma NothingBefore(zs: seq<Sample>, k: Key)
    ensures Open(zs, 0, k) == [] && Stands(zs, zs, 0)
  {
    assert zs[0..0 + |zs|] == zs;
  }

  lemma ForestSamples(images: seq<Image>, t: Tables, k: Key, f: Forest)
    requires WellFormed(images, t, k, f)
    ensures forall q :: 0 <= q < |Print(f)| ==>
              KeyOf(Print(f)[q]) == k && (IsCall(Print(f)[q]) || IsReturn(Print(f)[q])
                                          || PlainJump(images, t, Print(f)[q]))
  {
    hide WellFormed, Print, PlainJump, IsCall, IsReturn;
    var ys := Print(f);
    forall q: nat | q < |ys| ensures KeyOf(ys[q]) == k
      && (IsCall(ys[q]) || IsReturn(ys[q]) || PlainJump(images, t, ys[q])) {
      FormedSamples(images, t, k, f, ys[q]);
    }
  }

  lemma ForestBalanced(images: seq<Image>, t: Tables, k: Key, f: Forest)
    requires WellFormed(images, t, k, f)
    ensures Balanced(Print(f)) && Open(Print(f), |Print(f)|, k) == []
  {
    hide WellFormed, Print, PlainJump, IsCall, IsReturn, Open, Stands;
    NothingBefore(Print(f), k);
    ForestOpens(images, t, k, f, Print(f), 0);
    ForestSamples(images, t, k, f);
  }

  lemma ForestIsStream(images: seq<Image>, r: Recon, k: Key, f: Forest)
    requires WellFormed(images, r.tables, k, f) && RoundTrip.Live(r, k) && Row(r, k).pendingEnd.None?
    requires NonDecreasing(Row(r, k).lastAbs, Print(f))
    ensures Stream(images, r, Print(f)) && Balanced(Print(f)) && Open(Print(f), |Print(f)|, k) == []
  {
    hide Open, Balanced, LastSeen, WellFormed, NonDecreasing, PlainJump, RoundTrip.Live, Regresses, Print, IsCall,
         IsReturn;
    var ys := Print(f);
    ForestBalanced(images, r.tables, k, f);
    ForestSamples(images, r.tables, k, f);
    forall n: nat | n < |ys| ensures !Regresses(LastSeen(r, ys, n, k), ys[n].time) { LaneTimes(r, ys, n, k); }
  }

  lemma ForestsMakeStream(images: seq<Image>, r: Recon, xs: seq<Sample>, forests: map<Key, Forest>)
    requires Interleaves(images, r, xs, forests)
    ensures Stream(images, r, xs) && Balanced(xs) && forall k :: Open(xs, |xs|, k) == []
  {
    hide Stream, Balanced, Lane, Open, WellFormed, NonDecreasing, RoundTrip.Live;
    forall k | k in forests ensures Stream(images, r, Lane(xs, |xs|, k)) && Balanced(Lane(xs, |xs|, k))
      && Open(xs, |xs|, k) == [] {
      ForestIsStream(images, r, k, forests[k]);
      OpenInLane(xs, |xs|, k);
    }
    LanesMakeStream(images, r, xs);
    forall k ensures Open(xs, |xs|, k) == [] { OpenIsSeen(xs, k); }
  }

  lemma OpenIsSeen(xs: seq<Sample>, k: Key)
    ensures Open(xs, |xs|, k) == [] || exists n :: 0 <= n < |xs| && KeyOf(xs[n]) == k
  {
    hide Open;
    var o := Open(xs, |xs|, k);
    if o != [] { assert KeyOf(xs[o[0]]) == k; }
  }

  /** The run's spans of thread `k` are the spans of its forest, renumbered. */
  ghost predicate Rebuilds(images: seq<Image>, r: Recon, xs: seq<Sample>, k: Key, f: Forest, r': Recon) {
    var alone := PushAll(images, r, Records(Print(f))).tables;
    var want := Expected(f, images, alone, Row(r, k).id, ParentOf(Row(r, k).stack), r.m.nextSpan, r.m.nextEvent);
    var mine := Of(xs, Pairs(xs, |xs|), k);
    && |mine| == |want| == Calls(f)
    && forall i :: 0 <= i < |mine| ==> Counterparts(images, r, xs, k, r'.tables, mine[i], alone, want[i])
  }

  lemma ForestRebuilds(images: seq<Image>, r: Recon, xs: seq<Sample>, k: Key, forests: map<Key, Forest>)
    requires ReconInv(images, r, true) && Interleaves(images, r, xs, forests) && k in forests && Stream(images, r, xs)
             && Balanced(xs)
    ensures Rebuilds(images, r, xs, k, forests[k], PushAll(images, r, Records(xs)))
  {
    hide ReconInv, Stream, Balanced, PushAll, Records, Of, Pairs, Lane, Counterparts, WellFormed, NonDecreasing,
         RoundTrip.Live,
         Expected, SameMaps, Extends, AllNamed, LastTime, Calls;
    var f := forests[k];
    ThreadsDoNotInterfere(images, r, xs, k);
    ForestRoundTrip(images, r, k, f);
    ExpectedCount(f, images, PushAll(images, r, Records(Print(f))).tables, Row(r, k).id, ParentOf(Row(r, k).stack),
                  r.m.nextSpan, r.m.nextEvent);
  }

  /**
   * No gap, every stack as before, one new span per match in the order of the returns, and each thread's
   * spans are its forest's.
   */
  ghost predicate Untangled(images: seq<Image>, r: Recon, xs: seq<Sample>, forests: map<Key, Forest>, r': Recon) {
    && r'.m.gaps == r.m.gaps && (forall k :: Row(r', k).stack == Row(r, k).stack)
    && r'.m.spans == r.m.spans + SpansAt(images, r'.tables, r, xs, Pairs(xs, |xs|))
    && (forall i: nat, j: nat :: (i, j) in Pairs(xs, |xs|) <==> Matched(xs, i, j))
    && forall k :: k in forests ==> Rebuilds(images, r, xs, k, forests[k], r')
  }

  /** Any interleaving of printed forests rebuilds every one of them. */
  lemma InterleavedForests(images: seq<Image>, r: Recon, xs: seq<Sample>, forests: map<Key, Forest>)
    requires ReconInv(images, r, true) && Interleaves(images, r, xs, forests)
    ensures Untangled(images, r, xs, forests, PushAll(images, r, Records(xs)))
  {
    hide ReconInv, Stream, Balanced, Rendered, PushAll, Records, Pairs, Open, Interleaves, Rebuilds, SpansAt, Matched;
    ForestsMakeStream(images, r, xs, forests);
    assert xs[..|xs|] == xs;
    RunRendered(images, r, xs, |xs|);
    var r' := PushAll(images, r, Records(xs));
    RenderedParts(images, r, xs, r', (0, 0));
    forall k ensures Row(r', k).stack == Row(r, k).stack { RenderedParts(images, r, xs, r', k); }
    forall i: nat, j: nat ensures (i, j) in Pairs(xs, |xs|) <==> Matched(xs, i, j) {
      PairsAreMatches(xs, |xs|, i, j);
      NotBeyond(xs, i, j);
    }
    forall k | k in forests ensures Rebuilds(images, r, xs, k, forests[k], r') {
      ForestRebuilds(images, r, xs, k, forests);
    }
  }

  lemma NotBeyond(xs: seq<Sample>, i: nat, j: nat)
    ensures Matched(xs, i, j) ==> j < |xs|
  {}

  // ----- and in the analysis -----

  /**
   * Whatever came before, as long as nothing is open: with a time and no time 0 written, `finish`
   * returns the span of every matched pair at its id, counted from the origin; else it fails.
   */
  lemma AnalysisOfInterleaving(images: seq<Image>, filter: Option<Tracker>, before: seq<Record>, xs: seq<Sample>,
                               forests: map<Key, Forest>)
    requires var r := PushAll(images, New(filter), before); NothingOpen(r) && Interleaves(images, r, xs, forests)
    ensures var recs := before + Records(xs);
            var r, r' := PushAll(images, New(filter), before), PushAll(images, New(filter), recs);
            && (forall k :: k in r'.m.order <==> k in r'.m.threads)
            && (Finish(r').Ok? <==> Earliest(filter, recs, None).Some? && NoZeroWritten(images, New(filter), recs))
            && (Finish(r').Ok? ==>
                  var a := Finish(r').value;
                  && |a.spans| == |r.m.spans| + |Pairs(xs, |xs|)|
                  && forall p :: p in Pairs(xs, |xs|) ==>
                       IdAt(r, xs, p.0) < |a.spans| && IsRebased(a.spans[IdAt(r, xs, p.0)],
                                                                 SpanAt(images, r'.tables, r, xs, p), a.origin))
  {
    hide New, PushAll, ReconInv, Finish, Records, NothingOpen, Interleaves, Pairs, SpanAt, IsRebased, Earliest,
         NoZeroWritten, Matched, Rebuilds;
    var recs := before + Records(xs);
    var r, r' := PushAll(images, New(filter), before), PushAll(images, New(filter), recs);
    AnyRun(images, filter, before);
    AnyRun(images, filter, recs);
    PushAllConcat(images, New(filter), before, Records(xs));
    InterleavedForests(images, r, xs, forests);
    NothingLeftOpen(r, r');
    FinishedPairs(images, r, r', xs, Pairs(xs, |xs|));
    ZeroTimes.RefusedIff(images, filter, recs);
    EitherWay(Finish(r'));
  }

  lemma NothingLeftOpen(r: Recon, r': Recon)
    requires NothingOpen(r) && forall k :: Row(r', k).stack == Row(r, k).stack
    ensures NothingOpen(r')
  {
    forall k | k in r'.m.threads ensures r'.m.threads[k].stack == [] {
      assert Row(r', k).stack == Row(r, k).stack;
    }
  }

  lemma FinishedPairs(images: seq<Image>, r: Recon, r': Recon, xs: seq<Sample>, ps: seq<(nat, nat)>)
    requires ReconInv(images, r', true) && NothingOpen(r') && forall p :: p in ps ==> p.0 < |xs| && p.1 < |xs|
    requires r'.m.spans == r.m.spans + SpansAt(images, r'.tables, r, xs, ps)
    ensures forall k :: k in r'.m.order <==> k in r'.m.threads
    ensures Finish(r').Ok? ==>
              var a := Finish(r').value;
              && |a.spans| == |r.m.spans| + |ps|
              && forall p :: p in ps ==>
                   IdAt(r, xs, p.0) < |a.spans| && IsRebased(a.spans[IdAt(r, xs, p.0)],
                                                             SpanAt(images, r'.tables, r, xs, p), a.origin)
  {
    hide ReconInv, Finish, IsRebased, FnId, ParentIn, IdAt;
    FinishEmitted(images, r');
    if Finish(r').Ok? {
      var a := Finish(r').value;
      forall p | p in ps ensures IdAt(r, xs, p.0) < |a.spans|
        && IsRebased(a.spans[IdAt(r, xs, p.0)], SpanAt(images, r'.tables, r, xs, p), a.origin) {
        var i :| 0 <= i < |ps| && ps[i] == p;
        var s := r'.m.spans[|r.m.spans| + i];
        assert s == SpanAt(images, r'.tables, r, xs, p);
      }
    }
  }
}
