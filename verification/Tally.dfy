/** The task table lists each task once, and the per-thread counters add up to the totals. */
module Tally {
  import opened TraceTypes
  import opened Machine
  import opened Lanes

  datatype Counter = Branches | Retained | Spans | Gaps

  function Get(c: Counter, th: ThreadState): nat {
    match c
    case Branches => th.branches
    case Retained => th.retained
    case Spans => th.spans
    case Gaps => th.gaps
  }

  /** The tasks of `order` are distinct, and they are the tasks of the table. */
  ghost predicate Table(threads: Threads, order: seq<Key>) {
    && (forall i, j :: 0 <= i < j < |order| ==> order[i] != order[j])
    && (forall k :: k in order <==> k in threads)
    && (forall k :: k in threads ==> (threads[k].pid, threads[k].tid) == k && threads[k].id.ThreadId?)
  }

  function Live(c: Counter, order: seq<Key>, threads: Threads): nat
    requires forall k :: k in order ==> k in threads
  {
    if order == [] then 0 else Get(c, threads[order[0]]) + Live(c, order[1..], threads)
  }

  function Past(c: Counter, retired: seq<ThreadState>): nat {
    if retired == [] then 0 else Past(c, retired[..|retired| - 1]) + Get(c, retired[|retired| - 1])
  }

  /** Gaps that some thread of the table was charged for. */
  function Charged(gaps: seq<Gap>): nat {
    if gaps == [] then 0
    else Charged(gaps[..|gaps| - 1]) + (if gaps[|gaps| - 1].thread.UnknownThread? then 0 else 1)
  }

  function Total(c: Counter, m: State): nat
    requires Table(m.threads, m.order)
  {
    Live(c, m.order, m.threads) + Past(c, m.retired)
  }

  /** Samples, retained events, spans and gaps are each counted on exactly one thread. */
  ghost predicate TallyInv(m: State) {
    && Table(m.threads, m.order)
    && Total(Branches, m) == m.samples
    && Total(Retained, m) == |m.events|
    && Total(Spans, m) == |m.spans|
    && Total(Gaps, m) == Charged(m.gaps)
    && m.nextGap == |m.gaps|
    && (forall a :: 0 <= a < |m.gaps| ==> m.gaps[a].id == a)
  }

  lemma {:induction false} LiveElsewhere(c: Counter, order: seq<Key>, threads: Threads, threads': Threads)
    requires forall k :: k in order ==> k in threads && k in threads' && Get(c, threads[k]) == Get(c, threads'[k])
    ensures Live(c, order, threads) == Live(c, order, threads')
  {
    if order != [] {
      assert order[0] in order;
      LiveElsewhere(c, order[1..], threads, threads');
    }
  }

  lemma {:induction false} LiveUpdate(c: Counter, order: seq<Key>, threads: Threads, key: Key, th: ThreadState)
    requires Table(threads, order) || (forall i, j :: 0 <= i < j < |order| ==> order[i] != order[j])
    requires forall k :: k in order ==> k in threads
    requires key in order
    ensures Live(c, order, threads[key := th]) == Live(c, order, threads) - Get(c, threads[key]) + Get(c, th)
  {
    if order[0] == key {
      LiveElsewhere(c, order[1..], threads, threads[key := th]);
    } else {
      assert forall k :: k in order[1..] ==> k in order;
      LiveUpdate(c, order[1..], threads, key, th);
    }
  }

  lemma {:induction false} LiveAppend(c: Counter, order: seq<Key>, threads: Threads, key: Key, th: ThreadState)
    requires forall k :: k in order ==> k in threads
    requires key !in order
    ensures Live(c, order + [key], threads[key := th]) == Live(c, order, threads) + Get(c, th)
  {
    if order == [] {
      assert [key][1..] == [];
      assert Live(c, [key], threads[key := th]) == Get(c, th);
    } else {
      assert (order + [key])[1..] == order[1..] + [key];
      assert order[0] in order;
      LiveAppend(c, order[1..], threads, key, th);
    }
  }

  lemma {:induction false} WithoutContains(order: seq<Key>, key: Key, k: Key)
    ensures k in Without(order, key) <==> k in order && k != key
  {
    if order != [] { WithoutContains(order[1..], key, k); }
  }

  lemma {:induction false} WithoutDistinct(order: seq<Key>, key: Key)
    requires forall i, j :: 0 <= i < j < |order| ==> order[i] != order[j]
    ensures var w := Without(order, key); forall i, j :: 0 <= i < j < |w| ==> w[i] != w[j]
  {
    if order != [] {
      WithoutDistinct(order[1..], key);
      WithoutContains(order[1..], key, order[0]);
    }
  }

  lemma {:induction false} LiveWithout(c: Counter, order: seq<Key>, threads: Threads, key: Key)
    requires forall i, j :: 0 <= i < j < |order| ==> order[i] != order[j]
    requires forall k :: k in order ==> k in threads
    requires key in threads
    ensures forall k :: k in Without(order, key) ==> k in threads
    ensures Live(c, Without(order, key), threads)
            == Live(c, order, threads) - (if key in order then Get(c, threads[key]) else 0)
  {
    forall k | k in Without(order, key)
      ensures k in threads
    {
      WithoutContains(order, key, k);
    }
    if order != [] {
      assert forall k :: k in order[1..] ==> k in order;
      LiveWithout(c, order[1..], threads, key);
      var w := Without(order[1..], key);
      if order[0] != key {
        assert Without(order, key) == [order[0]] + w;
        assert ([order[0]] + w)[1..] == w;
      } else {
        assert Without(order, key) == w;
      }
    }
  }

  lemma PastAppend(c: Counter, retired: seq<ThreadState>, th: ThreadState)
    ensures Past(c, retired + [th]) == Past(c, retired) + Get(c, th)
  {}

  lemma ChargedAppend(gaps: seq<Gap>, g: Gap)
    ensures Charged(gaps + [g]) == Charged(gaps) + (if g.thread.UnknownThread? then 0 else 1)
  {}

  /** Replacing one thread changes each total by that thread's change. */
  lemma TotalUpdate(c: Counter, m: State, key: Key, th: ThreadState)
    requires Table(m.threads, m.order) && key in m.threads && (th.pid, th.tid) == key && th.id.ThreadId?
    ensures Table(SetThread(m, key, th).threads, m.order)
    ensures Total(c, SetThread(m, key, th)) == Total(c, m) - Get(c, m.threads[key]) + Get(c, th)
  {
    LiveUpdate(c, m.order, m.threads, key, th);
  }

  lemma AllTotalsUpdate(m: State, key: Key, th: ThreadState)
    requires Table(m.threads, m.order) && key in m.threads && (th.pid, th.tid) == key && th.id.ThreadId?
    ensures Table(SetThread(m, key, th).threads, m.order)
    ensures forall c :: Total(c, SetThread(m, key, th)) == Total(c, m) - Get(c, m.threads[key]) + Get(c, th)
  {
    forall c
      ensures Table(SetThread(m, key, th).threads, m.order)
      ensures Total(c, SetThread(m, key, th)) == Total(c, m) - Get(c, m.threads[key]) + Get(c, th)
    {
      TotalUpdate(c, m, key, th);
    }
    TotalUpdate(Spans, m, key, th);
  }

  /** A table change plus a matching growth of the output keeps the tally. */
  lemma SetThreadKeepsTally(m: State, key: Key, th: ThreadState, r: State)
    requires TallyInv(m) && key in m.threads && (th.pid, th.tid) == key && th.id.ThreadId?
    requires r.threads == m.threads[key := th] && r.order == m.order && r.retired == m.retired
    requires r.samples - m.samples == th.branches - m.threads[key].branches
    requires |r.events| - |m.events| == th.retained - m.threads[key].retained
    requires |r.spans| - |m.spans| == th.spans - m.threads[key].spans
    requires Charged(r.gaps) - Charged(m.gaps) == th.gaps - m.threads[key].gaps
    requires r.nextGap == |r.gaps| && (forall a :: 0 <= a < |r.gaps| ==> r.gaps[a].id == a)
    ensures TallyInv(r)
  {
    var n := SetThread(m, key, th);
    AllTotalsUpdate(m, key, th);
    assert Total(Branches, n) == Total(Branches, r) && Total(Retained, n) == Total(Retained, r);
    assert Total(Spans, n) == Total(Spans, r) && Total(Gaps, n) == Total(Gaps, r);
  }

  lemma ThreadGapKeepsTally(m: State, key: Key, kind: GapKind, start: Option<nat>, end: Option<nat>, known: bool)
    requires TallyInv(m) && key in m.threads
    ensures TallyInv(ThreadGap(m, key, kind, start, end, known))
  {
    var th := m.threads[key];
    ChargedAppend(m.gaps, Gap(m.nextGap, th.id, kind, start, end, known));
    SetThreadKeepsTally(m, key, th.(gaps := th.gaps + 1), ThreadGap(m, key, kind, start, end, known));
  }

  lemma UnchargedGapKeepsTally(m: State, kind: GapKind, start: Option<nat>, end: Option<nat>, known: bool)
    requires TallyInv(m)
    ensures TallyInv(AddGap(m, UnknownThread, kind, start, end, known))
  {}

  lemma NewThreadKeepsTally(m: State, key: Key, id: ThreadId)
    requires TallyInv(m) && key !in m.threads && id.ThreadId?
    ensures TallyInv(SetThread(m, key, NewThread(id, key)).(order := m.order + [key]))
  {
    var th := NewThread(id, key);
    var r := SetThread(m, key, th).(order := m.order + [key]);
    assert Table(r.threads, r.order);
    forall c
      ensures Total(c, r) == Total(c, m)
    {
      LiveAppend(c, m.order, m.threads, key, th);
    }
    assert Total(Branches, r) == Total(Branches, m) && Total(Retained, r) == Total(Retained, m);
    assert Total(Spans, r) == Total(Spans, m) && Total(Gaps, r) == Total(Gaps, m);
  }

  lemma DropTable(threads: Threads, order: seq<Key>, key: Key)
    requires Table(threads, order) && key in threads
    ensures Table(threads - {key}, Without(order, key))
  {
    WithoutDistinct(order, key);
    forall k
      ensures k in Without(order, key) <==> k in threads - {key}
    {
      WithoutContains(order, key, k);
    }
  }

  lemma DropTotal(c: Counter, m: State, key: Key, th: ThreadState)
    requires Table(m.threads, m.order) && key in m.threads && Get(c, th) == Get(c, m.threads[key])
    ensures var r := m.(threads := m.threads - {key}, order := Without(m.order, key), retired := m.retired + [th]);
            Table(r.threads, r.order) && Total(c, r) == Total(c, m)
  {
    DropTable(m.threads, m.order, key);
    LiveWithout(c, m.order, m.threads, key);
    LiveElsewhere(c, Without(m.order, key), m.threads, m.threads - {key});
    PastAppend(c, m.retired, th);
  }

  /** Moving a thread to the retired list moves its counts with it. */
  lemma DropKeepsTally(m: State, key: Key, th: ThreadState)
    requires TallyInv(m) && key in m.threads && (forall c :: Get(c, th) == Get(c, m.threads[key]))
    ensures TallyInv(m.(threads := m.threads - {key}, order := Without(m.order, key), retired := m.retired + [th]))
  {
    var r := m.(threads := m.threads - {key}, order := Without(m.order, key), retired := m.retired + [th]);
    DropTotal(Branches, m, key, th);
    DropTotal(Retained, m, key, th);
    DropTotal(Spans, m, key, th);
    DropTotal(Gaps, m, key, th);
  }
}
