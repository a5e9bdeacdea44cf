/**
 * Thread ids name a tid and how often its task was reused, not the process:
 * which rows of a finished analysis can be told apart by their id.
 */
module ThreadRows {
  import opened TraceTypes
  import opened Machine
  import opened Lanes
  import opened Steps
  import opened Tally
  import opened Symbols
  import opened Recon
  import opened Runs
  import opened Results

  predicate SameName(a: ThreadState, b: ThreadState) {
    a.id == b.id && a.pid == b.pid && a.tid == b.tid
  }

  ghost predicate NamesKept(before: Threads, after: Threads) {
    before.Keys == after.Keys && forall k :: k in before ==> SameName(before[k], after[k])
  }

  lemma {:induction false} CloseOpenKeepsNames(m: State, key: Key, end: Option<nat>)
    requires key in m.threads
    ensures NamesKept(m.threads, CloseOpen(m, key, end).threads)
    decreases |m.threads[key].stack|
  {
    var th := m.threads[key];
    if th.stack != [] {
      CloseOpenKeepsNames(PopEmit(m, key, end, th.Top().startEvent, OpenLabel(th.Top().completeness)), key, end);
    }
  }

  lemma {:induction false} CloseAllKeepsNames(m: State, keys: seq<Key>)
    requires forall k :: k in keys ==> k in m.threads
    ensures NamesKept(m.threads, CloseAll(m, keys).threads)
    decreases |keys|
  {
    hide CloseOpen;
    if keys != [] {
      var m0 := SetPending(m, keys[0], None);
      CloseOpenKeepsNames(m0, keys[0], None);
      CloseOpenKeys(m0, keys[0], None);
      CloseAllKeepsNames(CloseOpen(m0, keys[0], None), keys[1..]);
    }
  }

  /** How many rows of the same task come before row `i`: the retirements of the task until then. */
  function Reuses(rows: seq<ThreadState>, i: nat): nat
    requires i < |rows|
  {
    Count(rows[..i], (rows[i].pid, rows[i].tid))
  }

  /** Each row is numbered by its tid and by how often its task had been retired before. */
  predicate NumberedByReuse(rows: seq<ThreadState>) {
    forall i :: 0 <= i < |rows| ==> rows[i].id == ThreadId(rows[i].tid, Reuses(rows, i))
  }

  lemma {:induction false} CountConcat(a: seq<ThreadState>, b: seq<ThreadState>, k: Key)
    ensures Count(a + b, k) == Count(a, k) + Count(b, k)
    decreases |b|
  {
    if b == [] {
      assert a + b == a;
    } else {
      CountConcat(a, b[..|b| - 1], k);
      assert (a + b)[..|a + b| - 1] == a + b[..|b| - 1];
    }
  }

  lemma {:induction false} CountOthers(rows: seq<ThreadState>, k: Key)
    requires forall i :: 0 <= i < |rows| ==> (rows[i].pid, rows[i].tid) != k
    ensures Count(rows, k) == 0
  {
    if rows != [] { CountOthers(rows[..|rows| - 1], k); }
  }

  lemma {:induction false} CountMonotone(rows: seq<ThreadState>, i: nat, j: nat, k: Key)
    requires i <= j <= |rows|
    ensures Count(rows[..i], k) <= Count(rows[..j], k)
    ensures i < j && (rows[i].pid, rows[i].tid) == k ==> Count(rows[..i], k) < Count(rows[..j], k)
    decreases j - i
  {
    if i < j {
      CountMonotone(rows, i, j - 1, k);
      assert rows[..j][..j - 1] == rows[..j - 1];
    }
  }

  lemma RowNumbered(r: Recon, m: State, i: nat)
    requires GenerationsOk(r) && Table(r.m.threads, r.m.order)
    requires m.retired == r.m.retired && NamesKept(r.m.threads, m.threads)
    requires i < |m.retired + Rows(m, r.m.order)|
    ensures var rows := m.retired + Rows(m, r.m.order); rows[i].id == ThreadId(rows[i].tid, Reuses(rows, i))
  {
    hide Count;
    var n, live := |m.retired|, Rows(m, r.m.order);
    var rows := m.retired + live;
    if i < n {
      assert rows[..i] == m.retired[..i];
      assert IsGeneration(m.retired[i], Count(m.retired[..i], (m.retired[i].pid, m.retired[i].tid)));
    } else {
      var key := r.m.order[i - n];
      assert SameName(r.m.threads[key], rows[i]);
      var earlier := live[..i - n];
      assert rows[..i] == m.retired + earlier;
      CountConcat(m.retired, earlier, key);
      forall j | 0 <= j < |earlier| ensures (earlier[j].pid, earlier[j].tid) != key {
        assert SameName(r.m.threads[r.m.order[j]], live[j]);
      }
      CountOthers(earlier, key);
    }
  }

  /** When two rows share an id. */
  predicate Confused(rows: seq<ThreadState>, i: nat, j: nat)
    requires i < |rows| && j < |rows|
  {
    rows[i].tid == rows[j].tid && rows[i].pid != rows[j].pid && Reuses(rows, i) == Reuses(rows, j)
  }

  lemma ConfusedIff(rows: seq<ThreadState>, i: nat, j: nat)
    requires NumberedByReuse(rows) && i < j < |rows|
    ensures rows[i].id == rows[j].id <==> Confused(rows, i, j)
  {
    hide Count;
    if rows[i].pid == rows[j].pid && rows[i].tid == rows[j].tid {
      CountMonotone(rows, i, j, (rows[i].pid, rows[i].tid));
    }
  }

  /**
   * For every record stream: two rows share an id exactly if their tids are equal, their processes differ,
   * and both tasks had been reused equally often.
   */
  lemma ThreadIdsSharedIff(images: seq<Image>, filter: Option<Tracker>, recs: seq<Record>)
    ensures var r := PushAll(images, New(filter), recs);
            && (forall k :: k in r.m.order <==> k in r.m.threads)
            && (Finish(r).Ok? ==>
                  var rows := Finish(r).value.threads;
                  NumberedByReuse(rows) && forall i, j :: 0 <= i < j < |rows| ==>
                    (rows[i].id == rows[j].id <==> Confused(rows, i, j)))
  {
    hide New, ReconInv, Finish, Confused;
    AnyRun(images, filter, recs);
    var r := PushAll(images, New(filter), recs);
    ClosedHasInv(images, r, true);
    if Finish(r).Ok? {
      FinishedRows(images, r);
      var rows := Finish(r).value.threads;
      hide NumberedByReuse;
      forall i: nat, j: nat | i < j < |rows| ensures rows[i].id == rows[j].id <==> Confused(rows, i, j) {
        ConfusedIff(rows, i, j);
      }
    }
  }

  lemma FinishedRows(images: seq<Image>, r: Recon)
    requires ReconInv(images, r, true) && (forall k :: k in r.m.order <==> k in r.m.threads) && Finish(r).Ok?
    ensures NumberedByReuse(Finish(r).value.threads)
    ensures |Finish(r).value.threads| == |r.m.retired| + |r.m.order|
    ensures forall i :: 0 <= i < |r.m.order| ==>
              SameName(r.m.threads[r.m.order[i]], Finish(r).value.threads[|r.m.retired| + i])
  {
    hide Inv, NamesKept, CloseAll, AllRebasable, TablesInv, GenerationsOk, Reuses;
    InvTally(r.m, r.minAbs, true);
    ClosedHasInv(images, r, true);
    CloseAllKeepsNames(r.m, r.m.order);
    CloseAllKeys(r.m, r.m.order);
    var m := Closed(r);
    var rows := Finish(r).value.threads;
    assert rows == m.retired + Rows(m, r.m.order);
    forall i: nat | i < |rows| ensures rows[i].id == ThreadId(rows[i].tid, Reuses(rows, i)) {
      RowNumbered(r, m, i);
    }
    NamesAt(r, m);
  }

  lemma NamesAt(r: Recon, m: State)
    requires NamesKept(r.m.threads, m.threads) && forall k :: k in r.m.order ==> k in r.m.threads
    ensures forall i :: 0 <= i < |r.m.order| ==>
              SameName(r.m.threads[r.m.order[i]], (m.retired + Rows(m, r.m.order))[|m.retired| + i])
  {}

  function PlainSample(pid: nat, tid: nat, time: nat): Record {
    SampleRecord(Sample(pid, tid, None, Some(time), None, None, {}))
  }

  const COLLIDING := [PlainSample(1, 7, 10), PlainSample(2, 7, 20)]

  /** Two processes whose threads had the same number give an analysis with two rows of one id. */
  lemma ThreadIdsCanCollide(images: seq<Image>)
    ensures var r := PushAll(images, New(None), COLLIDING);
            && (forall k :: k in r.m.order <==> k in r.m.threads) && Finish(r).Ok?
            && var rows := Finish(r).value.threads;
            && |rows| == 2 && rows[0].pid == 1 && rows[1].pid == 2 && rows[0].id == rows[1].id == ThreadId(7, 0)
  {
    hide ReconInv, Finish, PushAll, New, Earliest, NumberedByReuse;
    var r := PushAll(images, New(None), COLLIDING);
    AnyRun(images, None, COLLIDING);
    ClosedHasInv(images, r, true);
    CollidingTable(images);
    FinishSucceedsIff(images, None, COLLIDING);
    CollidingTime();
    FinishedRows(images, r);
  }

  lemma CollidingTime()
    ensures Earliest(None, COLLIDING, None).Some?
  {
    hide Earliest;
    EarliestIff(None, COLLIDING, 10);
    NoFilter(COLLIDING[..1]);
    assert KeptTime(None, COLLIDING, 0) == Some(10);
    assert Carried(None, COLLIDING, 10);
  }

  lemma CollidingTable(images: seq<Image>)
    ensures var r := PushAll(images, New(None), COLLIDING);
            && r.m.order == [(1, 7), (2, 7)] && r.m.retired == []
            && (forall k :: k in r.m.order ==>
                  k in r.m.threads && r.m.threads[k].id == ThreadId(7, 0) && r.m.threads[k].pid == k.0)
  {
    hide ApplyFlow, Advance, Touch, Resolve, Retain;
    var a, b := COLLIDING[0], COLLIDING[1];
    var r0 := New(None);
    FirstSample(images, r0, a.sample);
    var r1 := Push(images, r0, a);
    FirstSample(images, r1, b.sample);
    var r2 := Push(images, r1, b);
    assert COLLIDING[1..] == [b] && [b][1..] == [];
    assert PushAll(images, r1, [b]) == r2;
  }

  lemma FirstSample(images: seq<Image>, r: Recon, s: Sample)
    requires r.filter.None? && (s.pid, s.tid) !in r.m.threads && s.flags == {} && s.ip.None? && s.addr.None?
    requires r.generation == map[]
    ensures var r' := Push(images, r, SampleRecord(s));
            && r'.filter.None? && r'.generation == map[] && r'.m.order == r.m.order + [(s.pid, s.tid)]
            && r'.m.threads.Keys == r.m.threads.Keys + {(s.pid, s.tid)}
            && r'.m.threads[(s.pid, s.tid)].id == ThreadId(s.tid, 0) && r'.m.threads[(s.pid, s.tid)].pid == s.pid
            && r'.m.retired == r.m.retired
            && forall k :: k in r.m.threads ==>
                 r'.m.threads[k].id == r.m.threads[k].id && r'.m.threads[k].pid == r.m.threads[k].pid
  {
  }
}
