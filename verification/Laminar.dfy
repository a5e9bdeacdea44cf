/**
 * Complete spans with known times are laminar, whatever the record stream: a
 * child lies inside its parent and siblings do not overlap.  The reason is that
 * a clock that runs backwards empties the stack before the new time is used.
 */
module Laminar {
  import opened TraceTypes
  import opened Machine
  import opened Lanes
  import opened SpanIds

  /** A span that the analyses may measure. */
  predicate Timed(s: Span) {
    s.completeness == Complete && s.start.Some? && s.end.Some?
  }

  /** Open frames hold only the two labels; called frames started in stack order, not after `last`. */
  ghost predicate StackTimes(stack: seq<Frame>, last: Option<nat>) {
    && (forall i :: 0 <= i < |stack| ==> stack[i].completeness == OpenEnd || stack[i].completeness == OpenStart)
    && (forall i :: 0 <= i < |stack| && stack[i].completeness == OpenEnd ==> Reached(stack[i].start, last))
    && (forall i, j :: 0 <= i < j < |stack| && stack[i].completeness == OpenEnd && stack[j].completeness == OpenEnd ==>
          Leq(stack[i].start, stack[j].start))
  }

  /** How an emitted span `c` stands to an open frame `f` whose thread has reached `last`. */
  predicate Fits(f: Frame, last: Option<nat>, c: Span) {
    Timed(c) && c.parent.Some? ==>
      && (c.parent == Some(f.id) ==> Reached(c.end, last) && (f.completeness == OpenEnd ==> Leq(f.start, c.start)))
      && (c.parent == f.parent && f.completeness == OpenEnd ==> Leq(c.end, f.start) && c.id < f.id)
  }

  ghost predicate Cross(threads: Threads, spans: seq<Span>) {
    forall k, i, a :: 0 <= i < |StackOf(threads, k)| && 0 <= a < |spans| ==>
      Fits(StackOf(threads, k)[i], LastOf(threads, k), spans[a])
  }

  /** `child` and `parent` are measurable and linked. */
  predicate ChildOf(child: Span, parent: Span) {
    Timed(child) && Timed(parent) && child.parent == Some(parent.id)
  }

  predicate Siblings(s: Span, t: Span) {
    Timed(s) && Timed(t) && s.parent.Some? && s.parent == t.parent
  }

  /** The claim itself, about emitted spans only. */
  ghost predicate Nested(spans: seq<Span>) {
    && (forall a :: 0 <= a < |spans| && Timed(spans[a]) ==> spans[a].start.value <= spans[a].end.value)
    && (forall a, b :: 0 <= a < |spans| && 0 <= b < |spans| && ChildOf(spans[a], spans[b]) ==>
          spans[b].start.value <= spans[a].start.value && spans[a].end.value <= spans[b].end.value)
    && (forall a, b :: 0 <= a < b < |spans| && Siblings(spans[a], spans[b]) ==>
          spans[a].end.value <= spans[b].start.value && spans[a].id < spans[b].id)
  }

  ghost predicate LaminarInv(threads: Threads, spans: seq<Span>) {
    && (forall k :: StackTimes(StackOf(threads, k), LastOf(threads, k)))
    && Cross(threads, spans)
    && Nested(spans)
  }

  lemma CalmKeepsLaminar(threads: Threads, threads': Threads, spans: seq<Span>)
    requires LaminarInv(threads, spans) && Calm(threads, threads')
    ensures LaminarInv(threads', spans)
  {
    forall k
      ensures StackTimes(StackOf(threads', k), LastOf(threads', k))
    {
      assert StackTimes(StackOf(threads, k), LastOf(threads, k));
    }
    forall k, i, a | 0 <= i < |StackOf(threads', k)| && 0 <= a < |spans|
      ensures Fits(StackOf(threads', k)[i], LastOf(threads', k), spans[a])
    {
      assert Fits(StackOf(threads, k)[i], LastOf(threads, k), spans[a]);
    }
  }

  lemma RenamedKeepsLaminar(threads: Threads, threads': Threads, spans: seq<Span>)
    requires LaminarInv(threads, spans) && Renamed(threads, threads')
    ensures LaminarInv(threads', spans)
  {
    forall k
      ensures StackTimes(StackOf(threads', k), LastOf(threads', k))
    {
      assert StackTimes(StackOf(threads, k), LastOf(threads, k));
      assert forall i | 0 <= i < |StackOf(threads', k)| :: SameButName(StackOf(threads, k)[i], StackOf(threads', k)[i]);
    }
    forall k, i, a | 0 <= i < |StackOf(threads', k)| && 0 <= a < |spans|
      ensures Fits(StackOf(threads', k)[i], LastOf(threads', k), spans[a])
    {
      assert SameButName(StackOf(threads, k)[i], StackOf(threads', k)[i]);
      assert Fits(StackOf(threads, k)[i], LastOf(threads, k), spans[a]);
    }
  }

  /** A called frame starts at the time its thread has just reached. */
  lemma PushedKeepsLaminar(threads: Threads, threads': Threads, key: Key, f: Frame, spans: seq<Span>, next: nat)
    requires Ids(threads, spans, next) && LaminarInv(threads, spans) && Pushed(threads, threads', key, f)
    requires f.id == next && f.parent == ParentAt(StackOf(threads', key), |StackOf(threads, key)|)
    requires f.completeness == OpenEnd || f.completeness == OpenStart
    requires f.completeness == OpenEnd && f.start.Some? ==> LastOf(threads, key) == f.start
    ensures LaminarInv(threads', spans)
  {
    forall k
      ensures StackTimes(StackOf(threads', k), LastOf(threads', k))
    {
      assert StackTimes(StackOf(threads, k), LastOf(threads, k));
      if k == key { PushedStackTimes(StackOf(threads, key), f, LastOf(threads, key)); }
    }
    forall k, i, a | 0 <= i < |StackOf(threads', k)| && 0 <= a < |spans|
      ensures Fits(StackOf(threads', k)[i], LastOf(threads', k), spans[a])
    {
      AfterPush(threads, threads', key, f, k, i);
      if k == key && i == |StackOf(threads, k)| {
        if i > 0 { assert Fits(StackOf(threads, k)[i - 1], LastOf(threads, k), spans[a]); }
      } else {
        assert Fits(StackOf(threads, k)[i], LastOf(threads, k), spans[a]);
      }
    }
  }

  lemma PushedStackTimes(stack: seq<Frame>, f: Frame, last: Option<nat>)
    requires StackTimes(stack, last) && (f.completeness == OpenEnd || f.completeness == OpenStart)
    requires f.completeness == OpenEnd && f.start.Some? ==> last == f.start
    ensures StackTimes(stack + [f], last)
  {}

  /** A frame closed as Complete was called, and ends at the time its thread has just reached. */
  lemma PoppedKeepsLaminar(threads: Threads, threads': Threads, key: Key, f: Frame, spans: seq<Span>, s: Span,
                           next: nat)
    requires Ids(threads, spans, next) && LaminarInv(threads, spans) && Pushed(threads', threads, key, f)
    requires s.id == f.id && s.parent == f.parent && s.start == f.start
    requires s.completeness == Complete ==> f.completeness == OpenEnd
    requires s.completeness == Complete && s.end.Some? ==> LastOf(threads, key) == s.end
    ensures LaminarInv(threads', spans + [s])
  {
    forall k
      ensures StackTimes(StackOf(threads', k), LastOf(threads', k))
    {
      assert StackTimes(StackOf(threads, k), LastOf(threads, k));
      assert forall i | 0 <= i < |StackOf(threads', k)| :: StackOf(threads', k)[i] == StackOf(threads, k)[i];
    }
    forall k, i, a | 0 <= i < |StackOf(threads', k)| && 0 <= a < |spans + [s]|
      ensures Fits(StackOf(threads', k)[i], LastOf(threads', k), (spans + [s])[a])
    {
      AfterPush(threads', threads, key, f, k, i);
      if a < |spans| {
        assert Fits(StackOf(threads, k)[i], LastOf(threads, k), spans[a]);
      } else {
        PoppedFits(threads, threads', key, f, s, next, k, i, spans);
      }
    }
    PoppedNested(threads, threads', key, f, spans, s, next);
  }

  /** The new span fits under every frame that stays open. */
  lemma PoppedFits(threads: Threads, threads': Threads, key: Key, f: Frame, s: Span, next: nat, k: Key, i: nat,
                   spans: seq<Span>)
    requires OpenOk(threads, next) && LaminarInv(threads, spans) && Pushed(threads', threads, key, f)
    requires s.id == f.id && s.parent == f.parent && s.start == f.start
    requires s.completeness == Complete ==> f.completeness == OpenEnd
    requires s.completeness == Complete && s.end.Some? ==> LastOf(threads, key) == s.end
    requires i < |StackOf(threads', k)|
    ensures Fits(StackOf(threads', k)[i], LastOf(threads', k), s)
  {
    var n := |StackOf(threads', key)|;
    var st := StackOf(threads, key);
    AfterPush(threads', threads, key, f, k, i);
    assert StackOk(st, next) && StackOk(StackOf(threads, k), next);
    assert st[n] == f;
    assert f.parent == ParentAt(st, n);
    var g := StackOf(threads, k)[i];
    assert g.parent == ParentAt(StackOf(threads, k), i);
    if f.parent.Some? && k != key {
      assert st[n - 1].id != g.id;
      if i > 0 { assert st[n - 1].id != StackOf(threads, k)[i - 1].id; }
    }
    if k == key {
      assert StackTimes(st, LastOf(threads, key));
    }
  }

  lemma PoppedNested(threads: Threads, threads': Threads, key: Key, f: Frame, spans: seq<Span>, s: Span, next: nat)
    requires Ids(threads, spans, next) && LaminarInv(threads, spans) && Pushed(threads', threads, key, f)
    requires s.id == f.id && s.parent == f.parent && s.start == f.start
    requires s.completeness == Complete ==> f.completeness == OpenEnd
    requires s.completeness == Complete && s.end.Some? ==> LastOf(threads, key) == s.end
    ensures Nested(spans + [s])
  {
    var n := |StackOf(threads', key)|;
    var st := StackOf(threads, key);
    assert StackOk(st, next) && StackTimes(st, LastOf(threads, key)) && st[n] == f;
    assert f.parent == ParentAt(st, n);
    forall a | 0 <= a < |spans|
      ensures Fits(f, LastOf(threads, key), spans[a]) && spans[a].id != f.id && f.parent != Some(spans[a].id)
    {
      assert Fits(st[n], LastOf(threads, key), spans[a]);
      if n > 0 { assert st[n - 1].id != spans[a].id; }
    }
    AppendNested(f, LastOf(threads, key), spans, s);
  }

  lemma AppendNested(f: Frame, last: Option<nat>, spans: seq<Span>, s: Span)
    requires Nested(spans)
    requires s.id == f.id && s.parent == f.parent && s.start == f.start && f.parent != Some(f.id)
    requires s.completeness == Complete ==> f.completeness == OpenEnd && Reached(f.start, last)
    requires s.completeness == Complete && s.end.Some? ==> last == s.end
    requires forall a :: 0 <= a < |spans| ==> Fits(f, last, spans[a]) && f.parent != Some(spans[a].id)
    ensures Nested(spans + [s])
  {
    var t := spans + [s];
    forall a, b | 0 <= a < |t| && 0 <= b < |t| && ChildOf(t[a], t[b])
      ensures t[b].start.value <= t[a].start.value && t[a].end.value <= t[b].end.value
    {
      if a < |spans| { assert Fits(f, last, spans[a]); }
      if b < |spans| { assert Fits(f, last, spans[b]); }
    }
    forall a, b | 0 <= a < b < |t| && Siblings(t[a], t[b])
      ensures t[a].end.value <= t[b].start.value && t[a].id < t[b].id
    {
      assert Fits(f, last, spans[a]);
    }
  }

  /** A span that is not Complete constrains nothing. */
  lemma UncertainKeepsLaminar(threads: Threads, spans: seq<Span>, s: Span)
    requires LaminarInv(threads, spans) && s.completeness != Complete
    ensures LaminarInv(threads, spans + [s])
  {
    forall k, i, a | 0 <= i < |StackOf(threads, k)| && 0 <= a < |spans + [s]|
      ensures Fits(StackOf(threads, k)[i], LastOf(threads, k), (spans + [s])[a])
    {
      if a < |spans| { assert Fits(StackOf(threads, k)[i], LastOf(threads, k), spans[a]); }
    }
    forall a | 0 <= a < |spans + [s]| && Timed((spans + [s])[a])
      ensures a < |spans| && (spans + [s])[a] == spans[a]
    {}
  }
}
