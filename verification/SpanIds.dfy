/**
 * Span conservation: at any time every allocated span id is either on exactly
 * one stack or emitted exactly once, and a frame's parent is the frame below it.
 */
module SpanIds {
  import opened TraceTypes
  import opened Machine
  import opened Lanes

  ghost predicate Emitted(spans: seq<Span>, id: nat) {
    exists a :: 0 <= a < |spans| && spans[a].id == id
  }

  ghost predicate IsOpen(threads: Threads, id: nat) {
    exists k, i :: 0 <= i < |StackOf(threads, k)| && StackOf(threads, k)[i].id == id
  }

  function ParentAt(stack: seq<Frame>, i: nat): Option<nat>
    requires i < |stack|
  {
    if i == 0 then None else Some(stack[i - 1].id)
  }

  /** Emitted ids are distinct and allocated, and a parent's id is below its child's. */
  ghost predicate EmittedOk(spans: seq<Span>, next: nat) {
    && (forall a, b :: 0 <= a < b < |spans| ==> spans[a].id != spans[b].id)
    && (forall a :: 0 <= a < |spans| ==>
          spans[a].id < next && (spans[a].parent.Some? ==> spans[a].parent.value < spans[a].id))
  }

  /** Ids grow up a stack, and each frame's parent is the frame below it. */
  ghost predicate StackOk(stack: seq<Frame>, next: nat) {
    && (forall i :: 0 <= i < |stack| ==> stack[i].id < next && stack[i].parent == ParentAt(stack, i))
    && (forall i, j :: 0 <= i < j < |stack| ==> stack[i].id < stack[j].id)
  }

  /** Every stack is well linked, and no two stacks share an id. */
  ghost predicate OpenOk(threads: Threads, next: nat) {
    && (forall k :: StackOk(StackOf(threads, k), next))
    && (forall k, l, i, j :: k != l && 0 <= i < |StackOf(threads, k)| && 0 <= j < |StackOf(threads, l)| ==>
          StackOf(threads, k)[i].id != StackOf(threads, l)[j].id)
  }

  /** No id is both open and emitted. */
  ghost predicate Apart(threads: Threads, spans: seq<Span>) {
    forall k, i, a :: 0 <= i < |StackOf(threads, k)| && 0 <= a < |spans| ==>
      StackOf(threads, k)[i].id != spans[a].id
  }

  /** Every allocated id is open or emitted. */
  ghost predicate Covered(threads: Threads, spans: seq<Span>, next: nat) {
    forall id: nat :: id < next ==> Emitted(spans, id) || IsOpen(threads, id)
  }

  ghost predicate Ids(threads: Threads, spans: seq<Span>, next: nat) {
    && EmittedOk(spans, next)
    && OpenOk(threads, next)
    && Apart(threads, spans)
    && Covered(threads, spans, next)
  }

  lemma CalmKeepsIds(threads: Threads, threads': Threads,
                          spans: seq<Span>, next: nat)
    requires Ids(threads, spans, next) && Calm(threads, threads')
    ensures Ids(threads', spans, next)
  {
    forall k
      ensures StackOk(StackOf(threads', k), next)
    {
      assert StackOk(StackOf(threads, k), next);
    }
    forall id: nat | id < next && !Emitted(spans, id)
      ensures IsOpen(threads', id)
    {
      var k, i :| 0 <= i < |StackOf(threads, k)| && StackOf(threads, k)[i].id == id;
      assert StackOf(threads', k)[i].id == id;
    }
  }

  lemma EmittedGrows(spans: seq<Span>, s: Span, id: nat)
    requires Emitted(spans, id) || s.id == id
    ensures Emitted(spans + [s], id)
  {
    if s.id == id {
      assert (spans + [s])[|spans|].id == id;
    } else {
      var a :| 0 <= a < |spans| && spans[a].id == id;
      assert (spans + [s])[a].id == id;
    }
  }

  lemma PushedStackOk(stack: seq<Frame>, f: Frame, next: nat)
    requires StackOk(stack, next) && f.id == next && f.parent == ParentAt(stack + [f], |stack|)
    ensures StackOk(stack + [f], next + 1)
  {
    hide ParentAt;
    var s := stack + [f];
    forall i | 0 <= i < |s|
      ensures s[i].id < next + 1 && s[i].parent == ParentAt(s, i)
    {
      if i < |stack| {
        assert stack[i].parent == ParentAt(stack, i);
        ParentBelow(stack, f, i);
      }
    }
  }

  lemma ParentBelow(stack: seq<Frame>, f: Frame, i: nat)
    requires i < |stack|
    ensures ParentAt(stack + [f], i) == ParentAt(stack, i)
  {}

  lemma PushedOpenOk(threads: Threads, threads': Threads, key: Key, f: Frame, next: nat)
    requires OpenOk(threads, next) && Pushed(threads, threads', key, f)
    requires f.id == next && f.parent == ParentAt(StackOf(threads', key), |StackOf(threads, key)|)
    ensures OpenOk(threads', next + 1)
  {
    PushedStackOk(StackOf(threads, key), f, next);
    forall k, l, i, j | k != l && 0 <= i < |StackOf(threads', k)| && 0 <= j < |StackOf(threads', l)|
      ensures StackOf(threads', k)[i].id != StackOf(threads', l)[j].id
    {
      AfterPush(threads, threads', key, f, k, i);
      AfterPush(threads, threads', key, f, l, j);
      assert StackOk(StackOf(threads, k), next) && StackOk(StackOf(threads, l), next);
    }
  }

  lemma PoppedOpenOk(threads: Threads, threads': Threads, key: Key, f: Frame, next: nat)
    requires OpenOk(threads, next) && Pushed(threads', threads, key, f)
    ensures OpenOk(threads', next)
  {
    forall k
      ensures StackOk(StackOf(threads', k), next)
    {
      var s, s' := StackOf(threads, k), StackOf(threads', k);
      assert StackOk(s, next);
      forall i | 0 <= i < |s'|
        ensures s'[i] == s[i] && s'[i].parent == ParentAt(s', i)
      {
        assert s[i].parent == ParentAt(s, i);
      }
    }
    forall k, i | 0 <= i < |StackOf(threads', k)|
      ensures StackOf(threads', k)[i] == StackOf(threads, k)[i]
    {}
  }

  lemma RenamedKeepsIds(threads: Threads, threads': Threads,
                           spans: seq<Span>, next: nat)
    requires Ids(threads, spans, next) && Renamed(threads, threads')
    ensures Ids(threads', spans, next)
  {
    forall k
      ensures StackOk(StackOf(threads', k), next)
    {
      var s, s' := StackOf(threads, k), StackOf(threads', k);
      assert StackOk(s, next);
      forall i | 0 <= i < |s'|
        ensures s'[i].id == s[i].id && s'[i].parent == ParentAt(s', i)
      {
        assert s[i].parent == ParentAt(s, i);
        assert SameButName(StackOf(threads, k)[i], StackOf(threads', k)[i]);
        if i > 0 { assert SameButName(StackOf(threads, k)[i - 1], StackOf(threads', k)[i - 1]); }
      }
    }
    RenamedKeepsCover(threads, threads', spans, next);
  }

  lemma RenamedKeepsCover(threads: Threads, threads': Threads,
                             spans: seq<Span>, next: nat)
    requires Covered(threads, spans, next) && Renamed(threads, threads')
    ensures Covered(threads', spans, next)
  {
    forall id: nat | id < next && !Emitted(spans, id)
      ensures IsOpen(threads', id)
    {
      var k, i :| 0 <= i < |StackOf(threads, k)| && StackOf(threads, k)[i].id == id;
      assert StackOf(threads', k)[i].id == id;
    }
  }

  lemma PushedIsOpen(threads: Threads, threads': Threads, key: Key, f: Frame, id: nat)
    requires Pushed(threads, threads', key, f)
    ensures f.id == id ==> IsOpen(threads', id)
    ensures IsOpen(threads, id) ==> IsOpen(threads', id)
    ensures IsOpen(threads', id) ==> IsOpen(threads, id) || f.id == id
  {
    if f.id == id {
      assert StackOf(threads', key)[|StackOf(threads, key)|].id == id;
    }
    if IsOpen(threads, id) {
      var k, i :| 0 <= i < |StackOf(threads, k)| && StackOf(threads, k)[i].id == id;
      assert StackOf(threads', k)[i].id == id;
    }
    if IsOpen(threads', id) {
      var k, i :| 0 <= i < |StackOf(threads', k)| && StackOf(threads', k)[i].id == id;
      AfterPush(threads, threads', key, f, k, i);
    }
  }

  lemma PushedApart(threads: Threads, threads': Threads, key: Key, f: Frame, spans: seq<Span>, next: nat)
    requires Apart(threads, spans) && EmittedOk(spans, next) && Pushed(threads, threads', key, f) && f.id == next
    ensures Apart(threads', spans)
  {
    forall k, i, a | 0 <= i < |StackOf(threads', k)| && 0 <= a < |spans|
      ensures StackOf(threads', k)[i].id != spans[a].id
    {
      AfterPush(threads, threads', key, f, k, i);
    }
  }

  lemma PoppedApart(threads: Threads, threads': Threads, key: Key, f: Frame, spans: seq<Span>, s: Span, next: nat)
    requires OpenOk(threads, next) && Apart(threads, spans) && Pushed(threads', threads, key, f) && s.id == f.id
    ensures Apart(threads', spans + [s])
    ensures forall a :: 0 <= a < |spans| ==> spans[a].id != s.id
  {
    var n := |StackOf(threads', key)|;
    assert StackOf(threads, key)[n] == f;
    assert StackOk(StackOf(threads, key), next);
    forall k, i, a | 0 <= i < |StackOf(threads', k)| && 0 <= a < |spans| + 1
      ensures StackOf(threads', k)[i].id != (spans + [s])[a].id
    {
      assert StackOf(threads', k)[i] == StackOf(threads, k)[i];
      if a == |spans| && k != key { assert StackOf(threads, k)[i].id != StackOf(threads, key)[n].id; }
    }
  }

  lemma EmitKeepsOk(spans: seq<Span>, s: Span, next: nat)
    requires EmittedOk(spans, next) && s.id < next && (s.parent.Some? ==> s.parent.value < s.id)
    requires forall a :: 0 <= a < |spans| ==> spans[a].id != s.id
    ensures EmittedOk(spans + [s], next)
  {}

  // ----- each kind of change keeps the ids -----

  lemma PushedKeepsIds(threads: Threads, threads': Threads, key: Key, f: Frame, spans: seq<Span>, next: nat)
    requires Ids(threads, spans, next) && Pushed(threads, threads', key, f)
    requires f.id == next && f.parent == ParentAt(StackOf(threads', key), |StackOf(threads, key)|)
    ensures Ids(threads', spans, next + 1)
  {
    PushedOpenOk(threads, threads', key, f, next);
    PushedApart(threads, threads', key, f, spans, next);
    PushedCovers(threads, threads', key, f, spans, next);
  }

  lemma PushedCovers(threads: Threads, threads': Threads, key: Key, f: Frame, spans: seq<Span>, next: nat)
    requires Covered(threads, spans, next) && Pushed(threads, threads', key, f) && f.id == next
    ensures Covered(threads', spans, next + 1)
  {
    forall id: nat | id < next + 1
      ensures Emitted(spans, id) || IsOpen(threads', id)
    {
      PushedIsOpen(threads, threads', key, f, id);
    }
  }

  lemma PoppedKeepsIds(threads: Threads, threads': Threads, key: Key, f: Frame, spans: seq<Span>, s: Span, next: nat)
    requires Ids(threads, spans, next) && Pushed(threads', threads, key, f) && s.id == f.id && s.parent == f.parent
    ensures Ids(threads', spans + [s], next)
  {
    PoppedOpenOk(threads, threads', key, f, next);
    PoppedApart(threads, threads', key, f, spans, s, next);
    TopIsLinked(StackOf(threads, key), next);
    assert StackOk(StackOf(threads, key), next);
    EmitKeepsOk(spans, s, next);
    PoppedCovers(threads, threads', key, f, spans, s, next);
  }

  lemma PoppedCovers(threads: Threads, threads': Threads, key: Key, f: Frame, spans: seq<Span>, s: Span, next: nat)
    requires Covered(threads, spans, next) && Pushed(threads', threads, key, f) && s.id == f.id
    ensures Covered(threads', spans + [s], next)
  {
    forall id: nat | id < next
      ensures Emitted(spans + [s], id) || IsOpen(threads', id)
    {
      PushedIsOpen(threads', threads, key, f, id);
      if Emitted(spans, id) || s.id == id { EmittedGrows(spans, s, id); }
    }
  }

  lemma TopIsLinked(s: seq<Frame>, next: nat)
    requires StackOk(s, next) && s != []
    ensures var top := s[|s| - 1];
            top.id < next && (top.parent.Some? ==> top.parent.value < top.id) && top.parent == ParentAt(s, |s| - 1)
  {
    if |s| > 1 { assert s[|s| - 2].id < s[|s| - 1].id; }
  }

  /** A span that was never open takes the next id. */
  lemma AllocatedKeepsIds(threads: Threads, spans: seq<Span>, s: Span, next: nat)
    requires Ids(threads, spans, next) && s.id == next && s.parent.None?
    ensures Ids(threads, spans + [s], next + 1)
  {
    EmitKeepsOk(spans, s, next + 1);
    forall k
      ensures StackOk(StackOf(threads, k), next + 1)
    {
      assert StackOk(StackOf(threads, k), next);
    }
    forall k, i, a | 0 <= i < |StackOf(threads, k)| && 0 <= a < |spans| + 1
      ensures StackOf(threads, k)[i].id != (spans + [s])[a].id
    {
      assert StackOk(StackOf(threads, k), next);
    }
    forall id: nat | id < next + 1
      ensures Emitted(spans + [s], id) || IsOpen(threads, id)
    {
      if Emitted(spans, id) || s.id == id { EmittedGrows(spans, s, id); }
    }
  }
}
