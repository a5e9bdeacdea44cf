/**
 * Evidence integrity: the event ids a span names belong to retained events of
 * its own thread; and every parent a span names is a span of the same thread.
 */
module Evidence {
  import opened TraceTypes
  import opened Machine
  import opened Lanes
  import opened SpanIds

  ghost predicate Has(events: seq<FlowEvent>, id: nat, thread: ThreadId) {
    exists a :: 0 <= a < |events| && events[a].id == id && events[a].thread == thread
  }

  /** Retained events keep the order in which their ids were handed out. */
  ghost predicate EventIds(events: seq<FlowEvent>, next: nat) {
    && (forall a :: 0 <= a < |events| ==> events[a].id < next)
    && (forall a, b :: 0 <= a < b < |events| ==> events[a].id < events[b].id)
  }

  ghost predicate Backed(events: seq<FlowEvent>, s: Span) {
    s.startEvent <= s.endEvent && Has(events, s.startEvent, s.thread) && Has(events, s.endEvent, s.thread)
  }

  ghost predicate EvidenceInv(threads: Threads, spans: seq<Span>, events: seq<FlowEvent>, next: nat) {
    && EventIds(events, next)
    && (forall k, i :: 0 <= i < |StackOf(threads, k)| ==>
          Has(events, StackOf(threads, k)[i].startEvent, IdOf(threads, k)))
    && (forall a :: 0 <= a < |spans| ==> Backed(events, spans[a]))
  }

  lemma CalmKeepsEvidence(threads: Threads, threads': Threads, spans: seq<Span>, events: seq<FlowEvent>, next: nat)
    requires EvidenceInv(threads, spans, events, next) && Calm(threads, threads')
    ensures EvidenceInv(threads', spans, events, next)
  {
    forall k, i | 0 <= i < |StackOf(threads', k)|
      ensures Has(events, StackOf(threads', k)[i].startEvent, IdOf(threads', k))
    {
      assert Has(events, StackOf(threads, k)[i].startEvent, IdOf(threads, k));
    }
  }

  lemma RenamedKeepsEvidence(threads: Threads, threads': Threads, spans: seq<Span>, events: seq<FlowEvent>, next: nat)
    requires EvidenceInv(threads, spans, events, next) && Renamed(threads, threads')
    ensures EvidenceInv(threads', spans, events, next)
  {
    forall k, i | 0 <= i < |StackOf(threads', k)|
      ensures Has(events, StackOf(threads', k)[i].startEvent, IdOf(threads', k))
    {
      assert SameButName(StackOf(threads, k)[i], StackOf(threads', k)[i]);
      assert Has(events, StackOf(threads, k)[i].startEvent, IdOf(threads, k));
    }
  }

  lemma PushedKeepsEvidence(threads: Threads, threads': Threads, key: Key, f: Frame, spans: seq<Span>,
                            events: seq<FlowEvent>, next: nat)
    requires EvidenceInv(threads, spans, events, next) && Pushed(threads, threads', key, f)
    requires Has(events, f.startEvent, IdOf(threads, key))
    ensures EvidenceInv(threads', spans, events, next)
  {
    forall k, i | 0 <= i < |StackOf(threads', k)|
      ensures Has(events, StackOf(threads', k)[i].startEvent, IdOf(threads', k))
    {
      AfterPush(threads, threads', key, f, k, i);
      if i < |StackOf(threads, k)| { assert Has(events, StackOf(threads, k)[i].startEvent, IdOf(threads, k)); }
    }
  }

  /** The end event is the newest event, or the start event stands in for it. */
  lemma PoppedKeepsEvidence(threads: Threads, threads': Threads, key: Key, f: Frame, spans: seq<Span>, s: Span,
                            events: seq<FlowEvent>, next: nat)
    requires EvidenceInv(threads, spans, events, next) && Pushed(threads', threads, key, f)
    requires s.thread == IdOf(threads, key) && s.startEvent == f.startEvent
    requires s.endEvent == f.startEvent || (s.endEvent + 1 == next && Has(events, s.endEvent, s.thread))
    ensures EvidenceInv(threads', spans + [s], events, next)
  {
    var n := |StackOf(threads', key)|;
    assert StackOf(threads, key)[n] == f;
    assert Has(events, StackOf(threads, key)[n].startEvent, IdOf(threads, key));
    assert Backed(events, s);
    forall k, i | 0 <= i < |StackOf(threads', k)|
      ensures Has(events, StackOf(threads', k)[i].startEvent, IdOf(threads', k))
    {
      AfterPush(threads', threads, key, f, k, i);
      assert Has(events, StackOf(threads, k)[i].startEvent, IdOf(threads, k));
    }
  }

  lemma EmittedKeepsEvidence(threads: Threads, spans: seq<Span>, s: Span, events: seq<FlowEvent>, next: nat)
    requires EvidenceInv(threads, spans, events, next) && Backed(events, s)
    ensures EvidenceInv(threads, spans + [s], events, next)
  {}

  lemma HasGrows(events: seq<FlowEvent>, e: FlowEvent, id: nat, thread: ThreadId)
    requires Has(events, id, thread) || (e.id == id && e.thread == thread)
    ensures Has(events + [e], id, thread)
  {
    if e.id == id && e.thread == thread {
      assert (events + [e])[|events|] == e;
    } else {
      var a :| 0 <= a < |events| && events[a].id == id && events[a].thread == thread;
      assert (events + [e])[a] == events[a];
    }
  }

  /** Storing the event with the next id loses no evidence. */
  lemma EventKeepsEvidence(threads: Threads, spans: seq<Span>, events: seq<FlowEvent>, e: FlowEvent, next: nat)
    requires EvidenceInv(threads, spans, events, next) && e.id == next
    ensures EvidenceInv(threads, spans, events + [e], next + 1)
  {
    forall k, i | 0 <= i < |StackOf(threads, k)|
      ensures Has(events + [e], StackOf(threads, k)[i].startEvent, IdOf(threads, k))
    {
      HasGrows(events, e, StackOf(threads, k)[i].startEvent, IdOf(threads, k));
    }
    forall a | 0 <= a < |spans|
      ensures Backed(events + [e], spans[a])
    {
      assert Backed(events, spans[a]);
      HasGrows(events, e, spans[a].startEvent, spans[a].thread);
      HasGrows(events, e, spans[a].endEvent, spans[a].thread);
    }
  }

  // ----- lineage -----

  /** Span `p` of `thread` has been emitted. */
  ghost predicate EmittedOn(spans: seq<Span>, p: nat, thread: ThreadId) {
    exists b :: 0 <= b < |spans| && spans[b].id == p && spans[b].thread == thread
  }

  /** Span `p` of `thread` is open. */
  ghost predicate OpenOn(threads: Threads, p: nat, thread: ThreadId) {
    exists k, i :: 0 <= i < |StackOf(threads, k)| && StackOf(threads, k)[i].id == p && IdOf(threads, k) == thread
  }

  ghost predicate Kin(threads: Threads, spans: seq<Span>, s: Span) {
    s.parent.Some? ==> EmittedOn(spans, s.parent.value, s.thread) || OpenOn(threads, s.parent.value, s.thread)
  }

  ghost predicate LineageInv(threads: Threads, spans: seq<Span>) {
    forall a :: 0 <= a < |spans| ==> Kin(threads, spans, spans[a])
  }

  lemma CalmKeepsLineage(threads: Threads, threads': Threads, spans: seq<Span>)
    requires LineageInv(threads, spans) && Calm(threads, threads')
    ensures LineageInv(threads', spans)
  {
    forall a | 0 <= a < |spans| && spans[a].parent.Some? && OpenOn(threads, spans[a].parent.value, spans[a].thread)
      ensures OpenOn(threads', spans[a].parent.value, spans[a].thread)
    {
      var k, i :| 0 <= i < |StackOf(threads, k)| && StackOf(threads, k)[i].id == spans[a].parent.value
                  && IdOf(threads, k) == spans[a].thread;
      assert StackOf(threads', k)[i] == StackOf(threads, k)[i];
    }
  }

  lemma RenamedKeepsLineage(threads: Threads, threads': Threads, spans: seq<Span>)
    requires LineageInv(threads, spans) && Renamed(threads, threads')
    ensures LineageInv(threads', spans)
  {
    forall a | 0 <= a < |spans| && spans[a].parent.Some? && OpenOn(threads, spans[a].parent.value, spans[a].thread)
      ensures OpenOn(threads', spans[a].parent.value, spans[a].thread)
    {
      var k, i :| 0 <= i < |StackOf(threads, k)| && StackOf(threads, k)[i].id == spans[a].parent.value
                  && IdOf(threads, k) == spans[a].thread;
      assert SameButName(StackOf(threads, k)[i], StackOf(threads', k)[i]);
    }
  }

  lemma PushedKeepsLineage(threads: Threads, threads': Threads, key: Key, f: Frame, spans: seq<Span>)
    requires LineageInv(threads, spans) && Pushed(threads, threads', key, f)
    ensures LineageInv(threads', spans)
  {
    forall a | 0 <= a < |spans| && spans[a].parent.Some? && OpenOn(threads, spans[a].parent.value, spans[a].thread)
      ensures OpenOn(threads', spans[a].parent.value, spans[a].thread)
    {
      var k, i :| 0 <= i < |StackOf(threads, k)| && StackOf(threads, k)[i].id == spans[a].parent.value
                  && IdOf(threads, k) == spans[a].thread;
      assert StackOf(threads', k)[i] == StackOf(threads, k)[i];
    }
  }

  /** The popped frame stays findable: what was open on its thread is now emitted there. */
  lemma PoppedKin(threads: Threads, threads': Threads, key: Key, f: Frame, spans: seq<Span>, s: Span, c: Span)
    requires Pushed(threads', threads, key, f) && Kin(threads, spans, c)
    requires s.id == f.id && s.thread == IdOf(threads, key)
    ensures Kin(threads', spans + [s], c)
  {
    if c.parent.Some? {
      var t := spans + [s];
      if EmittedOn(spans, c.parent.value, c.thread) {
        var b :| 0 <= b < |spans| && spans[b].id == c.parent.value && spans[b].thread == c.thread;
        assert t[b] == spans[b];
      } else {
        var k, i :| 0 <= i < |StackOf(threads, k)| && StackOf(threads, k)[i].id == c.parent.value
                    && IdOf(threads, k) == c.thread;
        AfterPush(threads', threads, key, f, k, i);
        if k == key && i == |StackOf(threads', k)| {
          assert t[|spans|] == s;
        } else {
          assert StackOf(threads', k)[i].id == c.parent.value;
        }
      }
    }
  }

  lemma PoppedKeepsLineage(threads: Threads, threads': Threads, key: Key, f: Frame, spans: seq<Span>, s: Span,
                           next: nat)
    requires LineageInv(threads, spans) && OpenOk(threads, next) && Pushed(threads', threads, key, f)
    requires s.id == f.id && s.thread == IdOf(threads, key) && s.parent == f.parent
    ensures LineageInv(threads', spans + [s])
  {
    var n := |StackOf(threads', key)|;
    assert StackOk(StackOf(threads, key), next);
    assert f == StackOf(threads, key)[n] && f.parent == ParentAt(StackOf(threads, key), n);
    if n > 0 { assert StackOf(threads', key)[n - 1] == StackOf(threads, key)[n - 1]; }
    forall a | 0 <= a < |spans + [s]|
      ensures Kin(threads', spans + [s], (spans + [s])[a])
    {
      if a < |spans| { PoppedKin(threads, threads', key, f, spans, s, spans[a]); }
    }
  }

  lemma RootKeepsLineage(threads: Threads, spans: seq<Span>, s: Span)
    requires LineageInv(threads, spans) && s.parent.None?
    ensures LineageInv(threads, spans + [s])
  {
    forall a | 0 <= a < |spans|
      ensures Kin(threads, spans + [s], spans[a])
    {
      assert Kin(threads, spans, spans[a]);
      if spans[a].parent.Some? && EmittedOn(spans, spans[a].parent.value, spans[a].thread) {
        var b :| 0 <= b < |spans| && spans[b].id == spans[a].parent.value && spans[b].thread == spans[a].thread;
        assert (spans + [s])[b] == spans[b];
      }
    }
  }
}
