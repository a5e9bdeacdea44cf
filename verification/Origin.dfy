/**
 * Every stored time is at or after the earliest noted nonzero time, so that
 * rebasing onto it cannot underflow; only a literal zero time can slip below.
 */
module Origin {
  import opened TraceTypes
  import opened Machine
  import opened Lanes

  /** `zeros` says whether a time of exactly 0, which is never noted, is tolerated. */
  predicate Good(t: Option<nat>, min: Option<nat>, zeros: bool) {
    t.Some? ==> (zeros && t.value == 0) || (min.Some? && min.value <= t.value)
  }

  /** A ring hole may end before the origin, but only when it starts at time 0. */
  predicate GapGood(g: Gap, min: Option<nat>, zeros: bool) {
    Good(g.start, min, zeros) && (Good(g.end, min, zeros) || (zeros && g.start == Some(0)))
  }

  predicate SpanGood(s: Span, min: Option<nat>, zeros: bool) {
    Good(s.start, min, zeros) && Good(s.end, min, zeros)
  }

  /** The clock of a thread may stand at 0; no row is written from it then. */
  ghost predicate ThreadGood(th: ThreadState, min: Option<nat>, zeros: bool) {
    && Good(th.lastAbs, min, true)
    && (th.pendingEnd.Some? ==> Good(th.pendingEnd.value.abs, min, zeros))
    && (forall i :: 0 <= i < |th.stack| ==> Good(th.stack[i].start, min, zeros))
  }

  ghost predicate OriginInv(m: State, min: Option<nat>, zeros: bool) {
    && (min.Some? ==> min.value > 0)
    && (forall k :: k in m.threads ==> ThreadGood(m.threads[k], min, zeros))
    && (forall a :: 0 <= a < |m.events| ==> Good(m.events[a].time, min, zeros))
    && (forall a :: 0 <= a < |m.spans| ==> SpanGood(m.spans[a], min, zeros))
    && (forall a :: 0 <= a < |m.gaps| ==> GapGood(m.gaps[a], min, zeros))
  }

  /** `note_abs`: the earliest nonzero time seen so far. */
  function NoteAbs(min: Option<nat>, t: Option<nat>): Option<nat> {
    if t.Some? && t.value != 0 then
      if min.Some? && min.value <= t.value then min else t
    else min
  }

  lemma NoteKeepsOrigin(m: State, min: Option<nat>, zeros: bool, t: Option<nat>)
    requires OriginInv(m, min, zeros)
    ensures OriginInv(m, NoteAbs(min, t), zeros) && Good(t, NoteAbs(min, t), zeros || t == Some(0))
  {
    var min' := NoteAbs(min, t);
    forall k | k in m.threads
      ensures ThreadGood(m.threads[k], min', zeros)
    {
      assert ThreadGood(m.threads[k], min, zeros);
    }
  }

  lemma PushOpenKeepsOrigin(m: State, key: Key, func: Option<nat>, abs: Option<nat>, eid: nat,
                            c: Completeness, site: Option<nat>, min: Option<nat>, zeros: bool)
    requires key in m.threads && OriginInv(m, min, zeros) && Good(abs, min, zeros)
    ensures OriginInv(PushOpen(m, key, func, abs, eid, c, site), min, zeros)
  {
    assert ThreadGood(m.threads[key], min, zeros);
  }

  lemma PopEmitKeepsOrigin(m: State, key: Key, end: Option<nat>, endEvent: nat, c: Completeness,
                           min: Option<nat>, zeros: bool)
    requires key in m.threads && m.threads[key].stack != [] && OriginInv(m, min, zeros) && Good(end, min, zeros)
    ensures OriginInv(PopEmit(m, key, end, endEvent, c), min, zeros)
  {
    assert ThreadGood(m.threads[key], min, zeros);
  }

  lemma EmitUnmatchedKeepsOrigin(m: State, key: Key, func: Option<nat>, abs: Option<nat>, eid: nat,
                                 min: Option<nat>, zeros: bool)
    requires key in m.threads && OriginInv(m, min, zeros) && Good(abs, min, zeros)
    ensures OriginInv(EmitUnmatched(m, key, func, abs, eid), min, zeros)
  {
    assert ThreadGood(m.threads[key], min, zeros);
  }

  lemma ThreadGapKeepsOrigin(m: State, key: Key, kind: GapKind, start: Option<nat>, end: Option<nat>,
                             known: bool, min: Option<nat>, zeros: bool)
    requires key in m.threads && OriginInv(m, min, zeros)
    requires GapGood(Gap(0, UnknownThread, kind, start, end, known), min, zeros)
    ensures OriginInv(ThreadGap(m, key, kind, start, end, known), min, zeros)
  {
    assert ThreadGood(m.threads[key], min, zeros);
  }

  /** Replacing a thread by one whose times are good keeps the invariant. */
  lemma SetThreadKeepsOrigin(m: State, key: Key, th: ThreadState, min: Option<nat>, zeros: bool)
    requires OriginInv(m, min, zeros) && ThreadGood(th, min, zeros)
    ensures OriginInv(SetThread(m, key, th), min, zeros)
  {}
}
