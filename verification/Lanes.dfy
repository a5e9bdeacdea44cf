/** The stacks of all tasks seen as one total map, and the ways a step can change them. */
module Lanes {
  import opened TraceTypes
  import opened Machine

  type Threads = map<Key, ThreadState>

  /** The stack of a task; empty when the task is not in the table. */
  function StackOf(threads: Threads, k: Key): seq<Frame> {
    if k in threads then threads[k].stack else []
  }

  /** The last known sample time of a task. */
  function LastOf(threads: Threads, k: Key): Option<nat> {
    if k in threads then threads[k].lastAbs else None
  }

  function IdOf(threads: Threads, k: Key): ThreadId {
    if k in threads then threads[k].id else UnknownThread
  }

  /** `a` is unknown, or known and not after the known time `last`. */
  predicate Reached(a: Option<nat>, last: Option<nat>) {
    a.Some? ==> last.Some? && a.value <= last.value
  }

  /** `f` was pushed on the stack of `key`; nothing else in any lane changed. */
  ghost predicate Pushed(threads: Threads, threads': Threads, key: Key, f: Frame) {
    && StackOf(threads', key) == StackOf(threads, key) + [f]
    && (forall k :: k != key ==> StackOf(threads', k) == StackOf(threads, k))
    && (forall k :: LastOf(threads', k) == LastOf(threads, k))
    && (forall k :: IdOf(threads', k) == IdOf(threads, k))
  }

  /** No stack changed; under a non-empty stack the clock did not run backwards. */
  ghost predicate Calm(threads: Threads, threads': Threads) {
    && (forall k :: StackOf(threads', k) == StackOf(threads, k))
    && (forall k :: StackOf(threads, k) != [] ==>
          IdOf(threads', k) == IdOf(threads, k) && Reached(LastOf(threads, k), LastOf(threads', k)))
  }

  predicate SameButName(f: Frame, f': Frame) {
    f' == f.(func := f'.func)
  }

  /** Only function names inside frames changed. */
  ghost predicate Renamed(threads: Threads, threads': Threads) {
    && (forall k :: |StackOf(threads', k)| == |StackOf(threads, k)|)
    && (forall k, i :: 0 <= i < |StackOf(threads', k)| ==> SameButName(StackOf(threads, k)[i], StackOf(threads', k)[i]))
    && (forall k :: LastOf(threads', k) == LastOf(threads, k))
    && (forall k :: IdOf(threads', k) == IdOf(threads, k))
  }

  lemma PushOpenPushes(m: State, key: Key, func: Option<nat>, abs: Option<nat>, eid: nat,
                       c: Completeness, site: Option<nat>)
    requires key in m.threads
    ensures var r := PushOpen(m, key, func, abs, eid, c, site);
            Pushed(m.threads, r.threads, key, r.threads[key].Top())
  {}

  lemma PopEmitPops(m: State, key: Key, end: Option<nat>, endEvent: nat, c: Completeness)
    requires key in m.threads && m.threads[key].stack != []
    ensures var r := PopEmit(m, key, end, endEvent, c);
            Pushed(r.threads, m.threads, key, m.threads[key].Top())
  {}

  lemma RenameTopRenames(m: State, key: Key, func: nat)
    requires key in m.threads && m.threads[key].stack != []
    ensures Renamed(m.threads, RenameTop(m, key, func).threads)
  {}

  /** A frame after a push is an old frame of the same lane, or the new one. */
  lemma AfterPush(threads: Threads, threads': Threads, key: Key, f: Frame, k: Key, i: nat)
    requires Pushed(threads, threads', key, f) && i < |StackOf(threads', k)|
    ensures if k == key && i == |StackOf(threads, k)| then StackOf(threads', k)[i] == f
            else i < |StackOf(threads, k)| && StackOf(threads', k)[i] == StackOf(threads, k)[i]
  {}
}
