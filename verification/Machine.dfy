/**
 * What one sample does to the per-thread stacks of open frames.  Every function
 * here is the specification of a method of the Reconstructor class.
 */
module Machine {
  import opened TraceTypes

  datatype Frame = Frame(
    id: nat,
    func: Option<nat>,
    parent: Option<nat>,
    start: Option<nat>,
    startEvent: nat,
    completeness: Completeness,
    callSite: Option<nat>)

  /** A trace end whose stack has not been unwound yet. */
  datatype PendingEnd = PendingEnd(fromFn: Option<nat>, fromLoc: Option<nat>, abs: Option<nat>, cpu: Option<nat>)

  datatype ThreadState = ThreadState(
    id: ThreadId,
    pid: nat,
    tid: nat,
    stack: seq<Frame>,
    lastAbs: Option<nat>,
    lastSeq: nat,
    firstAbs: Option<nat>,
    branches: nat,
    retained: nat,
    spans: nat,
    gaps: nat,
    pendingEnd: Option<PendingEnd>)
  {
    function Top(): Frame
      requires stack != []
    {
      stack[|stack| - 1]
    }
  }

  function NewThread(id: ThreadId, key: Key): ThreadState {
    ThreadState(id, key.0, key.1, [], None, 0, None, 0, 0, 0, 0, None)
  }

  datatype State = State(
    threads: map<Key, ThreadState>,
    order: seq<Key>,
    retired: seq<ThreadState>,
    events: seq<FlowEvent>,
    spans: seq<Span>,
    gaps: seq<Gap>,
    samples: nat,
    nextEvent: nat,
    nextSpan: nat,
    nextGap: nat)

  const EMPTY := State(map[], [], [], [], [], [], 0, 0, 0, 0)

  // ----- primitive steps -----

  function SetThread(m: State, key: Key, th: ThreadState): State {
    m.(threads := m.threads[key := th])
  }

  function SpanOf(f: Frame, thread: ThreadId, end: Option<nat>, endEvent: nat, completeness: Completeness): Span {
    Span(f.id, thread, f.func, f.parent, f.start, end, completeness, f.startEvent, endEvent, f.callSite)
  }

  /** The parent of a frame opened on this stack. */
  function ParentOf(stack: seq<Frame>): Option<nat> {
    if stack == [] then None else Some(stack[|stack| - 1].id)
  }

  /** Open a frame on top of the thread's stack; its parent is the frame below. */
  function PushOpen(m: State, key: Key, func: Option<nat>, abs: Option<nat>, eid: nat,
                    completeness: Completeness, site: Option<nat>): State
    requires key in m.threads
  {
    var th := m.threads[key];
    var frame := Frame(m.nextSpan, func, ParentOf(th.stack), abs, eid, completeness, site);
    SetThread(m, key, th.(stack := th.stack + [frame])).(nextSpan := m.nextSpan + 1)
  }

  /** Pop the top frame and emit its span. */
  function PopEmit(m: State, key: Key, end: Option<nat>, endEvent: nat, completeness: Completeness): State
    requires key in m.threads && m.threads[key].stack != []
  {
    var th := m.threads[key];
    SetThread(m, key, th.(stack := th.stack[..|th.stack| - 1], spans := th.spans + 1))
      .(spans := m.spans + [SpanOf(th.Top(), th.id, end, endEvent, completeness)])
  }

  /** A return with no open frame: the span is allocated and emitted at once. */
  function EmitUnmatched(m: State, key: Key, func: Option<nat>, abs: Option<nat>, eid: nat): State
    requires key in m.threads
  {
    var th := m.threads[key];
    SetThread(m, key, th.(spans := th.spans + 1))
      .(spans := m.spans + [Span(m.nextSpan, th.id, func, None, None, abs, UncertainUnwind, eid, eid, None)],
        nextSpan := m.nextSpan + 1)
  }

  function RenameTop(m: State, key: Key, func: nat): State
    requires key in m.threads && m.threads[key].stack != []
  {
    var th := m.threads[key];
    var top := |th.stack| - 1;
    SetThread(m, key, th.(stack := th.stack[top := th.stack[top].(func := Some(func))]))
  }

  function AddGap(m: State, thread: ThreadId, kind: GapKind, start: Option<nat>, end: Option<nat>,
                  extentKnown: bool): State
  {
    m.(gaps := m.gaps + [Gap(m.nextGap, thread, kind, start, end, extentKnown)], nextGap := m.nextGap + 1)
  }

  /** A gap charged to a thread of the table. */
  function ThreadGap(m: State, key: Key, kind: GapKind, start: Option<nat>, end: Option<nat>,
                     extentKnown: bool): State
    requires key in m.threads
  {
    var th := m.threads[key];
    SetThread(AddGap(m, th.id, kind, start, end, extentKnown), key, th.(gaps := th.gaps + 1))
  }

  function SetPending(m: State, key: Key, pending: Option<PendingEnd>): State
    requires key in m.threads
  {
    SetThread(m, key, m.threads[key].(pendingEnd := pending))
  }

  /** Continuity is lost: every open frame of the thread ends at an unknown time. */
  function Interrupt(m: State, key: Key): (r: State)
    requires key in m.threads
    ensures key in r.threads
    decreases |m.threads[key].stack|
  {
    var th := m.threads[key];
    if th.stack == [] then m
    else Interrupt(PopEmit(m, key, None, th.Top().startEvent, InterruptedByGap), key)
  }

  /** How a frame still open at thread exit or at the end of the trace is labelled. */
  function OpenLabel(c: Completeness): Completeness {
    if c == OpenStart || c == OpenBoth then OpenBoth else OpenEnd
  }

  /** Close every open frame of the thread at `end`, without an end event. */
  function CloseOpen(m: State, key: Key, end: Option<nat>): (r: State)
    requires key in m.threads
    ensures key in r.threads
    decreases |m.threads[key].stack|
  {
    var th := m.threads[key];
    if th.stack == [] then m
    else CloseOpen(PopEmit(m, key, end, th.Top().startEvent, OpenLabel(th.Top().completeness)), key, end)
  }

  function Without(order: seq<Key>, key: Key): seq<Key> {
    if order == [] then []
    else (if order[0] == key then [] else [order[0]]) + Without(order[1..], key)
  }

  /** The task exited: its frames close, and its row moves to the retired list. */
  function Retire(m: State, key: Key, abs: Option<nat>): State
    requires key in m.threads
  {
    var c := CloseOpen(m, key, abs);
    c.(threads := c.threads - {key},
       order := Without(c.order, key),
       retired := c.retired + [c.threads[key].(pendingEnd := None)])
  }

  // ----- applying one sample -----

  /** Everything `apply_flow` is told about one sample. */
  datatype Flow = Flow(
    kind: FlowKind,
    boundary: Boundary,
    from: Resolved,
    to: Resolved,
    abs: Option<nat>,
    cpu: Option<nat>,
    cpuFirst: Option<nat>,
    eid: nat,
    site: Option<nat>)

  function Or<T>(a: Option<T>, b: Option<T>): Option<T> {
    if a.Some? then a else b
  }

  /** The thread moved to a CPU whose ring does not reach back to the trace end. */
  predicate RingHole(pending: PendingEnd, f: Flow) {
    && f.cpu.Some?
    && f.cpu != pending.cpu
    && pending.abs.Some?
    && (f.cpuFirst.Some? ==> f.cpuFirst.value > pending.abs.value)
  }

  /** Open an OpenStart frame when the target (else the source) has a function. */
  function OpenKnown(m: State, key: Key, f: Flow): State
    requires key in m.threads
  {
    var fn := Or(f.to.func, f.from.func);
    if fn.Some? then PushOpen(m, key, fn, f.abs, f.eid, OpenStart, f.site) else m
  }

  /** Settle an earlier trace end.  The flag says that the sample is used up. */
  function SettlePending(m: State, key: Key, pending: PendingEnd, f: Flow): (r: (State, bool))
    requires key in m.threads
    ensures key in r.0.threads
  {
    if RingHole(pending, f) then
      var holeEnd := Or(f.cpuFirst, f.abs);
      var m1 := ThreadGap(Interrupt(m, key), key, RingTruncation, pending.abs, holeEnd,
                          pending.abs.Some? && holeEnd.Some?);
      if f.boundary.traceBegin then (OpenKnown(m1, key, f), true) else (m1, false)
    else if f.boundary.traceBegin then
      if pending.fromFn.Some? && f.to.func == pending.fromFn then
        var m1 := ThreadGap(m, key, TraceBoundary, pending.abs, f.abs, pending.abs.Some? && f.abs.Some?);
        if m1.threads[key].stack == []
        then (PushOpen(m1, key, f.to.func, Or(pending.abs, f.abs), f.eid, OpenStart, f.site), true)
        else (m1, true)
      else
        (OpenKnown(ThreadGap(Interrupt(m, key), key, UnknownGap, pending.abs, f.abs, false), key, f), true)
    else
      (ThreadGap(Interrupt(m, key), key, UnknownGap, pending.abs, f.abs, false), false)
  }

  function ApplyBoundary(m: State, key: Key, f: Flow): (r: State)
    requires key in m.threads
    ensures key in r.threads
  {
    if f.boundary.traceEnd then
      SetPending(m, key, Some(PendingEnd(f.from.func, f.from.loc, f.abs, f.cpu)))
    else if f.boundary.asyncEvent || f.boundary.interrupt || f.boundary.transaction then
      ThreadGap(Interrupt(m, key), key, UnknownGap, f.abs, None, false)
    else if f.boundary.traceBegin && m.threads[key].stack == [] then
      OpenKnown(m, key, f)
    else m
  }

  /** The label of a frame that a return closes. */
  function ReturnLabel(c: Completeness): Completeness {
    if c == OpenStart then OpenBoth else Complete
  }

  function ApplyReturn(m: State, key: Key, f: Flow): (r: State)
    requires key in m.threads
    ensures key in r.threads
  {
    var th := m.threads[key];
    if th.stack != [] then PopEmit(m, key, f.abs, f.eid, ReturnLabel(th.Top().completeness))
    else
      var m1 := EmitUnmatched(m, key, f.from.func, f.abs, f.eid);
      if f.to.func.Some? then PushOpen(m1, key, f.to.func, f.abs, f.eid, OpenStart, f.site) else m1
  }

  /** A tail call: the frame ends, and the target takes over its parent. */
  function TailCall(m: State, key: Key, f: Flow): (r: State)
    requires key in m.threads
    ensures key in r.threads
  {
    var th := m.threads[key];
    var parent := if th.stack == [] then None else th.Top().parent;
    var m1 := if th.stack == [] then m else PopEmit(m, key, f.abs, f.eid, UncertainUnwind);
    var m2 := PushOpen(m1, key, f.to.func, f.abs, f.eid, OpenStart, f.site);
    var th2 := m2.threads[key];
    var top := |th2.stack| - 1;
    SetThread(m2, key, th2.(stack := th2.stack[top := th2.stack[top].(parent := parent)]))
  }

  function ApplyJump(m: State, key: Key, f: Flow): (r: State)
    requires key in m.threads
    ensures key in r.threads
  {
    var th := m.threads[key];
    if f.from.func.Some? && f.to.func.Some? && f.from.func != f.to.func then TailCall(m, key, f)
    else if f.from.func.None? && f.to.func.Some? && th.stack != [] && th.Top().func.None? then
      RenameTop(m, key, f.to.func.value)
    else m
  }

  function ApplyTransfer(m: State, key: Key, f: Flow): (r: State)
    requires key in m.threads
    ensures key in r.threads
  {
    match f.kind
    case Call => PushOpen(m, key, f.to.func, f.abs, f.eid, OpenEnd, f.site)
    case Return => ApplyReturn(m, key, f)
    case Jump => ApplyJump(m, key, f)
    case Conditional => ApplyJump(m, key, f)
    case _ => m
  }

  function ApplyFlow(m: State, key: Key, f: Flow): (r: State)
    requires key in m.threads
    ensures key in r.threads
  {
    var pending := m.threads[key].pendingEnd;
    var (m1, used) :=
      if pending.Some? then SettlePending(SetPending(m, key, None), key, pending.value, f) else (m, false);
    if used then m1
    else if f.boundary.TakesPrecedence() then ApplyBoundary(m1, key, f)
    else ApplyTransfer(m1, key, f)
  }
}
