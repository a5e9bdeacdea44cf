/** The records, spans and gaps that flow through the call reconstructor. */
module TraceTypes {

  datatype Option<+T> = None | Some(value: T)

  /** A task, as (pid, tid). */
  type Key = (nat, nat)

  /** `t_<tid>` (generation 0) or `t_<tid>_g<n>`; the pid is not part of it. */
  datatype ThreadId = ThreadId(tid: nat, generation: nat) | UnknownThread

  // ----- branch flags -----

  /** perf's flag vocabulary; a sample carries a set of them. */
  datatype Flag =
    | CallFlag | ReturnFlag | Jcc | Jmp | Int | Iret | Syscall | Sysret
    | Async | HwInt | TxAbort | TrStart | TrEnd | VmEntry | VmExit | UnknownFlag

  datatype FlowKind = Call | Return | Jump | Conditional | AsyncBoundary | TraceBegin | TraceEnd

  datatype Boundary = Boundary(
    traceBegin: bool,
    traceEnd: bool,
    asyncEvent: bool,
    transaction: bool,
    interrupt: bool,
    syscall: bool)
  {
    predicate TakesPrecedence() {
      traceBegin || traceEnd || asyncEvent || interrupt || syscall || transaction
    }
  }

  function FlagsBoundary(flags: set<Flag>): Boundary {
    Boundary(
      TrStart in flags,
      TrEnd in flags,
      Async in flags || HwInt in flags,
      TxAbort in flags,
      Int in flags || Iret in flags || HwInt in flags,
      Syscall in flags || Sysret in flags)
  }

  function FlagsKind(flags: set<Flag>): FlowKind {
    if TrStart in flags then TraceBegin
    else if TrEnd in flags then TraceEnd
    else if flags * {Async, HwInt, Int, Iret, Syscall, Sysret, TxAbort, VmEntry, VmExit} != {} then AsyncBoundary
    else if CallFlag in flags then Call
    else if ReturnFlag in flags then Return
    else if Jcc in flags then Conditional
    else Jump
  }

  // ----- input records -----

  datatype Sample = Sample(
    pid: nat,
    tid: nat,
    cpu: Option<nat>,
    time: Option<nat>,
    ip: Option<nat>,
    addr: Option<nat>,
    flags: set<Flag>)

  datatype MmapEvent = MmapEvent(pid: nat, time: Option<nat>, start: nat, len: nat, pgoff: nat, path: string)

  datatype TaskKind = Comm | Exec | Fork | Exit

  datatype TaskEvent = TaskEvent(
    kind: TaskKind,
    pid: nat,
    tid: nat,
    ppid: Option<nat>,
    time: Option<nat>,
    comm: Option<string>)

  datatype DecoderErrorEvent = DecoderErrorEvent(
    time: Option<nat>,
    pid: Option<nat>,
    tid: Option<nat>,
    code: Option<nat>)

  datatype Record =
    | SampleRecord(sample: Sample)
    | MmapRecord(mmap: MmapEvent)
    | TaskRecord(task: TaskEvent)
    | SwitchRecord(switchTime: Option<nat>)
    | LostRecord
    | DecoderErrorRecord(error: DecoderErrorEvent)

  /** The time a record carries, if any; a LOST record's time is never looked at. */
  function RecordTime(rec: Record): Option<nat> {
    match rec
    case SampleRecord(s) => s.time
    case MmapRecord(m) => m.time
    case TaskRecord(t) => t.time
    case SwitchRecord(t) => t
    case LostRecord => None
    case DecoderErrorRecord(e) => e.time
  }

  // ----- output rows -----

  datatype Completeness = Complete | OpenStart | OpenEnd | OpenBoth | InterruptedByGap | UncertainUnwind

  datatype FlowEvent = FlowEvent(
    id: nat,
    thread: ThreadId,
    sequence: nat,
    time: Option<nat>,
    from: Option<nat>,
    to: Option<nat>,
    kind: FlowKind,
    boundary: Boundary,
    virtFrom: Option<nat>,
    virtTo: Option<nat>)

  datatype Span = Span(
    id: nat,
    thread: ThreadId,
    func: Option<nat>,
    parent: Option<nat>,
    start: Option<nat>,
    end: Option<nat>,
    completeness: Completeness,
    startEvent: nat,
    endEvent: nat,
    callSite: Option<nat>)

  datatype GapKind =
    | RingTruncation | PtLoss | MissingImage | DecoderError | TimeRegression | TraceBoundary | UnknownGap

  datatype Gap = Gap(
    id: nat,
    thread: ThreadId,
    kind: GapKind,
    start: Option<nat>,
    end: Option<nat>,
    extentKnown: bool)

  /** What an address resolved to: location id, function id, mapping index. */
  datatype Resolved = Resolved(loc: Option<nat>, func: Option<nat>, map_: Option<nat>)

  const UNRESOLVED := Resolved(None, None, None)

  // ----- order on times -----

  /** Both known implies ordered; an unknown time constrains nothing. */
  predicate Leq(a: Option<nat>, b: Option<nat>) {
    a.Some? && b.Some? ==> a.value <= b.value
  }

  function Min(a: nat, b: nat): nat { if a < b then a else b }

  /** A subtraction that stops at 0. */
  function SatSub(a: nat, b: nat): nat {
    if a < b then 0 else a - b
  }
}
