/**
 * The reconstructor as a function of its record stream: which records are kept,
 * what each one does, and what `finish` returns.
 */
module Recon {
  import opened TraceTypes
  import opened Machine
  import opened Symbols
  import opened Origin

  // ----- which tasks are traced -----

  /** The traced process tree, and which of its processes have exec'd the target. */
  datatype Tracker = Tracker(
    pids: set<nat>,
    targetComm: Option<string>,
    execDone: set<nat>,
    execTime: map<nat, nat>,
    preExec: set<Key>)
  {
    function Observe(rec: Record): Tracker {
      if rec.TaskRecord? then ObserveTask(rec.task) else this
    }

    function ObserveTask(t: TaskEvent): Tracker {
      if (t.kind == Comm || t.kind == Exec) && t.comm == Some("perf-exec") then
        this.(pids := pids + {t.pid}, execDone := if targetComm.None? then execDone + {t.pid} else execDone)
      else if (t.kind == Comm || t.kind == Exec) && t.pid in pids && targetComm.Some? && t.comm == targetComm then
        this.(execDone := execDone + {t.pid},
              execTime := if t.time.Some? then execTime[t.pid := t.time.value] else execTime)
      else if t.kind == Fork && t.ppid.Some? && t.ppid.value in pids then
        if t.ppid == Some(t.pid) && t.tid != t.pid then
          if targetComm.Some? && t.pid !in execDone then this.(preExec := preExec + {(t.pid, t.tid)}) else this
        else
          this.(pids := pids + {t.pid}, execDone := if t.ppid.value in execDone then execDone + {t.pid} else execDone)
      else if t.kind == Exit then this.(preExec := preExec - {(t.pid, t.tid)})
      else this
    }

    predicate IsLive(pid: nat) {
      pid in pids && (targetComm.None? || pid in execDone)
    }

    predicate IsLiveThread(pid: nat, tid: nat) {
      IsLive(pid) && (pid, tid) !in preExec
    }

    predicate MappingIsLive(m: MmapEvent) {
      && m.pid in pids
      && (targetComm.None?
          || (if m.pid in execTime then m.time.Some? && m.time.value >= execTime[m.pid] else m.pid in execDone))
    }

    predicate Drops(rec: Record) {
      match rec
      case SampleRecord(s) => !IsLiveThread(s.pid, s.tid)
      case DecoderErrorRecord(e) => e.pid.Some? && !(e.tid.Some? && IsLiveThread(e.pid.value, e.tid.value))
      case MmapRecord(m) => !MappingIsLive(m)
      case TaskRecord(t) => t.pid !in pids
      case _ => false
    }
  }

  datatype Recon = Recon(
    m: State,
    tables: Tables,
    minAbs: Option<nat>,
    cpuFirst: map<nat, nat>,
    filter: Option<Tracker>,
    generation: map<Key, nat>,
    exited: set<Key>)

  function New(filter: Option<Tracker>): Recon {
    Recon(EMPTY, NO_TABLES, None, map[], filter, map[], {})
  }

  function Generation(generation: map<Key, nat>, key: Key): nat {
    if key in generation then generation[key] else 0
  }

  /** The thread row of `key`, created on first use. */
  function WithThread(m: State, key: Key, generation: nat): (m': State)
    ensures key in m'.threads
  {
    if key in m.threads then m
    else SetThread(m, key, NewThread(ThreadId(key.1, generation), key)).(order := m.order + [key])
  }

  /** The row of a task, existing or about to be created. */
  function Row(r: Recon, key: Key): ThreadState {
    if key in r.m.threads then r.m.threads[key] else NewThread(ThreadId(key.1, Generation(r.generation, key)), key)
  }

  // ----- samples -----

  function Touch(m: State, key: Key, time: Option<nat>): (m': State)
    requires key in m.threads
    ensures key in m'.threads
  {
    var th := m.threads[key];
    SetThread(m, key, th.(branches := th.branches + 1, lastSeq := th.lastSeq + 1,
                          firstAbs := if th.firstAbs.None? then time else th.firstAbs))
      .(samples := m.samples + 1)
  }

  predicate Regresses(prev: Option<nat>, now: Option<nat>) {
    prev.Some? && now.Some? && now.value < prev.value
  }

  /** A clock that runs backwards is a discontinuity; then the new time is recorded. */
  function Advance(m: State, key: Key, time: Option<nat>): (m': State)
    requires key in m.threads
    ensures key in m'.threads
  {
    var prev := m.threads[key].lastAbs;
    var m1 := if Regresses(prev, time)
              then ThreadGap(Interrupt(m, key), key, TimeRegression, prev, time, true) else m;
    if time.Some? then SetThread(m1, key, m1.threads[key].(lastAbs := time)) else m1
  }

  /** A plain jump inside one function is counted, not stored. */
  predicate Skipped(kind: FlowKind, boundary: Boundary, from: Resolved, to: Resolved) {
    && (kind == Jump || kind == Conditional)
    && !boundary.TakesPrecedence()
    && from.func == to.func
    && (from.func.Some? || (from.map_ == to.map_ && (kind == Conditional || from.map_.None?)))
  }

  function EventOf(m: State, key: Key, s: Sample, from: Resolved, to: Resolved): FlowEvent
    requires key in m.threads
  {
    FlowEvent(m.nextEvent, m.threads[key].id, m.threads[key].lastSeq, s.time, from.loc, to.loc,
              FlagsKind(s.flags), FlagsBoundary(s.flags), s.ip, s.addr)
  }

  /** Hand out the event id, and store the event unless it is skipped. */
  function Retain(m: State, key: Key, s: Sample, from: Resolved, to: Resolved): (m': State)
    requires key in m.threads
    ensures key in m'.threads
  {
    if Skipped(FlagsKind(s.flags), FlagsBoundary(s.flags), from, to) then m.(nextEvent := m.nextEvent + 1)
    else
      var th := m.threads[key];
      SetThread(m, key, th.(retained := th.retained + 1))
        .(events := m.events + [EventOf(m, key, s, from, to)], nextEvent := m.nextEvent + 1)
  }

  function FlowOf(s: Sample, from: Resolved, to: Resolved, cpuFirst: map<nat, nat>, eid: nat): Flow {
    var first := if s.cpu.Some? && s.cpu.value in cpuFirst then Some(cpuFirst[s.cpu.value]) else None;
    Flow(FlagsKind(s.flags), FlagsBoundary(s.flags), from, to, s.time, s.cpu, first, eid,
         if FlagsKind(s.flags) == Call then s.ip else None)
  }

  function PushSample(images: seq<Image>, r: Recon, s: Sample): Recon {
    var key := (s.pid, s.tid);
    var m1 := Advance(Touch(WithThread(r.m, key, Generation(r.generation, key)), key, s.time), key, s.time);
    var (from, t1) := Resolve(images, r.tables, s.pid, s.ip);
    var (to, t2) := Resolve(images, t1, s.pid, s.addr);
    var f := FlowOf(s, from, to, r.cpuFirst, m1.nextEvent);
    r.(m := ApplyFlow(Retain(m1, key, s, from, to), key, f), tables := t2, minAbs := NoteAbs(r.minAbs, s.time))
  }

  // ----- the other records -----

  function PushTask(r: Recon, t: TaskEvent): Recon {
    var key := (t.pid, t.tid);
    var r1 := r.(minAbs := NoteAbs(r.minAbs, t.time));
    if t.kind != Exit then r1
    else if key in r.m.threads then
      r1.(m := Retire(r.m, key, t.time),
          generation := r.generation[key := Generation(r.generation, key) + 1],
          exited := r.exited - {key})
    else r1.(exited := r.exited + {key})
  }

  function PushError(r: Recon, e: DecoderErrorEvent): Recon {
    var kind := if e.code == Some(5) then MissingImage else DecoderError;
    var m := r.m;
    var m1 :=
      if e.pid.Some? && e.tid.Some? then
        var key := (e.pid.value, e.tid.value);
        ThreadGap(Interrupt(WithThread(m, key, Generation(r.generation, key)), key), key, kind, e.time, None, false)
      else AddGap(m, UnknownThread, kind, e.time, None, false);
    r.(m := m1, minAbs := NoteAbs(r.minAbs, e.time))
  }

  function PushKept(images: seq<Image>, r: Recon, rec: Record): Recon {
    match rec
    case SampleRecord(s) => PushSample(images, r, s)
    case MmapRecord(m) => r.(tables := AddMapping(r.tables, m), minAbs := NoteAbs(r.minAbs, m.time))
    case TaskRecord(t) => PushTask(r, t)
    case SwitchRecord(t) => r.(minAbs := NoteAbs(r.minAbs, t))
    case LostRecord => r.(m := AddGap(r.m, UnknownThread, PtLoss, None, None, false))
    case DecoderErrorRecord(e) => PushError(r, e)
  }

  /** Where each CPU's ring starts; foreign samples count too. */
  function NoteCpu(first: map<nat, nat>, rec: Record): map<nat, nat> {
    if rec.SampleRecord? && rec.sample.cpu.Some? && rec.sample.time.Some? && rec.sample.cpu.value !in first
    then first[rec.sample.cpu.value := rec.sample.time.value]
    else first
  }

  function Noted(r: Recon, rec: Record): Recon {
    r.(cpuFirst := NoteCpu(r.cpuFirst, rec),
       filter := if r.filter.Some? then Some(r.filter.value.Observe(rec)) else None)
  }

  predicate Keeps(r: Recon, rec: Record) {
    r.filter.None? || !r.filter.value.Observe(rec).Drops(rec)
  }

  function Push(images: seq<Image>, r: Recon, rec: Record): Recon {
    if Keeps(r, rec) then PushKept(images, Noted(r, rec), rec) else Noted(r, rec)
  }

  function PushAll(images: seq<Image>, r: Recon, recs: seq<Record>): Recon
    decreases |recs|
  {
    if recs == [] then r else PushAll(images, Push(images, r, recs[0]), recs[1..])
  }

  // ----- times that cannot be rebased -----

  /** A record of time 0 that leaves this time in a row: an event, a gap, or a span that ends then. */
  predicate WritesZero(images: seq<Image>, r: Recon, rec: Record) {
    match rec
    case SampleRecord(s) => s.time == Some(0) && SampleWritesTime(images, r, s)
    case TaskRecord(t) => t.time == Some(0) && t.kind == Exit && Row(r, (t.pid, t.tid)).stack != []
    case DecoderErrorRecord(e) => e.time == Some(0)
    case _ => false
  }

  /** Only a plain jump inside a function writes no time, unless the clock ran backwards or a trace end is pending. */
  predicate SampleWritesTime(images: seq<Image>, r: Recon, s: Sample) {
    var row := Row(r, (s.pid, s.tid));
    var (from, t1) := Resolve(images, r.tables, s.pid, s.ip);
    var (to, _) := Resolve(images, t1, s.pid, s.addr);
    var f := FlowOf(s, from, to, r.cpuFirst, r.m.nextEvent);
    || !Skipped(f.kind, f.boundary, from, to)
    || Regresses(row.lastAbs, s.time)
    || (row.pendingEnd.Some? && !(RingHole(row.pendingEnd.value, f) && f.cpuFirst.Some?))
  }

  /** The record reaches the rows, and leaves the time 0 there. */
  predicate PushWritesZero(images: seq<Image>, r: Recon, rec: Record) {
    Keeps(r, rec) && WritesZero(images, Noted(r, rec), rec)
  }

  // ----- finish -----

  /** Close the frames of the listed threads; a trailing trace end is forgotten. */
  function CloseAll(m: State, keys: seq<Key>): State
    requires forall k :: k in keys ==> k in m.threads
    decreases |keys|
  {
    if keys == [] then m
    else
      var m1 := CloseOpen(SetPending(m, keys[0], None), keys[0], None);
      CloseOpenKeys(SetPending(m, keys[0], None), keys[0], None);
      CloseAll(m1, keys[1..])
  }

  lemma {:induction false} CloseOpenKeys(m: State, key: Key, end: Option<nat>)
    requires key in m.threads
    ensures CloseOpen(m, key, end).threads.Keys == m.threads.Keys
    decreases |m.threads[key].stack|
  {
    var th := m.threads[key];
    if th.stack != [] {
      CloseOpenKeys(PopEmit(m, key, end, th.Top().startEvent, OpenLabel(th.Top().completeness)), key, end);
    }
  }

  datatype Failure = NoTimestamps | PrecedesOrigin

  datatype Result<T> = Ok(value: T) | Err(error: Failure)

  predicate Rebasable(t: Option<nat>, origin: nat) {
    t.Some? ==> t.value >= origin
  }

  function Rebase(t: Option<nat>, origin: nat): Option<nat>
    requires Rebasable(t, origin)
  {
    if t.Some? then Some(t.value - origin) else None
  }

  predicate AllRebasable(m: State, origin: nat) {
    && (forall a :: 0 <= a < |m.events| ==> Rebasable(m.events[a].time, origin))
    && (forall a :: 0 <= a < |m.spans| ==> Rebasable(m.spans[a].start, origin) && Rebasable(m.spans[a].end, origin))
    && (forall a :: 0 <= a < |m.gaps| ==> Rebasable(m.gaps[a].start, origin) && Rebasable(m.gaps[a].end, origin))
  }

  function RebaseSpan(s: Span, origin: nat): Span
    requires Rebasable(s.start, origin) && Rebasable(s.end, origin)
  {
    s.(start := Rebase(s.start, origin), end := Rebase(s.end, origin))
  }

  function RebaseSpans(spans: seq<Span>, origin: nat): (r: seq<Span>)
    requires forall a :: 0 <= a < |spans| ==> Rebasable(spans[a].start, origin) && Rebasable(spans[a].end, origin)
    ensures |r| == |spans| && forall a :: 0 <= a < |r| ==> r[a] == RebaseSpan(spans[a], origin)
  {
    seq(|spans|, a requires 0 <= a < |spans| => RebaseSpan(spans[a], origin))
  }

  function RebaseEvents(events: seq<FlowEvent>, origin: nat): (r: seq<FlowEvent>)
    requires forall a :: 0 <= a < |events| ==> Rebasable(events[a].time, origin)
    ensures |r| == |events| && forall a :: 0 <= a < |r| ==> r[a] == events[a].(time := Rebase(events[a].time, origin))
  {
    seq(|events|, a requires 0 <= a < |events| => events[a].(time := Rebase(events[a].time, origin)))
  }

  function RebaseGap(g: Gap, origin: nat): Gap
    requires Rebasable(g.start, origin) && Rebasable(g.end, origin)
  {
    g.(start := Rebase(g.start, origin), end := Rebase(g.end, origin))
  }

  function RebaseGaps(gaps: seq<Gap>, origin: nat): (r: seq<Gap>)
    requires forall a :: 0 <= a < |gaps| ==> Rebasable(gaps[a].start, origin) && Rebasable(gaps[a].end, origin)
    ensures |r| == |gaps| && forall a :: 0 <= a < |r| ==> r[a] == RebaseGap(gaps[a], origin)
  {
    seq(|gaps|, a requires 0 <= a < |gaps| => RebaseGap(gaps[a], origin))
  }

  /** Insertion keeping earlier spans first among equals. */
  function InsertById(sorted: seq<Span>, s: Span): seq<Span> {
    if sorted == [] || sorted[|sorted| - 1].id <= s.id then sorted + [s]
    else InsertById(sorted[..|sorted| - 1], s) + [sorted[|sorted| - 1]]
  }

  /** The stable sort by span id that `finish` asks for. */
  function SortById(spans: seq<Span>): seq<Span> {
    if spans == [] then [] else InsertById(SortById(spans[..|spans| - 1]), spans[|spans| - 1])
  }

  datatype Analysis = Analysis(
    origin: nat,
    threads: seq<ThreadState>,
    functions: seq<FunctionRecord>,
    locations: seq<Location>,
    events: seq<FlowEvent>,
    spans: seq<Span>,
    gaps: seq<Gap>)

  function Rows(m: State, keys: seq<Key>): seq<ThreadState>
    requires forall k :: k in keys ==> k in m.threads
  {
    seq(|keys|, i requires 0 <= i < |keys| => m.threads[keys[i]])
  }

  function Finish(r: Recon): Result<Analysis>
    requires forall k :: k in r.m.order <==> k in r.m.threads
  {
    if r.minAbs.None? then Err(NoTimestamps)
    else
      var origin := r.minAbs.value;
      var m := CloseAll(r.m, r.m.order);
      if !AllRebasable(m, origin) then Err(PrecedesOrigin)
      else
        CloseAllKeys(r.m, r.m.order);
        Ok(Analysis(origin, m.retired + Rows(m, r.m.order), r.tables.functions, r.tables.locations,
                    RebaseEvents(m.events, origin), SortById(RebaseSpans(m.spans, origin)),
                    RebaseGaps(m.gaps, origin)))
  }

  lemma {:induction false} CloseAllKeys(m: State, keys: seq<Key>)
    requires forall k :: k in keys ==> k in m.threads
    ensures CloseAll(m, keys).threads.Keys == m.threads.Keys
    decreases |keys|
  {
    if keys != [] {
      var m1 := CloseOpen(SetPending(m, keys[0], None), keys[0], None);
      CloseOpenKeys(SetPending(m, keys[0], None), keys[0], None);
      CloseAllKeys(m1, keys[1..]);
    }
  }
}
