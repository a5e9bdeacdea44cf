/**
 * The retained events are the kept samples: each event says what one sample of the
 * stream said, numbered as the samples came, and only plain jumps have none.
 */
module Events {
  import opened TraceTypes
  import opened Machine
  import opened Symbols
  import opened Recon
  import opened Runs
  import opened Places
  import Steps
  import RoundTrip
  import Results
  import Tracking

  // ----- counting samples -----

  predicate KeptLast(images: seq<Image>, filter: Option<Tracker>, recs: seq<Record>)
    requires recs != []
  {
    Keeps(PushAll(images, New(filter), recs[..|recs| - 1]), recs[|recs| - 1])
  }

  /** How many samples of the stream are kept. */
  function Ordinal(images: seq<Image>, filter: Option<Tracker>, recs: seq<Record>): nat {
    if recs == [] then 0
    else
      var last := recs[|recs| - 1];
      Ordinal(images, filter, recs[..|recs| - 1])
      + if last.SampleRecord? && KeptLast(images, filter, recs) then 1 else 0
  }

  predicate IsSampleOf(rec: Record, key: Key) { rec.SampleRecord? && (rec.sample.pid, rec.sample.tid) == key }

  predicate IsExitOf(rec: Record, key: Key) {
    rec.TaskRecord? && rec.task.kind == Exit && (rec.task.pid, rec.task.tid) == key
  }

  /** How many samples of the task are kept since its last kept exit. */
  function Turn(images: seq<Image>, filter: Option<Tracker>, recs: seq<Record>, key: Key): nat {
    if recs == [] then 0
    else
      var n, last := Turn(images, filter, recs[..|recs| - 1], key), recs[|recs| - 1];
      if !KeptLast(images, filter, recs) then n
      else if IsSampleOf(last, key) then n + 1
      else if IsExitOf(last, key) then 0
      else n
  }

  // ----- what an event says -----

  ghost predicate LocatedAt(images: seq<Image>, recs: seq<Record>, j: nat, row: Location, pid: nat, ip: nat, p: Place)
    requires j < |recs|
  {
    && recs[j].MmapRecord?
    && var e := recs[j].mmap;
    && e.pid == pid && e.start <= ip < SatAdd(e.start, e.len) && Describes(images, e.start, e.pgoff, e.path, ip, p)
    && row.imageId == p.imageId && row.offset == p.rel
  }

  /** The location, if there is one, is where some mapping record of the process puts the address. */
  ghost predicate Located(images: seq<Image>, recs: seq<Record>, locations: seq<Location>, loc: Option<nat>, pid: nat,
                          ip: Option<nat>)
  {
    loc.Some? ==>
      && loc.value < |locations| && ip.Some?
      && exists j, p :: 0 <= j < |recs| && LocatedAt(images, recs, j, locations[loc.value], pid, ip.value, p)
  }

  /** The event is the i-th record, a kept sample, in full. */
  ghost predicate EventIs(images: seq<Image>, filter: Option<Tracker>, recs: seq<Record>, locations: seq<Location>,
                          ev: FlowEvent, i: nat)
    requires i < |recs|
  {
    && recs[i].SampleRecord? && KeptLast(images, filter, recs[..i + 1])
    && var s := recs[i].sample;
    && ev.id == Ordinal(images, filter, recs[..i]) && ev.sequence == Turn(images, filter, recs[..i + 1], (s.pid, s.tid))
    && ev.thread.ThreadId? && ev.thread.tid == s.tid && ev.time == s.time
    && ev.kind == FlagsKind(s.flags) && ev.boundary == FlagsBoundary(s.flags)
    && ev.virtFrom == s.ip && ev.virtTo == s.addr
    && Located(images, recs, locations, ev.from, s.pid, s.ip) && Located(images, recs, locations, ev.to, s.pid, s.addr)
  }

  ghost predicate EventTrue(images: seq<Image>, filter: Option<Tracker>, recs: seq<Record>, locations: seq<Location>,
                            ev: FlowEvent)
  {
    exists i :: 0 <= i < |recs| && EventIs(images, filter, recs, locations, ev, i)
  }

  /** A jump without a boundary; inside one function it is not stored. */
  predicate Plain(s: Sample) {
    (FlagsKind(s.flags) == Jump || FlagsKind(s.flags) == Conditional) && !FlagsBoundary(s.flags).TakesPrecedence()
  }

  predicate HasId(events: seq<FlowEvent>, id: nat) {
    exists a :: 0 <= a < |events| && events[a].id == id
  }

  /** The i-th record is no kept sample, or a plain jump, or has its event. */
  ghost predicate Stored(images: seq<Image>, filter: Option<Tracker>, recs: seq<Record>, events: seq<FlowEvent>, i: nat)
    requires i < |recs|
  {
    recs[i].SampleRecord? && KeptLast(images, filter, recs[..i + 1]) && !Plain(recs[i].sample) ==>
      HasId(events, Ordinal(images, filter, recs[..i]))
  }

  // ----- which image a location is in -----

  function IdOfKey(images: seq<Image>, mappings: seq<Mapping>, key: int): Option<string> {
    if 0 <= key < |images| then Some(images[key].hash)
    else if 0 <= U32_MAX - key < |mappings| then Some(mappings[U32_MAX - key].path)
    else None
  }

  ghost predicate SlotNamed(images: seq<Image>, t: Tables, s: Slot)
    requires s in t.locIndex
  {
    t.locIndex[s] < |t.locations| && IdOfKey(images, t.mappings, s.0) == Some(t.locations[t.locIndex[s]].imageId)
  }

  ghost predicate SlotsNamed(images: seq<Image>, t: Tables) {
    forall s :: s in t.locIndex ==> SlotNamed(images, t, s)
  }

  predicate Roomy(images: seq<Image>, mappings: nat) { |images| + mappings <= U32_MAX + 1 }

  lemma SlotLasts(images: seq<Image>, t: Tables, t': Tables, s: Slot)
    requires s in t.locIndex && SlotNamed(images, t, s) && t.locations <= t'.locations && t.mappings <= t'.mappings
    requires s in t'.locIndex && t'.locIndex[s] == t.locIndex[s] && Roomy(images, |t'.mappings|)
    ensures SlotNamed(images, t', s)
  {}

  lemma PlaceNamed(images: seq<Image>, t: Tables, pid: nat, ip: nat)
    requires MapsOk(t) && Roomy(images, |t.mappings|) && PlaceOf(images, t, pid, ip).Some?
    ensures var p := PlaceOf(images, t, pid, ip).value; IdOfKey(images, t.mappings, p.imageKey) == Some(p.imageId)
  {
    hide RelativeAddr, LookupFunction, NewestCovering;
  }

  lemma UncachedNames(images: seq<Image>, t: Tables, pid: nat, ip: nat)
    requires TablesInv(images, t) && Roomy(images, |t.mappings|) && SlotsNamed(images, t)
    ensures var t' := ResolveUncached(images, t, pid, ip).1; SlotsNamed(images, t') && t'.mappings == t.mappings
  {
    hide PlaceOf, SlotNamed, CacheOk, FunctionsOk, LocationsOk, IdOfKey;
    ResolveUncachedOk(images, t, pid, ip);
    var t' := ResolveUncached(images, t, pid, ip).1;
    var place := PlaceOf(images, t, pid, ip);
    if place.Some? {
      PlaceIsMapped(images, t, pid, ip);
      PlaceNamed(images, t, pid, ip);
      forall s | s in t'.locIndex ensures SlotNamed(images, t', s) {
        if s in t.locIndex { SlotLasts(images, t, t', s); } else { FreshSlot(images, t', s); }
      }
    }
  }

  lemma FreshSlot(images: seq<Image>, t: Tables, s: Slot)
    requires s in t.locIndex && t.locIndex[s] < |t.locations|
    requires IdOfKey(images, t.mappings, s.0) == Some(t.locations[t.locIndex[s]].imageId)
    ensures SlotNamed(images, t, s)
  {}

  lemma ResolveNames(images: seq<Image>, t: Tables, pid: nat, ip: Option<nat>)
    requires TablesInv(images, t) && Roomy(images, |t.mappings|) && SlotsNamed(images, t)
    ensures var t' := Resolve(images, t, pid, ip).1; SlotsNamed(images, t') && t'.mappings == t.mappings
  {
    hide ResolveUncached, TablesInv, SlotNamed;
    if ip.Some? && (pid, ip.value) !in t.ipCache {
      UncachedNames(images, t, pid, ip.value);
      var t1, t' := ResolveUncached(images, t, pid, ip.value).1, Resolve(images, t, pid, ip).1;
      forall s | s in t'.locIndex ensures SlotNamed(images, t', s) { SlotLasts(images, t1, t', s); }
    }
  }

  /** What an address resolved to is where a mapping record puts it. */
  lemma ResolvedIsLocated(images: seq<Image>, recs: seq<Record>, t: Tables, pid: nat, ip: Option<nat>, r: Resolved)
    requires TablesInv(images, t) && AllSorted(images) && MappingsTrue(recs, t) && SlotsNamed(images, t)
    requires Roomy(images, |t.mappings|) && Reads(t, RoundTrip.PlaceAt(images, t, pid, ip), r)
    ensures Located(images, recs, t.locations, r.loc, pid, ip)
  {
    hide PlaceOf, AllSorted, MappingsTrue, CacheOk, FunctionsOk, IdOfKey, Describes;
    if r.loc.Some? {
      var p := PlaceOf(images, t, pid, ip.value).value;
      var j := PlaceFromRecord(images, recs, t, pid, ip.value);
      PlaceNamed(images, t, pid, ip.value);
      assert SlotNamed(images, t, (p.imageKey, p.rel));
      assert LocatedAt(images, recs, j, t.locations[r.loc.value], pid, ip.value, p);
    }
  }

  lemma LocatedLasts(images: seq<Image>, recs: seq<Record>, locations: seq<Location>, recs': seq<Record>,
                     locations': seq<Location>, loc: Option<nat>, pid: nat, ip: Option<nat>)
    requires Located(images, recs, locations, loc, pid, ip) && recs <= recs' && locations <= locations'
    ensures Located(images, recs', locations', loc, pid, ip)
  {
    hide Describes;
    if loc.Some? {
      var j, p :| 0 <= j < |recs| && LocatedAt(images, recs, j, locations[loc.value], pid, ip.value, p);
      assert LocatedAt(images, recs', j, locations'[loc.value], pid, ip.value, p);
    }
  }

  // ----- one record -----

  lemma EnterTurn(r: Recon, key: Key, time: Option<nat>)
    ensures var mt := Touch(WithThread(r.m, key, Generation(r.generation, key)), key, time);
            && key in mt.threads && mt.events == r.m.events && mt.nextEvent == r.m.nextEvent
            && mt.threads[key].id == Row(r, key).id
            && mt.threads[key].lastSeq == Row(r, key).lastSeq + 1
            && mt.threads[key].branches == Row(r, key).branches + 1
            && mt.threads.Keys == r.m.threads.Keys + {key}
            && forall k :: k in r.m.threads && k != key ==> mt.threads[k] == r.m.threads[k]
  {}

  lemma RetainTurn(m: State, key: Key, s: Sample, from: Resolved, to: Resolved)
    requires key in m.threads
    ensures var r := Retain(m, key, s, from, to);
            && r.events == m.events + (if Skipped(FlagsKind(s.flags), FlagsBoundary(s.flags), from, to) then []
                                       else [EventOf(m, key, s, from, to)])
            && r.nextEvent == m.nextEvent + 1 && r.threads.Keys == m.threads.Keys
            && forall k :: k in m.threads ==> SameTurn(m.threads[k], r.threads[k])
  {}

  /** The event of a sample that is the n-th kept one and its task's turn-th. */
  function EventFor(s: Sample, id: ThreadId, n: nat, turn: nat, from: Option<nat>, to: Option<nat>): FlowEvent {
    FlowEvent(n, id, turn, s.time, from, to, FlagsKind(s.flags), FlagsBoundary(s.flags), s.ip, s.addr)
  }

  /** A kept sample takes the next number and the next turn of its task, and no other task's. */
  lemma SampleTurns(images: seq<Image>, r: Recon, s: Sample)
    ensures var key, r' := (s.pid, s.tid), PushSample(images, r, s);
            var (from, t1) := Resolve(images, r.tables, s.pid, s.ip);
            var (to, t2) := Resolve(images, t1, s.pid, s.addr);
            && r'.tables == t2 && r'.m.nextEvent == r.m.nextEvent + 1
            && Row(r', key).lastSeq == Row(r, key).lastSeq + 1 && Row(r', key).branches == Row(r, key).branches + 1
            && (forall k :: k != key ==>
                  Row(r', k).lastSeq == Row(r, k).lastSeq && Row(r', k).branches == Row(r, k).branches)
            && (if Skipped(FlagsKind(s.flags), FlagsBoundary(s.flags), from, to) then r'.m.events == r.m.events
                else r'.m.events == r.m.events
                     + [EventFor(s, Row(r, key).id, r.m.nextEvent, Row(r, key).lastSeq + 1, from.loc, to.loc)])
  {
    hide Advance, Retain, Touch, WithThread, Resolve, ApplyFlow, FlagsKind, FlagsBoundary, Skipped;
    var key := (s.pid, s.tid);
    EnterTurn(r, key, s.time);
    var mt := Touch(WithThread(r.m, key, Generation(r.generation, key)), key, s.time);
    AdvanceOutside(mt, key, s.time);
    var m1 := Advance(mt, key, s.time);
    var (from, t1) := Resolve(images, r.tables, s.pid, s.ip);
    var (to, t2) := Resolve(images, t1, s.pid, s.addr);
    RetainTurn(m1, key, s, from, to);
    var m2 := Retain(m1, key, s, from, to);
    FlowOutside(m2, key, FlowOf(s, from, to, r.cpuFirst, m1.nextEvent));
    forall k | k != key
      ensures Row(PushSample(images, r, s), k).lastSeq == Row(r, k).lastSeq
              && Row(PushSample(images, r, s), k).branches == Row(r, k).branches
    {
      if k in r.m.threads { assert SameTurn(r.m.threads[k], m2.threads[k]); }
    }
  }

  /** Other records add no event; an exit starts its task's turns again. */
  lemma OthersTurn(images: seq<Image>, r: Recon, rec: Record)
    requires !rec.SampleRecord? || !Keeps(r, rec)
    ensures var r' := Push(images, r, rec);
            && r'.m.events == r.m.events && r'.m.nextEvent == r.m.nextEvent
            && forall k ::
                 var n := if Keeps(r, rec) && IsExitOf(rec, k) then 0 else Row(r, k).lastSeq;
                 var b := if Keeps(r, rec) && IsExitOf(rec, k) then 0 else Row(r, k).branches;
                 Row(r', k).lastSeq == n && Row(r', k).branches == b
  {
    hide PushSample, PushTask, PushError, AddMapping;
    match rec
    case TaskRecord(t) => ExitTurns(Noted(r, rec), t);
    case DecoderErrorRecord(e) => ErrorTurns(Noted(r, rec), e);
    case _ =>
  }

  lemma ExitTurns(r: Recon, t: TaskEvent)
    ensures var r' := PushTask(r, t);
            && r'.m.events == r.m.events && r'.m.nextEvent == r.m.nextEvent
            && forall k ::
                 && Row(r', k).lastSeq == (if IsExitOf(TaskRecord(t), k) then 0 else Row(r, k).lastSeq)
                 && Row(r', k).branches == (if IsExitOf(TaskRecord(t), k) then 0 else Row(r, k).branches)
  {
    hide CloseOpen, Without;
    var key := (t.pid, t.tid);
    if t.kind == Exit && key in r.m.threads { CloseOpenOutside(r.m, key, t.time); }
  }

  lemma ErrorTurns(r: Recon, e: DecoderErrorEvent)
    ensures var r' := PushError(r, e);
            && r'.m.events == r.m.events && r'.m.nextEvent == r.m.nextEvent
            && forall k :: Row(r', k).lastSeq == Row(r, k).lastSeq && Row(r', k).branches == Row(r, k).branches
  {
    hide Interrupt, ThreadGap;
    if e.pid.Some? && e.tid.Some? {
      var key := (e.pid.value, e.tid.value);
      var kind := if e.code == Some(5) then MissingImage else DecoderError;
      BreakOutside(WithThread(r.m, key, Generation(r.generation, key)), key, kind, e.time, None, false);
    } else {
      hide Row;
    }
  }

  // ----- over a run -----

  /** What the run so far has made of the stream so far. */
  ghost predicate Told(images: seq<Image>, filter: Option<Tracker>, recs: seq<Record>, r: Recon) {
    && r.m.nextEvent == Ordinal(images, filter, recs) && Turned(images, filter, recs, r)
    && SlotsNamed(images, r.tables) && |r.tables.mappings| <= |recs|
    && AllTrue(images, filter, recs, r.tables.locations, r.m.events) && AllStored(images, filter, recs, r.m.events)
  }

  ghost predicate Turned(images: seq<Image>, filter: Option<Tracker>, recs: seq<Record>, r: Recon) {
    forall k :: Row(r, k).lastSeq == Turn(images, filter, recs, k)
      && Row(r, k).branches == Turn(images, filter, recs, k)
  }

  ghost predicate AllTrue(images: seq<Image>, filter: Option<Tracker>, recs: seq<Record>, locations: seq<Location>,
                          events: seq<FlowEvent>)
  {
    forall a :: 0 <= a < |events| ==> EventTrue(images, filter, recs, locations, events[a])
  }

  ghost predicate AllStored(images: seq<Image>, filter: Option<Tracker>, recs: seq<Record>, events: seq<FlowEvent>) {
    forall i :: 0 <= i < |recs| ==> Stored(images, filter, recs, events, i)
  }

  lemma EventLasts(images: seq<Image>, filter: Option<Tracker>, recs: seq<Record>, locations: seq<Location>,
                   rec: Record, locations': seq<Location>, ev: FlowEvent)
    requires EventTrue(images, filter, recs, locations, ev) && locations <= locations'
    ensures EventTrue(images, filter, recs + [rec], locations', ev)
  {
    hide Located, KeptLast, Ordinal, Turn, FlagsKind, FlagsBoundary;
    var all := recs + [rec];
    var i :| 0 <= i < |recs| && EventIs(images, filter, recs, locations, ev, i);
    var s := recs[i].sample;
    assert all[..i] == recs[..i] && all[..i + 1] == recs[..i + 1] && all[i] == recs[i];
    LocatedLasts(images, recs, locations, all, locations', ev.from, s.pid, s.ip);
    LocatedLasts(images, recs, locations, all, locations', ev.to, s.pid, s.addr);
    assert EventIs(images, filter, all, locations', ev, i);
  }

  lemma StoredLasts(images: seq<Image>, filter: Option<Tracker>, recs: seq<Record>, events: seq<FlowEvent>, rec: Record,
                    events': seq<FlowEvent>)
    requires AllStored(images, filter, recs, events) && events <= events'
    requires Stored(images, filter, recs + [rec], events', |recs|)
    ensures AllStored(images, filter, recs + [rec], events')
  {
    hide KeptLast, Ordinal, Plain;
    var all := recs + [rec];
    forall i | 0 <= i < |all| ensures Stored(images, filter, all, events', i) {
      if i < |recs| {
        assert Stored(images, filter, recs, events, i);
        assert all[..i] == recs[..i] && all[..i + 1] == recs[..i + 1] && all[i] == recs[i];
        IdLasts(events, events', Ordinal(images, filter, recs[..i]));
      }
    }
  }

  lemma IdLasts(events: seq<FlowEvent>, events': seq<FlowEvent>, id: nat)
    requires events <= events'
    ensures HasId(events, id) ==> HasId(events', id)
  {
    if HasId(events, id) {
      var a :| 0 <= a < |events| && events[a].id == id;
      assert events'[a] == events[a];
    }
  }

  /** The counters after one more record. */
  lemma CountStep(images: seq<Image>, filter: Option<Tracker>, init: seq<Record>, rec: Record)
    ensures var recs := init + [rec];
            var kept := Keeps(PushAll(images, New(filter), init), rec);
            && KeptLast(images, filter, recs) == kept
            && Ordinal(images, filter, recs) == Ordinal(images, filter, init)
               + (if rec.SampleRecord? && kept then 1 else 0)
            && forall k ::
                 Turn(images, filter, recs, k)
                 == if !kept then Turn(images, filter, init, k)
                    else if IsSampleOf(rec, k) then Turn(images, filter, init, k) + 1
                    else if IsExitOf(rec, k) then 0 else Turn(images, filter, init, k)
  {
    hide PushAll, Keeps;
    assert (init + [rec])[..|init|] == init;
  }

  /** A kept sample of the stream: its event is true, and it is stored unless it is plain. */
  lemma SampleTold(images: seq<Image>, filter: Option<Tracker>, init: seq<Record>, s: Sample, r: Recon)
    requires r == PushAll(images, New(filter), init) && Keeps(r, SampleRecord(s)) && ReconInv(images, r, true)
    requires AllSorted(images) && TablesTrue(images, init, r.tables) && Roomy(images, |init| + 1)
    requires Told(images, filter, init, r)
    ensures var recs, r' := init + [SampleRecord(s)], Push(images, r, SampleRecord(s));
            AllTrue(images, filter, recs, r'.tables.locations, r'.m.events)
              && AllStored(images, filter, recs, r'.m.events)
            && SlotsNamed(images, r'.tables) && r'.tables.mappings == r.tables.mappings
  {
    hide PushAll, ReconInv, AllSorted, TablesTrue, SlotsNamed, Keeps, PushSample, Resolve, EventTrue, Ordinal, Turn,
         KeptLast, Stored,
         TablesInv, FlagsKind, FlagsBoundary, Skipped, Turned;
    var rec, n := SampleRecord(s), Noted(r, SampleRecord(s));
    var recs, r' := init + [rec], Push(images, r, rec);
    SampleTurns(images, n, s);
    KeptPush(images, r, s);
    RoundTrip.ReconTables(images, r);
    var (from, t1) := Resolve(images, r.tables, s.pid, s.ip);
    var (to, t2) := Resolve(images, t1, s.pid, s.addr);
    SampleLocated(images, init, rec, r.tables, s);
    forall a | 0 <= a < |r.m.events| ensures EventTrue(images, filter, recs, t2.locations, r.m.events[a]) {
      EventLasts(images, filter, init, r.tables.locations, rec, t2.locations, r.m.events[a]);
    }
    NewEventTrue(images, filter, init, s, r, t2.locations, from.loc, to.loc);
    NewStored(images, filter, init, s, r, r'.m.events, from, to);
    StoredLasts(images, filter, init, r.m.events, rec, r'.m.events);
  }

  lemma KeptPush(images: seq<Image>, r: Recon, s: Sample)
    requires Keeps(r, SampleRecord(s))
    ensures var n := Noted(r, SampleRecord(s));
            && Push(images, r, SampleRecord(s)) == PushSample(images, n, s)
            && n.m == r.m && n.tables == r.tables && n.generation == r.generation
  {
    hide PushSample;
  }

  /** Where the two addresses of a sample resolve to. */
  lemma SampleLocated(images: seq<Image>, init: seq<Record>, rec: Record, t: Tables, s: Sample)
    requires TablesInv(images, t) && AllSorted(images) && TablesTrue(images, init, t) && SlotsNamed(images, t)
    requires Roomy(images, |t.mappings|)
    ensures var (from, t1) := Resolve(images, t, s.pid, s.ip);
            var (to, t2) := Resolve(images, t1, s.pid, s.addr);
            && Located(images, init + [rec], t2.locations, from.loc, s.pid, s.ip)
            && Located(images, init + [rec], t2.locations, to.loc, s.pid, s.addr)
            && t.locations <= t2.locations && t2.mappings == t.mappings && SlotsNamed(images, t2)
  {
    hide Resolve, TablesInv, AllSorted, FunctionsTrue, LocationsTrue, SlotsNamed, Located, Roomy, PlaceOf, MappingsTrue;
    ResolveOk(images, t, s.pid, s.ip);
    ResolveNames(images, t, s.pid, s.ip);
    ResolveTrue(images, init, t, s.pid, s.ip);
    var (from, t1) := Resolve(images, t, s.pid, s.ip);
    ResolveOk(images, t1, s.pid, s.addr);
    ResolveNames(images, t1, s.pid, s.addr);
    ResolveTrue(images, init, t1, s.pid, s.addr);
    var (to, t2) := Resolve(images, t1, s.pid, s.addr);
    ResolvedIsLocated(images, init, t1, s.pid, s.ip, from);
    ResolvedIsLocated(images, init, t2, s.pid, s.addr, to);
    LocatedLasts(images, init, t1.locations, init + [rec], t2.locations, from.loc, s.pid, s.ip);
    LocatedLasts(images, init, t2.locations, init + [rec], t2.locations, to.loc, s.pid, s.addr);
  }

  lemma NewEventTrue(images: seq<Image>, filter: Option<Tracker>, init: seq<Record>, s: Sample, r: Recon,
                     locations: seq<Location>, from: Option<nat>, to: Option<nat>)
    requires r == PushAll(images, New(filter), init) && Keeps(r, SampleRecord(s)) && ReconInv(images, r, true)
    requires r.m.nextEvent == Ordinal(images, filter, init) && Turned(images, filter, init, r)
    requires var recs := init + [SampleRecord(s)];
             Located(images, recs, locations, from, s.pid, s.ip) && Located(images, recs, locations, to, s.pid, s.addr)
    ensures var key := (s.pid, s.tid);
            EventTrue(images, filter, init + [SampleRecord(s)], locations,
                      EventFor(s, Row(r, key).id, r.m.nextEvent, Row(r, key).lastSeq + 1, from, to))
  {
    hide PushAll, ReconInv, Keeps, Ordinal, Turn, KeptLast, Located, FlagsKind, FlagsBoundary;
    var key, recs, i := (s.pid, s.tid), init + [SampleRecord(s)], |init|;
    CountStep(images, filter, init, SampleRecord(s));
    RowTid(images, r, key);
    assert recs[..i] == init && recs[..i + 1] == recs && recs[i] == SampleRecord(s);
    var ev := EventFor(s, Row(r, key).id, r.m.nextEvent, Row(r, key).lastSeq + 1, from, to);
    assert EventIs(images, filter, recs, locations, ev, i);
  }

  /** A row carries its task's tid. */
  lemma RowTid(images: seq<Image>, r: Recon, key: Key)
    requires ReconInv(images, r, true)
    ensures Row(r, key).id.ThreadId? && Row(r, key).id.tid == key.1
  {
    hide TablesInv, Steps.Inv;
  }

  lemma NewStored(images: seq<Image>, filter: Option<Tracker>, init: seq<Record>, s: Sample, r: Recon,
                  events: seq<FlowEvent>, from: Resolved, to: Resolved)
    requires r.m.nextEvent == Ordinal(images, filter, init)
    requires var key := (s.pid, s.tid);
             if Skipped(FlagsKind(s.flags), FlagsBoundary(s.flags), from, to) then events == r.m.events
             else events == r.m.events + [EventFor(s, Row(r, key).id, r.m.nextEvent, Row(r, key).lastSeq + 1, from.loc,
                                                   to.loc)]
    ensures Stored(images, filter, init + [SampleRecord(s)], events, |init|)
  {
    hide KeptLast, Ordinal, FlagsKind, FlagsBoundary;
    var recs := init + [SampleRecord(s)];
    assert recs[..|init|] == init;
    if !Skipped(FlagsKind(s.flags), FlagsBoundary(s.flags), from, to) {
      assert events[|events| - 1].id == r.m.nextEvent;
    }
  }

  lemma TurnedOn(images: seq<Image>, filter: Option<Tracker>, init: seq<Record>, rec: Record, r: Recon)
    requires r == PushAll(images, New(filter), init) && r.m.nextEvent == Ordinal(images, filter, init)
    requires Turned(images, filter, init, r)
    ensures var r', recs := Push(images, r, rec), init + [rec];
            r'.m.nextEvent == Ordinal(images, filter, recs) && Turned(images, filter, recs, r')
  {
    hide PushAll, Keeps, Push, PushSample, Row, Ordinal, Turn, KeptLast;
    CountStep(images, filter, init, rec);
    if rec.SampleRecord? && Keeps(r, rec) {
      SampleTurns(images, Noted(r, rec), rec.sample);
      KeptPush(images, r, rec.sample);
      RowsOfNoted(r, rec);
    } else {
      OthersTurn(images, r, rec);
    }
  }

  lemma RowsOfNoted(r: Recon, rec: Record)
    ensures forall k :: Row(Noted(r, rec), k) == Row(r, k)
    ensures Noted(r, rec).m == r.m
  {}

  lemma OtherTold(images: seq<Image>, filter: Option<Tracker>, init: seq<Record>, rec: Record, r: Recon)
    requires r == PushAll(images, New(filter), init) && Told(images, filter, init, r)
    requires (!rec.SampleRecord? || !Keeps(r, rec)) && Roomy(images, |init| + 1)
    ensures var recs, r' := init + [rec], Push(images, r, rec);
            && AllTrue(images, filter, recs, r'.tables.locations, r'.m.events)
            && AllStored(images, filter, recs, r'.m.events)
            && SlotsNamed(images, r'.tables)
    ensures |Push(images, r, rec).tables.mappings| <= |init| + 1
  {
    hide PushAll, Keeps, Push, EventTrue, SlotNamed, Ordinal, Turn, KeptLast, Turned, Stored;
    var recs, r' := init + [rec], Push(images, r, rec);
    OthersTurn(images, r, rec);
    OthersTables(images, r, rec);
    forall a | 0 <= a < |r.m.events| ensures EventTrue(images, filter, recs, r'.tables.locations, r.m.events[a]) {
      EventLasts(images, filter, init, r.tables.locations, rec, r'.tables.locations, r.m.events[a]);
    }
    NoSampleToStore(images, filter, init, rec, r, r'.m.events);
    StoredLasts(images, filter, init, r.m.events, rec, r'.m.events);
    forall s | s in r'.tables.locIndex ensures SlotNamed(images, r'.tables, s) {
      SlotLasts(images, r.tables, r'.tables, s);
    }
  }

  lemma NoSampleToStore(images: seq<Image>, filter: Option<Tracker>, init: seq<Record>, rec: Record, r: Recon,
                        events: seq<FlowEvent>)
    requires r == PushAll(images, New(filter), init) && (!rec.SampleRecord? || !Keeps(r, rec))
    ensures Stored(images, filter, init + [rec], events, |init|)
  {
    hide PushAll, Keeps, Ordinal;
    CountStep(images, filter, init, rec);
    assert (init + [rec])[..|init| + 1] == init + [rec];
  }

  lemma OthersTables(images: seq<Image>, r: Recon, rec: Record)
    requires !rec.SampleRecord? || !Keeps(r, rec)
    ensures var t, t' := r.tables, Push(images, r, rec).tables;
            && t'.locations == t.locations && t'.locIndex == t.locIndex && t.mappings <= t'.mappings
            && |t'.mappings| <= |t.mappings| + 1
  {
    hide PushSample, PushTask, PushError;
    match rec
    case TaskRecord(t) => TaskKeepsTables(Noted(r, rec), t);
    case DecoderErrorRecord(e) => ErrorKeepsTables(Noted(r, rec), e);
    case _ =>
  }

  lemma {:induction false} RunTold(images: seq<Image>, filter: Option<Tracker>, recs: seq<Record>)
    requires AllSorted(images) && Roomy(images, |recs|)
    ensures Told(images, filter, recs, PushAll(images, New(filter), recs))
    decreases |recs|
  {
    hide ReconInv, AllSorted, Push, PushAll, Turned, SlotsNamed, AllTrue, AllStored, Ordinal, TablesTrue, Keeps;
    if recs == [] {
      Tracking.PushedNothing(images, New(filter));
      NothingTold(images, filter);
    } else {
      var init, rec := recs[..|recs| - 1], recs[|recs| - 1];
      assert recs == init + [rec];
      var r := PushAll(images, New(filter), init);
      RoundTrip.PushAllConcat(images, New(filter), init, [rec]);
      Tracking.PushedOne(images, r, rec);
      RunTold(images, filter, init);
      AnyRun(images, filter, init);
      RunTrue(images, filter, init);
      TurnedOn(images, filter, init, rec, r);
      if rec.SampleRecord? && Keeps(r, rec) {
        SampleTold(images, filter, init, rec.sample, r);
      } else {
        OtherTold(images, filter, init, rec, r);
      }
    }
  }

  lemma NothingTold(images: seq<Image>, filter: Option<Tracker>)
    ensures Told(images, filter, [], New(filter))
  {}

  // ----- and in the analysis -----

  /** The event with its time counted from the clock's own zero. */
  function OnClock(ev: FlowEvent, origin: nat): FlowEvent {
    ev.(time := if ev.time.Some? then Some(ev.time.value + origin) else None)
  }

  /**
   * For every stream and filter, while image keys cannot collide: every event of a returned analysis is one kept
   * sample in full, and every kept sample but a plain jump has its event.
   */
  lemma EventsAreTrue(images: seq<Image>, filter: Option<Tracker>, recs: seq<Record>)
    requires AllSorted(images) && Roomy(images, |recs|)
    ensures var r := PushAll(images, New(filter), recs);
            && (forall k :: k in r.m.order <==> k in r.m.threads)
            && (Finish(r).Ok? ==>
                  var a := Finish(r).value;
                  && (forall i :: 0 <= i < |a.events| ==>
                        EventTrue(images, filter, recs, a.locations, OnClock(a.events[i], a.origin)))
                  && (forall i, j :: 0 <= i < j < |a.events| ==> a.events[i].id < a.events[j].id)
                  && AllStored(images, filter, recs, a.events))
  {
    hide ReconInv, PushAll, New, Finish, AllTrue, AllStored, AllSorted, Turned, SlotsNamed, Ordinal, EventTrue;
    AnyRun(images, filter, recs);
    RunTold(images, filter, recs);
    var r := PushAll(images, New(filter), recs);
    Results.ClosedHasInv(images, r, true);
    EventsAscend(images, r);
    FinishedEvents(r);
    if Finish(r).Ok? {
      var a := Finish(r).value;
      assert a.locations == r.tables.locations;
      CarriedOver(images, filter, recs, a.locations, r.m.events, a.events, a.origin);
    }
  }

  /** Finishing changes nothing of the events but the zero of their times. */
  lemma FinishedEvents(r: Recon)
    requires forall k :: k in r.m.order <==> k in r.m.threads
    ensures Finish(r).Ok? ==>
              var a := Finish(r).value;
              && a.locations == r.tables.locations && |a.events| == |r.m.events|
              && forall i :: 0 <= i < |a.events| ==>
                   a.events[i].id == r.m.events[i].id && OnClock(a.events[i], a.origin) == r.m.events[i]
  {
    hide SortById, CloseAll;
    CloseAllEvents(r.m, r.m.order);
    if Finish(r).Ok? {
      var a := Finish(r).value;
      forall i | 0 <= i < |a.events| ensures OnClock(a.events[i], a.origin) == r.m.events[i] {
        assert Rebasable(r.m.events[i].time, a.origin);
      }
    }
  }

  lemma CarriedOver(images: seq<Image>, filter: Option<Tracker>, recs: seq<Record>, locations: seq<Location>,
                    events: seq<FlowEvent>, events': seq<FlowEvent>, origin: nat)
    requires AllTrue(images, filter, recs, locations, events) && AllStored(images, filter, recs, events)
    requires |events'| == |events|
    requires forall i :: 0 <= i < |events| ==> events'[i].id == events[i].id && OnClock(events'[i], origin) == events[i]
    ensures forall i :: 0 <= i < |events'| ==> EventTrue(images, filter, recs, locations, OnClock(events'[i], origin))
    ensures AllStored(images, filter, recs, events')
  {
    hide EventTrue, Stored;
    forall i | 0 <= i < |recs| ensures Stored(images, filter, recs, events', i) {
      StoredById(images, filter, recs, events, events', i);
    }
  }

  lemma StoredById(images: seq<Image>, filter: Option<Tracker>, recs: seq<Record>, events: seq<FlowEvent>,
                   events': seq<FlowEvent>, i: nat)
    requires i < |recs| && Stored(images, filter, recs, events, i)
    requires |events'| == |events| && forall a :: 0 <= a < |events| ==> events'[a].id == events[a].id
    ensures Stored(images, filter, recs, events', i)
  {
    hide KeptLast, Ordinal, Plain;
    var id := Ordinal(images, filter, recs[..i]);
    if HasId(events, id) {
      var a :| 0 <= a < |events| && events[a].id == id;
      assert events'[a].id == id;
    }
  }

  lemma {:induction false} CloseAllEvents(m: State, keys: seq<Key>)
    requires forall k :: k in keys ==> k in m.threads
    ensures CloseAll(m, keys).events == m.events
    decreases |keys|
  {
    hide CloseOpen;
    if keys != [] {
      var m0 := SetPending(m, keys[0], None);
      CloseOpenOutside(m0, keys[0], None);
      CloseAllEvents(CloseOpen(m0, keys[0], None), keys[1..]);
    }
  }

  lemma EventsAscend(images: seq<Image>, r: Recon)
    requires ReconInv(images, r, true)
    ensures forall i, j :: 0 <= i < j < |r.m.events| ==> r.m.events[i].id < r.m.events[j].id
  {}

  // ----- which samples are stored -----

  /** The mapping an address lies in. */
  function MapOf(images: seq<Image>, t: Tables, pid: nat, ip: Option<nat>): Option<nat> {
    var p := RoundTrip.PlaceAt(images, t, pid, ip);
    if p.Some? then Some(p.value.map_) else None
  }

  /** Both addresses are in one function; or in none, and in one mapping, where only a conditional jump stays inside. */
  predicate SameBody(images: seq<Image>, t: Tables, s: Sample) {
    && RoundTrip.FnKey(images, t, s.pid, s.ip) == RoundTrip.FnKey(images, t, s.pid, s.addr)
    && (RoundTrip.FnKey(images, t, s.pid, s.ip).Some?
        || (&& MapOf(images, t, s.pid, s.ip) == MapOf(images, t, s.pid, s.addr)
            && (FlagsKind(s.flags) == Conditional || MapOf(images, t, s.pid, s.ip).None?)))
  }

  /** A kept sample is left out exactly if it is a plain jump inside one body of code. */
  lemma StoredIff(images: seq<Image>, r: Recon, s: Sample)
    requires Keeps(r, SampleRecord(s)) && ReconInv(images, r, true)
    ensures Push(images, r, SampleRecord(s)).m.events == r.m.events <==> Plain(s) && SameBody(images, r.tables, s)
  {
    hide ReconInv, PushSample, Resolve, FlagsKind, FlagsBoundary, TablesInv, SameBody, Keeps;
    SampleTurns(images, Noted(r, SampleRecord(s)), s);
    KeptPush(images, r, s);
    RoundTrip.ReconTables(images, r);
    SkippedIff(images, r.tables, s);
    var (from, t1) := Resolve(images, r.tables, s.pid, s.ip);
    var (to, t2) := Resolve(images, t1, s.pid, s.addr);
    if !Skipped(FlagsKind(s.flags), FlagsBoundary(s.flags), from, to) {
      assert |Push(images, r, SampleRecord(s)).m.events| == |r.m.events| + 1;
    }
  }

  lemma SkippedIff(images: seq<Image>, t: Tables, s: Sample)
    requires TablesInv(images, t)
    ensures var (from, t1) := Resolve(images, t, s.pid, s.ip);
            var (to, t2) := Resolve(images, t1, s.pid, s.addr);
            Skipped(FlagsKind(s.flags), FlagsBoundary(s.flags), from, to) <==> Plain(s) && SameBody(images, t, s)
  {
    hide Resolve, FlagsKind, FlagsBoundary, TablesInv, Extends, PlaceOf;
    RoundTrip.ResolvesTo(images, New(None).(tables := t), s);
    ResolveOk(images, t, s.pid, s.ip);
    var (from, t1) := Resolve(images, t, s.pid, s.ip);
    ResolveOk(images, t1, s.pid, s.addr);
    var (to, t2) := Resolve(images, t1, s.pid, s.addr);
    RoundTrip.SameKey(images, t, t2, s.pid, s.ip);
    RoundTrip.SameKey(images, t, t2, s.pid, s.addr);
    SameMap(images, t, t1, s.pid, s.ip);
    SameMap(images, t, t2, s.pid, s.addr);
    IdsTellKeys(images, t2, s.pid, s.ip, s.addr);
    ReadsMap(images, t1, s.pid, s.ip, from);
    ReadsMap(images, t2, s.pid, s.addr, to);
  }

  lemma SameMap(images: seq<Image>, t: Tables, t': Tables, pid: nat, ip: Option<nat>)
    requires SameMaps(t, t')
    ensures MapOf(images, t', pid, ip) == MapOf(images, t, pid, ip)
  {
    if ip.Some? { SamePlace(images, t, t', pid, ip.value); }
  }

  lemma ReadsMap(images: seq<Image>, t: Tables, pid: nat, ip: Option<nat>, r: Resolved)
    requires Reads(t, RoundTrip.PlaceAt(images, t, pid, ip), r)
    ensures r.map_ == MapOf(images, t, pid, ip)
  {}

  /** One id, one function. */
  lemma IdsTellKeys(images: seq<Image>, t: Tables, pid: nat, a: Option<nat>, b: Option<nat>)
    requires TablesInv(images, t)
    requires RoundTrip.FnId(images, t, pid, a).Some? <==> RoundTrip.FnKey(images, t, pid, a).Some?
    requires RoundTrip.FnId(images, t, pid, b).Some? <==> RoundTrip.FnKey(images, t, pid, b).Some?
    ensures RoundTrip.FnId(images, t, pid, a) == RoundTrip.FnId(images, t, pid, b)
            <==> RoundTrip.FnKey(images, t, pid, a) == RoundTrip.FnKey(images, t, pid, b)
  {
    hide LocationsOk, MapsOk, CacheOk, RoundTrip.FnKey;
  }

  /** What the flags of an instruction mean: its kind, and whether it crosses a boundary. */
  lemma FlagsMean(flags: set<Flag>)
    ensures FlagsKind({CallFlag}) == Call && FlagsKind({ReturnFlag}) == Return && FlagsKind({Jmp}) == Jump
    ensures FlagsKind({Jcc, Jmp}) == Conditional && FlagsKind({}) == Jump
    ensures FlagsKind(flags) == TraceBegin <==> FlagsBoundary(flags).traceBegin
    ensures FlagsKind(flags) == TraceEnd <==> FlagsBoundary(flags).traceEnd && !FlagsBoundary(flags).traceBegin
    ensures FlagsKind(flags) == AsyncBoundary && !FlagsBoundary(flags).TakesPrecedence() ==>
              VmEntry in flags || VmExit in flags
    ensures FlagsBoundary(flags).TakesPrecedence() ==>
              FlagsKind(flags) == TraceBegin || FlagsKind(flags) == TraceEnd || FlagsKind(flags) == AsyncBoundary
    ensures HwInt in flags ==> FlagsBoundary(flags).asyncEvent && FlagsBoundary(flags).interrupt
  {
    var foreign := {Async, HwInt, Int, Iret, Syscall, Sysret, TxAbort, VmEntry, VmExit};
    assert forall x :: x in foreign && x in flags ==> x in flags * foreign;
    assert {CallFlag} * foreign == {} && {ReturnFlag} * foreign == {} && {Jmp} * foreign == {};
    assert {Jcc, Jmp} * foreign == {};
    if flags * foreign != {} { var x :| x in flags * foreign; }
  }
}
