/**
 * What an address resolves to, said from the image and the mapping: its file offset, the
 * segment that holds it, and the function around it. So every row of the tables is true.
 */
module Places {
  import opened TraceTypes
  import opened Symbols
  import opened Recon
  import opened Runs
  import RoundTrip
  import Results
  import Tracking

  // ----- inside an image -----

  predicate HoldsOffset(s: Segment, off: nat) {
    s.fileOff <= off < Min(s.fileOff + s.fileSize, U64_MAX)
  }

  predicate FirstHolding(segments: seq<Segment>, i: nat, off: nat)
    requires i < |segments|
  {
    HoldsOffset(segments[i], off) && forall j :: 0 <= j < i ==> !HoldsOffset(segments[j], off)
  }

  /** An address lies as far into its segment as its file offset does; outside all segments it is the offset. */
  ghost predicate AtOffset(segments: seq<Segment>, off: nat, rel: nat) {
    && (forall i :: 0 <= i < |segments| && FirstHolding(segments, i, off) ==>
          rel == Min(segments[i].vaddr + (off - segments[i].fileOff), U64_MAX))
    && ((forall i :: 0 <= i < |segments| ==> !HoldsOffset(segments[i], off)) ==> rel == off)
  }

  lemma {:induction false} SegmentsAgree(segments: seq<Segment>, off: nat)
    requires off <= U64_MAX
    ensures AtOffset(segments, off, InSegments(segments, off))
  {
    if segments != [] && !HoldsOffset(segments[0], off) {
      var rest := segments[1..];
      SegmentsAgree(rest, off);
      var rel := InSegments(segments, off);
      assert forall j :: 0 < j < |segments| ==> segments[j] == rest[j - 1];
      forall i | 0 <= i < |segments| && FirstHolding(segments, i, off)
        ensures rel == Min(segments[i].vaddr + (off - segments[i].fileOff), U64_MAX)
      {
        assert FirstHolding(rest, i - 1, off);
      }
    }
  }

  predicate SortedByStart(funcs: seq<FuncRange>) {
    forall i, j :: 0 <= i < j < |funcs| ==> funcs[i].start <= funcs[j].start
  }

  /** The i-th range is the last that starts at or below the address, and it contains it. */
  predicate LastBelow(funcs: seq<FuncRange>, i: nat, rel: nat)
    requires i < |funcs|
  {
    funcs[i].start <= rel < funcs[i].end && (i + 1 < |funcs| ==> rel < funcs[i + 1].start)
  }

  /** The function of an address: the last range to start at or below it, if that contains it. */
  ghost predicate Around(funcs: seq<FuncRange>, rel: nat, f: Option<FuncRange>) {
    && (f.Some? ==> exists i :: 0 <= i < |funcs| && LastBelow(funcs, i, rel) && funcs[i] == f.value)
    && (f.None? ==> forall i :: 0 <= i < |funcs| ==> !LastBelow(funcs, i, rel))
  }

  lemma {:induction false} PointSplits(funcs: seq<FuncRange>, rel: nat)
    requires SortedByStart(funcs)
    ensures var n := PartitionPoint(funcs, rel);
            && (forall i :: 0 <= i < n ==> funcs[i].start <= rel)
               && (forall i :: n <= i < |funcs| ==> rel < funcs[i].start)
  {
    if funcs != [] && funcs[0].start <= rel {
      var rest := funcs[1..];
      PointSplits(rest, rel);
      assert forall i :: 0 < i < |funcs| ==> funcs[i] == rest[i - 1];
    }
  }

  lemma LookupAgrees(funcs: seq<FuncRange>, rel: nat)
    requires SortedByStart(funcs)
    ensures Around(funcs, rel, LookupFunction(funcs, rel))
  {
    PointSplits(funcs, rel);
    hide PartitionPoint;
    var n := PartitionPoint(funcs, rel);
    if LookupFunction(funcs, rel).Some? { assert LastBelow(funcs, n - 1, rel); }
  }

  predicate Contains(f: FuncRange, rel: nat) { f.start <= rel < f.end }

  predicate Disjoint(funcs: seq<FuncRange>) {
    forall i, j :: 0 <= i < j < |funcs| ==> funcs[i].end <= funcs[j].start
  }

  /** With disjoint ranges, an address is given the range that contains it, and none exactly if none does. */
  lemma ContainingIsFound(funcs: seq<FuncRange>, rel: nat)
    requires SortedByStart(funcs) && Disjoint(funcs)
    ensures var f := LookupFunction(funcs, rel);
            && (f.None? <==> forall i :: 0 <= i < |funcs| ==> !Contains(funcs[i], rel))
            && (f.Some? ==> forall i :: 0 <= i < |funcs| && Contains(funcs[i], rel) ==> funcs[i] == f.value)
  {
    LookupAgrees(funcs, rel);
    hide LookupFunction;
    var f := LookupFunction(funcs, rel);
    forall i | 0 <= i < |funcs| && Contains(funcs[i], rel) ensures LastBelow(funcs, i, rel) {}
    if f.Some? {
      var k :| 0 <= k < |funcs| && LastBelow(funcs, k, rel) && funcs[k] == f.value;
      assert Contains(funcs[k], rel);
      forall i | 0 <= i < |funcs| && Contains(funcs[i], rel) ensures i == k {}
    }
  }

  /** Behind a symbol nested in another, the outer one is not found. */
  lemma NestedHidesOuter()
    ensures var funcs := [FuncRange("f", "f", 0, 100), FuncRange("g", "g", 10, 20)];
            SortedByStart(funcs) && Contains(funcs[0], 50) && LookupFunction(funcs, 50).None?
  {
    var funcs := [FuncRange("f", "f", 0, 100), FuncRange("g", "g", 10, 20)];
    assert funcs[1..][1..] == [];
    assert PartitionPoint(funcs[1..], 50) == 1;
    assert PartitionPoint(funcs, 50) == 2;
  }

  // ----- a place -----

  /** The first image archived under the path. */
  predicate IsImage(images: seq<Image>, path: string, i: nat)
    requires i < |images|
  {
    images[i].path == path && forall j :: 0 <= j < i ==> images[j].path != path
  }

  /** The place of `ip` in a mapping that starts at `start` with the file's contents from `pgoff` on. */
  ghost predicate Describes(images: seq<Image>, start: nat, pgoff: nat, path: string, ip: nat, p: Place)
    requires start <= ip
  {
    && (forall i :: 0 <= i < |images| && IsImage(images, path, i) ==>
          && p.imageKey == i && p.imageId == images[i].hash
          && (if ip - start + pgoff > U64_MAX then p.rel == ip - start
              else AtOffset(images[i].segments, ip - start + pgoff, p.rel))
          && Around(images[i].funcs, p.rel, p.func))
    && ((forall i :: 0 <= i < |images| ==> images[i].path != path) ==>
          p.imageId == path && p.rel == ip - start && p.func.None?)
  }

  ghost predicate AllSorted(images: seq<Image>) {
    forall i :: 0 <= i < |images| ==> SortedByStart(images[i].funcs)
  }

  lemma {:induction false} ImageIsFirst(images: seq<Image>, path: string, k: nat)
    requires k <= |images| && forall j :: 0 <= j < k ==> images[j].path != path
    ensures var i := ImageFrom(images, path, k);
            && (i.Some? ==> i.value < |images| && IsImage(images, path, i.value))
            && (i.None? ==> forall j :: 0 <= j < |images| ==> images[j].path != path)
    decreases |images| - k
  {
    if k < |images| && images[k].path != path { ImageIsFirst(images, path, k + 1); }
  }

  lemma OneImage(images: seq<Image>, path: string, i: nat, j: nat)
    requires i < |images| && j < |images| && IsImage(images, path, i) && IsImage(images, path, j)
    ensures i == j
  {}

  /** Every place is described by its mapping, which covers the address. */
  lemma PlaceIsDescribed(images: seq<Image>, t: Tables, pid: nat, ip: nat)
    requires MapsOk(t) && AllSorted(images) && PlaceOf(images, t, pid, ip).Some?
    ensures var p := PlaceOf(images, t, pid, ip).value;
            && p.map_ < |t.mappings| && t.mappings[p.map_].pid == pid
            && t.mappings[p.map_].start <= ip < t.mappings[p.map_].end
            && Describes(images, t.mappings[p.map_].start, t.mappings[p.map_].pgoff, t.mappings[p.map_].path, ip, p)
  {
    hide InSegments, LookupFunction, AtOffset, Around, NewestCovering;
    var found := NewestCovering(t.mapsByPid[pid], t.mappings, ip);
    CoversIt(t.mapsByPid[pid], t.mappings, ip);
    var m := t.mappings[found.value];
    ImageIsFirst(images, m.path, 0);
    var image := ImageIndex(images, m.path);
    var p := PlaceOf(images, t, pid, ip).value;
    if image.Some? {
      if ip - m.start + m.pgoff <= U64_MAX { SegmentsAgree(images[image.value].segments, ip - m.start + m.pgoff); }
      LookupAgrees(images[image.value].funcs, p.rel);
      forall i | 0 <= i < |images| && IsImage(images, m.path, i) ensures i == image.value {
        OneImage(images, m.path, i, image.value);
      }
    }
  }

  lemma {:induction false} CoversIt(maps: seq<nat>, mappings: seq<Mapping>, ip: nat)
    ensures var r := NewestCovering(maps, mappings, ip);
            r.Some? ==> mappings[r.value].start <= ip < mappings[r.value].end
    decreases |maps|
  {
    if maps != [] { CoversIt(maps[..|maps| - 1], mappings, ip); }
  }

  /** Right after a mapping event, its addresses lie where the event says. */
  lemma EventDescribes(images: seq<Image>, t: Tables, e: MmapEvent, ip: nat)
    requires TablesInv(images, t) && AllSorted(images) && e.start <= ip < SatAdd(e.start, e.len)
    ensures var p := PlaceOf(images, AddMapping(t, e), e.pid, ip);
            p.Some? && Describes(images, e.start, e.pgoff, e.path, ip, p.value)
  {
    hide PlaceOf, Describes;
    AddMappingOk(images, t, e);
    NewMappingWins(images, t, e, ip);
    PlaceIsDescribed(images, AddMapping(t, e), e.pid, ip);
    NewestIs(t, e);
  }

  lemma NewestIs(t: Tables, e: MmapEvent)
    ensures var m := AddMapping(t, e).mappings[|t.mappings|];
            m.start == e.start && m.pgoff == e.pgoff && m.path == e.path
  {}

  // ----- the rows of the tables -----

  /** The last of the image's ranges that start where this one does. */
  predicate LastStarting(funcs: seq<FuncRange>, i: nat, f: FuncRange)
    requires i < |funcs|
  {
    funcs[i] == f && (i + 1 < |funcs| ==> f.start < funcs[i + 1].start)
  }

  ghost predicate InImage(images: seq<Image>, key: int, f: FuncRange) {
    0 <= key < |images| && exists i :: 0 <= i < |images[key].funcs| && LastStarting(images[key].funcs, i, f)
  }

  lemma LastIsOne(images: seq<Image>, key: int, f: FuncRange, g: FuncRange)
    requires AllSorted(images) && InImage(images, key, f) && InImage(images, key, g) && f.start == g.start
    ensures f == g
  {
    var funcs := images[key].funcs;
    assert SortedByStart(funcs);
    var i :| 0 <= i < |funcs| && LastStarting(funcs, i, f);
    var j :| 0 <= j < |funcs| && LastStarting(funcs, j, g);
    NoneBehind(funcs, i, j, f, g);
    NoneBehind(funcs, j, i, g, f);
  }

  lemma NoneBehind(funcs: seq<FuncRange>, i: nat, j: nat, f: FuncRange, g: FuncRange)
    requires SortedByStart(funcs) && i < |funcs| && j < |funcs| && f.start == g.start
    requires LastStarting(funcs, i, f) && LastStarting(funcs, j, g)
    ensures j <= i
  {}

  function FunctionRow(id: nat, f: FuncRange, hash: string): FunctionRecord {
    FunctionRecord(id, f.name, f.demangled, hash, f.start, f.end)
  }

  /** The row of a slot is the range of that image that starts there. */
  ghost predicate SlotTrue(images: seq<Image>, t: Tables, s: Slot)
    requires s in t.funcIndex
  {
    var id := t.funcIndex[s];
    id < |t.functions| && exists f :: IsRange(images, s, f, t.functions[id])
  }

  ghost predicate IsRange(images: seq<Image>, s: Slot, f: FuncRange, row: FunctionRecord) {
    InImage(images, s.0, f) && f.start == s.1 && row == FunctionRow(row.id, f, images[s.0].hash)
  }

  ghost predicate FunctionsTrue(images: seq<Image>, t: Tables) {
    forall s :: s in t.funcIndex ==> SlotTrue(images, t, s)
  }

  predicate IsMapping(m: Mapping, e: MmapEvent) {
    m.pid == e.pid && m.start == e.start && m.end == SatAdd(e.start, e.len) && m.pgoff == e.pgoff && m.path == e.path
  }

  predicate FromRecord(recs: seq<Record>, i: nat, m: Mapping)
    requires i < |recs|
  {
    recs[i].MmapRecord? && IsMapping(m, recs[i].mmap)
  }

  ghost predicate MappingsTrue(recs: seq<Record>, t: Tables) {
    forall k :: 0 <= k < |t.mappings| ==> Announced(recs, t.mappings[k])
  }

  ghost predicate Announced(recs: seq<Record>, m: Mapping) {
    exists i :: 0 <= i < |recs| && FromRecord(recs, i, m)
  }

  /** The row is the place of its address in the mapping that the i-th record announced. */
  ghost predicate RowAt(images: seq<Image>, recs: seq<Record>, functions: seq<FunctionRecord>, loc: Location, i: nat,
                        p: Place)
    requires i < |recs|
  {
    && recs[i].MmapRecord?
    && var e := recs[i].mmap;
    && e.start <= loc.virtIp < SatAdd(e.start, e.len) && Describes(images, e.start, e.pgoff, e.path, loc.virtIp, p)
    && loc.imageId == p.imageId && loc.offset == p.rel && (loc.func.Some? <==> p.func.Some?)
    && (p.func.Some? ==>
          loc.func.value < |functions| && functions[loc.func.value]
            == FunctionRow(loc.func.value, p.func.value, p.imageId))
  }

  ghost predicate RowTrue(images: seq<Image>, recs: seq<Record>, functions: seq<FunctionRecord>, loc: Location) {
    exists i, p :: 0 <= i < |recs| && RowAt(images, recs, functions, loc, i, p)
  }

  ghost predicate LocationsTrue(images: seq<Image>, recs: seq<Record>, t: Tables) {
    forall a :: 0 <= a < |t.locations| ==> RowTrue(images, recs, t.functions, t.locations[a])
  }

  ghost predicate TablesTrue(images: seq<Image>, recs: seq<Record>, t: Tables) {
    FunctionsTrue(images, t) && MappingsTrue(recs, t) && LocationsTrue(images, recs, t)
  }

  lemma RowLasts(images: seq<Image>, recs: seq<Record>, functions: seq<FunctionRecord>, recs': seq<Record>,
                 functions': seq<FunctionRecord>, loc: Location)
    requires RowTrue(images, recs, functions, loc) && recs <= recs' && functions <= functions'
    ensures RowTrue(images, recs', functions', loc)
  {
    hide Describes;
    var i, p :| 0 <= i < |recs| && RowAt(images, recs, functions, loc, i, p);
    assert RowAt(images, recs', functions', loc, i, p);
  }

  /** What an archived place says of its function. */
  lemma PlaceInImage(images: seq<Image>, t: Tables, pid: nat, ip: nat)
    requires MapsOk(t) && AllSorted(images) && PlaceOf(images, t, pid, ip).Some?
    ensures var p := PlaceOf(images, t, pid, ip).value;
            p.func.Some? ==> InImage(images, p.imageKey, p.func.value) && p.imageId == images[p.imageKey].hash
  {
    hide InSegments, NewestCovering;
    var p := PlaceOf(images, t, pid, ip).value;
    if p.func.Some? {
      var funcs := images[p.imageKey].funcs;
      LookupAgrees(funcs, p.rel);
      hide LookupFunction;
      var i :| 0 <= i < |funcs| && LastBelow(funcs, i, p.rel) && funcs[i] == p.func.value;
      assert LastStarting(funcs, i, p.func.value);
    }
  }

  lemma InternedTrue(images: seq<Image>, t: Tables, p: Place)
    requires FunctionsOk(t) && FunctionsTrue(images, t) && AllSorted(images)
    requires p.func.Some? ==> InImage(images, p.imageKey, p.func.value) && p.imageId == images[p.imageKey].hash
    ensures var (func, t') := InternFunction(t, p);
            && FunctionsTrue(images, t') && t.functions <= t'.functions && (func.Some? <==> p.func.Some?)
            && (func.Some? ==>
                  func.value < |t'.functions| && t'.functions[func.value]
                    == FunctionRow(func.value, p.func.value, p.imageId))
  {
    hide InImage, SortedByStart;
    var (func, t') := InternFunction(t, p);
    if p.func.Some? {
      var s := (p.imageKey, p.func.value.start);
      if s in t.funcIndex {
        assert SlotTrue(images, t, s);
        var f :| IsRange(images, s, f, t.functions[t.funcIndex[s]]);
        LastIsOne(images, s.0, f, p.func.value);
      } else {
        forall u | u in t'.funcIndex ensures SlotTrue(images, t', u) {
          if u == s { NewSlot(images, t', s, p.func.value); } else { OldSlot(images, t, t', u); }
        }
      }
    }
  }

  lemma NewSlot(images: seq<Image>, t: Tables, s: Slot, f: FuncRange)
    requires s in t.funcIndex && t.funcIndex[s] < |t.functions| && InImage(images, s.0, f) && f.start == s.1
    requires t.functions[t.funcIndex[s]] == FunctionRow(t.funcIndex[s], f, images[s.0].hash)
    ensures SlotTrue(images, t, s)
  {
    assert IsRange(images, s, f, t.functions[t.funcIndex[s]]);
  }

  lemma OldSlot(images: seq<Image>, t: Tables, t': Tables, s: Slot)
    requires s in t.funcIndex && SlotTrue(images, t, s) && t.functions <= t'.functions
    requires s in t'.funcIndex && t'.funcIndex[s] == t.funcIndex[s]
    ensures SlotTrue(images, t', s)
  {
    hide InImage;
  }

  /** A place of the tables, in terms of the record that announced its mapping. */
  lemma PlaceFromRecord(images: seq<Image>, recs: seq<Record>, t: Tables, pid: nat, ip: nat) returns (i: nat)
    requires MapsOk(t) && MappingsTrue(recs, t) && AllSorted(images) && PlaceOf(images, t, pid, ip).Some?
    ensures i < |recs| && recs[i].MmapRecord?
    ensures var e := recs[i].mmap;
            && e.pid == pid && e.start <= ip < SatAdd(e.start, e.len)
            && Describes(images, e.start, e.pgoff, e.path, ip, PlaceOf(images, t, pid, ip).value)
  {
    hide PlaceOf, Describes, MapsOk, AllSorted;
    PlaceIsDescribed(images, t, pid, ip);
    var k := PlaceOf(images, t, pid, ip).value.map_;
    i :| 0 <= i < |recs| && FromRecord(recs, i, t.mappings[k]);
  }

  lemma UncachedTrue(images: seq<Image>, recs: seq<Record>, t: Tables, pid: nat, ip: nat)
    requires TablesInv(images, t) && AllSorted(images) && TablesTrue(images, recs, t)
    ensures TablesTrue(images, recs, ResolveUncached(images, t, pid, ip).1)
  {
    hide PlaceOf, CacheOk, LocationsOk, InternFunction, SlotTrue, RowTrue, AllSorted, InImage, Describes, NoteMissing,
         Announced;
    var place := PlaceOf(images, t, pid, ip);
    if place.Some? {
      var p := place.value;
      PlaceIsMapped(images, t, pid, ip);
      PlaceInImage(images, t, pid, ip);
      var i := PlaceFromRecord(images, recs, t, pid, ip);
      var t0 := NoteMissing(images, t, p);
      MissingLeaves(images, recs, t, p);
      InternedTrue(images, t0, p);
      var (func, t1) := InternFunction(t0, p);
      InternLeaves(t0, p);
      var t2 := InternLocation(t1, p, ip, func).1;
      forall a | 0 <= a < |t2.locations| ensures RowTrue(images, recs, t2.functions, t2.locations[a]) {
        if a < |t.locations| {
          RowLasts(images, recs, t.functions, recs, t2.functions, t.locations[a]);
        } else {
          RowAtPlace(images, recs, t2.functions, t2.locations[a], i, p);
        }
      }
      SlotsLast(images, t1, t2);
    }
  }

  lemma SlotsLast(images: seq<Image>, t: Tables, t': Tables)
    requires FunctionsTrue(images, t) && t'.funcIndex == t.funcIndex && t'.functions == t.functions
    ensures FunctionsTrue(images, t')
  {
    hide InImage;
    forall s | s in t'.funcIndex ensures SlotTrue(images, t', s) { OldSlot(images, t, t', s); }
  }

  lemma RowAtPlace(images: seq<Image>, recs: seq<Record>, functions: seq<FunctionRecord>, loc: Location, i: nat,
                   p: Place)
    requires i < |recs| && RowAt(images, recs, functions, loc, i, p)
    ensures RowTrue(images, recs, functions, loc)
  {}

  lemma MissingLeaves(images: seq<Image>, recs: seq<Record>, t: Tables, p: Place)
    requires p.map_ < |t.mappings| && FunctionsTrue(images, t) && FunctionsOk(t)
    ensures var t' := NoteMissing(images, t, p);
            && t'.functions == t.functions && t'.locations == t.locations && t'.mappings == t.mappings
            && t'.locIndex == t.locIndex && FunctionsTrue(images, t') && FunctionsOk(t')
  {
    SlotsLast(images, t, NoteMissing(images, t, p));
    hide SlotTrue, Dense;
  }

  lemma InternLeaves(t: Tables, p: Place)
    ensures var t' := InternFunction(t, p).1;
            t'.locations == t.locations && t'.mappings == t.mappings && t'.locIndex == t.locIndex
  {}

  lemma ResolveTrue(images: seq<Image>, recs: seq<Record>, t: Tables, pid: nat, ip: Option<nat>)
    requires TablesInv(images, t) && AllSorted(images) && TablesTrue(images, recs, t)
    ensures TablesTrue(images, recs, Resolve(images, t, pid, ip).1)
  {
    hide ResolveUncached, TablesInv, AllSorted, RowTrue, SlotTrue, Announced;
    if ip.Some? && (pid, ip.value) !in t.ipCache {
      UncachedTrue(images, recs, t, pid, ip.value);
      var t1 := ResolveUncached(images, t, pid, ip.value).1;
      SlotsLast(images, t1, Resolve(images, t, pid, ip).1);
    }
  }

  // ----- over a run -----

  lemma NewMappingTrue(images: seq<Image>, recs: seq<Record>, t: Tables, e: MmapEvent, i: nat)
    requires TablesTrue(images, recs, t) && i < |recs| && recs[i] == MmapRecord(e)
    ensures TablesTrue(images, recs, AddMapping(t, e))
  {
    hide RowTrue, SlotTrue;
    var t' := AddMapping(t, e);
    SlotsLast(images, t, t');
    forall k | 0 <= k < |t'.mappings| ensures Announced(recs, t'.mappings[k]) {
      if k < |t.mappings| {
        assert Announced(recs, t.mappings[k]);
      } else {
        assert FromRecord(recs, i, t'.mappings[k]);
      }
    }
  }

  lemma MoreRecords(images: seq<Image>, recs: seq<Record>, rec: Record, t: Tables)
    requires TablesTrue(images, recs, t)
    ensures TablesTrue(images, recs + [rec], t)
  {
    hide RowTrue, SlotTrue;
    forall a | 0 <= a < |t.locations| ensures RowTrue(images, recs + [rec], t.functions, t.locations[a]) {
      RowLasts(images, recs, t.functions, recs + [rec], t.functions, t.locations[a]);
    }
    forall k | 0 <= k < |t.mappings| ensures Announced(recs + [rec], t.mappings[k]) {
      assert Announced(recs, t.mappings[k]);
      var i :| 0 <= i < |recs| && FromRecord(recs, i, t.mappings[k]);
      assert FromRecord(recs + [rec], i, t.mappings[k]);
    }
  }

  lemma PushTrue(images: seq<Image>, recs: seq<Record>, r: Recon, rec: Record)
    requires ReconInv(images, r, true) && AllSorted(images) && TablesTrue(images, recs, r.tables)
    ensures TablesTrue(images, recs + [rec], Push(images, r, rec).tables)
  {
    hide TablesTrue, ReconInv, AllSorted, Resolve, AddMapping, PushSample, PushTask, PushError;
    var all := recs + [rec];
    assert all[|recs|] == rec;
    MoreRecords(images, recs, rec, r.tables);
    RoundTrip.ReconTables(images, r);
    match rec
    case SampleRecord(s) =>
      SampleTables(images, Noted(r, rec), s);
      ResolveTrue(images, all, r.tables, s.pid, s.ip);
      ResolveOk(images, r.tables, s.pid, s.ip);
      ResolveTrue(images, all, Resolve(images, r.tables, s.pid, s.ip).1, s.pid, s.addr);
    case MmapRecord(e) => NewMappingTrue(images, all, r.tables, e, |recs|);
    case TaskRecord(t) => TaskKeepsTables(Noted(r, rec), t);
    case DecoderErrorRecord(e) => ErrorKeepsTables(Noted(r, rec), e);
    case _ =>
  }

  lemma SampleTables(images: seq<Image>, r: Recon, s: Sample)
    ensures PushSample(images, r, s).tables
            == Resolve(images, Resolve(images, r.tables, s.pid, s.ip).1, s.pid, s.addr).1
  {}

  lemma {:induction false} RunTrue(images: seq<Image>, filter: Option<Tracker>, recs: seq<Record>)
    requires AllSorted(images)
    ensures TablesTrue(images, recs, PushAll(images, New(filter), recs).tables)
    decreases |recs|
  {
    hide TablesTrue, ReconInv, AllSorted, Push, PushAll;
    if recs == [] {
      Tracking.PushedNothing(images, New(filter));
      NoRows(images, filter);
    } else {
      var init, rec := recs[..|recs| - 1], recs[|recs| - 1];
      assert recs == init + [rec];
      var r := PushAll(images, New(filter), init);
      RoundTrip.PushAllConcat(images, New(filter), init, [rec]);
      Tracking.PushedOne(images, r, rec);
      RunTrue(images, filter, init);
      AnyRun(images, filter, init);
      PushTrue(images, init, r, rec);
    }
  }

  lemma NoRows(images: seq<Image>, filter: Option<Tracker>)
    ensures TablesTrue(images, [], New(filter).tables)
  {}

  /** A function row is a range of an archived image. */
  ghost predicate RangeOfImage(images: seq<Image>, row: FunctionRecord) {
    exists k, i :: 0 <= k < |images| && 0 <= i < |images[k].funcs|
      && row == FunctionRow(row.id, images[k].funcs[i], images[k].hash)
  }

  /**
   * For every record stream, with the symbols of each image sorted: every function of a returned analysis is a symbol
   * of an archived image, and every location is where a mapping record of the stream put its address, in the
   * function of that image around it.
   */
  lemma RowsAreTrue(images: seq<Image>, filter: Option<Tracker>, recs: seq<Record>)
    requires AllSorted(images)
    ensures var r := PushAll(images, New(filter), recs);
            && (forall k :: k in r.m.order <==> k in r.m.threads)
            && (Finish(r).Ok? ==>
                  var a := Finish(r).value;
                  && (forall i :: 0 <= i < |a.functions| ==> RangeOfImage(images, a.functions[i]))
                  && (forall i :: 0 <= i < |a.locations| ==> RowTrue(images, recs, a.functions, a.locations[i])))
  {
    hide ReconInv, PushAll, RowTrue, SlotTrue, RangeOfImage, AllSorted, CloseAll, SortById, Announced;
    AnyRun(images, filter, recs);
    RunTrue(images, filter, recs);
    var r := PushAll(images, New(filter), recs);
    Results.ClosedHasInv(images, r, true);
    forall i: nat | i < |r.tables.functions| ensures RangeOfImage(images, r.tables.functions[i]) {
      FunctionIsRange(images, r, i);
    }
  }

  lemma FunctionIsRange(images: seq<Image>, r: Recon, i: nat)
    requires ReconInv(images, r, true) && FunctionsTrue(images, r.tables) && i < |r.tables.functions|
    ensures RangeOfImage(images, r.tables.functions[i])
  {
    RoundTrip.ReconTables(images, r);
    hide ReconInv, LocationsOk, MapsOk, CacheOk;
    assert Slotted(r.tables.funcIndex, i);
    var s :| s in r.tables.funcIndex && r.tables.funcIndex[s] == i;
    assert SlotTrue(images, r.tables, s);
    var f :| IsRange(images, s, f, r.tables.functions[i]);
    var j :| 0 <= j < |images[s.0].funcs| && LastStarting(images[s.0].funcs, j, f);
  }
}
