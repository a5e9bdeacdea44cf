/**
 * Address resolution: the newest mapping that covers an address, the archived
 * image behind it, and the interning tables and cache in front of the lookup.
 */
module Symbols {
  import opened TraceTypes

  const U64_MAX: nat := 0xFFFF_FFFF_FFFF_FFFF
  const U32_MAX: nat := 0xFFFF_FFFF

  datatype Segment = Segment(fileOff: nat, fileSize: nat, vaddr: nat)

  datatype FuncRange = FuncRange(name: string, demangled: string, start: nat, end: nat)

  /** An archived image; `funcs` is sorted by start address. */
  datatype Image = Image(path: string, hash: string, segments: seq<Segment>, funcs: seq<FuncRange>)

  datatype Mapping = Mapping(pid: nat, start: nat, end: nat, pgoff: nat, path: string, abs: Option<nat>)

  datatype FunctionRecord = FunctionRecord(id: nat, name: string, demangled: string, imageId: string, start: nat,
                                           end: nat)

  datatype Location = Location(id: nat, imageId: string, offset: nat, virtIp: nat, func: Option<nat>)

  /** (image key, address inside the image). */
  type Slot = (int, nat)

  datatype Tables = Tables(
    mappings: seq<Mapping>,
    mapsByPid: map<nat, seq<nat>>,
    functions: seq<FunctionRecord>,
    funcIndex: map<Slot, nat>,
    locations: seq<Location>,
    locIndex: map<Slot, nat>,
    ipCache: map<(nat, nat), Resolved>,
    missingSamples: nat,
    missingPaths: seq<string>)

  const NO_TABLES := Tables([], map[], [], map[], [], map[], map[], 0, [])

  function SatAdd(a: nat, b: nat): nat {
    if a + b > U64_MAX then U64_MAX else a + b
  }

  // ----- one image -----

  /** The virtual address of a file offset: the first segment that holds it decides. */
  function InSegments(segments: seq<Segment>, off: nat): nat {
    if segments == [] then off
    else if segments[0].fileOff <= off < SatAdd(segments[0].fileOff, segments[0].fileSize)
    then SatAdd(segments[0].vaddr, off - segments[0].fileOff)
    else InSegments(segments[1..], off)
  }

  function RelativeAddr(image: Image, ip: nat, mapStart: nat, pgoff: nat): Option<nat> {
    if ip < mapStart || ip - mapStart + pgoff > U64_MAX then None
    else Some(InSegments(image.segments, ip - mapStart + pgoff))
  }

  /** The number of leading ranges that start at or below `addr`. */
  function PartitionPoint(funcs: seq<FuncRange>, addr: nat): (n: nat)
    ensures n <= |funcs|
  {
    if funcs == [] || funcs[0].start > addr then 0 else 1 + PartitionPoint(funcs[1..], addr)
  }

  function LookupFunction(funcs: seq<FuncRange>, addr: nat): Option<FuncRange> {
    var i := PartitionPoint(funcs, addr);
    if i == 0 then None
    else
      var f := funcs[i - 1];
      if f.start <= addr < f.end then Some(f) else None
  }

  // ----- placing an address -----

  /** The newest mapping of `maps` that covers `ip`. */
  function NewestCovering(maps: seq<nat>, mappings: seq<Mapping>, ip: nat): (r: Option<nat>)
    ensures r.Some? ==> r.value in maps && r.value < |mappings|
  {
    if maps == [] then None
    else
      var i := maps[|maps| - 1];
      if i < |mappings| && mappings[i].start <= ip < mappings[i].end then Some(i)
      else NewestCovering(maps[..|maps| - 1], mappings, ip)
  }

  function ImageIndex(images: seq<Image>, path: string): (r: Option<nat>)
    ensures r.Some? ==> r.value < |images| && images[r.value].path == path
  {
    ImageFrom(images, path, 0)
  }

  function ImageFrom(images: seq<Image>, path: string, i: nat): (r: Option<nat>)
    requires i <= |images|
    ensures r.Some? ==> r.value < |images| && images[r.value].path == path
    decreases |images| - i
  {
    if i == |images| then None
    else if images[i].path == path then Some(i)
    else ImageFrom(images, path, i + 1)
  }

  /** Where an address lies: its mapping, its image key, its address inside the image, its function. */
  datatype Place = Place(map_: nat, imageKey: int, imageId: string, rel: nat, func: Option<FuncRange>)

  /** The place of an address under the current mappings; no table is consulted. */
  function PlaceOf(images: seq<Image>, t: Tables, pid: nat, ip: nat): Option<Place> {
    if pid !in t.mapsByPid then None
    else
      var found := NewestCovering(t.mapsByPid[pid], t.mappings, ip);
      if found.None? then None
      else
        var m := t.mappings[found.value];
        var image := ImageIndex(images, m.path);
        if image.Some? then
          var rel := RelativeAddr(images[image.value], ip, m.start, m.pgoff);
          var r := if rel.Some? then rel.value else SatSub(ip, m.start);
          Some(Place(found.value, image.value, images[image.value].hash, r,
                     LookupFunction(images[image.value].funcs, r)))
        else
          Some(Place(found.value, U32_MAX - found.value, m.path, SatSub(ip, m.start), None))
  }

  // ----- interning -----

  function InternFunction(t: Tables, p: Place): (r: (Option<nat>, Tables)) {
    if p.func.None? then (None, t)
    else
      var f := p.func.value;
      var slot := (p.imageKey, f.start);
      if slot in t.funcIndex then (Some(t.funcIndex[slot]), t)
      else
        var id := |t.functions|;
        (Some(id), t.(functions := t.functions + [FunctionRecord(id, f.name, f.demangled, p.imageId, f.start, f.end)],
                      funcIndex := t.funcIndex[slot := id]))
  }

  function InternLocation(t: Tables, p: Place, ip: nat, func: Option<nat>): (nat, Tables) {
    var slot := (p.imageKey, p.rel);
    if slot in t.locIndex then (t.locIndex[slot], t)
    else
      var id := |t.locations|;
      (id, t.(locations := t.locations + [Location(id, p.imageId, p.rel, ip, func)],
              locIndex := t.locIndex[slot := id]))
  }

  /** An unarchived image is reported once per path; anonymous and special mappings are not. */
  function NoteMissing(images: seq<Image>, t: Tables, p: Place): Tables
    requires p.map_ < |t.mappings|
  {
    var path := t.mappings[p.map_].path;
    if ImageIndex(images, path).Some? || path == "" || path[0] == '[' then t
    else t.(missingSamples := t.missingSamples + 1,
            missingPaths := if path in t.missingPaths then t.missingPaths else t.missingPaths + [path])
  }

  function ResolveUncached(images: seq<Image>, t: Tables, pid: nat, ip: nat): (Resolved, Tables) {
    var place := PlaceOf(images, t, pid, ip);
    if place.None? then (UNRESOLVED, t)
    else
      var p := place.value;
      var t0 := NoteMissing(images, t, p);
      var (func, t1) := InternFunction(t0, p);
      var (loc, t2) := InternLocation(t1, p, ip, func);
      (Resolved(Some(loc), func, Some(p.map_)), t2)
  }

  function Resolve(images: seq<Image>, t: Tables, pid: nat, ip: Option<nat>): (Resolved, Tables) {
    if ip.None? then (UNRESOLVED, t)
    else if (pid, ip.value) in t.ipCache then (t.ipCache[(pid, ip.value)], t)
    else
      var (r, t1) := ResolveUncached(images, t, pid, ip.value);
      (r, t1.(ipCache := t1.ipCache[(pid, ip.value) := r]))
  }

  /** A new mapping: cached resolutions of its process are dropped. */
  function AddMapping(t: Tables, m: MmapEvent): Tables {
    var idx := |t.mappings|;
    var abs := if m.time == Some(0) then None else m.time;
    var mine := if m.pid in t.mapsByPid then t.mapsByPid[m.pid] else [];
    t.(mappings := t.mappings + [Mapping(m.pid, m.start, SatAdd(m.start, m.len), m.pgoff, m.path, abs)],
       mapsByPid := t.mapsByPid[m.pid := mine + [idx]],
       ipCache := map k | k in t.ipCache && k.0 != m.pid :: t.ipCache[k])
  }

  // ----- the invariant -----

  /** An interning table is dense and injective: every id below `n` has exactly one slot. */
  ghost predicate Dense(index: map<Slot, nat>, n: nat) {
    && (forall s :: s in index ==> index[s] < n)
    && (forall s, u :: s in index && u in index && s != u ==> index[s] != index[u])
    && (forall id: nat :: id < n ==> Slotted(index, id))
  }

  ghost predicate Slotted(index: map<Slot, nat>, id: nat) {
    exists s :: s in index && index[s] == id
  }

  ghost predicate FunctionsOk(t: Tables) {
    && Dense(t.funcIndex, |t.functions|)
    && (forall i :: 0 <= i < |t.functions| ==> t.functions[i].id == i)
    && (forall s :: s in t.funcIndex ==> t.functions[t.funcIndex[s]].start == s.1)
  }

  ghost predicate LocationsOk(t: Tables) {
    && Dense(t.locIndex, |t.locations|)
    && (forall i :: 0 <= i < |t.locations| ==> t.locations[i].id == i)
    && (forall s :: s in t.locIndex ==> t.locations[t.locIndex[s]].offset == s.1)
  }

  ghost predicate MapsOk(t: Tables) {
    forall pid, j :: pid in t.mapsByPid && 0 <= j < |t.mapsByPid[pid]| ==>
      t.mapsByPid[pid][j] < |t.mappings| && t.mappings[t.mapsByPid[pid][j]].pid == pid
  }

  /** `r` is what the tables now say about the place of an address. */
  predicate Reads(t: Tables, place: Option<Place>, r: Resolved) {
    if place.None? then r == UNRESOLVED
    else
      var p := place.value;
      && r.map_ == Some(p.map_)
      && (p.imageKey, p.rel) in t.locIndex
      && r.loc == Some(t.locIndex[(p.imageKey, p.rel)])
      && (if p.func.None? then r.func.None?
          else (p.imageKey, p.func.value.start) in t.funcIndex
               && r.func == Some(t.funcIndex[(p.imageKey, p.func.value.start)]))
  }

  ghost predicate CacheOk(images: seq<Image>, t: Tables) {
    forall k :: k in t.ipCache ==> Reads(t, PlaceOf(images, t, k.0, k.1), t.ipCache[k])
  }

  ghost predicate TablesInv(images: seq<Image>, t: Tables) {
    FunctionsOk(t) && LocationsOk(t) && MapsOk(t) && CacheOk(images, t)
  }

  /** Interned ids are never moved or dropped. */
  ghost predicate Extends(t: Tables, t': Tables) {
    && (forall s :: s in t.funcIndex ==> s in t'.funcIndex && t'.funcIndex[s] == t.funcIndex[s])
    && (forall s :: s in t.locIndex ==> s in t'.locIndex && t'.locIndex[s] == t.locIndex[s])
    && t.functions <= t'.functions
    && t.locations <= t'.locations
  }

  ghost predicate SameMaps(t: Tables, t': Tables) {
    t'.mappings == t.mappings && t'.mapsByPid == t.mapsByPid
  }

  lemma SamePlace(images: seq<Image>, t: Tables, t': Tables, pid: nat, ip: nat)
    requires SameMaps(t, t')
    ensures PlaceOf(images, t', pid, ip) == PlaceOf(images, t, pid, ip)
  {}

  lemma ReadsSurvives(t: Tables, t': Tables, place: Option<Place>, r: Resolved)
    requires Reads(t, place, r) && Extends(t, t')
    ensures Reads(t', place, r)
  {}

  lemma DenseGrows(index: map<Slot, nat>, n: nat, s: Slot)
    requires Dense(index, n) && s !in index
    ensures Dense(index[s := n], n + 1)
  {
    var index' := index[s := n];
    assert index'[s] == n;
    forall id: nat | id < n + 1
      ensures Slotted(index', id)
    {
      if id < n {
        assert Slotted(index, id);
        var u :| u in index && index[u] == id;
        assert u in index' && index'[u] == id;
      }
    }
  }

  lemma InternFunctionOk(t: Tables, p: Place)
    requires FunctionsOk(t)
    ensures var (f, t') := InternFunction(t, p);
            && FunctionsOk(t') && Extends(t, t') && SameMaps(t, t') && t'.ipCache == t.ipCache
            && t'.locIndex == t.locIndex && t'.locations == t.locations
            && (if p.func.None? then f.None?
                else (p.imageKey, p.func.value.start) in t'.funcIndex
                     && f == Some(t'.funcIndex[(p.imageKey, p.func.value.start)]))
  {
    if p.func.Some? && (p.imageKey, p.func.value.start) !in t.funcIndex {
      DenseGrows(t.funcIndex, |t.functions|, (p.imageKey, p.func.value.start));
    }
  }

  lemma InternLocationOk(t: Tables, p: Place, ip: nat, func: Option<nat>)
    requires LocationsOk(t)
    ensures var (loc, t') := InternLocation(t, p, ip, func);
            && LocationsOk(t') && Extends(t, t') && SameMaps(t, t') && t'.ipCache == t.ipCache
            && t'.funcIndex == t.funcIndex && t'.functions == t.functions
            && (p.imageKey, p.rel) in t'.locIndex && loc == t'.locIndex[(p.imageKey, p.rel)]
  {
    if (p.imageKey, p.rel) !in t.locIndex {
      DenseGrows(t.locIndex, |t.locations|, (p.imageKey, p.rel));
    }
  }

  lemma SameInterned(t: Tables, t': Tables)
    ensures t'.funcIndex == t.funcIndex && t'.functions == t.functions && FunctionsOk(t) ==> FunctionsOk(t')
    ensures t'.locIndex == t.locIndex && t'.locations == t.locations && LocationsOk(t) ==> LocationsOk(t')
  {}

  /** Interning the function and the location of a place. */
  lemma InternPlaceOk(t: Tables, p: Place, ip: nat)
    requires FunctionsOk(t) && LocationsOk(t)
    ensures var (func, t1) := InternFunction(t, p);
            var (loc, t2) := InternLocation(t1, p, ip, func);
            && FunctionsOk(t2) && LocationsOk(t2) && Extends(t, t2) && SameMaps(t, t2) && t2.ipCache == t.ipCache
            && Reads(t2, Some(p), Resolved(Some(loc), func, Some(p.map_)))
  {
    hide FunctionsOk, LocationsOk, InternFunction, InternLocation;
    InternFunctionOk(t, p);
    var (func, t1) := InternFunction(t, p);
    SameInterned(t, t1);
    InternLocationOk(t1, p, ip, func);
    SameInterned(t1, InternLocation(t1, p, ip, func).1);
  }

  lemma PlaceIsMapped(images: seq<Image>, t: Tables, pid: nat, ip: nat)
    requires MapsOk(t) && PlaceOf(images, t, pid, ip).Some?
    ensures PlaceOf(images, t, pid, ip).value.map_ < |t.mappings|
  {}

  /** An uncached lookup returns what the tables it leaves behind say, and forgets nothing. */
  lemma ResolveUncachedOk(images: seq<Image>, t: Tables, pid: nat, ip: nat)
    requires TablesInv(images, t)
    ensures var (r, t') := ResolveUncached(images, t, pid, ip);
            TablesInv(images, t') && Extends(t, t') && SameMaps(t, t') && t'.ipCache == t.ipCache
            && Reads(t', PlaceOf(images, t', pid, ip), r)
  {
    hide PlaceOf, FunctionsOk, LocationsOk, CacheOk, InternFunction, InternLocation, Reads, NoteMissing;
    var place := PlaceOf(images, t, pid, ip);
    if place.None? {
      UnresolvedReads(t);
    } else {
      PlaceIsMapped(images, t, pid, ip);
      var t0 := NoteMissing(images, t, place.value);
      MissingNoted(images, t, place.value);
      InternPlaceOk(t0, place.value, ip);
      var t' := ResolveUncached(images, t, pid, ip).1;
      SamePlace(images, t, t', pid, ip);
      CacheSurvives(images, t, t');
    }
  }

  lemma UnresolvedReads(t: Tables)
    ensures Reads(t, None, UNRESOLVED)
  {}

  lemma MissingNoted(images: seq<Image>, t: Tables, p: Place)
    requires p.map_ < |t.mappings|
    ensures var t' := NoteMissing(images, t, p);
            && SameMaps(t, t') && Extends(t, t') && t'.ipCache == t.ipCache
            && (FunctionsOk(t) ==> FunctionsOk(t')) && (LocationsOk(t) ==> LocationsOk(t'))
  {}

  lemma CacheSurvives(images: seq<Image>, t: Tables, t': Tables)
    requires CacheOk(images, t) && Extends(t, t') && SameMaps(t, t') && t'.ipCache == t.ipCache
    ensures CacheOk(images, t')
  {
    forall k | k in t'.ipCache
      ensures Reads(t', PlaceOf(images, t', k.0, k.1), t'.ipCache[k])
    {
      SamePlace(images, t, t', k.0, k.1);
      ReadsSurvives(t, t', PlaceOf(images, t, k.0, k.1), t.ipCache[k]);
    }
  }

  /** Resolving through the cache returns what the tables now say. */
  lemma ResolveOk(images: seq<Image>, t: Tables, pid: nat, ip: Option<nat>)
    requires TablesInv(images, t)
    ensures var (r, t') := Resolve(images, t, pid, ip);
            && TablesInv(images, t') && Extends(t, t') && SameMaps(t, t')
            && Reads(t', if ip.Some? then PlaceOf(images, t', pid, ip.value) else None, r)
  {
    if ip.Some? && (pid, ip.value) !in t.ipCache {
      ResolveUncachedOk(images, t, pid, ip.value);
      var (r, t1) := ResolveUncached(images, t, pid, ip.value);
      var t' := t1.(ipCache := t1.ipCache[(pid, ip.value) := r]);
      forall k | k in t'.ipCache
        ensures Reads(t', PlaceOf(images, t', k.0, k.1), t'.ipCache[k])
      {
        SamePlace(images, t1, t', k.0, k.1);
        if k != (pid, ip.value) { assert Reads(t1, PlaceOf(images, t1, k.0, k.1), t1.ipCache[k]); }
      }
      SamePlace(images, t1, t', pid, ip.value);
    } else if ip.Some? {
      assert (pid, ip.value) in t.ipCache;
    }
  }

  /** Cache agreement: a hit returns what an uncached lookup would return now, and that lookup interns nothing. */
  lemma CacheAgreement(images: seq<Image>, t: Tables, pid: nat, ip: nat)
    requires TablesInv(images, t) && (pid, ip) in t.ipCache
    ensures var (r, t') := ResolveUncached(images, t, pid, ip);
            && r == t.ipCache[(pid, ip)]
            && t'.functions == t.functions && t'.locations == t.locations
            && t'.funcIndex == t.funcIndex && t'.locIndex == t.locIndex
  {
    hide PlaceOf, FunctionsOk, LocationsOk, MapsOk;
    assert Reads(t, PlaceOf(images, t, pid, ip), t.ipCache[(pid, ip)]);
  }

  lemma {:induction false} CoveringElsewhere(maps: seq<nat>, mappings: seq<Mapping>, m: Mapping, ip: nat)
    requires forall j :: 0 <= j < |maps| ==> maps[j] < |mappings|
    ensures NewestCovering(maps, mappings + [m], ip) == NewestCovering(maps, mappings, ip)
  {
    if maps != [] {
      assert maps[|maps| - 1] < |mappings|;
      CoveringElsewhere(maps[..|maps| - 1], mappings, m, ip);
    }
  }

  /** A new mapping moves no address of another process. */
  lemma PlaceElsewhere(images: seq<Image>, t: Tables, m: MmapEvent, pid: nat, ip: nat)
    requires MapsOk(t) && pid != m.pid
    ensures PlaceOf(images, AddMapping(t, m), pid, ip) == PlaceOf(images, t, pid, ip)
  {
    if pid in t.mapsByPid {
      var t' := AddMapping(t, m);
      var maps := t.mapsByPid[pid];
      assert forall j :: 0 <= j < |maps| ==> maps[j] < |t.mappings|;
      CoveringElsewhere(maps, t.mappings, t'.mappings[|t.mappings|], ip);
    }
  }

  lemma {:induction false} CoveringAmong(maps: seq<nat>, mappings: seq<Mapping>, ip: nat)
    requires forall j :: 0 <= j < |maps| ==> maps[j] < |mappings|
    ensures var r := NewestCovering(maps, mappings, ip); r.Some? ==> r.value < |mappings|
  {}

  /** A new mapping moves exactly the addresses of its own process that it covers. */
  lemma PlaceMovesIff(images: seq<Image>, t: Tables, m: MmapEvent, pid: nat, ip: nat)
    requires MapsOk(t)
    ensures PlaceOf(images, AddMapping(t, m), pid, ip) != PlaceOf(images, t, pid, ip) <==>
            pid == m.pid && m.start <= ip < SatAdd(m.start, m.len)
  {
    if pid != m.pid {
      PlaceElsewhere(images, t, m, pid, ip);
    } else {
      var t' := AddMapping(t, m);
      var mine := if pid in t.mapsByPid then t.mapsByPid[pid] else [];
      assert t'.mapsByPid[pid] == mine + [|t.mappings|];
      assert (mine + [|t.mappings|])[..|mine|] == mine;
      assert forall j :: 0 <= j < |mine| ==> mine[j] < |t.mappings|;
      CoveringElsewhere(mine, t.mappings, t'.mappings[|t.mappings|], ip);
      CoveringAmong(mine, t.mappings, ip);
    }
  }

  lemma AddMappingOk(images: seq<Image>, t: Tables, m: MmapEvent)
    requires TablesInv(images, t)
    ensures TablesInv(images, AddMapping(t, m)) && Extends(t, AddMapping(t, m))
  {
    var t' := AddMapping(t, m);
    forall k | k in t'.ipCache
      ensures Reads(t', PlaceOf(images, t', k.0, k.1), t'.ipCache[k])
    {
      PlaceElsewhere(images, t, m, k.0, k.1);
      ReadsSurvives(t, t', PlaceOf(images, t, k.0, k.1), t.ipCache[k]);
    }
    forall pid, j | pid in t'.mapsByPid && 0 <= j < |t'.mapsByPid[pid]|
      ensures t'.mapsByPid[pid][j] < |t'.mappings| && t'.mappings[t'.mapsByPid[pid][j]].pid == pid
    {
      if pid in t.mapsByPid && j < |t.mapsByPid[pid]| {
        assert t.mapsByPid[pid][j] < |t.mappings|;
      }
    }
  }

  /** The newest mapping wins: right after a map call, its own addresses resolve through it. */
  lemma NewMappingWins(images: seq<Image>, t: Tables, m: MmapEvent, ip: nat)
    requires m.start <= ip < SatAdd(m.start, m.len)
    ensures var p := PlaceOf(images, AddMapping(t, m), m.pid, ip);
            p.Some? && p.value.map_ == |t.mappings|
  {}

  /** While image keys cannot collide, equal location ids mean the same image (or unarchived mapping) and address. */
  lemma SameLocationSamePlace(images: seq<Image>, t: Tables, pid: nat, ip: nat, pid': nat, ip': nat, r: Resolved,
                              r': Resolved)
    requires TablesInv(images, t) && |images| + |t.mappings| <= U32_MAX + 1
    requires Reads(t, PlaceOf(images, t, pid, ip), r) && Reads(t, PlaceOf(images, t, pid', ip'), r')
    requires r.loc.Some? && r'.loc.Some?
    ensures r.loc == r'.loc <==>
              var p, p' := PlaceOf(images, t, pid, ip).value, PlaceOf(images, t, pid', ip').value;
              && p.rel == p'.rel
              && ImageIndex(images, t.mappings[p.map_].path) == ImageIndex(images, t.mappings[p'.map_].path)
              && (ImageIndex(images, t.mappings[p.map_].path).None? ==> p.map_ == p'.map_)
  {
    var p, p' := PlaceOf(images, t, pid, ip).value, PlaceOf(images, t, pid', ip').value;
    assert r.loc == r'.loc <==> (p.imageKey, p.rel) == (p'.imageKey, p'.rel);
  }
}
