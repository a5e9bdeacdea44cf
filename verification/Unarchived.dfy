/** Mappings without an archived image: which of their paths a run reports. */
module Unarchived {
  import opened TraceTypes
  import opened Machine
  import opened Symbols
  import opened Recon
  import opened Runs
  import opened Events
  import opened Places
  import RoundTrip
  import Tracking

  /** A file that no image is archived for; anonymous and special mappings are no files. */
  predicate IsAbsent(images: seq<Image>, path: string) {
    path != "" && path[0] != '[' && forall i :: 0 <= i < |images| ==> images[i].path != path
  }

  /** The file that an address lies in, if no image is archived for it. */
  function AbsentAt(images: seq<Image>, t: Tables, pid: nat, ip: Option<nat>): (r: Option<string>)
    ensures r.Some? ==> IsAbsent(images, r.value)
  {
    if ip.None? || PlaceOf(images, t, pid, ip.value).None? then None
    else
      var k := PlaceOf(images, t, pid, ip.value).value.map_;
      if k < |t.mappings| && IsAbsent(images, t.mappings[k].path) then Some(t.mappings[k].path) else None
  }

  /** The i-th record is a kept sample that goes to or comes from this file, where its process had mapped it by then. */
  ghost predicate Shows(images: seq<Image>, filter: Option<Tracker>, recs: seq<Record>, i: nat, path: string)
    requires i < |recs|
  {
    && recs[i].SampleRecord? && KeptLast(images, filter, recs[..i + 1])
    && var s, t := recs[i].sample, PushAll(images, New(filter), recs[..i]).tables;
       AbsentAt(images, t, s.pid, s.ip) == Some(path) || AbsentAt(images, t, s.pid, s.addr) == Some(path)
  }

  // ----- one address -----

  /** No path is reported twice, and what the cache answers has been reported. */
  ghost predicate Reported(images: seq<Image>, t: Tables) {
    && (forall i, j :: 0 <= i < j < |t.missingPaths| ==> t.missingPaths[i] != t.missingPaths[j])
    && (forall k :: k in t.ipCache ==> Answered(images, t, k))
  }

  ghost predicate Answered(images: seq<Image>, t: Tables, k: (nat, nat)) {
    var path := AbsentAt(images, t, k.0, Some(k.1));
    path.Some? ==> path.value in t.missingPaths
  }

  lemma {:induction false} ImageFromIff(images: seq<Image>, path: string, i: nat)
    requires i <= |images|
    ensures ImageFrom(images, path, i).None? <==> forall j :: i <= j < |images| ==> images[j].path != path
    decreases |images| - i
  {
    if i < |images| { ImageFromIff(images, path, i + 1); }
  }

  function Joined(paths: seq<string>, path: Option<string>): seq<string> {
    if path.Some? && path.value !in paths then paths + [path.value] else paths
  }

  lemma NoteReports(images: seq<Image>, t: Tables, p: Place)
    requires p.map_ < |t.mappings|
    ensures var path := t.mappings[p.map_].path;
            NoteMissing(images, t, p).missingPaths
            == Joined(t.missingPaths, if IsAbsent(images, path) then Some(path) else None)
  {
    ImageFromIff(images, t.mappings[p.map_].path, 0);
  }

  lemma UncachedReports(images: seq<Image>, t: Tables, pid: nat, ip: nat)
    requires MapsOk(t)
    ensures var t' := ResolveUncached(images, t, pid, ip).1;
            t'.missingPaths == Joined(t.missingPaths, AbsentAt(images, t, pid, Some(ip)))
  {
    hide PlaceOf, NoteMissing, IsAbsent;
    var place := PlaceOf(images, t, pid, ip);
    if place.Some? {
      PlaceIsMapped(images, t, pid, ip);
      NoteReports(images, t, place.value);
    }
  }

  lemma AbsentStays(images: seq<Image>, t: Tables, t': Tables, pid: nat, ip: Option<nat>)
    requires SameMaps(t, t')
    ensures AbsentAt(images, t', pid, ip) == AbsentAt(images, t, pid, ip)
  {
    hide PlaceOf;
    if ip.Some? { SamePlace(images, t, t', pid, ip.value); }
  }

  lemma ResolveReports(images: seq<Image>, t: Tables, pid: nat, ip: Option<nat>)
    requires TablesInv(images, t) && Reported(images, t)
    ensures var t' := Resolve(images, t, pid, ip).1;
            && t'.missingPaths == Joined(t.missingPaths, AbsentAt(images, t, pid, ip)) && Reported(images, t')
            && SameMaps(t, t')
  {
    hide PlaceOf, ResolveUncached, AbsentAt, IsAbsent, FunctionsOk, LocationsOk, CacheOk;
    if ip.Some? {
      var k := (pid, ip.value);
      if k in t.ipCache {
        assert Answered(images, t, k);
      } else {
        UncachedReports(images, t, pid, ip.value);
        ResolveUncachedOk(images, t, pid, ip.value);
      }
      var t' := Resolve(images, t, pid, ip).1;
      forall c | c in t'.ipCache ensures Answered(images, t', c) {
        AbsentStays(images, t, t', c.0, Some(c.1));
        if c in t.ipCache { assert Answered(images, t, c); }
      }
    } else {
      NowhereAbsent(images, t, pid);
    }
  }

  lemma NowhereAbsent(images: seq<Image>, t: Tables, pid: nat)
    ensures AbsentAt(images, t, pid, None).None?
  {}

  lemma MappingReports(images: seq<Image>, t: Tables, e: MmapEvent)
    requires TablesInv(images, t) && Reported(images, t)
    ensures Reported(images, AddMapping(t, e)) && AddMapping(t, e).missingPaths == t.missingPaths
  {
    hide PlaceOf, IsAbsent, FunctionsOk, LocationsOk, CacheOk;
    var t' := AddMapping(t, e);
    forall c | c in t'.ipCache ensures Answered(images, t', c) {
      assert Answered(images, t, c);
      PlaceElsewhere(images, t, e, c.0, c.1);
      if PlaceOf(images, t, c.0, c.1).Some? { PlaceIsMapped(images, t, c.0, c.1); }
    }
  }

  // ----- one record -----

  /** What a sample adds to the report. */
  function Shown(images: seq<Image>, t: Tables, paths: seq<string>, s: Sample): seq<string> {
    Joined(Joined(paths, AbsentAt(images, t, s.pid, s.ip)), AbsentAt(images, t, s.pid, s.addr))
  }

  lemma SampleReports(images: seq<Image>, r: Recon, s: Sample)
    requires ReconInv(images, r, true) && Reported(images, r.tables) && Keeps(r, SampleRecord(s))
    ensures var t' := Push(images, r, SampleRecord(s)).tables;
            t'.missingPaths == Shown(images, r.tables, r.tables.missingPaths, s) && Reported(images, t')
  {
    hide ReconInv, Reported, Resolve, PushSample, TablesInv, SameMaps, Joined, AbsentAt;
    RoundTrip.ReconTables(images, r);
    KeptPush(images, r, s);
    SampleTables(images, Noted(r, SampleRecord(s)), s);
    var t1 := Resolve(images, r.tables, s.pid, s.ip).1;
    ResolveReports(images, r.tables, s.pid, s.ip);
    ResolveOk(images, r.tables, s.pid, s.ip);
    ResolveReports(images, t1, s.pid, s.addr);
    AbsentStays(images, r.tables, t1, s.pid, s.addr);
  }

  lemma OtherReports(images: seq<Image>, r: Recon, rec: Record)
    requires ReconInv(images, r, true) && Reported(images, r.tables) && (!rec.SampleRecord? || !Keeps(r, rec))
    ensures var t' := Push(images, r, rec).tables;
            t'.missingPaths == r.tables.missingPaths && Reported(images, t')
  {
    hide ReconInv, Reported, PushSample, PushTask, PushError, AddMapping, TablesInv;
    RoundTrip.ReconTables(images, r);
    match rec
    case MmapRecord(e) => MappingReports(images, r.tables, e);
    case TaskRecord(t) => TaskKeepsTables(Noted(r, rec), t);
    case DecoderErrorRecord(e) => ErrorKeepsTables(Noted(r, rec), e);
    case _ =>
  }

  // ----- over a run -----

  ghost predicate SomeShows(images: seq<Image>, filter: Option<Tracker>, recs: seq<Record>, path: string) {
    exists i :: 0 <= i < |recs| && Shows(images, filter, recs, i, path)
  }

  lemma ShowsMore(images: seq<Image>, filter: Option<Tracker>, init: seq<Record>, rec: Record, path: string)
    ensures var recs, r := init + [rec], PushAll(images, New(filter), init);
            SomeShows(images, filter, recs, path) <==>
            || SomeShows(images, filter, init, path)
            || (rec.SampleRecord? && Keeps(r, rec)
                && (AbsentAt(images, r.tables, rec.sample.pid, rec.sample.ip) == Some(path)
                    || AbsentAt(images, r.tables, rec.sample.pid, rec.sample.addr) == Some(path)))
  {
    hide PushAll, Keeps, AbsentAt;
    var recs := init + [rec];
    assert recs[..|init|] == init && recs[..|init| + 1] == recs;
    forall i | 0 <= i < |init| ensures Shows(images, filter, recs, i, path) <==> Shows(images, filter, init, i, path) {
      assert recs[..i] == init[..i] && recs[..i + 1] == init[..i + 1];
    }
    if SomeShows(images, filter, recs, path) {
      var i :| 0 <= i < |recs| && Shows(images, filter, recs, i, path);
      if i < |init| { assert Shows(images, filter, init, i, path); }
    }
    if SomeShows(images, filter, init, path) {
      var i :| 0 <= i < |init| && Shows(images, filter, init, i, path);
      assert Shows(images, filter, recs, i, path);
    }
    if rec.SampleRecord? && KeptLast(images, filter, recs) {
      assert Shows(images, filter, recs, |init|, path) <==>
             || AbsentAt(images, PushAll(images, New(filter), init).tables, rec.sample.pid, rec.sample.ip) == Some(path)
             || AbsentAt(images, PushAll(images, New(filter), init).tables, rec.sample.pid, rec.sample.addr)
                == Some(path);
    }
  }

  ghost predicate AllReported(images: seq<Image>, filter: Option<Tracker>, recs: seq<Record>, t: Tables) {
    Reported(images, t) && forall path :: path in t.missingPaths <==> SomeShows(images, filter, recs, path)
  }

  lemma ReportedStep(images: seq<Image>, filter: Option<Tracker>, init: seq<Record>, rec: Record, r: Recon)
    requires r == PushAll(images, New(filter), init) && ReconInv(images, r, true)
    requires AllReported(images, filter, init, r.tables)
    ensures AllReported(images, filter, init + [rec], Push(images, r, rec).tables)
  {
    hide PushAll, New, Push, ReconInv, Reported, Keeps, AbsentAt, SomeShows;
    if rec.SampleRecord? && Keeps(r, rec) { SampleReports(images, r, rec.sample); } else {
      OtherReports(images, r, rec);
    }
    forall path
      ensures path in Push(images, r, rec).tables.missingPaths <==> SomeShows(images, filter, init + [rec], path)
    {
      ShowsMore(images, filter, init, rec, path);
    }
  }

  lemma NothingReported(images: seq<Image>, filter: Option<Tracker>)
    ensures AllReported(images, filter, [], New(filter).tables)
  {}

  lemma {:induction false} RunReported(images: seq<Image>, filter: Option<Tracker>, recs: seq<Record>)
    ensures AllReported(images, filter, recs, PushAll(images, New(filter), recs).tables)
    decreases |recs|
  {
    hide ReconInv, Push, PushAll, AllReported;
    if recs == [] {
      Tracking.PushedNothing(images, New(filter));
      NothingReported(images, filter);
    } else {
      var init, rec := recs[..|recs| - 1], recs[|recs| - 1];
      assert recs == init + [rec];
      var r := PushAll(images, New(filter), init);
      RoundTrip.PushAllConcat(images, New(filter), init, [rec]);
      Tracking.PushedOne(images, r, rec);
      RunReported(images, filter, init);
      AnyRun(images, filter, init);
      ReportedStep(images, filter, init, rec, r);
    }
  }

  /**
   * For every stream and filter: a path is reported exactly if no image is archived for it, it names a file, and some
   * kept sample goes to or comes from it; and then once.
   */
  lemma ReportedIff(images: seq<Image>, filter: Option<Tracker>, recs: seq<Record>, path: string)
    ensures var paths := PushAll(images, New(filter), recs).tables.missingPaths;
            && (path in paths <==> exists i :: 0 <= i < |recs| && Shows(images, filter, recs, i, path))
            && (path in paths ==> IsAbsent(images, path))
            && forall i, j :: 0 <= i < j < |paths| ==> paths[i] != paths[j]
  {
    hide PushAll, New, Answered;
    RunReported(images, filter, recs);
  }
}
