/** Repeated requests: whatever happens in between, the same question is answered with the job of the first. */
module Repeats {
  import opened TraceTypes
  import opened Coordinator
  import opened Protocol
  import opened JobTable

  /** Every job that answers a key is in the table. */
  ghost predicate CachedKnown(c: Coord) {
    forall key :: key in c.cacheJobs ==> c.cacheJobs[key] in c.jobs
  }

  ghost predicate CacheGrows(c: Coord, c': Coord) {
    forall key :: key in c.cacheJobs ==> key in c'.cacheJobs && c'.cacheJobs[key] == c.cacheJobs[key]
  }

  lemma FailedCache(c: Coord, sid: SessionId)
    ensures OnFailed(c, sid).cacheJobs == c.cacheJobs
  {}

  lemma PublishedCache(c: Coord, sid: SessionId, snap: SnapshotId, newJob: JobId, newAnalysis: nat)
    ensures OnPublished(c, sid, snap, newJob, newAnalysis).0.cacheJobs == c.cacheJobs
  {}

  lemma CancelCache(c: Coord, sid: SessionId)
    ensures CancelSession(c, sid).0.cacheJobs == c.cacheJobs
  {}

  lemma StartCache(c: Coord, limits: Limits, req: StartRequest, sid: SessionId, snap: SnapshotId)
    requires req.id in c.byRequest ==> c.byRequest[req.id] in c.sessions
    ensures var (c', _, task) := Start(c, limits, req, sid, snap);
            c'.cacheJobs == c.cacheJobs && (task.Some? ==> task.value.CaptureTask?)
  {}

  lemma SnapshotCache(c: Coord, sid: SessionId, stored: bool, newSnap: SnapshotId, newJob: JobId)
    ensures Snapshot(c, sid, stored, newSnap, newJob).0.cacheJobs == c.cacheJobs
  {}

  /** Only decode and compare requests touch the cache. */
  lemma CacheStays(w: World, limits: Limits, e: Event)
    requires RequestsOk(w.c) && Enabled(w, e) && !e.DecodeEvent? && !e.CompareEvent?
    ensures Step(w, limits, e).c.cacheJobs == w.c.cacheJobs
  {
    hide RequestsOk, FreshJob, OnFailed, OnPublished, CancelSession, Start, Snapshot;
    match e
    case StartEvent(req, sid, snap) => FirstOfRequest(w.c, req.id); StartCache(w.c, limits, req, sid, snap);
    case SnapshotEvent(sid, stored, newSnap, newJob) => SnapshotCache(w.c, sid, stored, newSnap, newJob);
    case FailedEvent(sid) => FailedCache(w.c, sid);
    case PublishedEvent(sid, newJob, newAnalysis) => PublishedCache(w.c, sid, w.captures[sid], newJob, newAnalysis);
    case CancelSessionEvent(sid) => CancelCache(w.c, sid);
    case _ =>
  }

  lemma FirstOfRequest(c: Coord, id: RequestId)
    requires RequestsOk(c)
    ensures id in c.byRequest ==> c.byRequest[id] in c.sessions
  {}

  lemma DecodeCache(c: Coord, limits: Limits, req: DecodeRequest, newJob: JobId, newAnalysis: nat)
    requires CachedKnown(c)
    ensures var c' := Decode(c, limits, req, newJob, newAnalysis).0; CachedKnown(c') && CacheGrows(c, c')
  {}

  lemma CompareCache(c: Coord, limits: Limits, key: string, newJob: JobId, newReport: nat)
    requires CachedKnown(c)
    ensures var c' := Compare(c, limits, key, newJob, newReport).0; CachedKnown(c') && CacheGrows(c, c')
  {}

  /** What a comparison is answered with: the cached job, or a new one that is cached from then on. */
  lemma CompareReplies(c: Coord, limits: Limits, key: string, newJob: JobId, newReport: nat)
    requires CachedKnown(c)
    ensures var (c', reply, task) := Compare(c, limits, key, newJob, newReport);
            && (key in c.cacheJobs ==> c' == c && reply == Done(c.cacheJobs[key]) && task.None?)
            && (reply.Done? ==> reply.value in c'.jobs && key in c'.cacheJobs && c'.cacheJobs[key] == reply.value)
  {}

  lemma DecodeReplies(c: Coord, limits: Limits, req: DecodeRequest, newJob: JobId, newAnalysis: nat)
    requires CachedKnown(c)
    ensures var (c', reply, task) := Decode(c, limits, req, newJob, newAnalysis);
            && (req.loadable && !req.onDisk && req.key in c.cacheJobs ==>
                  c' == c && reply == Done(Some(c.cacheJobs[req.key])) && task.None?)
            && (reply.Done? && reply.value.Some? ==>
                  && reply.value.value in c'.jobs && req.key in c'.cacheJobs
                  && c'.cacheJobs[req.key] == reply.value.value)
  {}

  lemma CacheStep(w: World, limits: Limits, e: Event)
    requires CoordInv(w, limits) && RequestsOk(w.c) && Enabled(w, e) && CachedKnown(w.c)
    ensures CachedKnown(Step(w, limits, e).c) && CacheGrows(w.c, Step(w, limits, e).c)
  {
    hide CoordInv, RequestsOk, FreshJob, Writes;
    match e
    case DecodeEvent(req, newJob, newAnalysis) => DecodeCache(w.c, limits, req, newJob, newAnalysis);
    case CompareEvent(key, newJob, newReport) => CompareCache(w.c, limits, key, newJob, newReport);
    case _ =>
      hide Step;
      CacheStays(w, limits, e);
      forall key | key in w.c.cacheJobs ensures w.c.cacheJobs[key] in Step(w, limits, e).c.jobs {
        JobsChanged(w, limits, e, w.c.cacheJobs[key]);
      }
  }

  lemma {:induction false} CacheLasts(w: World, limits: Limits, events: seq<Event>, w': World)
    requires CoordInv(w, limits) && CachedKnown(w.c) && RunsTo(w, limits, events, w')
    ensures CoordInv(w', limits) && CachedKnown(w'.c) && CacheGrows(w.c, w'.c)
    decreases |events|
  {
    hide CoordInv, CachedKnown, Step, RequestsOk;
    if events != [] {
      StepKeeps(w, limits, events[0]);
      CacheStep(w, limits, events[0]);
      CacheLasts(Step(w, limits, events[0]), limits, events[1..], w');
    }
  }

  lemma NothingCached()
    ensures CachedKnown(NOTHING.c)
  {}

  lemma RunCached(limits: Limits, events: seq<Event>, w: World)
    requires RunsTo(NOTHING, limits, events, w)
    ensures CoordInv(w, limits) && CachedKnown(w.c)
  {
    hide CoordInv, CachedKnown, RunsTo;
    NothingIsAccounted(limits);
    NothingCached();
    CacheLasts(NOTHING, limits, events, w);
  }

  /** Two requests of one key, and any events between them. */
  lemma KeyLasts(limits: Limits, before: seq<Event>, w: World, e: Event, between: seq<Event>, w': World, key: string)
    requires RunsTo(NOTHING, limits, before, w) && RequestsOk(w.c) && Enabled(w, e)
    requires RunsTo(Step(w, limits, e), limits, between, w') && key in Step(w, limits, e).c.cacheJobs
    ensures key in w'.c.cacheJobs && w'.c.cacheJobs[key] == Step(w, limits, e).c.cacheJobs[key]
    ensures w'.c.cacheJobs[key] in w'.c.jobs
  {
    hide CoordInv, RunsTo, Step, RequestsOk, Enabled;
    RunCached(limits, before, w);
    StepKeeps(w, limits, e);
    CacheStep(w, limits, e);
    CacheLasts(Step(w, limits, e), limits, between, w');
  }

  /** A repeated comparison is answered with the job of the first, changes nothing and starts no task. */
  lemma CompareIsIdempotent(limits: Limits, before: seq<Event>, w: World, key: string, newJob: JobId, newReport: nat,
                            between: seq<Event>, w': World, newJob': JobId, newReport': nat)
    requires RunsTo(NOTHING, limits, before, w) && RequestsOk(w.c) && FreshJob(w.c, newJob)
    requires RunsTo(Step(w, limits, CompareEvent(key, newJob, newReport)), limits, between, w')
    ensures var first := Compare(w.c, limits, key, newJob, newReport).1;
            first.Done? ==>
              && Compare(w'.c, limits, key, newJob', newReport') == (w'.c, first, None) && first.value in w'.c.jobs
              && (key !in w.c.cacheJobs ==> first.value == newJob)
  {
    hide CoordInv, RunsTo, RequestsOk, FreshJob;
    var e := CompareEvent(key, newJob, newReport);
    if Compare(w.c, limits, key, newJob, newReport).1.Done? {
      KeyLasts(limits, before, w, e, between, w', key);
    }
  }

  /** So is a repeated decode request, as long as no finished analysis answers it; its job may long have failed. */
  lemma DecodeIsIdempotent(limits: Limits, before: seq<Event>, w: World, req: DecodeRequest, newJob: JobId,
                           newAnalysis: nat,
                           between: seq<Event>, w': World, req': DecodeRequest, newJob': JobId, newAnalysis': nat)
    requires RunsTo(NOTHING, limits, before, w) && RequestsOk(w.c) && FreshJob(w.c, newJob)
    requires RunsTo(Step(w, limits, DecodeEvent(req, newJob, newAnalysis)), limits, between, w')
    requires req'.key == req.key && req'.loadable && !req'.onDisk
    ensures var first := Decode(w.c, limits, req, newJob, newAnalysis).1;
            first.Done? && first.value.Some? ==>
              && Decode(w'.c, limits, req', newJob', newAnalysis') == (w'.c, first, None)
              && first.value.value in w'.c.jobs
              && (req.key !in w.c.cacheJobs ==> first.value == Some(newJob))
  {
    hide CoordInv, RunsTo, RequestsOk, FreshJob;
    var e := DecodeEvent(req, newJob, newAnalysis);
    var first := Decode(w.c, limits, req, newJob, newAnalysis).1;
    if first.Done? && first.value.Some? { KeyLasts(limits, before, w, e, between, w', req.key); }
  }

  /** A decode that failed is not tried again: the same request is answered with the failed job. */
  lemma FailedStaysCached()
    ensures var (c1, _, task) := Decode(IDLE, ROOM, QUESTION, 1, 1);
            && task.Some? && task.value.DecodeTask?
            && var c2 := OnJobFinished(c1, 1, task.value.rec.(phase := JobFailed), true, false);
            && Decode(c2, ROOM, QUESTION, 2, 2) == (c2, Done(Some(1)), None) && c2.jobs[1].phase == JobFailed
  {}
}
