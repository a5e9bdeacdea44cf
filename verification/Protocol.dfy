/** What every run of the coordinator keeps: its accounting, and each session's life. */
module Protocol {
  import opened TraceTypes
  import opened Coordinator

  /** A session whose capture has neither ended nor been cancelled. */
  predicate Ongoing(p: Phase) {
    p == Starting || p == Armed || p == Finalizing
  }

  ghost function Holding(sessions: map<SessionId, Session>): set<SessionId> {
    set s | s in sessions && sessions[s].slotHeld
  }

  // ----- the invariant -----

  /** A session holds its slot exactly while it is ongoing, and then its task has not reported. */
  predicate SessionOk(s: Session, running: bool) {
    && (s.slotHeld <==> Ongoing(s.phase))
    && (s.slotHeld ==> running)
    && (running ==> Ongoing(s.phase) || s.phase == Cancelled)
    && s.snapshot.Some?
    && (s.phase == Finalizing || s.phase == Captured ==> s.job.Some?)
  }

  ghost predicate SessionsOk(w: World) {
    && (forall s :: s in w.c.sessions ==> SessionOk(w.c.sessions[s], s in w.captures))
    && (forall s :: s in w.captures ==> s in w.c.sessions && w.c.sessions[s].snapshot == Some(w.captures[s]))
  }

  /** No two sessions were promised one job, and no reported session's job is still queued. */
  ghost predicate JobsOk(w: World) {
    && (forall s, u :: s in w.c.sessions && u in w.c.sessions && s != u && w.c.sessions[s].job.Some? ==>
          w.c.sessions[s].job != w.c.sessions[u].job)
    && (forall s :: s in w.c.sessions && s !in w.captures && w.c.sessions[s].job.Some? ==>
          Settled(w.c.jobs, w.c.sessions[s].job.value))
  }

  predicate Settled(jobs: map<JobId, Job>, j: JobId) {
    j in jobs ==> jobs[j].phase != Queued
  }

  /** The counters are the numbers of slots and tasks they stand for. */
  ghost predicate Accounted(w: World, limits: Limits) {
    && w.c.activeCaptures == |Holding(w.c.sessions)| <= limits.maxActiveCaptures
    && w.c.reservedDecode == |w.captures| <= limits.maxPendingExpensive
    && w.c.runningDecode == |w.decodes|
    && w.c.pendingExpensive == |w.compares| <= limits.maxPendingExpensive
  }

  ghost predicate CoordInv(w: World, limits: Limits) {
    RequestsOk(w.c) && SessionsOk(w) && JobsOk(w) && Accounted(w, limits)
  }

  // ----- counting slots -----

  lemma HoldingSet(sessions: map<SessionId, Session>, sid: SessionId, s: Session)
    ensures |Holding(sessions[sid := s])|
            == |Holding(sessions)| - (if sid in Holding(sessions) then 1 else 0) + (if s.slotHeld then 1 else 0)
  {
    HoldingIs(sessions, sid, s);
    hide Holding;
    var h := Holding(sessions);
    if s.slotHeld && sid in h { assert h + {sid} == h; }
    if !s.slotHeld && sid !in h { assert h - {sid} == h; }
  }

  lemma HoldingIs(sessions: map<SessionId, Session>, sid: SessionId, s: Session)
    ensures Holding(sessions[sid := s]) == if s.slotHeld then Holding(sessions) + {sid} else Holding(sessions) - {sid}
  {}

  lemma ReportedTask(captures: map<SessionId, SnapshotId>, sid: SessionId)
    requires sid in captures
    ensures |captures - {sid}| == |captures| - 1
  {}

  lemma NewTask(captures: map<SessionId, SnapshotId>, sid: SessionId, snap: SnapshotId)
    requires sid !in captures
    ensures |captures[sid := snap]| == |captures| + 1
  {}

  // ----- one session changes -----

  /** Replacing one session by a well-formed one that keeps its request. */
  lemma SessionStep(w: World, w': World, sid: SessionId, s: Session)
    requires RequestsOk(w.c) && SessionsOk(w) && sid in w.c.sessions
    requires w'.c.sessions == w.c.sessions[sid := s] && w'.c.byRequest == w.c.byRequest
    requires s.request == w.c.sessions[sid].request && s.snapshot == w.c.sessions[sid].snapshot
    requires w'.captures == w.captures || w'.captures == w.captures - {sid}
    requires SessionOk(s, sid in w'.captures)
    ensures RequestsOk(w'.c) && SessionsOk(w')
  {
    hide RequestsOk;
    RequestStep(w.c, w'.c, sid, s);
    forall u | u in w'.c.sessions
      ensures SessionOk(w'.c.sessions[u], u in w'.captures)
    {
      if u != sid { assert SessionOk(w.c.sessions[u], u in w.captures); }
    }
    forall u | u in w'.captures
      ensures u in w'.c.sessions && w'.c.sessions[u].snapshot == Some(w'.captures[u])
    {
      assert u in w.captures && w'.captures[u] == w.captures[u];
    }
  }

  lemma RequestStep(c: Coord, c': Coord, sid: SessionId, s: Session)
    requires RequestsOk(c) && sid in c.sessions && s.request == c.sessions[sid].request
    requires c'.sessions == c.sessions[sid := s] && c'.byRequest == c.byRequest
    ensures RequestsOk(c')
  {}

  /** A session's job changes only from none to a fresh one, and its job becomes settled once it has reported. */
  lemma JobStep(w: World, w': World, sid: SessionId, s: Session)
    requires JobsOk(w) && sid in w.c.sessions && w'.c.sessions == w.c.sessions[sid := s]
    requires w'.captures == w.captures || w'.captures == w.captures - {sid}
    requires s.job == w.c.sessions[sid].job || (s.job.Some? && FreshJob(w.c, s.job.value))
    requires forall j :: j in w.c.jobs && Some(j) != s.job ==> j in w'.c.jobs && w'.c.jobs[j] == w.c.jobs[j]
    requires forall j :: j in w'.c.jobs && Some(j) != s.job ==> j in w.c.jobs
    requires sid !in w'.captures && s.job.Some? ==> Settled(w'.c.jobs, s.job.value)
    ensures JobsOk(w')
  {}

  // ----- every event keeps the invariant -----

  lemma StartKeeps(w: World, limits: Limits, req: StartRequest, sid: SessionId, snap: SnapshotId)
    requires CoordInv(w, limits) && sid !in w.c.sessions
    ensures CoordInv(Step(w, limits, StartEvent(req, sid, snap)), limits)
  {
    hide CoordInv;
    InvRequests(w, limits);
    var (c, _, task) := Start(w.c, limits, req, sid, snap);
    if task.Some? { StartedKeeps(w, limits, req, sid, snap, Step(w, limits, StartEvent(req, sid, snap))); }
  }

  lemma StartedKeeps(w: World, limits: Limits, req: StartRequest, sid: SessionId, snap: SnapshotId, w': World)
    requires CoordInv(w, limits) && sid !in w.c.sessions && Start(w.c, limits, req, sid, snap).2.Some?
    requires w' == Step(w, limits, StartEvent(req, sid, snap))
    ensures CoordInv(w', limits)
  {
    var s := Session(req.id, req.hash, Starting, Some(snap), None, GoOn, true);
    assert w'.c.sessions == w.c.sessions[sid := s] && w'.captures == w.captures[sid := snap];
    HoldingSet(w.c.sessions, sid, s);
    NewTask(w.captures, sid, snap);
    NewSessionRequests(w.c, w'.c, sid, s);
    NewSession(w, w', sid, s, snap);
    hide RequestsOk, SessionsOk, JobsOk, Step, Holding;
    assert Accounted(w', limits);
  }

  lemma NewSessionRequests(c: Coord, c': Coord, sid: SessionId, s: Session)
    requires RequestsOk(c) && sid !in c.sessions && s.request !in c.byRequest
    requires c'.sessions == c.sessions[sid := s] && c'.byRequest == c.byRequest[s.request := sid]
    ensures RequestsOk(c')
  {}

  lemma NewSession(w: World, w': World, sid: SessionId, s: Session, snap: SnapshotId)
    requires SessionsOk(w) && JobsOk(w) && sid !in w.c.sessions && w'.c.jobs == w.c.jobs
    requires s.snapshot == Some(snap) && s.job.None? && SessionOk(s, true)
    requires w'.c.sessions == w.c.sessions[sid := s] && w'.captures == w.captures[sid := snap]
    ensures SessionsOk(w') && JobsOk(w')
  {
    forall u | u in w'.c.sessions
      ensures SessionOk(w'.c.sessions[u], u in w'.captures)
    {
      if u != sid { assert SessionOk(w.c.sessions[u], u in w.captures); }
    }
    forall u | u in w'.c.sessions && u !in w'.captures && w'.c.sessions[u].job.Some?
      ensures Settled(w'.c.jobs, w'.c.sessions[u].job.value)
    {
      assert u in w.c.sessions && Settled(w.c.jobs, w.c.sessions[u].job.value);
    }
  }

  lemma ReleaseEffect(c: Coord, sid: SessionId)
    requires sid in c.sessions
    ensures var c' := Release(c, sid);
            && c'.sessions == c.sessions[sid := c.sessions[sid].(slotHeld := false)]
            && c'.byRequest == c.byRequest && c'.jobs == c.jobs
            && c'.reservedDecode == c.reservedDecode && c'.runningDecode == c.runningDecode
            && c'.pendingExpensive == c.pendingExpensive
  {}

  /** Giving a slot back keeps the count: the counter is positive whenever a slot is held. */
  lemma ReleaseCounts(c: Coord, sid: SessionId)
    requires sid in c.sessions && c.activeCaptures == |Holding(c.sessions)|
    ensures Release(c, sid).activeCaptures == |Holding(Release(c, sid).sessions)|
    ensures c.sessions[sid].slotHeld ==> c.activeCaptures > 0
  {
    HoldingSet(c.sessions, sid, c.sessions[sid].(slotHeld := false));
    if c.sessions[sid].slotHeld {
      assert sid in Holding(c.sessions);
      assert Holding(c.sessions) != {};
    }
  }

  lemma CancelQueuedEffect(c: Coord, sid: SessionId)
    requires sid in c.sessions
    ensures var c' := CancelQueued(c, sid);
            && c' == c.(jobs := c'.jobs)
            && (c.sessions[sid].job.Some? ==> Settled(c'.jobs, c.sessions[sid].job.value))
            && (forall j :: j in c.jobs && Some(j) != c.sessions[sid].job ==> j in c'.jobs && c'.jobs[j] == c.jobs[j])
            && (forall j :: j in c'.jobs ==> j in c.jobs)
  {}

  /** A task that ends without a snapshot to decode: shared by failures and by publishing after a cancel. */
  lemma EndKeeps(w: World, limits: Limits, sid: SessionId, phase: Phase, w': World)
    requires CoordInv(w, limits) && sid in w.captures && !Ongoing(phase)
    requires phase == Captured ==> w.c.sessions[sid].job.Some?
    requires var c1 := w.c.(sessions := w.c.sessions[sid := w.c.sessions[sid].(phase := phase)]);
             var c2 := Release(CancelQueued(c1, sid), sid);
             w' == w.(c := c2.(reservedDecode := SatSub(c2.reservedDecode, 1)), captures := w.captures - {sid})
    ensures CoordInv(w', limits)
  {
    hide RequestsOk, SessionsOk, JobsOk;
    assert sid in w.c.sessions by { CapturesAreSessions(w, sid); }
    var s0 := w.c.sessions[sid];
    var c1 := w.c.(sessions := w.c.sessions[sid := s0.(phase := phase)]);
    var q := CancelQueued(c1, sid);
    CancelQueuedEffect(c1, sid);
    ReleaseEffect(q, sid);
    HoldingSet(w.c.sessions, sid, s0.(phase := phase));
    assert q.sessions[sid].slotHeld == s0.slotHeld;
    ReleaseCounts(q, sid);
    ReportedTask(w.captures, sid);
    var s := s0.(phase := phase, slotHeld := false);
    assert w'.c.sessions == w.c.sessions[sid := s];
    CapturedSnapshot(w, sid);
    SessionStep(w, w', sid, s);
    JobStep(w, w', sid, s);
    HoldingShrinks(w.c.sessions, sid, s);
  }

  lemma CapturesAreSessions(w: World, sid: SessionId)
    requires SessionsOk(w) && sid in w.captures
    ensures sid in w.c.sessions
  {}

  lemma CapturedSnapshot(w: World, sid: SessionId)
    requires SessionsOk(w) && sid in w.captures
    ensures sid in w.c.sessions && w.c.sessions[sid].snapshot == Some(w.captures[sid])
    ensures SessionOk(w.c.sessions[sid], true)
  {}

  lemma HoldingShrinks(sessions: map<SessionId, Session>, sid: SessionId, s: Session)
    requires sid in sessions && !s.slotHeld
    ensures |Holding(sessions[sid := s])| <= |Holding(sessions)|
  {
    HoldingSet(sessions, sid, s);
  }

  lemma FailedKeeps(w: World, limits: Limits, sid: SessionId)
    requires CoordInv(w, limits) && sid in w.captures
    ensures CoordInv(Step(w, limits, FailedEvent(sid)), limits)
  {
    var s0 := w.c.sessions[sid];
    var phase := if s0.phase == Cancelled then Cancelled else Failed;
    if s0.phase == Cancelled {
      assert s0.(phase := phase) == s0;
      assert w.c.sessions[sid := s0] == w.c.sessions;
    }
    hide CoordInv, Release, CancelQueued;
    EndKeeps(w, limits, sid, phase, Step(w, limits, FailedEvent(sid)));
  }

  lemma PublishedKeeps(w: World, limits: Limits, sid: SessionId, newJob: JobId, newAnalysis: nat)
    requires CoordInv(w, limits) && sid in w.captures && FreshJob(w.c, newJob)
    ensures CoordInv(Step(w, limits, PublishedEvent(sid, newJob, newAnalysis)), limits)
  {
    CapturedSnapshot(w, sid);
    var s0 := w.c.sessions[sid];
    var w' := Step(w, limits, PublishedEvent(sid, newJob, newAnalysis));
    if s0.phase == Cancelled || s0.phase == Failed {
      assert s0.(snapshot := s0.snapshot) == s0 && s0.(phase := s0.phase) == s0;
      assert w.c.sessions[sid := s0] == w.c.sessions;
      hide CoordInv, Release, CancelQueued;
      EndKeeps(w, limits, sid, s0.phase, w');
    } else {
      PublishedDecodes(w, limits, sid, newJob, newAnalysis, w');
    }
  }

  lemma PublishedDecodes(w: World, limits: Limits, sid: SessionId, newJob: JobId, newAnalysis: nat, w': World)
    requires CoordInv(w, limits) && sid in w.captures && FreshJob(w.c, newJob)
    requires w.c.sessions[sid].phase != Cancelled && w.c.sessions[sid].phase != Failed
    requires w' == Step(w, limits, PublishedEvent(sid, newJob, newAnalysis))
    ensures CoordInv(w', limits)
  {
    hide RequestsOk, SessionsOk, JobsOk, Step, Holding;
    CapturedSnapshot(w, sid);
    var s0 := w.c.sessions[sid];
    var job := if s0.job.Some? then s0.job.value else newJob;
    var s1 := s0.(phase := Captured, snapshot := Some(w.captures[sid]), job := Some(job));
    PublishedShape(w, limits, sid, newJob, newAnalysis, w');
    HoldingSet(w.c.sessions, sid, s1);
    ReportedTask(w.captures, sid);
    var s := s1.(slotHeld := false);
    SessionStep(w, w', sid, s);
    JobStep(w, w', sid, s);
    HoldingShrinks(w.c.sessions, sid, s);
  }

  lemma PublishedShape(w: World, limits: Limits, sid: SessionId, newJob: JobId, newAnalysis: nat, w': World)
    requires RequestsOk(w.c) && Enabled(w, PublishedEvent(sid, newJob, newAnalysis)) && sid in w.c.sessions
    requires w.c.sessions[sid].phase != Cancelled && w.c.sessions[sid].phase != Failed
    requires w.c.activeCaptures == |Holding(w.c.sessions)|
    requires w' == Step(w, limits, PublishedEvent(sid, newJob, newAnalysis))
    ensures var s0 := w.c.sessions[sid];
            var job := if s0.job.Some? then s0.job.value else newJob;
            var s := s0.(phase := Captured, snapshot := Some(w.captures[sid]), job := Some(job), slotHeld := false);
            && w'.c.sessions == w.c.sessions[sid := s] && w'.c.byRequest == w.c.byRequest
            && w'.captures == w.captures - {sid} && w'.compares == w.compares
            && |w'.decodes| == |w.decodes| + 1
            && w'.c.activeCaptures == |Holding(w'.c.sessions)|
            && w'.c.runningDecode == w.c.runningDecode + 1 && w'.c.pendingExpensive == w.c.pendingExpensive
            && w'.c.reservedDecode == SatSub(w.c.reservedDecode, 1)
            && job in w'.c.jobs && w'.c.jobs == w.c.jobs[job := w'.c.jobs[job]] && w'.c.jobs[job].phase == Running
  {
    var s0 := w.c.sessions[sid];
    var job := if s0.job.Some? then s0.job.value else newJob;
    var s1 := s0.(phase := Captured, snapshot := Some(w.captures[sid]), job := Some(job));
    var c1 := w.c.(sessions := w.c.sessions[sid := s1]);
    hide RequestsOk, Holding, Release, Enabled;
    HoldingSet(w.c.sessions, sid, s1);
    SlotAgrees(w.c.sessions, sid);
    ReleaseEffect(c1, sid);
    ReleaseCounts(c1, sid);
  }

  lemma SlotAgrees(sessions: map<SessionId, Session>, sid: SessionId)
    requires sid in sessions
    ensures sid in Holding(sessions) <==> sessions[sid].slotHeld
  {}

  lemma SnapshotKeeps(w: World, limits: Limits, sid: SessionId, stored: bool, newSnap: SnapshotId, newJob: JobId)
    requires CoordInv(w, limits) && FreshJob(w.c, newJob)
    ensures CoordInv(Step(w, limits, SnapshotEvent(sid, stored, newSnap, newJob)), limits)
  {
    hide CoordInv;
    InvRequests(w, limits);
    if sid in w.c.sessions && w.c.sessions[sid].phase == Armed {
      SnapshotTakenKeeps(w, limits, sid, stored, newSnap, newJob);
    } else {
      assert Step(w, limits, SnapshotEvent(sid, stored, newSnap, newJob)) == w;
    }
  }

  lemma SnapshotTakenKeeps(w: World, limits: Limits, sid: SessionId, stored: bool, newSnap: SnapshotId, newJob: JobId)
    requires CoordInv(w, limits) && FreshJob(w.c, newJob) && sid in w.c.sessions && w.c.sessions[sid].phase == Armed
    ensures CoordInv(Step(w, limits, SnapshotEvent(sid, stored, newSnap, newJob)), limits)
  {
    hide RequestsOk, SessionsOk, JobsOk, Holding;
    StillRunning(w, sid);
    CapturedSnapshot(w, sid);
    var w' := Step(w, limits, SnapshotEvent(sid, stored, newSnap, newJob));
    var s0 := w.c.sessions[sid];
    var job := if s0.job.Some? then s0.job.value else newJob;
    var s := s0.(snapshot := s0.snapshot, job := Some(job), phase := Finalizing,
                told := if stored then Finish else s0.told);
    assert w'.c.sessions == w.c.sessions[sid := s];
    SlotAgrees(w.c.sessions, sid);
    HoldingSet(w.c.sessions, sid, s);
    SessionStep(w, w', sid, s);
    assert w'.c.jobs == w.c.jobs || w'.c.jobs == w.c.jobs[job := w'.c.jobs[job]];
    JobStep(w, w', sid, s);
  }

  lemma ArmedKeeps(w: World, limits: Limits, sid: SessionId)
    requires CoordInv(w, limits)
    ensures CoordInv(Step(w, limits, ArmedEvent(sid)), limits)
  {
    if sid in w.c.sessions && w.c.sessions[sid].phase == Starting {
      var w' := Step(w, limits, ArmedEvent(sid));
      var s := w.c.sessions[sid].(phase := Armed);
      assert SessionOk(w.c.sessions[sid], sid in w.captures);
      hide RequestsOk, SessionsOk, JobsOk;
      SessionStep(w, w', sid, s);
      StillRunning(w, sid);
      JobStep(w, w', sid, s);
      HoldingSet(w.c.sessions, sid, s);
    }
  }

  lemma StillRunning(w: World, sid: SessionId)
    requires SessionsOk(w) && sid in w.c.sessions && Ongoing(w.c.sessions[sid].phase)
    ensures sid in w.captures
  {}

  lemma CancelSessionKeeps(w: World, limits: Limits, sid: SessionId)
    requires CoordInv(w, limits)
    ensures CoordInv(Step(w, limits, CancelSessionEvent(sid)), limits)
  {
    hide RequestsOk, SessionsOk, JobsOk, Release, Holding;
    if sid in w.c.sessions && Ongoing(w.c.sessions[sid].phase) {
      var w' := Step(w, limits, CancelSessionEvent(sid));
      var s0 := w.c.sessions[sid];
      StillRunning(w, sid);
      CapturedSnapshot(w, sid);
      var c1 := w.c.(sessions := w.c.sessions[sid := s0.(phase := Cancelled, told := Abort)]);
      SlotAgrees(w.c.sessions, sid);
      HoldingSet(w.c.sessions, sid, s0.(phase := Cancelled, told := Abort));
      ReleaseEffect(c1, sid);
      ReleaseCounts(c1, sid);
      var s := s0.(phase := Cancelled, told := Abort, slotHeld := false);
      assert w'.c.sessions == w.c.sessions[sid := s];
      SessionStep(w, w', sid, s);
      JobStep(w, w', sid, s);
      HoldingShrinks(w.c.sessions, sid, s);
    }
  }

  /** An event that touches no session, and adds or changes jobs without queueing a promised one. */
  lemma JobsOnly(w: World, w': World)
    requires RequestsOk(w.c) && SessionsOk(w) && JobsOk(w)
    requires w'.c.sessions == w.c.sessions && w'.c.byRequest == w.c.byRequest && w'.captures == w.captures
    requires forall j :: j in w'.c.jobs && w'.c.jobs[j].phase == Queued ==>
               (j in w.c.jobs && w.c.jobs[j].phase == Queued) || FreshJob(w.c, j)
    ensures RequestsOk(w'.c) && SessionsOk(w') && JobsOk(w')
  {
    forall u | u in w'.c.sessions && u !in w'.captures && w'.c.sessions[u].job.Some?
      ensures Settled(w'.c.jobs, w'.c.sessions[u].job.value)
    {
      assert Settled(w.c.jobs, w.c.sessions[u].job.value);
    }
  }

  lemma RequestKeeps(w: World, limits: Limits, e: Event)
    requires CoordInv(w, limits) && Enabled(w, e)
    requires e.JobEvent? || e.CancelJobEvent? || e.DecodeEvent? || e.CompareEvent?
    ensures CoordInv(Step(w, limits, e), limits)
  {
    hide CoordInv;
    match e
    case JobEvent(task, succeeded) => JobEventKeeps(w, limits, task, succeeded);
    case CancelJobEvent(job) => CancelJobKeeps(w, limits, job);
    case DecodeEvent(req, newJob, newAnalysis) => DecodeKeeps(w, limits, req, newJob, newAnalysis);
    case CompareEvent(key, newJob, newReport) => CompareKeeps(w, limits, key, newJob, newReport);
  }

  lemma TakeTask(ts: multiset<Task>, t: Task)
    requires t in ts
    ensures |ts - multiset{t}| == |ts| - 1
  {}

  lemma JobEventKeeps(w: World, limits: Limits, task: Task, succeeded: bool)
    requires CoordInv(w, limits) && Enabled(w, JobEvent(task, succeeded))
    ensures CoordInv(Step(w, limits, JobEvent(task, succeeded)), limits)
  {
    hide RequestsOk, SessionsOk, JobsOk, Holding;
    if task in w.decodes { TakeTask(w.decodes, task); } else { TakeTask(w.compares, task); }
    var w' := Step(w, limits, JobEvent(task, succeeded));
    assert w'.c.jobs == w.c.jobs[task.job := w'.c.jobs[task.job]];
    JobsOnly(w, w');
  }

  lemma CancelJobKeeps(w: World, limits: Limits, job: JobId)
    requires CoordInv(w, limits)
    ensures CoordInv(Step(w, limits, CancelJobEvent(job)), limits)
  {
    hide RequestsOk, SessionsOk, JobsOk, Holding;
    JobsOnly(w, Step(w, limits, CancelJobEvent(job)));
  }

  lemma DecodeKeeps(w: World, limits: Limits, req: DecodeRequest, newJob: JobId, newAnalysis: nat)
    requires CoordInv(w, limits) && FreshJob(w.c, newJob)
    ensures CoordInv(Step(w, limits, DecodeEvent(req, newJob, newAnalysis)), limits)
  {
    hide RequestsOk, SessionsOk, JobsOk, Holding, FreshJob;
    DecodeTables(w.c, limits, req, newJob, newAnalysis);
    JobsOnly(w, Step(w, limits, DecodeEvent(req, newJob, newAnalysis)));
  }

  /** A decode request adds a queued job, or none. */
  lemma DecodeTables(c: Coord, limits: Limits, req: DecodeRequest, newJob: JobId, newAnalysis: nat)
    ensures var c' := Decode(c, limits, req, newJob, newAnalysis).0;
            && c'.sessions == c.sessions && c'.byRequest == c.byRequest
            && forall j :: j in c'.jobs ==> j == newJob || (j in c.jobs && c'.jobs[j] == c.jobs[j])
  {}

  lemma CompareKeeps(w: World, limits: Limits, key: string, newJob: JobId, newReport: nat)
    requires CoordInv(w, limits) && FreshJob(w.c, newJob)
    ensures CoordInv(Step(w, limits, CompareEvent(key, newJob, newReport)), limits)
  {
    hide RequestsOk, SessionsOk, JobsOk, Holding, FreshJob;
    JobsOnly(w, Step(w, limits, CompareEvent(key, newJob, newReport)));
  }

  /** Every enabled event keeps the whole invariant. */
  lemma StepKeeps(w: World, limits: Limits, e: Event)
    requires CoordInv(w, limits) && Enabled(w, e)
    ensures CoordInv(Step(w, limits, e), limits)
  {
    hide CoordInv, Step;
    assert RequestsOk(w.c) by { InvRequests(w, limits); }
    match e
    case StartEvent(req, sid, snap) => StartKeeps(w, limits, req, sid, snap);
    case ArmedEvent(sid) => ArmedKeeps(w, limits, sid);
    case FailedEvent(sid) => FailedKeeps(w, limits, sid);
    case PublishedEvent(sid, newJob, newAnalysis) => PublishedKeeps(w, limits, sid, newJob, newAnalysis);
    case SnapshotEvent(sid, stored, newSnap, newJob) => SnapshotKeeps(w, limits, sid, stored, newSnap, newJob);
    case CancelSessionEvent(sid) => CancelSessionKeeps(w, limits, sid);
    case _ => RequestKeeps(w, limits, e);
  }

  lemma InvRequests(w: World, limits: Limits)
    requires CoordInv(w, limits)
    ensures RequestsOk(w.c)
  {}

  // ----- whole runs -----

  /** The world after each event of a run in which every event is enabled when it happens. */
  ghost predicate RunsTo(w: World, limits: Limits, events: seq<Event>, w': World)
    decreases |events|
  {
    if events == [] then w' == w
    else RequestsOk(w.c) && Enabled(w, events[0]) && RunsTo(Step(w, limits, events[0]), limits, events[1..], w')
  }

  lemma NothingIsAccounted(limits: Limits)
    ensures CoordInv(NOTHING, limits)
  {}

  lemma {:induction false} RunKeeps(w: World, limits: Limits, events: seq<Event>, w': World)
    requires CoordInv(w, limits) && RunsTo(w, limits, events, w')
    ensures CoordInv(w', limits) && Later(w, w')
    decreases |events|
  {
    hide CoordInv, Later, Step;
    if events == [] {
      LaterSame(w);
    } else {
      StepKeeps(w, limits, events[0]);
      StepIsLater(w, limits, events[0]);
      var w1 := Step(w, limits, events[0]);
      RunKeeps(w1, limits, events[1..], w');
      LaterTwice(w, w1, w');
    }
  }

  /** Accounting over every run from the empty coordinator. */
  lemma CountersAreExact(limits: Limits, events: seq<Event>, w: World)
    requires RunsTo(NOTHING, limits, events, w)
    ensures w.c.activeCaptures == |set s | s in w.c.sessions && w.c.sessions[s].slotHeld| <= limits.maxActiveCaptures
    ensures w.c.reservedDecode == |w.captures| && w.c.runningDecode == |w.decodes|
            && w.c.pendingExpensive == |w.compares|
    ensures forall s :: s in w.c.sessions ==> (w.c.sessions[s].slotHeld <==> Ongoing(w.c.sessions[s].phase))
    ensures forall q :: q in w.c.byRequest ==> w.c.byRequest[q] in w.c.sessions
    ensures forall s :: s in w.c.sessions && s !in w.captures && w.c.sessions[s].job.Some? ==>
              w.c.sessions[s].job.value in w.c.jobs ==> w.c.jobs[w.c.sessions[s].job.value].phase != Queued
  {
    NothingIsAccounted(limits);
    RunKeeps(NOTHING, limits, events, w);
    assert Holding(w.c.sessions) == set s | s in w.c.sessions && w.c.sessions[s].slotHeld;
    forall s | s in w.c.sessions
      ensures w.c.sessions[s].slotHeld <==> Ongoing(w.c.sessions[s].phase)
    {
      assert SessionOk(w.c.sessions[s], s in w.captures);
    }
    forall s | s in w.c.sessions && s !in w.captures && w.c.sessions[s].job.Some?
      && w.c.sessions[s].job.value in w.c.jobs
      ensures w.c.jobs[w.c.sessions[s].job.value].phase != Queued
    {
      assert Settled(w.c.jobs, w.c.sessions[s].job.value);
    }
  }

  /** No saturating subtraction saturates: whatever a handler counts down was counted up before. */
  lemma NothingSaturates(limits: Limits, events: seq<Event>, w: World, e: Event)
    requires RunsTo(NOTHING, limits, events, w) && Enabled(w, e)
    ensures e.FailedEvent? || e.PublishedEvent? ==> w.c.reservedDecode > 0
    ensures (e.FailedEvent? || e.PublishedEvent? || e.CancelSessionEvent?) ==>
              e.sid in w.c.sessions && w.c.sessions[e.sid].slotHeld ==> w.c.activeCaptures > 0
    ensures e.JobEvent? && e.task in w.decodes ==> w.c.runningDecode > 0
    ensures e.JobEvent? && e.task !in w.decodes ==> w.c.pendingExpensive > 0
  {
    NothingIsAccounted(limits);
    RunKeeps(NOTHING, limits, events, w);
    if (e.FailedEvent? || e.PublishedEvent?) { ReportedTask(w.captures, e.sid); }
    if (e.FailedEvent? || e.PublishedEvent? || e.CancelSessionEvent?) && e.sid in w.c.sessions {
      ReleaseCounts(w.c, e.sid);
    }
    if e.JobEvent? && e.task in w.decodes { TakeTask(w.decodes, e.task); }
    if e.JobEvent? && e.task !in w.decodes { TakeTask(w.compares, e.task); }
  }

  // ----- the life of a session -----

  predicate Final(p: Phase) {
    p == Captured || p == Failed || p == Cancelled
  }

  /** How a session may differ later: final phases stay, and ids once given stay. */
  predicate Aged(s: Session, s': Session) {
    && s'.request == s.request && s'.hash == s.hash
    && (Final(s.phase) ==> s'.phase == s.phase)
    && (s'.phase == Starting ==> s.phase == Starting)
    && (s'.phase == Armed ==> s.phase == Starting || s.phase == Armed)
    && (s.snapshot.Some? ==> s'.snapshot == s.snapshot)
    && (s.job.Some? ==> s'.job == s.job)
  }

  ghost predicate Later(w: World, w': World) {
    && (forall s :: s in w.c.sessions ==> s in w'.c.sessions && Aged(w.c.sessions[s], w'.c.sessions[s]))
    && (forall q :: q in w.c.byRequest ==> q in w'.c.byRequest && w'.c.byRequest[q] == w.c.byRequest[q])
    && (forall s :: s in w.c.sessions && s !in w.captures ==> s !in w'.captures)
  }

  lemma LaterSame(w: World)
    ensures Later(w, w)
  {}

  lemma LaterTwice(w: World, w1: World, w2: World)
    requires Later(w, w1) && Later(w1, w2)
    ensures Later(w, w2)
  {}

  lemma OneSessionLater(w: World, w': World, sid: SessionId, s: Session)
    requires sid in w.c.sessions && Aged(w.c.sessions[sid], s)
    requires w'.c.sessions == w.c.sessions[sid := s] && w'.c.byRequest == w.c.byRequest
    requires w'.captures == w.captures || w'.captures == w.captures - {sid}
    ensures Later(w, w')
  {}

  lemma NoSessionLater(w: World, w': World)
    requires w'.c.sessions == w.c.sessions && w'.c.byRequest == w.c.byRequest && w'.captures == w.captures
    ensures Later(w, w')
  {}

  lemma NewSessionLater(w: World, w': World, sid: SessionId, s: Session, snap: SnapshotId)
    requires sid !in w.c.sessions && s.request !in w.c.byRequest
    requires w'.c.sessions == w.c.sessions[sid := s] && w'.c.byRequest == w.c.byRequest[s.request := sid]
    requires w'.captures == w.captures[sid := snap]
    ensures Later(w, w')
  {}

  lemma EndIsLater(w: World, sid: SessionId, phase: Phase, w': World)
    requires sid in w.c.sessions && !Ongoing(phase)
    requires Final(w.c.sessions[sid].phase) ==> phase == w.c.sessions[sid].phase
    requires var c1 := w.c.(sessions := w.c.sessions[sid := w.c.sessions[sid].(phase := phase)]);
             var c2 := Release(CancelQueued(c1, sid), sid);
             w' == w.(c := c2.(reservedDecode := SatSub(c2.reservedDecode, 1)), captures := w.captures - {sid})
    ensures Later(w, w')
  {
    var c1 := w.c.(sessions := w.c.sessions[sid := w.c.sessions[sid].(phase := phase)]);
    CancelQueuedEffect(c1, sid);
    ReleaseEffect(CancelQueued(c1, sid), sid);
    hide CancelQueued, Release, Later;
    OneSessionLater(w, w', sid, w.c.sessions[sid].(phase := phase, slotHeld := false));
  }

  lemma ReportIsLater(w: World, limits: Limits, e: Event)
    requires CoordInv(w, limits) && Enabled(w, e) && (e.FailedEvent? || e.PublishedEvent?)
    requires e.FailedEvent? ==> w.c.sessions[e.sid].phase != Captured
    ensures Later(w, Step(w, limits, e))
  {
    hide Later, Release, CancelQueued, JobsOk, FreshJob;
    var sid := e.sid;
    CapturedSnapshot(w, sid);
    var s0 := w.c.sessions[sid];
    var w' := Step(w, limits, e);
    if s0.phase == Cancelled || e.FailedEvent? || s0.phase == Failed {
      var phase := if s0.phase == Cancelled || e.PublishedEvent? then s0.phase else Failed;
      assert phase == s0.phase ==> s0.(phase := phase) == s0 && w.c.sessions[sid := s0] == w.c.sessions;
      EndIsLater(w, sid, phase, w');
    } else {
      PublishedShape(w, limits, sid, e.newJob, e.newAnalysis, w');
      OneSessionLater(w, w', sid, w'.c.sessions[sid]);
    }
  }

  lemma StartIsLater(w: World, limits: Limits, req: StartRequest, sid: SessionId, snap: SnapshotId)
    requires RequestsOk(w.c) && sid !in w.c.sessions
    ensures Later(w, Step(w, limits, StartEvent(req, sid, snap)))
  {
    hide Later;
    var w' := Step(w, limits, StartEvent(req, sid, snap));
    if Start(w.c, limits, req, sid, snap).2.Some? {
      NewSessionLater(w, w', sid, Session(req.id, req.hash, Starting, Some(snap), None, GoOn, true), snap);
    } else {
      NoSessionLater(w, w');
    }
  }

  lemma SnapshotIsLater(w: World, limits: Limits, e: Event)
    requires RequestsOk(w.c) && Enabled(w, e) && e.SnapshotEvent?
    ensures Later(w, Step(w, limits, e))
  {
    hide Later, RequestsOk, FreshJob;
    var w' := Step(w, limits, e);
    if e.sid in w.c.sessions && w.c.sessions[e.sid].phase == Armed {
      OneSessionLater(w, w', e.sid, w'.c.sessions[e.sid]);
    } else {
      NoSessionLater(w, w');
    }
  }

  lemma CancelIsLater(w: World, limits: Limits, sid: SessionId)
    requires RequestsOk(w.c)
    ensures Later(w, Step(w, limits, CancelSessionEvent(sid)))
  {
    hide Later, RequestsOk, Release;
    var w' := Step(w, limits, CancelSessionEvent(sid));
    if sid in w.c.sessions && Ongoing(w.c.sessions[sid].phase) {
      ReleaseEffect(w.c.(sessions := w.c.sessions[sid := w.c.sessions[sid].(phase := Cancelled, told := Abort)]), sid);
      OneSessionLater(w, w', sid, w.c.sessions[sid].(phase := Cancelled, told := Abort, slotHeld := false));
    } else {
      NoSessionLater(w, w');
    }
  }

  lemma ArmedIsLater(w: World, limits: Limits, sid: SessionId)
    requires RequestsOk(w.c)
    ensures Later(w, Step(w, limits, ArmedEvent(sid)))
  {}

  lemma JobIsLater(w: World, limits: Limits, task: Task, succeeded: bool)
    requires RequestsOk(w.c) && Enabled(w, JobEvent(task, succeeded))
    ensures Later(w, Step(w, limits, JobEvent(task, succeeded)))
  {}

  lemma DecodeIsLater(w: World, limits: Limits, req: DecodeRequest, newJob: JobId, newAnalysis: nat)
    requires RequestsOk(w.c) && FreshJob(w.c, newJob)
    ensures Later(w, Step(w, limits, DecodeEvent(req, newJob, newAnalysis)))
  {
    hide Later, RequestsOk, FreshJob;
    NoSessionLater(w, Step(w, limits, DecodeEvent(req, newJob, newAnalysis)));
  }

  lemma CompareIsLater(w: World, limits: Limits, key: string, newJob: JobId, newReport: nat)
    requires RequestsOk(w.c) && FreshJob(w.c, newJob)
    ensures Later(w, Step(w, limits, CompareEvent(key, newJob, newReport)))
  {
    hide Later, RequestsOk, FreshJob;
    NoSessionLater(w, Step(w, limits, CompareEvent(key, newJob, newReport)));
  }

  lemma CancelJobIsLater(w: World, limits: Limits, job: JobId)
    requires RequestsOk(w.c)
    ensures Later(w, Step(w, limits, CancelJobEvent(job)))
  {}

  /** Every enabled event only ages the sessions. */
  lemma StepIsLater(w: World, limits: Limits, e: Event)
    requires CoordInv(w, limits) && Enabled(w, e)
    ensures Later(w, Step(w, limits, e))
  {
    hide CoordInv, Step, Later, RequestsOk;
    InvRequests(w, limits);
    match e
    case FailedEvent(sid) => NotYetCaptured(w, limits, sid); ReportIsLater(w, limits, e);
    case PublishedEvent(_, _, _) => ReportIsLater(w, limits, e);
    case StartEvent(req, sid, snap) => StartIsLater(w, limits, req, sid, snap);
    case ArmedEvent(sid) => ArmedIsLater(w, limits, sid);
    case SnapshotEvent(_, _, _, _) => SnapshotIsLater(w, limits, e);
    case CancelSessionEvent(sid) => CancelIsLater(w, limits, sid);
    case JobEvent(task, succeeded) => JobIsLater(w, limits, task, succeeded);
    case CancelJobEvent(job) => CancelJobIsLater(w, limits, job);
    case DecodeEvent(req, newJob, newAnalysis) => DecodeIsLater(w, limits, req, newJob, newAnalysis);
    case CompareEvent(key, newJob, newReport) => CompareIsLater(w, limits, key, newJob, newReport);
  }

  /** A session whose capture has not reported is not captured yet. */
  lemma NotYetCaptured(w: World, limits: Limits, sid: SessionId)
    requires CoordInv(w, limits) && sid in w.captures
    ensures sid in w.c.sessions && w.c.sessions[sid].phase != Captured
  {}

  /**
   * Successful snapshot and stop replies of one session name one snapshot and one job, however much happens
   * between.
   */
  lemma RepliesAgree(limits: Limits, before: seq<Event>, w: World, e: Event, between: seq<Event>, w': World, e': Event)
    requires RunsTo(NOTHING, limits, before, w) && e.SnapshotEvent? && RequestsOk(w.c) && Enabled(w, e)
    requires RunsTo(Step(w, limits, e), limits, between, w') && e'.SnapshotEvent? && e'.sid == e.sid
    ensures var r := Snapshot(w.c, e.sid, e.stored, e.newSnap, e.newJob).1;
            var r' := Snapshot(w'.c, e'.sid, e'.stored, e'.newSnap, e'.newJob).1;
            r.Done? && r'.Done? ==> r.value.snapshot == r'.value.snapshot && r.value.job == r'.value.job
  {
    hide CoordInv, RunsTo, Later, RequestsOk, FreshJob;
    NothingIsAccounted(limits);
    RunKeeps(NOTHING, limits, before, w);
    StepKeeps(w, limits, e);
    var w1 := Step(w, limits, e);
    RunKeeps(w1, limits, between, w');
    if Snapshot(w.c, e.sid, e.stored, e.newSnap, e.newJob).1.Done? { LaterSession(w1, w', e.sid); }
  }

  lemma LaterSession(w: World, w': World, sid: SessionId)
    requires Later(w, w') && sid in w.c.sessions
    ensures sid in w'.c.sessions && Aged(w.c.sessions[sid], w'.c.sessions[sid])
  {}

  /** A repeated start request is answered with the session it created. */
  lemma StartIsIdempotent(limits: Limits, before: seq<Event>, w: World, req: StartRequest, sid: SessionId,
                          snap: SnapshotId,
                          between: seq<Event>, w': World, sid': SessionId, snap': SnapshotId)
    requires RunsTo(NOTHING, limits, before, w) && RequestsOk(w.c) && sid !in w.c.sessions
    requires RunsTo(Step(w, limits, StartEvent(req, sid, snap)), limits, between, w')
    ensures RequestsOk(w'.c)
    ensures var r := Start(w.c, limits, req, sid, snap).1;
            r.Done? ==>
              var (c', r', task) := Start(w'.c, limits, req, sid', snap');
              c' == w'.c && task.None? && r'.Done? && r'.value.0 == r.value.0
  {
    hide CoordInv, RunsTo, Later;
    NothingIsAccounted(limits);
    RunKeeps(NOTHING, limits, before, w);
    StepKeeps(w, limits, StartEvent(req, sid, snap));
    var w1 := Step(w, limits, StartEvent(req, sid, snap));
    RunKeeps(w1, limits, between, w');
    InvRequests(w', limits);
    if Start(w.c, limits, req, sid, snap).1.Done? {
      LaterRequest(w1, w', req.id);
      LaterSession(w1, w', w1.c.byRequest[req.id]);
    }
  }

  lemma LaterRequest(w: World, w': World, q: RequestId)
    requires Later(w, w') && q in w.c.byRequest
    ensures q in w'.c.byRequest && w'.c.byRequest[q] == w.c.byRequest[q]
  {}
}
