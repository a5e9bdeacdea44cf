/**
 * The job coordinator as a protocol: requests and task reports arrive in any
 * order, and each capture, decode or compare task reports exactly once.
 */
module Coordinator {
  import opened TraceTypes

  type SessionId = nat
  type SnapshotId = nat
  type JobId = nat
  type RequestId = nat

  datatype Phase = Starting | Armed | Finalizing | Captured | Failed | Cancelled

  datatype JobPhase = Queued | Running | JobSucceeded | JobFailed | JobCancelled

  datatype JobKind = InitialDecode | InstructionDecode | CompareJob

  /** What a session's recorder was last told. */
  datatype Told = GoOn | Finish | Abort

  datatype Session = Session(
    request: RequestId,
    hash: string,
    phase: Phase,
    snapshot: Option<SnapshotId>,
    job: Option<JobId>,
    told: Told,
    slotHeld: bool)

  datatype Job = Job(kind: JobKind, phase: JobPhase, snapshot: Option<SnapshotId>, analysis: Option<nat>,
                     report: Option<nat>)

  datatype Limits = Limits(maxActiveCaptures: nat, maxDecodeJobs: nat, maxPendingExpensive: nat)

  datatype Coord = Coord(
    sessions: map<SessionId, Session>,
    byRequest: map<RequestId, SessionId>,
    jobs: map<JobId, Job>,
    cacheJobs: map<string, JobId>,
    activeCaptures: nat,
    runningDecode: nat,
    pendingExpensive: nat,
    reservedDecode: nat)

  const IDLE := Coord(map[], map[], map[], map[], 0, 0, 0, 0)

  /** What a handler hands to the runtime to work on. */
  datatype Task =
    | CaptureTask(session: SessionId, snapshot: SnapshotId)
    | DecodeTask(job: JobId, rec: Job)
    | CompareTask(job: JobId, rec: Job)

  datatype Refusal =
    | InvalidArgument | SessionBusy | Busy | NotReady | NotFound | SessionFailed | SessionCancelled | StoreError

  datatype Reply<T> = Done(value: T) | Refused(why: Refusal)

  // ----- handlers -----

  /** A start request; the flags say which of the checks outside the coordinator pass. */
  datatype StartRequest = StartRequest(
    id: RequestId,
    hash: string,
    wellFormed: bool,
    budgetLeft: bool,
    targetReady: bool,
    stored: bool)

  function Start(c: Coord, limits: Limits, req: StartRequest, sid: SessionId, snap: SnapshotId)
    : (r: (Coord, Reply<(SessionId, Phase)>, Option<Task>))
    requires req.id in c.byRequest ==> c.byRequest[req.id] in c.sessions
  {
    if !req.wellFormed then (c, Refused(InvalidArgument), None)
    else if req.id in c.byRequest then
      var s := c.sessions[c.byRequest[req.id]];
      if s.hash != "" && s.hash != req.hash then (c, Refused(InvalidArgument), None)
      else (c, Done((c.byRequest[req.id], s.phase)), None)
    else if c.activeCaptures >= limits.maxActiveCaptures then (c, Refused(SessionBusy), None)
    else if !req.budgetLeft then (c, Refused(StoreError), None)
    else if c.reservedDecode + c.pendingExpensive >= limits.maxPendingExpensive then (c, Refused(Busy), None)
    else if !req.targetReady then (c, Refused(InvalidArgument), None)
    else if !req.stored then (c, Refused(StoreError), None)
    else
      var s := Session(req.id, req.hash, Starting, Some(snap), None, GoOn, true);
      (c.(byRequest := c.byRequest[req.id := sid],
          sessions := c.sessions[sid := s],
          activeCaptures := c.activeCaptures + 1,
          reservedDecode := c.reservedDecode + 1),
       Done((sid, Starting)),
       Some(CaptureTask(sid, snap)))
  }

  /** Give back a session's capture slot exactly once. */
  function Release(c: Coord, sid: SessionId): Coord {
    if sid in c.sessions && c.sessions[sid].slotHeld then
      c.(sessions := c.sessions[sid := c.sessions[sid].(slotHeld := false)],
         activeCaptures := SatSub(c.activeCaptures, 1))
    else c
  }

  function CancelQueued(c: Coord, sid: SessionId): Coord {
    if sid in c.sessions && c.sessions[sid].job.Some? then
      var j := c.sessions[sid].job.value;
      if j in c.jobs && c.jobs[j].phase == Queued
      then c.(jobs := c.jobs[j := c.jobs[j].(phase := JobCancelled)])
      else c
    else c
  }

  function OnArmed(c: Coord, sid: SessionId): Coord {
    if sid in c.sessions && c.sessions[sid].phase == Starting
    then c.(sessions := c.sessions[sid := c.sessions[sid].(phase := Armed)])
    else c
  }

  function OnFailed(c: Coord, sid: SessionId): Coord {
    var c1 := if sid in c.sessions && c.sessions[sid].phase != Cancelled
              then c.(sessions := c.sessions[sid := c.sessions[sid].(phase := Failed)]) else c;
    var c2 := Release(CancelQueued(c1, sid), sid);
    c2.(reservedDecode := SatSub(c2.reservedDecode, 1))
  }

  function OnPublished(c: Coord, sid: SessionId, snap: SnapshotId, newJob: JobId, newAnalysis: nat)
    : (Coord, Option<Task>)
  {
    if sid in c.sessions && (c.sessions[sid].phase == Cancelled || c.sessions[sid].phase == Failed) then
      var s := c.sessions[sid];
      var c1 := c.(sessions := c.sessions[sid := s.(snapshot := if s.snapshot.None? then Some(snap) else s.snapshot)]);
      var c2 := Release(CancelQueued(c1, sid), sid);
      (c2.(reservedDecode := SatSub(c2.reservedDecode, 1)), None)
    else if sid !in c.sessions then (Release(c, sid), None)
    else
      var s := c.sessions[sid];
      var job := if s.job.Some? then s.job.value else newJob;
      var s1 := s.(phase := Captured, snapshot := Some(snap), job := Some(job));
      var c1 := Release(c.(sessions := c.sessions[sid := s1]), sid);
      var rec := Job(InitialDecode, Queued, Some(snap), None, None);
      (c1.(jobs := c1.jobs[job := rec.(analysis := Some(newAnalysis), phase := Running)],
           runningDecode := c1.runningDecode + 1,
           reservedDecode := SatSub(c1.reservedDecode, 1)),
       Some(DecodeTask(job, rec.(analysis := Some(newAnalysis)))))
  }

  function OnJobFinished(c: Coord, job: JobId, rec: Job, decodeSlot: bool, expensiveSlot: bool): Coord {
    c.(runningDecode := if decodeSlot then SatSub(c.runningDecode, 1) else c.runningDecode,
       pendingExpensive := if expensiveSlot then SatSub(c.pendingExpensive, 1) else c.pendingExpensive,
       jobs := c.jobs[job := rec])
  }

  /** What a snapshot or stop request is answered with. */
  datatype Taken = Taken(snapshot: SnapshotId, job: JobId, phase: Phase)

  function Snapshot(c: Coord, sid: SessionId, stored: bool, newSnap: SnapshotId, newJob: JobId): (Coord, Reply<Taken>) {
    if sid !in c.sessions then (c, Refused(NotFound))
    else
      var s := c.sessions[sid];
      match s.phase
      case Starting => (c, Refused(NotReady))
      case Failed => (c, Refused(SessionFailed))
      case Cancelled => (c, Refused(SessionCancelled))
      case Armed =>
        var snap := if s.snapshot.Some? then s.snapshot.value else newSnap;
        var job := if s.job.Some? then s.job.value else newJob;
        var s1 := s.(snapshot := Some(snap), job := Some(job), phase := Finalizing);
        if !stored then (c.(sessions := c.sessions[sid := s1]), Refused(StoreError))
        else
          (c.(sessions := c.sessions[sid := s1.(told := Finish)],
              jobs := c.jobs[job := Job(InitialDecode, Queued, Some(snap), None, None)]),
           Done(Taken(snap, job, Finalizing)))
      case _ =>
        if s.snapshot.None? || s.job.None? then (c, Refused(NotFound))
        else (c, Done(Taken(s.snapshot.value, s.job.value, s.phase)))
  }

  function CancelSession(c: Coord, sid: SessionId): (Coord, Reply<Phase>) {
    if sid !in c.sessions then (c, Refused(NotFound))
    else
      var s := c.sessions[sid];
      if s.phase == Captured || s.phase == Cancelled || s.phase == Failed then (c, Done(s.phase))
      else (Release(c.(sessions := c.sessions[sid := s.(phase := Cancelled, told := Abort)]), sid), Done(Cancelled))
  }

  function CancelJob(c: Coord, job: JobId): Coord {
    if job in c.jobs && c.jobs[job].phase != JobSucceeded
    then c.(jobs := c.jobs[job := c.jobs[job].(phase := JobCancelled)])
    else c
  }

  /** A decode request; `onDisk` says that a stored analysis already answers it. */
  datatype DecodeRequest = DecodeRequest(snapshot: SnapshotId, kind: JobKind, key: string, loadable: bool, onDisk: bool)

  function Decode(c: Coord, limits: Limits, req: DecodeRequest, newJob: JobId, newAnalysis: nat)
    : (Coord, Reply<Option<JobId>>, Option<Task>)
  {
    if !req.loadable then (c, Refused(InvalidArgument), None)
    else if req.onDisk then (c, Done(None), None)
    else if req.key in c.cacheJobs && c.cacheJobs[req.key] in c.jobs then (c, Done(Some(c.cacheJobs[req.key])), None)
    else if c.runningDecode >= limits.maxDecodeJobs then (c, Refused(Busy), None)
    else
      var rec := Job(req.kind, Queued, Some(req.snapshot), Some(newAnalysis), None);
      (c.(jobs := c.jobs[newJob := rec], cacheJobs := c.cacheJobs[req.key := newJob],
          runningDecode := c.runningDecode + 1),
       Done(Some(newJob)),
       Some(DecodeTask(newJob, rec)))
  }

  function Compare(c: Coord, limits: Limits, key: string, newJob: JobId, newReport: nat)
    : (Coord, Reply<JobId>, Option<Task>)
  {
    if key in c.cacheJobs then (c, Done(c.cacheJobs[key]), None)
    else if c.pendingExpensive >= limits.maxPendingExpensive then (c, Refused(Busy), None)
    else
      var rec := Job(CompareJob, Queued, None, None, Some(newReport));
      (c.(jobs := c.jobs[newJob := rec], cacheJobs := c.cacheJobs[key := newJob],
          pendingExpensive := c.pendingExpensive + 1),
       Done(newJob),
       Some(CompareTask(newJob, rec)))
  }

  // ----- runs -----

  /** The coordinator and the tasks that have not reported yet. */
  datatype World = World(
    c: Coord,
    captures: map<SessionId, SnapshotId>,
    decodes: multiset<Task>,
    compares: multiset<Task>)

  const NOTHING := World(IDLE, map[], multiset{}, multiset{})

  datatype Event =
    | StartEvent(req: StartRequest, sid: SessionId, snap: SnapshotId)
    | ArmedEvent(sid: SessionId)
    | FailedEvent(sid: SessionId)
    | PublishedEvent(sid: SessionId, newJob: JobId, newAnalysis: nat)
    | JobEvent(task: Task, succeeded: bool)
    | SnapshotEvent(sid: SessionId, stored: bool, newSnap: SnapshotId, newJob: JobId)
    | CancelSessionEvent(sid: SessionId)
    | CancelJobEvent(job: JobId)
    | DecodeEvent(dreq: DecodeRequest, newJob: JobId, newAnalysis: nat)
    | CompareEvent(key: string, newJob: JobId, newReport: nat)

  /** A generated job id names no job, and no session has been promised it. */
  ghost predicate FreshJob(c: Coord, job: JobId) {
    job !in c.jobs && forall s :: s in c.sessions ==> c.sessions[s].job != Some(job)
  }

  /** Generated ids are new, and only running tasks report. */
  ghost predicate Enabled(w: World, e: Event) {
    match e
    case StartEvent(_, sid, _) => sid !in w.c.sessions
    case FailedEvent(sid) => sid in w.captures
    case PublishedEvent(sid, newJob, _) => sid in w.captures && FreshJob(w.c, newJob)
    case JobEvent(task, _) => !task.CaptureTask? && (task in w.decodes || task in w.compares)
    case SnapshotEvent(_, _, _, newJob) => FreshJob(w.c, newJob)
    case DecodeEvent(_, newJob, _) => FreshJob(w.c, newJob)
    case CompareEvent(_, newJob, _) => FreshJob(w.c, newJob)
    case _ => true
  }

  function Spawn(w: World, c: Coord, task: Option<Task>): World {
    match task
    case None => w.(c := c)
    case Some(CaptureTask(sid, snap)) => w.(c := c, captures := w.captures[sid := snap])
    case Some(DecodeTask(_, _)) => w.(c := c, decodes := w.decodes + multiset{task.value})
    case Some(CompareTask(_, _)) => w.(c := c, compares := w.compares + multiset{task.value})
  }

  ghost predicate RequestsOk(c: Coord) {
    && (forall q :: q in c.byRequest ==> c.byRequest[q] in c.sessions && c.sessions[c.byRequest[q]].request == q)
    && (forall s :: s in c.sessions ==> c.sessions[s].request in c.byRequest && c.byRequest[c.sessions[s].request] == s)
  }

  ghost function Step(w: World, limits: Limits, e: Event): World
    requires RequestsOk(w.c) && Enabled(w, e)
  {
    match e
    case StartEvent(req, sid, snap) => var (c, _, task) := Start(w.c, limits, req, sid, snap); Spawn(w, c, task)
    case ArmedEvent(sid) => w.(c := OnArmed(w.c, sid))
    case FailedEvent(sid) => w.(c := OnFailed(w.c, sid), captures := w.captures - {sid})
    case PublishedEvent(sid, newJob, newAnalysis) =>
      var (c, task) := OnPublished(w.c, sid, w.captures[sid], newJob, newAnalysis);
      Spawn(w.(captures := w.captures - {sid}), c, task)
    case JobEvent(task, succeeded) =>
      var rec := task.rec.(phase := if succeeded then JobSucceeded else JobFailed);
      if task in w.decodes
      then w.(c := OnJobFinished(w.c, task.job, rec, true, false), decodes := w.decodes - multiset{task})
      else w.(c := OnJobFinished(w.c, task.job, rec, false, true), compares := w.compares - multiset{task})
    case SnapshotEvent(sid, stored, newSnap, newJob) => w.(c := Snapshot(w.c, sid, stored, newSnap, newJob).0)
    case CancelSessionEvent(sid) => w.(c := CancelSession(w.c, sid).0)
    case CancelJobEvent(job) => w.(c := CancelJob(w.c, job))
    case DecodeEvent(req, newJob, newAnalysis) =>
      var (c, _, task) := Decode(w.c, limits, req, newJob, newAnalysis); Spawn(w, c, task)
    case CompareEvent(key, newJob, newReport) =>
      var (c, _, task) := Compare(w.c, limits, key, newJob, newReport); Spawn(w, c, task)
  }
}
