/** Which jobs are in the table: those of captured sessions always, promised ones unless storing failed. */
module JobTable {
  import opened TraceTypes
  import opened Coordinator
  import opened Protocol

  // ----- what each event does to the two tables -----

  /** The job of a session whose capture ended without a snapshot to decode is not left waiting. */
  function Dequeued(c: Coord, sid: SessionId): map<JobId, Job>
    requires sid in c.sessions
  {
    var j := c.sessions[sid].job;
    if j.Some? && j.value in c.jobs && c.jobs[j.value].phase == Queued
    then c.jobs[j.value := c.jobs[j.value].(phase := JobCancelled)]
    else c.jobs
  }

  predicate Dead(s: Session) { s.phase == Cancelled || s.phase == Failed }

  function JobFor(s: Session, newJob: JobId): JobId { if s.job.Some? then s.job.value else newJob }

  /** An armed session after its snapshot request: finalizing, and told to finish if that could be stored. */
  function SessionTaken(s: Session, stored: bool, newSnap: SnapshotId, newJob: JobId): Session {
    var snap := if s.snapshot.Some? then s.snapshot else Some(newSnap);
    s.(phase := Finalizing, snapshot := snap, job := Some(JobFor(s, newJob)), told := if stored then Finish else s.told)
  }

  /** The session after the event, if it was there before. */
  function SessionAfter(w: World, e: Event, sid: SessionId): Session
    requires sid in w.c.sessions && (e.PublishedEvent? ==> e.sid in w.captures)
  {
    var s := w.c.sessions[sid];
    match e
    case ArmedEvent(x) => if x == sid && s.phase == Starting then s.(phase := Armed) else s
    case FailedEvent(x) =>
      if x == sid then s.(phase := if s.phase == Cancelled then Cancelled else Failed, slotHeld := false) else s
    case PublishedEvent(x, newJob, _) =>
      if x != sid then s
      else if Dead(s) then s.(slotHeld := false,
                              snapshot := if s.snapshot.None? then Some(w.captures[x]) else s.snapshot)
      else s.(phase := Captured, snapshot := Some(w.captures[x]), job := Some(JobFor(s, newJob)), slotHeld := false)
    case SnapshotEvent(x, stored, newSnap, newJob) =>
      if x == sid && s.phase == Armed then SessionTaken(s, stored, newSnap, newJob) else s
    case CancelSessionEvent(x) =>
      if x == sid && Ongoing(s.phase) then s.(phase := Cancelled, told := Abort, slotHeld := false) else s
    case _ => s
  }

  /** Every event changes at most its own session; only a start adds one, which is starting. */
  ghost predicate SessionsChange(w: World, e: Event, w': World) {
    && (forall s :: s in w.c.sessions ==>
          s in w'.c.sessions && (e.PublishedEvent? ==> e.sid in w.captures)
            && w'.c.sessions[s] == SessionAfter(w, e, s))
    && (forall s :: s in w'.c.sessions && s !in w.c.sessions ==>
          w'.c.sessions[s].phase == Starting && w'.c.sessions[s].job.None? && w'.c.sessions[s].told == GoOn)
  }

  lemma SessionsChanged(w: World, limits: Limits, e: Event)
    requires CoordInv(w, limits) && Enabled(w, e)
    ensures SessionsChange(w, e, Step(w, limits, e))
  {
    hide CoordInv, Step, SessionsChange;
    InvRequests(w, limits);
    match e
    case StartEvent(_, _, _) => StartChanges(w, limits, e);
    case ArmedEvent(_) => ArmedChanges(w, limits, e);
    case FailedEvent(_) => FailedChanges(w, limits, e);
    case PublishedEvent(_, _, _) => PublishedChanges(w, limits, e);
    case SnapshotEvent(_, _, _, _) => SnapshotChanges(w, limits, e);
    case CancelSessionEvent(_) => CancelChanges(w, limits, e);
    case JobEvent(_, _) => JobChanges(w, limits, e);
    case CancelJobEvent(_) => CancelJobChanges(w, limits, e);
    case DecodeEvent(_, _, _) => DecodeChanges(w, limits, e);
    case CompareEvent(_, _, _) => CompareChanges(w, limits, e);
  }

  lemma StartChanges(w: World, limits: Limits, e: Event)
    requires e.StartEvent? && CoordInv(w, limits) && Enabled(w, e)
    ensures var w' := Step(w, limits, e); SessionsChange(w, e, w') && w'.c.jobs == w.c.jobs
  {
    hide CoordInv;
    InvRequests(w, limits);
  }

  lemma ArmedChanges(w: World, limits: Limits, e: Event)
    requires e.ArmedEvent? && CoordInv(w, limits) && Enabled(w, e)
    ensures var w' := Step(w, limits, e); SessionsChange(w, e, w') && w'.c.jobs == w.c.jobs
  {
    hide CoordInv, RequestsOk;
    InvRequests(w, limits);
  }

  /** The tables after a failure, without the counters. */
  lemma FailedTables(c: Coord, sid: SessionId)
    requires sid in c.sessions
    ensures var c', s := OnFailed(c, sid), c.sessions[sid];
            && c'.sessions == c.sessions[sid :=
                                         s.(phase := if s.phase == Cancelled then Cancelled else Failed,
                                            slotHeld := false)]
            && c'.jobs == Dequeued(c, sid)
  {}

  lemma FailedChanges(w: World, limits: Limits, e: Event)
    requires e.FailedEvent? && CoordInv(w, limits) && Enabled(w, e)
    ensures e.sid in w.c.sessions
    ensures var w' := Step(w, limits, e); SessionsChange(w, e, w') && w'.c.jobs == Dequeued(w.c, e.sid)
  {
    hide CoordInv, RequestsOk, OnFailed, Dequeued;
    InvRequests(w, limits);
    InvCapture(w, limits, e.sid);
    FailedTables(w.c, e.sid);
  }

  /** The tables after a snapshot was published, without the counters. */
  lemma PublishedTables(c: Coord, sid: SessionId, snap: SnapshotId, newJob: JobId, newAnalysis: nat)
    requires sid in c.sessions
    ensures var c', s := OnPublished(c, sid, snap, newJob, newAnalysis).0, c.sessions[sid];
            if Dead(s) then
              && c'.sessions == c.sessions[sid :=
                                           s.(slotHeld := false,
                                              snapshot := if s.snapshot.None? then Some(snap) else s.snapshot)]
              && c'.jobs == Dequeued(c, sid)
            else
              && c'.sessions == c.sessions[sid :=
                                           s.(phase := Captured, snapshot := Some(snap), job := Some(JobFor(s, newJob)),
                                              slotHeld := false)]
              && c'.jobs == c.jobs[JobFor(s, newJob) :=
                                   Job(InitialDecode, Running, Some(snap), Some(newAnalysis), None)]
  {}

  lemma PublishedChanges(w: World, limits: Limits, e: Event)
    requires e.PublishedEvent? && CoordInv(w, limits) && Enabled(w, e)
    ensures e.sid in w.c.sessions
    ensures var w', s := Step(w, limits, e), w.c.sessions[e.sid];
            && SessionsChange(w, e, w')
            && (if Dead(s) then w'.c.jobs == Dequeued(w.c, e.sid)
                else JobFor(s, e.newJob) in w'.c.jobs && w'.c.jobs[JobFor(s, e.newJob)].phase == Running
                     && w'.c.jobs == w.c.jobs[JobFor(s, e.newJob) := w'.c.jobs[JobFor(s, e.newJob)]])
  {
    hide CoordInv, RequestsOk, FreshJob, OnPublished, Dequeued, Step;
    InvRequests(w, limits);
    InvCapture(w, limits, e.sid);
    PublishedStep(w, limits, e);
    PublishedTables(w.c, e.sid, w.captures[e.sid], e.newJob, e.newAnalysis);
  }

  lemma PublishedStep(w: World, limits: Limits, e: Event)
    requires e.PublishedEvent? && RequestsOk(w.c) && Enabled(w, e)
    ensures Step(w, limits, e).c == OnPublished(w.c, e.sid, w.captures[e.sid], e.newJob, e.newAnalysis).0
  {
    hide RequestsOk, FreshJob, OnPublished;
  }

  lemma SnapshotStep(w: World, limits: Limits, e: Event)
    requires e.SnapshotEvent? && RequestsOk(w.c) && Enabled(w, e)
    ensures Step(w, limits, e).c == Snapshot(w.c, e.sid, e.stored, e.newSnap, e.newJob).0
  {
    hide RequestsOk, FreshJob, Snapshot;
  }

  /** The tables after a snapshot request. */
  lemma SnapshotTables(c: Coord, sid: SessionId, stored: bool, newSnap: SnapshotId, newJob: JobId)
    ensures var c' := Snapshot(c, sid, stored, newSnap, newJob).0;
            if sid !in c.sessions || c.sessions[sid].phase != Armed then c' == c
            else
              var s := c.sessions[sid];
              var snap := if s.snapshot.Some? then s.snapshot.value else newSnap;
              && c'.sessions == c.sessions[sid := SessionTaken(s, stored, newSnap, newJob)]
              && c'.jobs == if stored then c.jobs[JobFor(s, newJob) :=
                                                  Job(InitialDecode, Queued, Some(snap), None, None)] else c.jobs
  {}

  lemma SnapshotChanges(w: World, limits: Limits, e: Event)
    requires e.SnapshotEvent? && CoordInv(w, limits) && Enabled(w, e)
    ensures var w' := Step(w, limits, e);
            && SessionsChange(w, e, w')
            && (if e.sid in w.c.sessions && w.c.sessions[e.sid].phase == Armed && e.stored
                then JobFor(w.c.sessions[e.sid], e.newJob) in w'.c.jobs
                     && w'.c.jobs[JobFor(w.c.sessions[e.sid], e.newJob)].phase == Queued
                     && w'.c.jobs == w.c.jobs[JobFor(w.c.sessions[e.sid], e.newJob) :=
                                              w'.c.jobs[JobFor(w.c.sessions[e.sid], e.newJob)]]
                else w'.c.jobs == w.c.jobs)
  {
    hide CoordInv, RequestsOk, FreshJob, Step, Snapshot;
    InvRequests(w, limits);
    SnapshotStep(w, limits, e);
    SnapshotTables(w.c, e.sid, e.stored, e.newSnap, e.newJob);
  }

  lemma CancelTables(c: Coord, sid: SessionId)
    requires sid in c.sessions && (c.sessions[sid].slotHeld <==> Ongoing(c.sessions[sid].phase))
    ensures var c', s := CancelSession(c, sid).0, c.sessions[sid];
            c'.jobs == c.jobs
            && c'.sessions == c.sessions[sid := if Ongoing(s.phase) then
                                         s.(phase := Cancelled, told := Abort, slotHeld := false) else s]
  {
    assert c.sessions == c.sessions[sid := c.sessions[sid]];
  }

  lemma CancelChanges(w: World, limits: Limits, e: Event)
    requires e.CancelSessionEvent? && CoordInv(w, limits) && Enabled(w, e)
    ensures var w' := Step(w, limits, e); SessionsChange(w, e, w') && w'.c.jobs == w.c.jobs
  {
    hide CoordInv, RequestsOk, Release;
    InvRequests(w, limits);
    if e.sid in w.c.sessions {
      HeldWhileOngoing(w, limits, e.sid);
      CancelTables(w.c, e.sid);
    }
  }

  lemma HeldWhileOngoing(w: World, limits: Limits, sid: SessionId)
    requires CoordInv(w, limits) && sid in w.c.sessions
    ensures w.c.sessions[sid].slotHeld <==> Ongoing(w.c.sessions[sid].phase)
  {
    hide RequestsOk, JobsOk, Accounted;
  }

  lemma InvCapture(w: World, limits: Limits, sid: SessionId)
    requires CoordInv(w, limits) && sid in w.captures
    ensures sid in w.c.sessions
  {
    hide RequestsOk, JobsOk, Accounted;
  }

  lemma JobChanges(w: World, limits: Limits, e: Event)
    requires e.JobEvent? && CoordInv(w, limits) && Enabled(w, e)
    ensures var w' := Step(w, limits, e);
            && SessionsChange(w, e, w')
            && w'.c.jobs == w.c.jobs[e.task.job :=
                                     e.task.rec.(phase := if e.succeeded then JobSucceeded else JobFailed)]
  {
    hide CoordInv, RequestsOk;
    InvRequests(w, limits);
  }

  lemma CancelJobChanges(w: World, limits: Limits, e: Event)
    requires e.CancelJobEvent? && CoordInv(w, limits) && Enabled(w, e)
    ensures var w' := Step(w, limits, e);
            && SessionsChange(w, e, w') && w'.c.jobs.Keys == w.c.jobs.Keys
            && forall j :: j in w.c.jobs ==>
                 w'.c.jobs[j] == if j == e.job && w.c.jobs[j].phase != JobSucceeded
                                 then w.c.jobs[j].(phase := JobCancelled) else w.c.jobs[j]
  {
    hide CoordInv, RequestsOk;
    InvRequests(w, limits);
  }

  lemma DecodeChanges(w: World, limits: Limits, e: Event)
    requires e.DecodeEvent? && CoordInv(w, limits) && Enabled(w, e)
    ensures var w' := Step(w, limits, e);
            && SessionsChange(w, e, w')
            && (w'.c.jobs == w.c.jobs
                || (e.newJob in w'.c.jobs && w'.c.jobs == w.c.jobs[e.newJob := w'.c.jobs[e.newJob]]))
  {
    hide CoordInv, RequestsOk, FreshJob;
    InvRequests(w, limits);
  }

  lemma CompareChanges(w: World, limits: Limits, e: Event)
    requires e.CompareEvent? && CoordInv(w, limits) && Enabled(w, e)
    ensures var w' := Step(w, limits, e);
            && SessionsChange(w, e, w')
            && (w'.c.jobs == w.c.jobs
                || (e.newJob in w'.c.jobs && w'.c.jobs == w.c.jobs[e.newJob := w'.c.jobs[e.newJob]]))
  {
    hide CoordInv, RequestsOk, FreshJob;
    InvRequests(w, limits);
  }

  // ----- jobs never leave the table -----

  /** What an event does to a job that is in the table: nothing, unless it writes, dequeues or cancels it. */
  lemma JobsChanged(w: World, limits: Limits, e: Event, j: JobId)
    requires CoordInv(w, limits) && Enabled(w, e) && j in w.c.jobs
    ensures var jobs := Step(w, limits, e).c.jobs;
            && j in jobs
            && (!Writes(w, e, j) ==> jobs[j] == w.c.jobs[j] || jobs[j].phase == JobCancelled)
            && (Writes(w, e, j) ==> jobs[j].phase != JobCancelled)
  {
    hide CoordInv, Step, SessionsChange;
    InvRequests(w, limits);
    match e
    case StartEvent(_, _, _) => StartChanges(w, limits, e);
    case ArmedEvent(_) => ArmedChanges(w, limits, e);
    case FailedEvent(_) => FailedChanges(w, limits, e);
    case PublishedEvent(_, _, _) => PublishedChanges(w, limits, e);
    case SnapshotEvent(_, _, _, _) => SnapshotChanges(w, limits, e);
    case CancelSessionEvent(_) => CancelChanges(w, limits, e);
    case JobEvent(_, _) => JobChanges(w, limits, e);
    case CancelJobEvent(_) => CancelJobChanges(w, limits, e);
    case DecodeEvent(_, _, _) => DecodeChanges(w, limits, e);
    case CompareEvent(_, _, _) => CompareChanges(w, limits, e);
  }

  /** A captured session's job is in the table. */
  ghost predicate CapturedHaveJobs(c: Coord) {
    forall s :: s in c.sessions && c.sessions[s].phase == Captured ==> HasJob(c, s)
  }

  predicate HasJob(c: Coord, s: SessionId)
    requires s in c.sessions
  {
    c.sessions[s].job.Some? && c.sessions[s].job.value in c.jobs
  }

  /** The only step that makes a session captured puts its job into the table. */
  lemma BecomesCaptured(w: World, limits: Limits, e: Event, s: SessionId)
    requires CoordInv(w, limits) && Enabled(w, e) && s in Step(w, limits, e).c.sessions
    requires Step(w, limits, e).c.sessions[s].phase == Captured
             && (s in w.c.sessions ==> w.c.sessions[s].phase != Captured)
    ensures HasJob(Step(w, limits, e).c, s)
  {
    hide CoordInv, Step, FreshJob;
    SessionsChanged(w, limits, e);
    if e.PublishedEvent? { PublishedChanges(w, limits, e); }
  }

  lemma CapturedKeepsJobs(w: World, limits: Limits, e: Event)
    requires CoordInv(w, limits) && Enabled(w, e) && CapturedHaveJobs(w.c)
    ensures CapturedHaveJobs(Step(w, limits, e).c)
  {
    hide CoordInv, Step, RequestsOk;
    InvRequests(w, limits);
    var w' := Step(w, limits, e);
    StepIsLater(w, limits, e);
    forall s | s in w'.c.sessions && w'.c.sessions[s].phase == Captured ensures HasJob(w'.c, s) {
      if s in w.c.sessions && w.c.sessions[s].phase == Captured {
        JobsChanged(w, limits, e, w.c.sessions[s].job.value);
      } else {
        BecomesCaptured(w, limits, e, s);
      }
    }
  }

  /** Over every run, the job of a captured session can be looked up. */
  lemma {:induction false} CapturedJobsAreKnown(w: World, limits: Limits, events: seq<Event>, w': World)
    requires CoordInv(w, limits) && CapturedHaveJobs(w.c) && RunsTo(w, limits, events, w')
    ensures CapturedHaveJobs(w'.c)
    decreases |events|
  {
    hide CoordInv, CapturedHaveJobs, Step;
    if events != [] {
      StepKeeps(w, limits, events[0]);
      CapturedKeepsJobs(w, limits, events[0]);
      InvRequests(w, limits);
      CapturedJobsAreKnown(Step(w, limits, events[0]), limits, events[1..], w');
    }
  }

  // ----- promised jobs -----

  /** The session was promised a job, is still finalizing, and the job is not in the table. */
  predicate Missing(c: Coord, s: SessionId) {
    s in c.sessions && c.sessions[s].phase == Finalizing && c.sessions[s].job.Some?
      && c.sessions[s].job.value !in c.jobs
  }

  /** A promised job goes missing in one way only: its first snapshot request could not be stored. */
  lemma GoesMissingIff(w: World, limits: Limits, e: Event, s: SessionId)
    requires CoordInv(w, limits) && Enabled(w, e) && !Missing(w.c, s)
    ensures Missing(Step(w, limits, e).c, s) <==>
            e.SnapshotEvent? && e.sid == s && !e.stored && s in w.c.sessions && w.c.sessions[s].phase == Armed
            && (w.c.sessions[s].job.Some? ==> w.c.sessions[s].job.value !in w.c.jobs)
  {
    hide CoordInv, Step;
    SessionsChanged(w, limits, e);
    if e.SnapshotEvent? { SnapshotChanges(w, limits, e); }
    if s in w.c.sessions && w.c.sessions[s].job.Some? && w.c.sessions[s].job.value in w.c.jobs {
      JobsChanged(w, limits, e, w.c.sessions[s].job.value);
    }
  }

  /**
   * A successful snapshot or stop reply names a job of the table unless the session's promised job was
   * missing already.
   */
  lemma ReplyNamesJob(w: World, limits: Limits, sid: SessionId, stored: bool, newSnap: SnapshotId, newJob: JobId)
    requires CoordInv(w, limits) && CapturedHaveJobs(w.c)
    ensures var (c, reply) := Snapshot(w.c, sid, stored, newSnap, newJob);
            reply.Done? ==> (reply.value.job in c.jobs <==> !Missing(w.c, sid))
  {
    hide RequestsOk, SessionsOk, JobsOk, Accounted;
  }

  const REQUEST := StartRequest(1, "", true, true, true, true)

  const ROOM := Limits(1, 1, 1)

  /**
   * Start, arm, a snapshot that cannot be stored, and another: the second reply names a job that
   * is not there, of a capture that nobody has told to finish.
   */
  lemma StoreErrorLosesJob()
    ensures var c1 := Start(IDLE, ROOM, REQUEST, 1, 1).0;
            var c2 := Snapshot(OnArmed(c1, 1), 1, false, 2, 5).0;
            var (c3, reply) := Snapshot(c2, 1, true, 3, 6);
            reply == Done(Taken(1, 5, Finalizing)) && 5 !in c3.jobs && c3.sessions[1].told == GoOn
  {}

  // ----- cancelled jobs -----

  /** Events that write the record of job `j`. */
  predicate Writes(w: World, e: Event, j: JobId) {
    match e
    case JobEvent(task, _) => !task.CaptureTask? && task.job == j
    case PublishedEvent(sid, _, _) =>
      sid in w.c.sessions && w.c.sessions[sid].job == Some(j) && w.c.sessions[sid].phase != Cancelled
        && w.c.sessions[sid].phase != Failed
    case SnapshotEvent(sid, stored, _, _) =>
      stored && sid in w.c.sessions && w.c.sessions[sid].job == Some(j) && w.c.sessions[sid].phase == Armed
    case _ => false
  }

  /**
   * A cancelled job stays cancelled exactly until some later event writes its record: its own task's report,
   * or its session's snapshot.
   */
  lemma CancelledStaysIff(w: World, limits: Limits, e: Event, j: JobId)
    requires CoordInv(w, limits) && Enabled(w, e) && j in w.c.jobs && w.c.jobs[j].phase == JobCancelled
    ensures j in Step(w, limits, e).c.jobs
    ensures Step(w, limits, e).c.jobs[j].phase == JobCancelled <==> !Writes(w, e, j)
  {
    hide CoordInv, Step;
    JobsChanged(w, limits, e, j);
  }

  const QUESTION := DecodeRequest(1, InstructionDecode, "k", true, false)

  /** A decode that is cancelled and then reports success is a success. */
  lemma CancelledJobRevives()
    ensures var (c1, _, task) := Decode(IDLE, ROOM, QUESTION, 1, 1);
            && task.Some? && task.value.DecodeTask?
            && var c2 := CancelJob(c1, 1);
            && c2.jobs[1].phase == JobCancelled
            && OnJobFinished(c2, 1, task.value.rec.(phase := JobSucceeded), true, false).jobs[1].phase == JobSucceeded
  {}
}
