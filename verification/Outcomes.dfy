/** What the job table says of the work: each task has its own record, and what is finished stays as it is. */
module Outcomes {
  import opened TraceTypes
  import opened Coordinator
  import opened Protocol
  import opened JobTable

  ghost function InFlight(w: World): multiset<Task> { w.decodes + w.compares }

  /** The job has no outcome of its own yet. */
  predicate Open(p: JobPhase) { p == Queued || p == Running || p == JobCancelled }

  predicate On(t: Task, j: JobId) { !t.CaptureTask? && t.job == j }

  ghost predicate NoTask(tasks: multiset<Task>, j: JobId) { forall t :: t in tasks ==> !On(t, j) }

  /** The task's job is in the table, with the task's record in all but its phase. */
  predicate Recorded(jobs: map<JobId, Job>, t: Task) {
    !t.CaptureTask? && t.job in jobs && Open(jobs[t.job].phase) && jobs[t.job].(phase := t.rec.phase) == t.rec
  }

  /** No job has two tasks. */
  ghost predicate TasksOk(tasks: multiset<Task>, jobs: map<JobId, Job>) {
    && (forall t :: t in tasks ==> tasks[t] == 1 && Recorded(jobs, t))
    && (forall t, u :: t in tasks && u in tasks && SameJob(t, u) ==> t == u)
  }

  predicate SameJob(t: Task, u: Task) { !t.CaptureTask? && !u.CaptureTask? && t.job == u.job }

  /** A session's job decodes the session's own snapshot, and has no task while the session is being recorded. */
  ghost predicate SessionHolds(w: World, sid: SessionId)
    requires sid in w.c.sessions
  {
    var s := w.c.sessions[sid];
    && (s.phase == Starting || s.phase == Armed ==> s.job.None?)
    && (s.job.Some? && s.job.value in w.c.jobs ==>
          w.c.jobs[s.job.value].kind == InitialDecode && w.c.jobs[s.job.value].snapshot == s.snapshot)
    && (s.job.Some? && sid in w.captures ==>
          NoTask(InFlight(w), s.job.value)
            && (s.job.value in w.c.jobs ==> Open(w.c.jobs[s.job.value].phase)))
  }

  ghost predicate Agreed(w: World) {
    TasksOk(InFlight(w), w.c.jobs) && forall s :: s in w.c.sessions ==> SessionHolds(w, s)
  }

  // ----- what a step does to a job -----

  /** The event writes the whole record of job `j`. */
  predicate Records(w: World, e: Event, j: JobId) {
    match e
    case JobEvent(task, _) => On(task, j)
    case PublishedEvent(sid, newJob, _) =>
      sid in w.c.sessions && !Dead(w.c.sessions[sid]) && JobFor(w.c.sessions[sid], newJob) == j
    case SnapshotEvent(sid, stored, _, newJob) =>
      stored && sid in w.c.sessions && w.c.sessions[sid].phase == Armed && JobFor(w.c.sessions[sid], newJob) == j
    case DecodeEvent(_, newJob, _) => newJob == j
    case CompareEvent(_, newJob, _) => newJob == j
    case _ => false
  }

  /** Any other job keeps its record up to its phase, which changes only when the job is cancelled. */
  predicate JobKept(c: Coord, e: Event, j: JobId, jobs': map<JobId, Job>) {
    if j !in c.jobs then j !in jobs'
    else
      var phase := c.jobs[j].phase;
      && j in jobs' && jobs'[j].(phase := phase) == c.jobs[j]
      && (if e == CancelJobEvent(j) && phase != JobSucceeded then jobs'[j].phase == JobCancelled
          else jobs'[j].phase == phase || (phase == Queued && jobs'[j].phase == JobCancelled))
  }

  lemma OtherJob(w: World, limits: Limits, e: Event, j: JobId)
    requires CoordInv(w, limits) && Enabled(w, e) && !Records(w, e, j)
    ensures JobKept(w.c, e, j, Step(w, limits, e).c.jobs)
  {
    hide CoordInv, RequestsOk, SessionsChange, FreshJob, Step;
    InvRequests(w, limits);
    match e
    case StartEvent(_, _, _) => StartChanges(w, limits, e);
    case ArmedEvent(_) => ArmedChanges(w, limits, e);
    case FailedEvent(_) => FailedChanges(w, limits, e);
    case PublishedEvent(_, _, _) => PublishedChanges(w, limits, e);
    case SnapshotEvent(_, _, _, _) => SnapshotChanges(w, limits, e);
    case CancelSessionEvent(_) => CancelChanges(w, limits, e);
    case JobEvent(_, _) => JobChanges(w, limits, e);
    case CancelJobEvent(_) => CancelJobChanges(w, limits, e);
    case DecodeEvent(_, _, _) => DecodeChanges(w, limits, e);
    case CompareEvent(_, _, _) => CompareChanges(w, limits, e);
  }

  // ----- what a step does to the tasks -----

  function Started(w: World, limits: Limits, e: Event): Option<Task> {
    match e
    case PublishedEvent(sid, newJob, newAnalysis) =>
      if sid in w.c.sessions && sid in w.captures && !Dead(w.c.sessions[sid]) then
        Some(DecodeTask(JobFor(w.c.sessions[sid], newJob),
                        Job(InitialDecode, Queued, Some(w.captures[sid]), Some(newAnalysis), None)))
      else None
    case DecodeEvent(req, newJob, newAnalysis) => Decode(w.c, limits, req, newJob, newAnalysis).2
    case CompareEvent(key, newJob, newReport) => Compare(w.c, limits, key, newJob, newReport).2
    case _ => None
  }

  /** Which tasks a step starts and ends. */
  ghost predicate TasksMoved(w: World, limits: Limits, e: Event, w': World) {
    var t := Started(w, limits, e);
    && (if t.Some? then InFlight(w') == InFlight(w) + multiset{t.value} && Recorded(w'.c.jobs, t.value)
                          && Records(w, e, t.value.job)
        else if e.JobEvent? then InFlight(w') == InFlight(w) - multiset{e.task}
        else InFlight(w') == InFlight(w))
    && (forall s :: s in w'.captures && s in w.c.sessions ==> s in w.captures)
    && (e.PublishedEvent? ==> e.sid !in w'.captures)
  }

  lemma PublishedMoves(w: World, limits: Limits, e: Event)
    requires e.PublishedEvent? && CoordInv(w, limits) && RequestsOk(w.c) && Enabled(w, e)
    ensures TasksMoved(w, limits, e, Step(w, limits, e))
  {
    hide CoordInv, RequestsOk, FreshJob, OnPublished;
    InvCapture(w, limits, e.sid);
    PublishedTask(w.c, e.sid, w.captures[e.sid], e.newJob, e.newAnalysis);
  }

  lemma DecodeMoves(w: World, limits: Limits, e: Event)
    requires e.DecodeEvent? && RequestsOk(w.c) && Enabled(w, e)
    ensures TasksMoved(w, limits, e, Step(w, limits, e))
  {
    hide RequestsOk, FreshJob;
  }

  lemma CompareMoves(w: World, limits: Limits, e: Event)
    requires e.CompareEvent? && RequestsOk(w.c) && Enabled(w, e)
    ensures TasksMoved(w, limits, e, Step(w, limits, e))
  {
    hide RequestsOk, FreshJob;
  }

  lemma TasksChanged(w: World, limits: Limits, e: Event)
    requires CoordInv(w, limits) && RequestsOk(w.c) && Enabled(w, e)
    ensures TasksMoved(w, limits, e, Step(w, limits, e))
  {
    hide CoordInv, RequestsOk, FreshJob, Step, TasksMoved;
    match e
    case PublishedEvent(_, _, _) => PublishedMoves(w, limits, e);
    case DecodeEvent(_, _, _) => DecodeMoves(w, limits, e);
    case CompareEvent(_, _, _) => CompareMoves(w, limits, e);
    case JobEvent(_, _) => ReportMoves(w, limits, e);
    case StartEvent(_, _, _) => StartMoves(w, limits, e);
    case _ => NothingMoves(w, limits, e);
  }

  lemma ReportMoves(w: World, limits: Limits, e: Event)
    requires e.JobEvent? && RequestsOk(w.c) && Enabled(w, e)
    ensures TasksMoved(w, limits, e, Step(w, limits, e))
  {
    hide RequestsOk;
  }

  lemma StartMoves(w: World, limits: Limits, e: Event)
    requires e.StartEvent? && RequestsOk(w.c) && Enabled(w, e)
    ensures TasksMoved(w, limits, e, Step(w, limits, e))
  {}

  lemma NothingMoves(w: World, limits: Limits, e: Event)
    requires e.ArmedEvent? || e.FailedEvent? || e.SnapshotEvent? || e.CancelSessionEvent? || e.CancelJobEvent?
    requires RequestsOk(w.c) && Enabled(w, e)
    ensures TasksMoved(w, limits, e, Step(w, limits, e))
  {
    hide RequestsOk, FreshJob, OnFailed, Snapshot, CancelSession;
  }

  lemma PublishedTask(c: Coord, sid: SessionId, snap: SnapshotId, newJob: JobId, newAnalysis: nat)
    requires sid in c.sessions
    ensures var (c', task) := OnPublished(c, sid, snap, newJob, newAnalysis);
            task == if Dead(c.sessions[sid]) then None
                    else Some(DecodeTask(JobFor(c.sessions[sid], newJob),
                                         Job(InitialDecode, Queued, Some(snap), Some(newAnalysis), None)))
    ensures !Dead(c.sessions[sid]) ==>
              var j := JobFor(c.sessions[sid], newJob); var c' := OnPublished(c, sid, snap, newJob, newAnalysis).0;
              j in c'.jobs && c'.jobs[j] == Job(InitialDecode, Running, Some(snap), Some(newAnalysis), None)
  {}

  lemma Unfinished(tasks: multiset<Task>, jobs: map<JobId, Job>, jobs': map<JobId, Job>)
    requires TasksOk(tasks, jobs) && forall t :: t in tasks ==> Recorded(jobs', t)
    ensures TasksOk(tasks, jobs')
  {}

  lemma TaskAdded(tasks: multiset<Task>, jobs: map<JobId, Job>, t: Task)
    requires TasksOk(tasks, jobs) && Recorded(jobs, t) && NoTask(tasks, t.job)
    ensures TasksOk(tasks + multiset{t}, jobs)
  {
    if t in tasks { assert On(t, t.job); }
    forall u | u in tasks ensures !SameJob(t, u) { assert !On(u, t.job); }
  }

  lemma TaskEnded(tasks: multiset<Task>, jobs: map<JobId, Job>, t: Task)
    requires TasksOk(tasks, jobs) && t in tasks
    ensures TasksOk(tasks - multiset{t}, jobs) && !t.CaptureTask? && NoTask(tasks - multiset{t}, t.job)
  {
    assert tasks[t] == 1;
    forall u | u in tasks - multiset{t} ensures !On(u, t.job) {
      assert On(u, t.job) <==> SameJob(t, u);
    }
  }

  // ----- what a step keeps -----

  /** Jobs with a task are recorded after the step as before, save the one whose task reports. */
  lemma StillRecorded(w: World, limits: Limits, e: Event, t: Task)
    requires CoordInv(w, limits) && Enabled(w, e) && Recorded(w.c.jobs, t) && !Records(w, e, t.job)
    ensures Recorded(Step(w, limits, e).c.jobs, t)
  {
    hide CoordInv, Step, Records;
    OtherJob(w, limits, e, t.job);
  }

  /** The only event that writes the record of a job with a task is that task's report. */
  lemma OnlyReports(w: World, limits: Limits, e: Event, t: Task)
    requires CoordInv(w, limits) && Enabled(w, e) && Agreed(w) && t in InFlight(w) && Records(w, e, t.job)
    ensures e.JobEvent? && e.task == t
  {
    hide CoordInv;
    assert Recorded(w.c.jobs, t);
    match e
    case JobEvent(task, _) =>
      assert task in InFlight(w);
      assert SameJob(task, t);
    case _ =>
  }

  lemma TasksStep(w: World, limits: Limits, e: Event)
    requires CoordInv(w, limits) && RequestsOk(w.c) && Enabled(w, e) && Agreed(w)
    ensures TasksOk(InFlight(Step(w, limits, e)), Step(w, limits, e).c.jobs)
  {
    hide CoordInv, RequestsOk, Enabled, Step, Recorded, SessionHolds, Records;
    var w', t, tasks := Step(w, limits, e), Started(w, limits, e), InFlight(w);
    TasksChanged(w, limits, e);
    if e.JobEvent? {
      ReportsAreTasks(w, e);
      TaskEnded(tasks, w.c.jobs, e.task);
      tasks := tasks - multiset{e.task};
    }
    forall u | u in tasks ensures Recorded(w'.c.jobs, u) {
      IsTask(tasks, w.c.jobs, u);
      if Records(w, e, u.job) { OnlyReports(w, limits, e, u); }
      StillRecorded(w, limits, e, u);
    }
    Unfinished(tasks, w.c.jobs, w'.c.jobs);
    if t.Some? {
      forall u | u in tasks ensures !On(u, t.value.job) {
        IsTask(tasks, w.c.jobs, u);
        if On(u, t.value.job) { OnlyReports(w, limits, e, u); }
      }
      TaskAdded(tasks, w'.c.jobs, t.value);
    }
  }

  lemma IsTask(tasks: multiset<Task>, jobs: map<JobId, Job>, t: Task)
    requires TasksOk(tasks, jobs) && t in tasks
    ensures !t.CaptureTask? && Recorded(jobs, t)
  {}

  lemma ReportsAreTasks(w: World, e: Event)
    requires e.JobEvent? && Enabled(w, e)
    ensures e.task in InFlight(w)
  {}

  /** The event promises session `s` a job or records it. */
  predicate Takes(w: World, e: Event, s: SessionId)
    requires s in w.c.sessions
  {
    (e.PublishedEvent? && e.sid == s && !Dead(w.c.sessions[s]))
    || (e.SnapshotEvent? && e.sid == s && w.c.sessions[s].phase == Armed)
  }

  /** The record of a session's job is written by the session's own events or its task's report. */
  lemma OthersRecord(w: World, limits: Limits, e: Event, s: SessionId)
    requires CoordInv(w, limits) && Enabled(w, e) && s in w.c.sessions && !Takes(w, e, s)
    requires w.c.sessions[s].job.Some? && Records(w, e, w.c.sessions[s].job.value)
    ensures e.JobEvent?
  {
    hide RequestsOk, SessionsOk, Accounted;
  }

  /** A report leaves all of its job's record but the phase. */
  lemma ReportWrites(w: World, limits: Limits, e: Event, j: JobId)
    requires CoordInv(w, limits) && Enabled(w, e) && Agreed(w) && e.JobEvent? && Records(w, e, j)
    ensures e.task in InFlight(w) && On(e.task, j) && j in w.c.jobs && j in Step(w, limits, e).c.jobs
    ensures Step(w, limits, e).c.jobs[j].(phase := w.c.jobs[j].phase) == w.c.jobs[j]
    ensures Step(w, limits, e).c.jobs[j] == e.task.rec.(phase := if e.succeeded then JobSucceeded else JobFailed)
  {
    hide CoordInv, Step;
    ReportsAreTasks(w, e);
    IsTask(InFlight(w), w.c.jobs, e.task);
    JobChanges(w, limits, e);
  }

  lemma OtherSession(w: World, limits: Limits, e: Event, s: SessionId)
    requires CoordInv(w, limits) && RequestsOk(w.c) && Enabled(w, e) && Agreed(w) && s in w.c.sessions
             && !Takes(w, e, s)
    ensures s in Step(w, limits, e).c.sessions && SessionHolds(Step(w, limits, e), s)
  {
    hide CoordInv, RequestsOk, Enabled, Step, Records, SessionsChange;
    SessionsChanged(w, limits, e);
    var w' := Step(w, limits, e);
    assert SessionHolds(w, s);
    SessionAlike(w, limits, e, s);
    TasksChanged(w, limits, e);
    var job := w.c.sessions[s].job;
    if job.Some? {
      var j := job.value;
      if !Records(w, e, j) {
        OtherJob(w, limits, e, j);
      } else {
        OthersRecord(w, limits, e, s);
        ReportWrites(w, limits, e, j);
      }
    }
  }

  /** A session that takes nothing keeps its job and snapshot. */
  lemma SessionAlike(w: World, limits: Limits, e: Event, s: SessionId)
    requires CoordInv(w, limits) && Enabled(w, e) && s in w.c.sessions && !Takes(w, e, s)
    ensures var w' := Step(w, limits, e);
            && s in w'.c.sessions && w'.c.sessions[s].job == w.c.sessions[s].job
            && w'.c.sessions[s].snapshot == w.c.sessions[s].snapshot
            && (w'.c.sessions[s].phase == Starting || w'.c.sessions[s].phase == Armed ==>
                  w.c.sessions[s].phase == Starting || w.c.sessions[s].phase == Armed)
  {
    hide RequestsOk, JobsOk, Accounted, Step;
    SessionsChanged(w, limits, e);
    assert SessionOk(w.c.sessions[s], s in w.captures);
  }

  lemma TakesPublished(w: World, limits: Limits, e: Event)
    requires e.PublishedEvent? && CoordInv(w, limits) && RequestsOk(w.c) && Enabled(w, e) && e.sid in w.c.sessions
    requires Takes(w, e, e.sid)
    ensures e.sid in Step(w, limits, e).c.sessions && SessionHolds(Step(w, limits, e), e.sid)
  {
    hide CoordInv, RequestsOk, FreshJob, OnPublished, Step;
    SessionsChanged(w, limits, e);
    TasksChanged(w, limits, e);
  }

  lemma TakesSnapshot(w: World, limits: Limits, e: Event)
    requires e.SnapshotEvent? && CoordInv(w, limits) && RequestsOk(w.c) && Enabled(w, e) && Agreed(w)
    requires e.sid in w.c.sessions && Takes(w, e, e.sid)
    ensures e.sid in Step(w, limits, e).c.sessions && SessionHolds(Step(w, limits, e), e.sid)
  {
    hide CoordInv, RequestsOk, Snapshot, Step;
    SessionsChanged(w, limits, e);
    TasksChanged(w, limits, e);
    assert SessionHolds(w, e.sid);
    SnapshotStep(w, limits, e);
    SnapshotTables(w.c, e.sid, e.stored, e.newSnap, e.newJob);
    forall t | t in InFlight(w) ensures !On(t, e.newJob) {
      assert Recorded(w.c.jobs, t);
    }
  }

  lemma AgreedStep(w: World, limits: Limits, e: Event)
    requires CoordInv(w, limits) && RequestsOk(w.c) && Enabled(w, e) && Agreed(w)
    ensures Agreed(Step(w, limits, e))
  {
    hide CoordInv, RequestsOk, Enabled, Step, TasksOk, SessionHolds, SessionsChange;
    TasksStep(w, limits, e);
    SessionsChanged(w, limits, e);
    var w' := Step(w, limits, e);
    forall s | s in w'.c.sessions ensures SessionHolds(w', s) {
      if s !in w.c.sessions { NewHolds(w, limits, e, s); }
      else if !Takes(w, e, s) { OtherSession(w, limits, e, s); }
      else if e.PublishedEvent? { TakesPublished(w, limits, e); }
      else { TakesSnapshot(w, limits, e); }
    }
  }

  lemma NewHolds(w: World, limits: Limits, e: Event, s: SessionId)
    requires CoordInv(w, limits) && Enabled(w, e) && s !in w.c.sessions && s in Step(w, limits, e).c.sessions
    ensures SessionHolds(Step(w, limits, e), s)
  {
    hide CoordInv, RequestsOk, Enabled, Step;
    SessionsChanged(w, limits, e);
  }

  // ----- over runs -----

  lemma NothingAgrees()
    ensures Agreed(NOTHING)
  {}

  /** The job is done: it has an outcome or was cancelled, no task works on it and no recording session waits for it. */
  ghost predicate Over(w: World, j: JobId) {
    && j in w.c.jobs && w.c.jobs[j].phase != Queued && w.c.jobs[j].phase != Running
    && NoTask(InFlight(w), j) && forall s :: s in w.captures && s in w.c.sessions ==> w.c.sessions[s].job != Some(j)
  }

  /** What is left of a finished job's record after a client may have cancelled it. */
  function Closed(rec: Job, cancelled: bool): Job {
    if cancelled && rec.phase != JobSucceeded then rec.(phase := JobCancelled) else rec
  }

  lemma OverIsNotRecorded(w: World, limits: Limits, e: Event, j: JobId)
    requires CoordInv(w, limits) && Enabled(w, e) && Agreed(w) && Over(w, j)
    ensures !Records(w, e, j)
  {
    hide CoordInv;
    if e.JobEvent? { assert e.task in InFlight(w); }
  }

  lemma OverStep(w: World, limits: Limits, e: Event, j: JobId)
    requires CoordInv(w, limits) && RequestsOk(w.c) && Enabled(w, e) && Agreed(w) && Over(w, j)
    ensures Over(Step(w, limits, e), j)
    ensures Step(w, limits, e).c.jobs[j] == Closed(w.c.jobs[j], e == CancelJobEvent(j))
  {
    hide CoordInv, RequestsOk, Enabled, Step, Records, SessionHolds;
    OverIsNotRecorded(w, limits, e, j);
    OtherJob(w, limits, e, j);
    TasksChanged(w, limits, e);
    var w' := Step(w, limits, e);
    forall s | s in w'.captures && s in w'.c.sessions ensures w'.c.sessions[s].job != Some(j) {
      OverForSession(w, limits, e, j, s);
    }
  }

  lemma OverForSession(w: World, limits: Limits, e: Event, j: JobId, s: SessionId)
    requires CoordInv(w, limits) && RequestsOk(w.c) && Enabled(w, e) && Agreed(w) && Over(w, j)
    requires var w' := Step(w, limits, e); s in w'.captures && s in w'.c.sessions
    ensures Step(w, limits, e).c.sessions[s].job != Some(j)
  {
    hide CoordInv, RequestsOk, Step, Records, SessionHolds, NoTask;
    SessionsChanged(w, limits, e);
    TasksChanged(w, limits, e);
  }

  lemma {:induction false} RunAgrees(w: World, limits: Limits, events: seq<Event>, w': World)
    requires CoordInv(w, limits) && Agreed(w) && RunsTo(w, limits, events, w')
    ensures CoordInv(w', limits) && Agreed(w')
    decreases |events|
  {
    hide CoordInv, Agreed, Step, RequestsOk;
    if events != [] {
      StepKeeps(w, limits, events[0]);
      AgreedStep(w, limits, events[0]);
      RunAgrees(Step(w, limits, events[0]), limits, events[1..], w');
    }
  }

  /** Over every run, tasks and sessions agree with the job table. */
  lemma RecordsAgree(limits: Limits, events: seq<Event>, w: World)
    requires RunsTo(NOTHING, limits, events, w)
    ensures CoordInv(w, limits) && Agreed(w)
  {
    hide CoordInv, Agreed, RunsTo;
    NothingIsAccounted(limits);
    NothingAgrees();
    RunAgrees(NOTHING, limits, events, w);
  }

  lemma {:induction false} OverLasts(w: World, limits: Limits, events: seq<Event>, w': World, j: JobId)
    requires CoordInv(w, limits) && Agreed(w) && RunsTo(w, limits, events, w') && Over(w, j)
    ensures j in w'.c.jobs && w'.c.jobs[j] == Closed(w.c.jobs[j], CancelJobEvent(j) in events)
    decreases |events|
  {
    hide CoordInv, Agreed, Step, RequestsOk;
    if events != [] {
      StepKeeps(w, limits, events[0]);
      AgreedStep(w, limits, events[0]);
      OverStep(w, limits, events[0], j);
      OverLasts(Step(w, limits, events[0]), limits, events[1..], w', j);
      assert events == [events[0]] + events[1..];
    }
  }

  lemma ReportEnds(w: World, limits: Limits, task: Task, succeeded: bool)
    requires var e := JobEvent(task, succeeded); CoordInv(w, limits) && RequestsOk(w.c) && Enabled(w, e) && Agreed(w)
    ensures var w' := Step(w, limits, JobEvent(task, succeeded));
            && !task.CaptureTask? && Over(w', task.job)
            && w'.c.jobs[task.job] == task.rec.(phase := if succeeded then JobSucceeded else JobFailed)
  {
    hide CoordInv, RequestsOk, Step;
    var e := JobEvent(task, succeeded);
    ReportsAreTasks(w, e);
    TasksChanged(w, limits, e);
    TaskEnded(InFlight(w), w.c.jobs, task);
    ReportWrites(w, limits, e, task.job);
    SessionsChanged(w, limits, e);
    var w' := Step(w, limits, e);
    forall s | s in w'.captures && s in w'.c.sessions ensures w'.c.sessions[s].job != Some(task.job) {
      assert s in w.c.sessions ==> SessionHolds(w, s);
    }
  }

  /**
   * Whatever happens after it, a report is final: the job has the record that the task was started with and the
   * outcome that it reported, except that a failed job reads as cancelled exactly if a client cancels it later.
   */
  lemma ReportIsFinal(limits: Limits, before: seq<Event>, w: World, task: Task, succeeded: bool, after: seq<Event>,
                      w': World)
    requires RunsTo(NOTHING, limits, before, w) && RequestsOk(w.c) && Enabled(w, JobEvent(task, succeeded))
    requires RunsTo(Step(w, limits, JobEvent(task, succeeded)), limits, after, w')
    ensures !task.CaptureTask? && task.job in w'.c.jobs
    ensures w'.c.jobs[task.job] == task.rec.(phase := if succeeded then JobSucceeded
                                                      else if CancelJobEvent(task.job) in after then JobCancelled
                                                      else JobFailed)
  {
    hide CoordInv, Agreed, RequestsOk, Enabled, RunsTo, Step, Over;
    var e := JobEvent(task, succeeded);
    RecordsAgree(limits, before, w);
    StepKeeps(w, limits, e);
    AgreedStep(w, limits, e);
    ReportEnds(w, limits, task, succeeded);
    OverLasts(Step(w, limits, e), limits, after, w', task.job);
  }
}
