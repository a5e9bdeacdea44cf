/**
 * The coordinator as an object: tables and counters updated in place, together
 * with the tasks that have not reported yet. Every handler keeps the protocol's
 * invariant, and says what it did to the counters and to its session.
 */
module CoordinatorService {
  import opened TraceTypes
  import C = Coordinator
  import P = Protocol
  import J = JobTable
  import Q = Repeats

  class Coordinator {
    const limits: C.Limits
    var sessions: map<C.SessionId, C.Session>
    var byRequest: map<C.RequestId, C.SessionId>
    var jobs: map<C.JobId, C.Job>
    var cacheJobs: map<string, C.JobId>
    var activeCaptures: nat
    var runningDecode: nat
    var pendingExpensive: nat
    var reservedDecode: nat
    ghost var captures: map<C.SessionId, C.SnapshotId>
    ghost var decodes: multiset<C.Task>
    ghost var compares: multiset<C.Task>

    ghost function View(): C.Coord
      reads `sessions, `byRequest, `jobs, `cacheJobs, `activeCaptures, `runningDecode, `pendingExpensive,
            `reservedDecode
    {
      C.Coord(sessions, byRequest, jobs, cacheJobs, activeCaptures, runningDecode, pendingExpensive, reservedDecode)
    }

    /** The tables and the tasks in flight. */
    ghost function World(): C.World
      reads this
    {
      C.World(View(), captures, decodes, compares)
    }

    ghost predicate Valid()
      reads this
    {
      P.CoordInv(World(), limits) && J.CapturedHaveJobs(View()) && Q.CachedKnown(View())
    }

    constructor (limits: C.Limits)
      ensures this.limits == limits && World() == C.NOTHING && Valid()
    {
      this.limits := limits;
      sessions, byRequest, jobs, cacheJobs := map[], map[], map[], map[];
      activeCaptures, runningDecode, pendingExpensive, reservedDecode := 0, 0, 0, 0;
      captures, decodes, compares := map[], multiset{}, multiset{};
      new;
      P.NothingIsAccounted(limits);
    }

    method SetSession(sid: C.SessionId, s: C.Session)
      modifies `sessions
      ensures sessions == old(sessions)[sid := s]
    {
      sessions := sessions[sid := s];
    }

    method ReleaseCaptureSlot(sid: C.SessionId)
      modifies `sessions, `activeCaptures
      ensures View() == C.Release(old(View()), sid)
    {
      if sid in sessions && sessions[sid].slotHeld {
        SetSession(sid, sessions[sid].(slotHeld := false));
        activeCaptures := if activeCaptures == 0 then 0 else activeCaptures - 1;
      }
    }

    method CancelQueuedSessionJob(sid: C.SessionId)
      modifies `jobs
      ensures View() == C.CancelQueued(old(View()), sid)
    {
      if sid !in sessions || sessions[sid].job.None? { return; }
      var job := sessions[sid].job.value;
      if job in jobs && jobs[job].phase == C.Queued {
        jobs := jobs[job := jobs[job].(phase := C.JobCancelled)];
      }
    }

    method ApplyStart(req: C.StartRequest, sid: C.SessionId, snap: C.SnapshotId)
      returns (reply: C.Reply<(C.SessionId, C.Phase)>, task: Option<C.Task>)
      requires C.RequestsOk(View())
      modifies `sessions, `byRequest, `jobs, `cacheJobs, `activeCaptures, `runningDecode, `pendingExpensive,
               `reservedDecode
      ensures (View(), reply, task) == C.Start(old(View()), limits, req, sid, snap)
    {
      if !req.wellFormed { return C.Refused(C.InvalidArgument), None; }
      if req.id in byRequest {
        var s := sessions[byRequest[req.id]];
        if s.hash != "" && s.hash != req.hash { return C.Refused(C.InvalidArgument), None; }
        return C.Done((byRequest[req.id], s.phase)), None;
      }
      if activeCaptures >= limits.maxActiveCaptures { return C.Refused(C.SessionBusy), None; }
      if !req.budgetLeft { return C.Refused(C.StoreError), None; }
      if reservedDecode + pendingExpensive >= limits.maxPendingExpensive { return C.Refused(C.Busy), None; }
      if !req.targetReady { return C.Refused(C.InvalidArgument), None; }
      if !req.stored { return C.Refused(C.StoreError), None; }
      byRequest := byRequest[req.id := sid];
      SetSession(sid, C.Session(req.id, req.hash, C.Starting, Some(snap), None, C.GoOn, true));
      activeCaptures := activeCaptures + 1;
      reservedDecode := reservedDecode + 1;
      return C.Done((sid, C.Starting)), Some(C.CaptureTask(sid, snap));
    }

    method ApplyArmed(sid: C.SessionId)
      modifies `sessions, `byRequest, `jobs, `cacheJobs, `activeCaptures, `runningDecode, `pendingExpensive,
               `reservedDecode
      ensures View() == C.OnArmed(old(View()), sid)
    {
      if sid in sessions && sessions[sid].phase == C.Starting {
        SetSession(sid, sessions[sid].(phase := C.Armed));
      }
    }

    method ApplyFailed(sid: C.SessionId)
      modifies `sessions, `byRequest, `jobs, `cacheJobs, `activeCaptures, `runningDecode, `pendingExpensive,
               `reservedDecode
      ensures View() == C.OnFailed(old(View()), sid)
    {
      hide C.Release, C.CancelQueued;
      if sid in sessions && sessions[sid].phase != C.Cancelled {
        SetSession(sid, sessions[sid].(phase := C.Failed));
      }
      CancelQueuedSessionJob(sid);
      ReleaseCaptureSlot(sid);
      reservedDecode := if reservedDecode == 0 then 0 else reservedDecode - 1;
    }

    method ApplyPublished(sid: C.SessionId, snap: C.SnapshotId, newJob: C.JobId, newAnalysis: nat)
      returns (task: Option<C.Task>)
      modifies `sessions, `byRequest, `jobs, `cacheJobs, `activeCaptures, `runningDecode, `pendingExpensive,
               `reservedDecode
      ensures (View(), task) == C.OnPublished(old(View()), sid, snap, newJob, newAnalysis)
    {
      hide C.Release, C.CancelQueued;
      if sid in sessions && (sessions[sid].phase == C.Cancelled || sessions[sid].phase == C.Failed) {
        var s := sessions[sid];
        SetSession(sid, s.(snapshot := if s.snapshot.None? then Some(snap) else s.snapshot));
        CancelQueuedSessionJob(sid);
        ReleaseCaptureSlot(sid);
        reservedDecode := if reservedDecode == 0 then 0 else reservedDecode - 1;
        return None;
      }
      var decode := None;
      if sid in sessions {
        var s := sessions[sid].(phase := C.Captured, snapshot := Some(snap));
        if s.job.None? { s := s.(job := Some(newJob)); }
        SetSession(sid, s);
        decode := s.job;
      }
      ReleaseCaptureSlot(sid);
      if decode.Some? {
        task := StartInitialDecode(decode.value, snap, newAnalysis);
        return;
      }
      return None;
    }

    /** The decode slot reserved at start turns into a running decode. */
    method StartInitialDecode(job: C.JobId, snap: C.SnapshotId, newAnalysis: nat) returns (task: Option<C.Task>)
      modifies `jobs, `runningDecode, `reservedDecode
      ensures var rec := C.Job(C.InitialDecode, C.Queued, Some(snap), Some(newAnalysis), None);
              && jobs == old(jobs)[job := rec.(phase := C.Running)] && task == Some(C.DecodeTask(job, rec))
              && runningDecode == old(runningDecode) + 1 && reservedDecode == SatSub(old(reservedDecode), 1)
    {
      var rec := C.Job(C.InitialDecode, C.Queued, Some(snap), None, None);
      jobs := jobs[job := rec];
      rec := rec.(analysis := Some(newAnalysis));
      jobs := jobs[job := rec.(phase := C.Running)];
      runningDecode := runningDecode + 1;
      reservedDecode := if reservedDecode == 0 then 0 else reservedDecode - 1;
      return Some(C.DecodeTask(job, rec));
    }

    method ApplyJobFinished(job: C.JobId, rec: C.Job, decodeSlot: bool, expensiveSlot: bool)
      modifies `sessions, `byRequest, `jobs, `cacheJobs, `activeCaptures, `runningDecode, `pendingExpensive,
               `reservedDecode
      ensures View() == C.OnJobFinished(old(View()), job, rec, decodeSlot, expensiveSlot)
    {
      if decodeSlot { runningDecode := if runningDecode == 0 then 0 else runningDecode - 1; }
      if expensiveSlot { pendingExpensive := if pendingExpensive == 0 then 0 else pendingExpensive - 1; }
      jobs := jobs[job := rec];
    }

    method ApplySnapshot(sid: C.SessionId, stored: bool, newSnap: C.SnapshotId, newJob: C.JobId)
      returns (reply: C.Reply<C.Taken>)
      modifies `sessions, `byRequest, `jobs, `cacheJobs, `activeCaptures, `runningDecode, `pendingExpensive,
               `reservedDecode
      ensures (View(), reply) == C.Snapshot(old(View()), sid, stored, newSnap, newJob)
    {
      if sid !in sessions { return C.Refused(C.NotFound); }
      var s := sessions[sid];
      match s.phase {
        case Starting => return C.Refused(C.NotReady);
        case Failed => return C.Refused(C.SessionFailed);
        case Cancelled => return C.Refused(C.SessionCancelled);
        case Armed =>
          var snap := if s.snapshot.Some? then s.snapshot.value else newSnap;
          var job := if s.job.Some? then s.job.value else newJob;
          SetSession(sid, s.(snapshot := Some(snap), job := Some(job), phase := C.Finalizing));
          if !stored { return C.Refused(C.StoreError); }
          SetSession(sid, sessions[sid].(told := C.Finish));
          assert sessions == old(sessions)[sid := sessions[sid]];
          jobs := jobs[job := C.Job(C.InitialDecode, C.Queued, Some(snap), None, None)];
          return C.Done(C.Taken(snap, job, C.Finalizing));
        case _ =>
          if s.snapshot.None? || s.job.None? { return C.Refused(C.NotFound); }
          return C.Done(C.Taken(s.snapshot.value, s.job.value, s.phase));
      }
    }

    method ApplyCancelSession(sid: C.SessionId) returns (reply: C.Reply<C.Phase>)
      modifies `sessions, `byRequest, `jobs, `cacheJobs, `activeCaptures, `runningDecode, `pendingExpensive,
               `reservedDecode
      ensures (View(), reply) == C.CancelSession(old(View()), sid)
    {
      if sid !in sessions { return C.Refused(C.NotFound); }
      var s := sessions[sid];
      if s.phase == C.Captured || s.phase == C.Cancelled || s.phase == C.Failed { return C.Done(s.phase); }
      SetSession(sid, s.(phase := C.Cancelled, told := C.Abort));
      ReleaseCaptureSlot(sid);
      return C.Done(C.Cancelled);
    }

    method ApplyCancelJob(job: C.JobId)
      modifies `sessions, `byRequest, `jobs, `cacheJobs, `activeCaptures, `runningDecode, `pendingExpensive,
               `reservedDecode
      ensures View() == C.CancelJob(old(View()), job)
    {
      if job in jobs && jobs[job].phase != C.JobSucceeded {
        jobs := jobs[job := jobs[job].(phase := C.JobCancelled)];
      }
    }

    method ApplyDecode(req: C.DecodeRequest, newJob: C.JobId, newAnalysis: nat)
      returns (reply: C.Reply<Option<C.JobId>>, task: Option<C.Task>)
      modifies `sessions, `byRequest, `jobs, `cacheJobs, `activeCaptures, `runningDecode, `pendingExpensive,
               `reservedDecode
      ensures (View(), reply, task) == C.Decode(old(View()), limits, req, newJob, newAnalysis)
    {
      if !req.loadable { return C.Refused(C.InvalidArgument), None; }
      if req.onDisk { return C.Done(None), None; }
      if req.key in cacheJobs && cacheJobs[req.key] in jobs { return C.Done(Some(cacheJobs[req.key])), None; }
      if runningDecode >= limits.maxDecodeJobs { return C.Refused(C.Busy), None; }
      var rec := C.Job(req.kind, C.Queued, Some(req.snapshot), Some(newAnalysis), None);
      jobs := jobs[newJob := rec];
      cacheJobs := cacheJobs[req.key := newJob];
      runningDecode := runningDecode + 1;
      return C.Done(Some(newJob)), Some(C.DecodeTask(newJob, rec));
    }

    method ApplyCompare(key: string, newJob: C.JobId, newReport: nat)
      returns (reply: C.Reply<C.JobId>, task: Option<C.Task>)
      modifies `sessions, `byRequest, `jobs, `cacheJobs, `activeCaptures, `runningDecode, `pendingExpensive,
               `reservedDecode
      ensures (View(), reply, task) == C.Compare(old(View()), limits, key, newJob, newReport)
    {
      if key in cacheJobs { return C.Done(cacheJobs[key]), None; }
      if pendingExpensive >= limits.maxPendingExpensive { return C.Refused(C.Busy), None; }
      var rec := C.Job(C.CompareJob, C.Queued, None, None, Some(newReport));
      jobs := jobs[newJob := rec];
      cacheJobs := cacheJobs[key := newJob];
      pendingExpensive := pendingExpensive + 1;
      return C.Done(newJob), Some(C.CompareTask(newJob, rec));
    }

    // ----- the handlers -----

    /** What every handler does: the protocol takes one step, which keeps the invariant and lets sessions only age. */
    twostate predicate Moved(e: C.Event)
      reads this
    {
      && Valid() && P.Later(old(World()), World())
      && C.RequestsOk(old(View())) && C.Enabled(old(World()), e) && World() == C.Step(old(World()), limits, e)
    }

    /**
     * A start is refused and changes nothing, is answered with the session it created before, or takes a slot
     * and a reservation.
     */
    method HandleStart(req: C.StartRequest, sid: C.SessionId, snap: C.SnapshotId)
      returns (reply: C.Reply<(C.SessionId, C.Phase)>)
      requires Valid() && sid !in sessions
      modifies this
      ensures Moved(C.StartEvent(req, sid, snap)) && reply == C.Start(old(View()), limits, req, sid, snap).1
      ensures reply.Refused? || req.id in old(byRequest) ==> World() == old(World())
      ensures reply.Done? ==>
                && req.id in byRequest && byRequest[req.id] == reply.value.0 && reply.value.0 in sessions
                && sessions[reply.value.0].phase == reply.value.1
      ensures reply.Done? && req.id !in old(byRequest) ==>
                && reply.value == (sid, C.Starting) && sessions[sid].slotHeld && captures == old(captures)[sid := snap]
                && activeCaptures == old(activeCaptures) + 1 <= limits.maxActiveCaptures
                && reservedDecode == old(reservedDecode) + 1
                && reservedDecode + pendingExpensive <= limits.maxPendingExpensive
    {
      hide P.CoordInv, C.RequestsOk, P.Later, J.CapturedHaveJobs, Q.CachedKnown, C.Start;
      P.InvRequests(World(), limits);
      ghost var w := World();
      var task;
      reply, task := ApplyStart(req, sid, snap);
      if task.Some? { captures := captures[sid := snap]; }
      StartReplies(w, limits, req, sid, snap);
      assert World() == C.Step(w, limits, C.StartEvent(req, sid, snap));
      P.StepKeeps(w, limits, C.StartEvent(req, sid, snap));
      P.StepIsLater(w, limits, C.StartEvent(req, sid, snap));
      J.CapturedKeepsJobs(w, limits, C.StartEvent(req, sid, snap));
      Q.CacheStep(w, limits, C.StartEvent(req, sid, snap));
    }

    method HandleArmed(sid: C.SessionId)
      requires Valid()
      modifies this
      ensures Moved(C.ArmedEvent(sid))
      ensures sid in old(sessions) && old(sessions[sid].phase) == C.Starting ==>
                sid in sessions && sessions[sid].phase == C.Armed
    {
      hide P.CoordInv, C.RequestsOk, P.Later, J.CapturedHaveJobs, Q.CachedKnown;
      P.InvRequests(World(), limits);
      ghost var w := World();
      ApplyArmed(sid);
      assert World() == C.Step(w, limits, C.ArmedEvent(sid));
      P.StepKeeps(w, limits, C.ArmedEvent(sid));
      P.StepIsLater(w, limits, C.ArmedEvent(sid));
      J.CapturedKeepsJobs(w, limits, C.ArmedEvent(sid));
      Q.CacheStep(w, limits, C.ArmedEvent(sid));
    }

    /** A failed capture gives back its reservation, its slot if it still had one, and leaves no job waiting. */
    method HandleFailed(sid: C.SessionId)
      requires Valid() && sid in captures
      modifies this
      ensures Moved(C.FailedEvent(sid)) && captures == old(captures) - {sid}
      ensures sid in sessions && !sessions[sid].slotHeld
      ensures reservedDecode == old(reservedDecode) - 1 && runningDecode == old(runningDecode)
      ensures old(sid in sessions)
      ensures activeCaptures == old(activeCaptures) - if old(sessions[sid].slotHeld) then 1 else 0
      ensures sessions[sid].phase == if old(sessions[sid].phase) == C.Cancelled then C.Cancelled else C.Failed
      ensures sessions[sid].job.Some? ==> P.Settled(jobs, sessions[sid].job.value)
    {
      hide P.CoordInv, C.RequestsOk, P.Later, J.CapturedHaveJobs, Q.CachedKnown, C.OnFailed, J.Dequeued;
      P.InvRequests(World(), limits);
      ghost var w, e := World(), C.FailedEvent(sid);
      FailedEffect(w, limits, sid);
      ApplyFailed(sid);
      captures := captures - {sid};
      assert World() == C.Step(w, limits, e);
      P.StepKeeps(w, limits, e);
      P.StepIsLater(w, limits, e);
      J.CapturedKeepsJobs(w, limits, e);
      Q.CacheStep(w, limits, e);
    }

    /** A published snapshot turns the reservation into a running decode, unless the session was cancelled. */
    method HandlePublished(sid: C.SessionId, snap: C.SnapshotId, newJob: C.JobId, newAnalysis: nat)
        returns (task: Option<C.Task>)
      requires Valid() && sid in captures && captures[sid] == snap && C.FreshJob(View(), newJob)
      modifies this
      ensures Moved(C.PublishedEvent(sid, newJob, newAnalysis)) && captures == old(captures) - {sid}
      ensures sid in sessions && !sessions[sid].slotHeld && old(sid in sessions)
      ensures reservedDecode == old(reservedDecode) - 1
      ensures activeCaptures == old(activeCaptures) - if old(sessions[sid].slotHeld) then 1 else 0
      ensures task.Some? <==> old(sessions[sid].phase) != C.Cancelled
      ensures runningDecode == old(runningDecode) + if task.Some? then 1 else 0
      ensures task.Some? ==>
                && sessions[sid].phase == C.Captured && sessions[sid].job.Some? && sessions[sid].job.value in jobs
                && jobs[sessions[sid].job.value].phase == C.Running && decodes == old(decodes) + multiset{task.value}
      ensures task.None? ==>
                && sessions[sid].phase == C.Cancelled
                && (sessions[sid].job.Some? ==> P.Settled(jobs, sessions[sid].job.value))
    {
      hide P.CoordInv, C.RequestsOk, P.Later, J.CapturedHaveJobs, Q.CachedKnown, C.OnPublished, J.Dequeued, C.FreshJob;
      P.InvRequests(World(), limits);
      ghost var w, e := World(), C.PublishedEvent(sid, newJob, newAnalysis);
      PublishedEffect(w, limits, sid, newJob, newAnalysis);
      task := ApplyPublished(sid, snap, newJob, newAnalysis);
      captures := captures - {sid};
      if task.Some? { decodes := decodes + multiset{task.value}; }
      assert World() == C.Step(w, limits, e);
      P.StepKeeps(w, limits, e);
      P.StepIsLater(w, limits, e);
      J.CapturedKeepsJobs(w, limits, e);
      Q.CacheStep(w, limits, e);
    }

    /** A finished job gives back the slot of its kind, and its record is what the task reports. */
    method HandleJobFinished(task: C.Task, succeeded: bool)
      requires Valid()
      requires if task.DecodeTask? then task in decodes
               else task.CompareTask? && task in compares && task !in decodes
      modifies this
      ensures Moved(C.JobEvent(task, succeeded)) && sessions == old(sessions)
      ensures task.job in jobs && jobs[task.job].phase == if succeeded then C.JobSucceeded else C.JobFailed
      ensures runningDecode == old(runningDecode) - (if task.DecodeTask? then 1 else 0)
      ensures pendingExpensive == old(pendingExpensive) - (if task.DecodeTask? then 0 else 1)
    {
      hide P.CoordInv, C.RequestsOk, P.Later, J.CapturedHaveJobs, Q.CachedKnown;
      P.InvRequests(World(), limits);
      ghost var w, e := World(), C.JobEvent(task, succeeded);
      JobSlots(w, limits, task);
      var rec := task.rec.(phase := if succeeded then C.JobSucceeded else C.JobFailed);
      ApplyJobFinished(task.job, rec, task.DecodeTask?, task.CompareTask?);
      if task.DecodeTask? { decodes := decodes - multiset{task}; } else { compares := compares - multiset{task}; }
      assert World() == C.Step(w, limits, e);
      P.StepKeeps(w, limits, e);
      P.StepIsLater(w, limits, e);
      J.CapturedKeepsJobs(w, limits, e);
      Q.CacheStep(w, limits, e);
    }

    /** A successful snapshot or stop reply names the session's own snapshot and job; no counter moves. */
    method HandleSnapshot(sid: C.SessionId, stored: bool, newSnap: C.SnapshotId, newJob: C.JobId)
        returns (reply: C.Reply<C.Taken>)
      requires Valid() && C.FreshJob(View(), newJob)
      modifies this
      ensures Moved(C.SnapshotEvent(sid, stored, newSnap, newJob))
      ensures reply == C.Snapshot(old(View()), sid, stored, newSnap, newJob).1
      ensures activeCaptures == old(activeCaptures) && reservedDecode == old(reservedDecode)
              && runningDecode == old(runningDecode)
      ensures reply.Done? ==>
                && sid in sessions && sessions[sid].snapshot == Some(reply.value.snapshot)
                && sessions[sid].job == Some(reply.value.job)
                && sessions[sid].phase == reply.value.phase
                && (reply.value.phase == C.Finalizing || reply.value.phase == C.Captured)
      ensures sid in old(sessions) && old(sessions[sid].phase) == C.Armed ==> sessions[sid].phase == C.Finalizing
      ensures reply.Done? ==> (reply.value.job in jobs <==> !J.Missing(old(View()), sid))
    {
      hide P.CoordInv, C.RequestsOk, P.Later, J.CapturedHaveJobs, Q.CachedKnown, C.FreshJob;
      P.InvRequests(World(), limits);
      ghost var w, e := World(), C.SnapshotEvent(sid, stored, newSnap, newJob);
      SnapshotReplies(w, limits, sid, stored, newSnap, newJob);
      J.ReplyNamesJob(w, limits, sid, stored, newSnap, newJob);
      reply := ApplySnapshot(sid, stored, newSnap, newJob);
      assert World() == C.Step(w, limits, e);
      P.StepKeeps(w, limits, e);
      P.StepIsLater(w, limits, e);
      J.CapturedKeepsJobs(w, limits, e);
      Q.CacheStep(w, limits, e);
    }

    /** Cancelling gives the slot back at once; the reservation stays until the task reports. */
    method HandleCancelSession(sid: C.SessionId) returns (reply: C.Reply<C.Phase>)
      requires Valid()
      modifies this
      ensures Moved(C.CancelSessionEvent(sid)) && reply == C.CancelSession(old(View()), sid).1
      ensures reservedDecode == old(reservedDecode) && captures == old(captures)
      ensures reply.Done? <==> sid in old(sessions)
      ensures reply.Done? ==>
                && sid in sessions && sessions[sid].phase == reply.value && P.Final(reply.value)
                && !sessions[sid].slotHeld
      ensures reply.Done? ==>
                activeCaptures == old(activeCaptures) - if P.Ongoing(old(sessions[sid].phase)) then 1 else 0
    {
      hide P.CoordInv, C.RequestsOk, P.Later, J.CapturedHaveJobs, Q.CachedKnown;
      P.InvRequests(World(), limits);
      ghost var w, e := World(), C.CancelSessionEvent(sid);
      CancelReplies(w, limits, sid);
      reply := ApplyCancelSession(sid);
      assert World() == C.Step(w, limits, e);
      P.StepKeeps(w, limits, e);
      P.StepIsLater(w, limits, e);
      J.CapturedKeepsJobs(w, limits, e);
      Q.CacheStep(w, limits, e);
    }

    method HandleCancelJob(job: C.JobId)
      requires Valid()
      modifies this
      ensures Moved(C.CancelJobEvent(job)) && sessions == old(sessions)
      ensures runningDecode == old(runningDecode) && pendingExpensive == old(pendingExpensive)
      ensures job in old(jobs) ==>
                job in jobs && (jobs[job].phase == C.JobCancelled || jobs[job].phase == C.JobSucceeded)
    {
      hide P.CoordInv, C.RequestsOk, P.Later, J.CapturedHaveJobs, Q.CachedKnown;
      P.InvRequests(World(), limits);
      ghost var w, e := World(), C.CancelJobEvent(job);
      ApplyCancelJob(job);
      assert World() == C.Step(w, limits, e);
      P.StepKeeps(w, limits, e);
      P.StepIsLater(w, limits, e);
      J.CapturedKeepsJobs(w, limits, e);
      Q.CacheStep(w, limits, e);
    }

    /** A decode request starts a task exactly when it takes a slot, and then names the new job. */
    method HandleDecode(req: C.DecodeRequest, newJob: C.JobId, newAnalysis: nat)
        returns (reply: C.Reply<Option<C.JobId>>, task: Option<C.Task>)
      requires Valid() && C.FreshJob(View(), newJob)
      modifies this
      ensures Moved(C.DecodeEvent(req, newJob, newAnalysis)) && sessions == old(sessions)
      ensures (reply, task) == (C.Decode(old(View()), limits, req, newJob, newAnalysis).1,
                                C.Decode(old(View()), limits, req, newJob, newAnalysis).2)
      ensures task.Some? <==> runningDecode == old(runningDecode) + 1
      ensures task.None? ==> World() == old(World())
      ensures req.loadable && !req.onDisk && req.key in old(cacheJobs) ==>
                reply == C.Done(Some(old(cacheJobs[req.key]))) && task.None?
      ensures reply.Done? && reply.value.Some? ==> req.key in cacheJobs && cacheJobs[req.key] == reply.value.value
      ensures task.Some? ==> reply == C.Done(Some(newJob)) && newJob in jobs && runningDecode <= limits.maxDecodeJobs
      ensures reply.Done? && reply.value.Some? ==> reply.value.value in jobs
    {
      hide P.CoordInv, C.RequestsOk, P.Later, J.CapturedHaveJobs, Q.CachedKnown, C.FreshJob;
      P.InvRequests(World(), limits);
      ghost var w, e := World(), C.DecodeEvent(req, newJob, newAnalysis);
      Q.DecodeReplies(View(), limits, req, newJob, newAnalysis);
      reply, task := ApplyDecode(req, newJob, newAnalysis);
      if task.Some? { decodes := decodes + multiset{task.value}; }
      assert World() == C.Step(w, limits, e);
      P.StepKeeps(w, limits, e);
      P.StepIsLater(w, limits, e);
      J.CapturedKeepsJobs(w, limits, e);
      Q.CacheStep(w, limits, e);
    }

    method HandleCompare(key: string, newJob: C.JobId, newReport: nat)
        returns (reply: C.Reply<C.JobId>, task: Option<C.Task>)
      requires Valid() && C.FreshJob(View(), newJob)
      modifies this
      ensures Moved(C.CompareEvent(key, newJob, newReport)) && sessions == old(sessions)
      ensures (reply, task) == (C.Compare(old(View()), limits, key, newJob, newReport).1,
                                C.Compare(old(View()), limits, key, newJob, newReport).2)
      ensures task.Some? <==> pendingExpensive == old(pendingExpensive) + 1
      ensures task.None? ==> World() == old(World())
      ensures key in old(cacheJobs) ==> reply == C.Done(old(cacheJobs[key])) && task.None?
      ensures reply.Done? ==> reply.value in jobs && key in cacheJobs && cacheJobs[key] == reply.value
      ensures task.Some? ==> reply == C.Done(newJob) && newJob in jobs && pendingExpensive <= limits.maxPendingExpensive
    {
      hide P.CoordInv, C.RequestsOk, P.Later, J.CapturedHaveJobs, Q.CachedKnown, C.FreshJob;
      P.InvRequests(World(), limits);
      ghost var w, e := World(), C.CompareEvent(key, newJob, newReport);
      Q.CompareReplies(View(), limits, key, newJob, newReport);
      reply, task := ApplyCompare(key, newJob, newReport);
      if task.Some? { compares := compares + multiset{task.value}; }
      assert World() == C.Step(w, limits, e);
      P.StepKeeps(w, limits, e);
      P.StepIsLater(w, limits, e);
      J.CapturedKeepsJobs(w, limits, e);
      Q.CacheStep(w, limits, e);
    }
  }

  // ----- what the replies and counters mean -----

  lemma StartReplies(w: C.World, limits: C.Limits, req: C.StartRequest, sid: C.SessionId, snap: C.SnapshotId)
    requires P.CoordInv(w, limits) && C.RequestsOk(w.c) && sid !in w.c.sessions
    ensures var (c, reply, task) := C.Start(w.c, limits, req, sid, snap);
            && (reply.Refused? || req.id in w.c.byRequest ==> c == w.c && task.None?)
            && (reply.Done? ==>
                  req.id in c.byRequest && c.byRequest[req.id] == reply.value.0 && reply.value.0 in c.sessions
                    && c.sessions[reply.value.0].phase == reply.value.1)
            && (reply.Done? && req.id !in w.c.byRequest ==>
                  && task == Some(C.CaptureTask(sid, snap)) && reply.value == (sid, C.Starting)
                  && c.sessions[sid].slotHeld
                  && c.activeCaptures == w.c.activeCaptures + 1 <= limits.maxActiveCaptures
                  && c.reservedDecode == w.c.reservedDecode + 1
                  && c.reservedDecode + c.pendingExpensive <= limits.maxPendingExpensive)
  {
    hide P.CoordInv;
  }

  /** The slot and the reservation that a report gives back were counted. */
  lemma ReportCounted(w: C.World, limits: C.Limits, sid: C.SessionId)
    requires P.CoordInv(w, limits) && sid in w.captures
    ensures sid in w.c.sessions && w.c.reservedDecode > 0 && (w.c.sessions[sid].slotHeld ==> w.c.activeCaptures > 0)
  {
    hide C.RequestsOk, P.JobsOk, P.Holding;
    P.ReportedTask(w.captures, sid);
    if w.c.sessions[sid].slotHeld { SlotIsCounted(w, limits, sid); }
  }

  lemma FailedCounters(c: C.Coord, sid: C.SessionId)
    requires sid in c.sessions
    ensures var c' := C.OnFailed(c, sid);
            && c'.reservedDecode == SatSub(c.reservedDecode, 1) && c'.runningDecode == c.runningDecode
            && c'.activeCaptures == if c.sessions[sid].slotHeld then SatSub(c.activeCaptures, 1) else c.activeCaptures
  {}

  lemma FailedEffect(w: C.World, limits: C.Limits, sid: C.SessionId)
    requires P.CoordInv(w, limits) && sid in w.captures
    ensures sid in w.c.sessions
    ensures var c, s := C.OnFailed(w.c, sid), w.c.sessions[sid];
            && c.reservedDecode == w.c.reservedDecode - 1 && c.runningDecode == w.c.runningDecode
            && c.activeCaptures == w.c.activeCaptures - (if s.slotHeld then 1 else 0)
            && sid in c.sessions && c.sessions[sid].phase == (if s.phase == C.Cancelled then C.Cancelled else C.Failed)
            && !c.sessions[sid].slotHeld && c.sessions[sid].job == s.job
            && (s.job.Some? ==> P.Settled(c.jobs, s.job.value))
  {
    hide P.CoordInv, C.OnFailed;
    ReportCounted(w, limits, sid);
    FailedCounters(w.c, sid);
    J.FailedTables(w.c, sid);
  }

  lemma PublishedCounters(c: C.Coord, sid: C.SessionId, snap: C.SnapshotId, newJob: C.JobId, newAnalysis: nat)
    requires sid in c.sessions
    ensures var (c', task) := C.OnPublished(c, sid, snap, newJob, newAnalysis);
            && (task.Some? <==> !J.Dead(c.sessions[sid])) && (task.Some? ==> task.value.DecodeTask?)
            && c'.reservedDecode == SatSub(c.reservedDecode, 1)
            && c'.runningDecode == c.runningDecode + (if task.Some? then 1 else 0)
            && c'.activeCaptures == if c.sessions[sid].slotHeld then SatSub(c.activeCaptures, 1) else c.activeCaptures
  {}

  lemma PublishedEffect(w: C.World, limits: C.Limits, sid: C.SessionId, newJob: C.JobId, newAnalysis: nat)
    requires P.CoordInv(w, limits) && sid in w.captures
    ensures sid in w.c.sessions
    ensures var (c, task) := C.OnPublished(w.c, sid, w.captures[sid], newJob, newAnalysis);
            var s := w.c.sessions[sid];
            && (task.Some? <==> s.phase != C.Cancelled) && (task.Some? ==> task.value.DecodeTask?)
            && c.reservedDecode == w.c.reservedDecode - 1
            && c.runningDecode == w.c.runningDecode + (if task.Some? then 1 else 0)
            && c.activeCaptures == w.c.activeCaptures - (if s.slotHeld then 1 else 0)
            && sid in c.sessions && !c.sessions[sid].slotHeld
            && (task.Some? ==>
                  c.sessions[sid].phase == C.Captured && c.sessions[sid].job.Some?
                    && c.sessions[sid].job.value in c.jobs
                               && c.jobs[c.sessions[sid].job.value].phase == C.Running)
            && (task.None? ==>
                  c.sessions[sid].phase == C.Cancelled
                    && (c.sessions[sid].job.Some? ==> P.Settled(c.jobs, c.sessions[sid].job.value)))
  {
    hide P.CoordInv, C.OnPublished;
    ReportCounted(w, limits, sid);
    NotFailedYet(w, limits, sid);
    PublishedCounters(w.c, sid, w.captures[sid], newJob, newAnalysis);
    J.PublishedTables(w.c, sid, w.captures[sid], newJob, newAnalysis);
  }

  /** While the capture task runs, its session has not failed. */
  lemma NotFailedYet(w: C.World, limits: C.Limits, sid: C.SessionId)
    requires P.CoordInv(w, limits) && sid in w.captures
    ensures sid in w.c.sessions && w.c.sessions[sid].phase != C.Failed
  {
    hide C.RequestsOk, P.JobsOk, P.Accounted;
  }

  /** The slot that a finished task gives back was counted. */
  lemma JobSlots(w: C.World, limits: C.Limits, task: C.Task)
    requires P.CoordInv(w, limits)
    ensures task in w.decodes ==> w.c.runningDecode > 0
    ensures task in w.compares ==> w.c.pendingExpensive > 0
  {
    hide C.RequestsOk, P.SessionsOk, P.JobsOk;
    if task in w.decodes { P.TakeTask(w.decodes, task); }
    if task in w.compares { P.TakeTask(w.compares, task); }
  }

  lemma SnapshotReplies(w: C.World, limits: C.Limits, sid: C.SessionId, stored: bool, newSnap: C.SnapshotId,
                        newJob: C.JobId)
    requires P.CoordInv(w, limits)
    ensures var (c, reply) := C.Snapshot(w.c, sid, stored, newSnap, newJob);
            && c == w.c.(sessions := c.sessions, jobs := c.jobs)
            && (reply.Done? ==>
                  && sid in c.sessions && c.sessions[sid].snapshot == Some(reply.value.snapshot)
                  && c.sessions[sid].job == Some(reply.value.job)
                  && c.sessions[sid].phase == reply.value.phase
                  && (reply.value.phase == C.Finalizing || reply.value.phase == C.Captured))
            && (sid in w.c.sessions && w.c.sessions[sid].phase == C.Armed ==>
                  sid in c.sessions && c.sessions[sid].phase == C.Finalizing)
  {
    hide P.CoordInv;
  }

  lemma CancelReplies(w: C.World, limits: C.Limits, sid: C.SessionId)
    requires P.CoordInv(w, limits)
    ensures var (c, reply) := C.CancelSession(w.c, sid);
            && c == w.c.(sessions := c.sessions, activeCaptures := c.activeCaptures)
            && (reply.Done? <==> sid in w.c.sessions)
            && (reply.Done? ==>
                  && sid in c.sessions && c.sessions[sid].phase == reply.value && P.Final(reply.value)
                  && !c.sessions[sid].slotHeld
                  && c.activeCaptures == w.c.activeCaptures - if P.Ongoing(w.c.sessions[sid].phase) then 1 else 0)
  {
    hide P.CoordInv;
    if sid in w.c.sessions {
      J.HeldWhileOngoing(w, limits, sid);
      if w.c.sessions[sid].slotHeld { SlotIsCounted(w, limits, sid); }
    }
  }

  lemma SlotIsCounted(w: C.World, limits: C.Limits, sid: C.SessionId)
    requires P.CoordInv(w, limits) && sid in w.c.sessions && w.c.sessions[sid].slotHeld
    ensures w.c.activeCaptures > 0
  {
    hide C.RequestsOk, P.SessionsOk, P.JobsOk;
    P.ReleaseCounts(w.c, sid);
  }
}
