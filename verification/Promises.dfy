/**
 * Two promises of a session, followed over whole runs: that the job named by a
 * snapshot reply can be looked up, and that the recorder is told to stop. Both
 * are broken by the same event, a snapshot request that could not be stored.
 */
module Promises {
  import opened TraceTypes
  import opened Coordinator
  import opened Protocol
  import opened JobTable

  // ----- what every run keeps -----

  ghost predicate InFlight(w: World, t: Task) {
    t in w.decodes || t in w.compares
  }

  predicate KnownTask(jobs: map<JobId, Job>, t: Task) {
    !t.CaptureTask? ==> t.job in jobs
  }

  /** The job of every running decode or comparison is in the table. */
  ghost predicate TasksKnown(w: World) {
    forall t :: InFlight(w, t) ==> KnownTask(w.c.jobs, t)
  }

  predicate Waiting(p: Phase) { p == Starting || p == Armed }

  /**
   * Only a cancelled session was told to abort; a finalizing one was told to finish exactly if its job is in
   * the table.
   */
  predicate SessionTold(s: Session, jobs: map<JobId, Job>) {
    && (Waiting(s.phase) ==> s.job.None? && s.told == GoOn)
    && (s.told == Abort <==> s.phase == Cancelled)
    && (s.phase == Finalizing && s.job.Some? ==> (s.told == Finish <==> s.job.value in jobs))
  }

  ghost predicate AllTold(c: Coord) {
    forall s :: s in c.sessions ==> SessionTold(c.sessions[s], c.jobs)
  }

  ghost predicate Kept(w: World, limits: Limits) {
    CoordInv(w, limits) && TasksKnown(w) && AllTold(w.c)
  }

  lemma NothingKept(limits: Limits)
    ensures Kept(NOTHING, limits)
  {
    NothingIsAccounted(limits);
  }

  /** A task that an event starts has its job in the table. */
  lemma NewTaskKnown(w: World, limits: Limits, e: Event, t: Task)
    requires CoordInv(w, limits) && Enabled(w, e) && RequestsOk(w.c)
    requires InFlight(Step(w, limits, e), t) && !InFlight(w, t)
    ensures KnownTask(Step(w, limits, e).c.jobs, t)
  {
    hide CoordInv, RequestsOk, FreshJob, Release, CancelQueued, OnJobFinished, OnFailed, CancelSession, CancelJob,
         Snapshot, OnArmed;
    if e.PublishedEvent? {
      InvCapture(w, limits, e.sid);
      assert t == OnPublished(w.c, e.sid, w.captures[e.sid], e.newJob, e.newAnalysis).1.value;
      PublishedTables(w.c, e.sid, w.captures[e.sid], e.newJob, e.newAnalysis);
    }
  }

  lemma TasksStep(w: World, limits: Limits, e: Event)
    requires CoordInv(w, limits) && Enabled(w, e) && RequestsOk(w.c) && TasksKnown(w)
    ensures TasksKnown(Step(w, limits, e))
  {
    hide CoordInv, Step, InFlight, Writes;
    var w' := Step(w, limits, e);
    forall t | InFlight(w', t) ensures KnownTask(w'.c.jobs, t) {
      if !InFlight(w, t) {
        NewTaskKnown(w, limits, e, t);
      } else if !t.CaptureTask? {
        JobsChanged(w, limits, e, t.job);
      }
    }
  }

  /** No event but its own snapshot or publication puts a session's promised job into the table. */
  lemma NotIntroduced(w: World, limits: Limits, e: Event, s: SessionId)
    requires Kept(w, limits) && Enabled(w, e) && RequestsOk(w.c)
    requires s in w.c.sessions && w.c.sessions[s].phase == Finalizing && w.c.sessions[s].job.Some?
    requires w.c.sessions[s].job.value !in w.c.jobs && !(e.PublishedEvent? && e.sid == s)
    ensures w.c.sessions[s].job.value !in Step(w, limits, e).c.jobs
  {
    hide CoordInv, Step, SessionsChange, RequestsOk;
    var j := w.c.sessions[s].job.value;
    match e
    case StartEvent(_, _, _) => StartChanges(w, limits, e);
    case ArmedEvent(_) => ArmedChanges(w, limits, e);
    case FailedEvent(_) => FailedChanges(w, limits, e);
    case PublishedEvent(_, _, _) =>
      PublishedChanges(w, limits, e);
      OthersJob(w, limits, s, e.sid);
    case SnapshotEvent(_, _, _, _) => SnapshotChanges(w, limits, e);
    case CancelSessionEvent(_) => CancelChanges(w, limits, e);
    case JobEvent(task, _) =>
      assert InFlight(w, task);
      JobChanges(w, limits, e);
    case CancelJobEvent(_) => CancelJobChanges(w, limits, e);
    case DecodeEvent(_, _, _) => DecodeChanges(w, limits, e);
    case CompareEvent(_, _, _) => CompareChanges(w, limits, e);
  }

  lemma OthersJob(w: World, limits: Limits, s: SessionId, u: SessionId)
    requires CoordInv(w, limits) && s in w.c.sessions && u in w.c.sessions && s != u && w.c.sessions[s].job.Some?
    ensures w.c.sessions[u].job != w.c.sessions[s].job
  {
    hide RequestsOk, SessionsOk, Accounted;
  }

  /** The job of a session that stays finalizing is in the table after an event exactly if it was before. */
  lemma FinalizingStays(w: World, limits: Limits, e: Event, s: SessionId)
    requires Kept(w, limits) && Enabled(w, e) && RequestsOk(w.c)
    requires s in w.c.sessions && w.c.sessions[s].phase == Finalizing && w.c.sessions[s].job.Some?
    requires !(e.PublishedEvent? && e.sid == s)
    ensures w.c.sessions[s].job.value in Step(w, limits, e).c.jobs <==> w.c.sessions[s].job.value in w.c.jobs
  {
    hide Kept, Step, RequestsOk, Writes;
    if w.c.sessions[s].job.value in w.c.jobs {
      KeptInv(w, limits);
      JobsChanged(w, limits, e, w.c.sessions[s].job.value);
    } else {
      NotIntroduced(w, limits, e, s);
    }
  }

  lemma KeptInv(w: World, limits: Limits)
    requires Kept(w, limits)
    ensures CoordInv(w, limits) && RequestsOk(w.c)
  {
    hide TasksKnown, AllTold;
    InvRequests(w, limits);
  }

  lemma OneTold(w: World, limits: Limits, e: Event, s: SessionId)
    requires Kept(w, limits) && Enabled(w, e) && RequestsOk(w.c)
    requires s in Step(w, limits, e).c.sessions
    ensures SessionTold(Step(w, limits, e).c.sessions[s], Step(w, limits, e).c.jobs)
  {
    hide CoordInv, Step, RequestsOk, TasksKnown;
    SessionsChanged(w, limits, e);
    if s in w.c.sessions && w.c.sessions[s].phase
      == Finalizing && w.c.sessions[s].job.Some? && !(e.PublishedEvent? && e.sid == s) {
      FinalizingStays(w, limits, e, s);
    }
    if e.SnapshotEvent? { SnapshotChanges(w, limits, e); }
  }

  lemma StepKept(w: World, limits: Limits, e: Event)
    requires Kept(w, limits) && Enabled(w, e) && RequestsOk(w.c)
    ensures Kept(Step(w, limits, e), limits)
  {
    hide CoordInv, Step, RequestsOk, TasksKnown, SessionTold;
    StepKeeps(w, limits, e);
    TasksStep(w, limits, e);
    forall s | s in Step(w, limits, e).c.sessions
      ensures SessionTold(Step(w, limits, e).c.sessions[s], Step(w, limits, e).c.jobs) {
      OneTold(w, limits, e, s);
    }
  }

  // ----- runs, event by event -----

  /** The world after a run of possible events. */
  ghost function After(limits: Limits, events: seq<Event>): World {
    if events == [] then NOTHING
    else
      var w, e := After(limits, events[..|events| - 1]), events[|events| - 1];
      if RequestsOk(w.c) && Enabled(w, e) then Step(w, limits, e) else w
  }

  lemma {:induction false} RunLast(w: World, limits: Limits, events: seq<Event>, w': World) returns (v: World)
    requires events != [] && RunsTo(w, limits, events, w')
    ensures RunsTo(w, limits, events[..|events| - 1], v)
    ensures var e := events[|events| - 1]; RequestsOk(v.c) && Enabled(v, e) && w' == Step(v, limits, e)
    decreases |events|
  {
    hide Step, RequestsOk, Enabled;
    if |events| == 1 {
      v := w;
    } else {
      v := RunLast(Step(w, limits, events[0]), limits, events[1..], w');
      assert events[1..][..|events| - 2] == events[..|events| - 1][1..];
    }
  }

  lemma {:induction false} RunIsKept(limits: Limits, events: seq<Event>, w: World)
    requires RunsTo(NOTHING, limits, events, w)
    ensures w == After(limits, events) && Kept(w, limits)
    decreases |events|
  {
    hide Step, RequestsOk, Enabled, Kept;
    if events == [] {
      NothingKept(limits);
    } else {
      var v := RunLast(NOTHING, limits, events, w);
      RunIsKept(limits, events[..|events| - 1], v);
      StepKept(v, limits, events[|events| - 1]);
    }
  }

  /** A snapshot request that finds its session armed, and whose snapshot could be stored or not. */
  ghost predicate Takes(w: World, e: Event, s: SessionId, stored: bool) {
    e.SnapshotEvent? && e.sid == s && e.stored == stored && s in w.c.sessions && w.c.sessions[s].phase == Armed
  }

  /** What takes a finalizing session out of its phase. */
  predicate Closes(e: Event, s: SessionId) {
    (e.FailedEvent? || e.PublishedEvent? || e.CancelSessionEvent?) && e.sid == s
  }

  predicate NotClosed(events: seq<Event>, from: nat, s: SessionId) {
    forall j :: from <= j < |events| ==> !Closes(events[j], s)
  }

  ghost predicate TakenAt(limits: Limits, events: seq<Event>, i: nat, s: SessionId, stored: bool)
    requires i < |events|
  {
    Takes(After(limits, events[..i]), events[i], s, stored)
  }

  /** The armed session's snapshot request could not be stored, and nothing has closed the session since. */
  ghost predicate Lost(limits: Limits, events: seq<Event>, s: SessionId) {
    exists i :: 0 <= i < |events| && TakenAt(limits, events, i, s, false) && NotClosed(events, i + 1, s)
  }

  /** The armed session's snapshot request was stored. */
  ghost predicate Stored(limits: Limits, events: seq<Event>, s: SessionId) {
    exists i :: 0 <= i < |events| && TakenAt(limits, events, i, s, true)
  }

  lemma TakenBefore(limits: Limits, init: seq<Event>, e: Event, i: nat, s: SessionId, stored: bool)
    requires i <= |init|
    ensures TakenAt(limits, init + [e], i, s, stored) <==>
            if i < |init| then TakenAt(limits, init, i, s, stored) else Takes(After(limits, init), e, s, stored)
  {
    hide After, Takes;
    var events := init + [e];
    assert events[..i] == init[..i] && init[..|init|] == init;
  }

  lemma ClosedBefore(init: seq<Event>, e: Event, from: nat, s: SessionId)
    requires from <= |init| + 1
    ensures NotClosed(init + [e], from, s) <==> NotClosed(init, from, s) && (from <= |init| ==> !Closes(e, s))
  {
    hide Closes;
    var events := init + [e];
    assert events[|init|] == e;
    assert forall j :: 0 <= j < |init| ==> events[j] == init[j];
  }

  lemma LostStep(limits: Limits, init: seq<Event>, e: Event, s: SessionId)
    ensures Lost(limits, init + [e], s) <==>
            Takes(After(limits, init), e, s, false) || (Lost(limits, init, s) && !Closes(e, s))
  {
    hide After, Takes, Closes, TakenAt, NotClosed;
    var events, n := init + [e], |init|;
    forall i: nat | i <= n
      ensures TakenAt(limits, events, i, s, false) <==>
              if i < n then TakenAt(limits, init, i, s, false) else Takes(After(limits, init), e, s, false)
      ensures NotClosed(events, i + 1, s) <==> NotClosed(init, i + 1, s) && (i < n ==> !Closes(e, s))
    {
      TakenBefore(limits, init, e, i, s, false);
      ClosedBefore(init, e, i + 1, s);
    }
    NothingLeft(init, s);
    if Lost(limits, init, s) && !Closes(e, s) {
      var i :| 0 <= i < n && TakenAt(limits, init, i, s, false) && NotClosed(init, i + 1, s);
      assert TakenAt(limits, events, i, s, false);
    }
    if Takes(After(limits, init), e, s, false) { assert TakenAt(limits, events, n, s, false); }
  }

  lemma NothingLeft(events: seq<Event>, s: SessionId)
    ensures NotClosed(events, |events| + 1, s)
  {}

  lemma StoredStep(limits: Limits, init: seq<Event>, e: Event, s: SessionId)
    ensures Stored(limits, init + [e], s) <==> Takes(After(limits, init), e, s, true) || Stored(limits, init, s)
  {
    hide After, Takes, TakenAt;
    var events, n := init + [e], |init|;
    forall i: nat | i <= n
      ensures TakenAt(limits, events, i, s, true) <==>
              if i < n then TakenAt(limits, init, i, s, true) else Takes(After(limits, init), e, s, true)
    {
      TakenBefore(limits, init, e, i, s, true);
    }
    if Stored(limits, init, s) {
      var i :| 0 <= i < n && TakenAt(limits, init, i, s, true);
      assert TakenAt(limits, events, i, s, true);
    }
    if Takes(After(limits, init), e, s, true) { assert TakenAt(limits, events, n, s, true); }
  }

  /** What one event does to the promised job of a session. */
  lemma MissingStep(w: World, limits: Limits, e: Event, s: SessionId)
    requires Kept(w, limits) && Enabled(w, e) && RequestsOk(w.c)
    ensures Missing(Step(w, limits, e).c, s) <==> Takes(w, e, s, false) || (Missing(w.c, s) && !Closes(e, s))
  {
    hide CoordInv, Step, RequestsOk, TasksKnown;
    StepKept(w, limits, e);
    SessionsChanged(w, limits, e);
  }

  /** What the session's recorder was told last is to finish. */
  predicate Finishing(c: Coord, s: SessionId) {
    s in c.sessions && c.sessions[s].told == Finish
  }

  predicate Cancelling(c: Coord, s: SessionId) {
    s in c.sessions && c.sessions[s].phase == Cancelled
  }

  /** What one event does to what the recorder was told, as long as the session is not cancelled. */
  lemma ToldStep(w: World, limits: Limits, e: Event, s: SessionId)
    requires Kept(w, limits) && Enabled(w, e) && RequestsOk(w.c)
    ensures var c := Step(w, limits, e).c;
            && (Cancelling(w.c, s) ==> Cancelling(c, s))
            && (Finishing(c, s) ==> !Cancelling(c, s))
            && (!Cancelling(c, s) ==> (Finishing(c, s) <==> Takes(w, e, s, true) || Finishing(w.c, s)))
  {
    hide CoordInv, Step, RequestsOk, TasksKnown;
    StepKept(w, limits, e);
    SessionsChanged(w, limits, e);
  }

  /** Over every run: a finalizing session's job is not in the table exactly if its snapshot could not be stored. */
  lemma {:induction false} MissingIff(limits: Limits, events: seq<Event>, w: World, s: SessionId)
    requires RunsTo(NOTHING, limits, events, w)
    ensures Missing(w.c, s) <==> Lost(limits, events, s)
    decreases |events|
  {
    hide Step, RequestsOk, Enabled, Kept, Missing, Lost, After;
    if events == [] {
      NothingPromised(limits, s);
    } else {
      var init, e := events[..|events| - 1], events[|events| - 1];
      var v := RunLast(NOTHING, limits, events, w);
      RunIsKept(limits, init, v);
      MissingIff(limits, init, v, s);
      MissingStep(v, limits, e, s);
      LostStep(limits, init, e, s);
      assert events == init + [e];
    }
  }

  lemma NothingPromised(limits: Limits, s: SessionId)
    ensures !Missing(NOTHING.c, s) && !Lost(limits, [], s) && !Finishing(NOTHING.c, s) && !Stored(limits, [], s)
  {}

  /**
   * Over every run: a session that is not cancelled has its recorder told to finish exactly if its snapshot
   * was stored.
   */
  lemma {:induction false} FinishingIff(limits: Limits, events: seq<Event>, w: World, s: SessionId)
    requires RunsTo(NOTHING, limits, events, w)
    ensures Finishing(w.c, s) <==> Stored(limits, events, s) && !Cancelling(w.c, s)
    decreases |events|
  {
    hide Step, RequestsOk, Enabled, Kept, Finishing, Cancelling, Stored, After;
    if events == [] {
      NothingPromised(limits, s);
    } else {
      var init, e := events[..|events| - 1], events[|events| - 1];
      var v := RunLast(NOTHING, limits, events, w);
      RunIsKept(limits, init, v);
      FinishingIff(limits, init, v, s);
      ToldStep(v, limits, e, s);
      StoredStep(limits, init, e, s);
      assert events == init + [e];
    }
  }

  /**
   * After every run, a successful snapshot or stop reply names a job of the table unless the snapshot could
   * not be stored.
   */
  lemma RepliedJobKnownIff(limits: Limits, events: seq<Event>, w: World, e: Event)
    requires RunsTo(NOTHING, limits, events, w) && e.SnapshotEvent? && RequestsOk(w.c) && Enabled(w, e)
    ensures var (c, reply) := Snapshot(w.c, e.sid, e.stored, e.newSnap, e.newJob);
            reply.Done? ==> (reply.value.job in c.jobs <==> !Lost(limits, events, e.sid))
  {
    hide CoordInv, Missing, Lost, FreshJob, RequestsOk, CapturedHaveJobs;
    MissingIff(limits, events, w, e.sid);
    RunIsKept(limits, events, w);
    NothingIsAccounted(limits);
    CapturedFromNothing();
    CapturedJobsAreKnown(NOTHING, limits, events, w);
    ReplyNamesJob(w, limits, e.sid, e.stored, e.newSnap, e.newJob);
  }

  lemma CapturedFromNothing()
    ensures CapturedHaveJobs(NOTHING.c)
  {}

  /**
   * Over every run: a recorder was told to abort exactly if its session is cancelled, and to finish exactly
   * if it is not and its snapshot was stored. So a finalizing session whose snapshot was not is never told.
   */
  lemma ToldIff(limits: Limits, events: seq<Event>, w: World, s: SessionId)
    requires RunsTo(NOTHING, limits, events, w) && s in w.c.sessions
    ensures w.c.sessions[s].told == Abort <==> w.c.sessions[s].phase == Cancelled
    ensures w.c.sessions[s].told == Finish <==> Stored(limits, events, s) && w.c.sessions[s].phase != Cancelled
    ensures w.c.sessions[s].phase == Finalizing ==> (w.c.sessions[s].told == GoOn <==> Lost(limits, events, s))
  {
    hide CoordInv, TasksKnown, Lost, Stored, RunsTo;
    RunIsKept(limits, events, w);
    FinishingIff(limits, events, w, s);
    MissingIff(limits, events, w, s);
    if w.c.sessions[s].phase == Finalizing { FinalizingHasJob(w, limits, s); }
  }

  lemma FinalizingHasJob(w: World, limits: Limits, s: SessionId)
    requires CoordInv(w, limits) && s in w.c.sessions && w.c.sessions[s].phase == Finalizing
    ensures w.c.sessions[s].job.Some?
  {
    hide RequestsOk, JobsOk, Accounted;
  }
}
