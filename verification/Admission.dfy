/** Which requests are accepted, in terms of the sessions and tasks of the run so far. */
module Admission {
  import opened TraceTypes
  import opened Coordinator
  import opened Protocol
  import opened JobTable
  import opened Repeats
  import opened Outcomes

  /** The sessions that are being recorded. */
  ghost function Recording(w: World): set<SessionId> { set s | s in w.c.sessions && Ongoing(w.c.sessions[s].phase) }

  lemma RecordingHolds(w: World, limits: Limits)
    requires CoordInv(w, limits)
    ensures Recording(w) == Holding(w.c.sessions)
  {
    hide RequestsOk, JobsOk, Accounted;
    forall s | s in w.c.sessions ensures Ongoing(w.c.sessions[s].phase) <==> w.c.sessions[s].slotHeld {
      assert SessionOk(w.c.sessions[s], s in w.captures);
    }
  }

  lemma RunInv(limits: Limits, events: seq<Event>, w: World)
    requires RunsTo(NOTHING, limits, events, w)
    ensures CoordInv(w, limits) && RequestsOk(w.c)
  {
    hide CoordInv, RunsTo, RequestsOk, Later;
    NothingIsAccounted(limits);
    RunKeeps(NOTHING, limits, events, w);
    InvRequests(w, limits);
  }

  /**
   * A request that no session was started for is accepted exactly if nothing outside refuses it, fewer captures run
   * than may, and fewer recordings and comparisons are unfinished than may wait.
   */
  lemma StartAcceptedIff(limits: Limits, events: seq<Event>, w: World, req: StartRequest, sid: SessionId,
                         snap: SnapshotId)
    requires RunsTo(NOTHING, limits, events, w) && RequestsOk(w.c)
    requires forall s :: s in w.c.sessions ==> w.c.sessions[s].request != req.id
    ensures Start(w.c, limits, req, sid, snap).1.Done? <==>
            && req.wellFormed && req.budgetLeft && req.targetReady && req.stored
            && |Recording(w)| < limits.maxActiveCaptures && |w.captures| + |w.compares| < limits.maxPendingExpensive
  {
    hide RunsTo, SessionsOk, JobsOk, Holding, Recording;
    RunInv(limits, events, w);
    RecordingHolds(w, limits);
  }

  /** One that a session was started for is answered with it, unless it says something else. */
  lemma StartRepeatedIff(limits: Limits, events: seq<Event>, w: World, s: SessionId, req: StartRequest, sid: SessionId,
                         snap: SnapshotId)
    requires RunsTo(NOTHING, limits, events, w) && RequestsOk(w.c) && s in w.c.sessions
             && w.c.sessions[s].request == req.id
    ensures Start(w.c, limits, req, sid, snap)
            == (w.c,
                if req.wellFormed && (w.c.sessions[s].hash == "" || w.c.sessions[s].hash == req.hash)
                then Done((s, w.c.sessions[s].phase)) else Refused(InvalidArgument),
                None)
  {}

  /** A decode request needs a free slot exactly if neither a stored analysis nor an earlier job answers it. */
  lemma DecodeAcceptedIff(limits: Limits, events: seq<Event>, w: World, req: DecodeRequest, newJob: JobId,
                          newAnalysis: nat)
    requires RunsTo(NOTHING, limits, events, w)
    ensures Decode(w.c, limits, req, newJob, newAnalysis).1.Done? <==>
            req.loadable && (req.onDisk || req.key in w.c.cacheJobs || |w.decodes| < limits.maxDecodeJobs)
  {
    hide RunsTo, RequestsOk, SessionsOk, JobsOk;
    RunInv(limits, events, w);
    RunCached(limits, events, w);
  }

  lemma CompareAcceptedIff(limits: Limits, events: seq<Event>, w: World, key: string, newJob: JobId, newReport: nat)
    requires RunsTo(NOTHING, limits, events, w)
    ensures Compare(w.c, limits, key, newJob, newReport).1.Done? <==>
            key in w.c.cacheJobs || |w.compares| < limits.maxPendingExpensive
  {
    hide RunsTo, RequestsOk, SessionsOk, JobsOk;
    RunInv(limits, events, w);
  }

  // ----- decodes without a limit -----

  /** Nothing is recorded or compared, and no id from `n` on was given out. */
  ghost predicate Rested(w: World, n: nat) {
    && w.captures == map[] && RequestsOk(w.c) && w.c.activeCaptures == w.c.reservedDecode == w.c.pendingExpensive == 0
    && (forall s :: s in w.c.sessions ==> s < n && w.c.sessions[s].request < n && JobBelow(w.c.sessions[s], n))
    && (forall j :: j in w.c.jobs ==> j < n)
  }

  predicate JobBelow(s: Session, n: nat) { s.job.Some? ==> s.job.value < n }

  /** Recordings that start, are armed and are published, one after the other. */
  function Recordings(n: nat, many: nat): (events: seq<Event>)
    decreases many
  {
    if many == 0 then []
    else [StartEvent(REQUEST.(id := n), n, n), ArmedEvent(n), PublishedEvent(n, n, n)] + Recordings(n + 1, many - 1)
  }

  /** The one recording of `n` is under way, on top of `w`. */
  ghost predicate Under(w: World, n: nat, phase: Phase, w': World) {
    && w'.captures == map[n := n]
    && w'.c == w.c.(sessions := w.c.sessions[n := Session(n, "", phase, Some(n), None, GoOn, true)],
                    byRequest := w.c.byRequest[n := n], activeCaptures := 1, reservedDecode := 1)
  }

  lemma StartsRecording(w: World, limits: Limits, n: nat)
    requires Rested(w, n) && limits.maxActiveCaptures > 0 && limits.maxPendingExpensive > 0
    ensures RequestsOk(w.c) && Enabled(w, StartEvent(REQUEST.(id := n), n, n))
    ensures Under(w, n, Starting, Step(w, limits, StartEvent(REQUEST.(id := n), n, n)))
  {}

  lemma ArmsRecording(w: World, limits: Limits, n: nat, w1: World)
    requires Under(w, n, Starting, w1) && RequestsOk(w1.c)
    ensures Enabled(w1, ArmedEvent(n)) && Under(w, n, Armed, Step(w1, limits, ArmedEvent(n)))
  {
    hide RequestsOk;
  }

  lemma RequestAdded(w: World, n: nat, phase: Phase, w': World)
    requires Rested(w, n) && Under(w, n, phase, w')
    ensures RequestsOk(w'.c) && FreshJob(w'.c, n)
  {}

  lemma PublishesRecording(w: World, limits: Limits, n: nat, w2: World)
    requires Rested(w, n) && Under(w, n, Armed, w2) && RequestsOk(w2.c) && FreshJob(w2.c, n)
    ensures var c' := OnPublished(w2.c, n, n, n, n).0;
            && c'.runningDecode == w.c.runningDecode + 1
            && c'.activeCaptures == c'.reservedDecode == c'.pendingExpensive == 0
            && c'.byRequest == w.c.byRequest[n := n]
            && c'.sessions == w.c.sessions[n := Session(n, "", Captured, Some(n), Some(n), GoOn, false)]
            && c'.jobs == w.c.jobs[n := Job(InitialDecode, Running, Some(n), Some(n), None)]
  {
    hide RequestsOk, FreshJob;
  }

  lemma RestsAgain(w: World, limits: Limits, n: nat, w2: World)
    requires Rested(w, n) && Under(w, n, Armed, w2) && RequestsOk(w2.c) && FreshJob(w2.c, n)
    ensures Enabled(w2, PublishedEvent(n, n, n))
    ensures var w3 := Step(w2, limits, PublishedEvent(n, n, n));
            Rested(w3, n + 1) && w3.c.runningDecode == w.c.runningDecode + 1
  {
    hide OnPublished, FreshJob, RequestsOk;
    PublishesRecording(w, limits, n, w2);
    PublishedTask(w2.c, n, n, n, n);
    var w3 := Step(w2, limits, PublishedEvent(n, n, n));
    assert w3.captures == map[];
    RequestsAfter(w2.c, w3.c, n);
  }

  lemma RequestsAfter(c: Coord, c': Coord, n: nat)
    requires RequestsOk(c) && n in c.sessions && c'.byRequest == c.byRequest
    requires c'.sessions.Keys == c.sessions.Keys
    requires forall s :: s in c.sessions ==> c'.sessions[s].request == c.sessions[s].request
    ensures RequestsOk(c')
  {}

  lemma RecordOne(w: World, limits: Limits, n: nat)
    requires Rested(w, n) && limits.maxActiveCaptures > 0 && limits.maxPendingExpensive > 0
    ensures exists w' ::
              Rested(w', n + 1) && RunsTo(w, limits, Recordings(n, 1), w')
                && w'.c.runningDecode == w.c.runningDecode + 1
  {
    StartsRecording(w, limits, n);
    hide Rested, Under, RequestsOk, FreshJob, Enabled, Step;
    var w1 := Step(w, limits, StartEvent(REQUEST.(id := n), n, n));
    RequestAdded(w, n, Starting, w1);
    ArmsRecording(w, limits, n, w1);
    var w2 := Step(w1, limits, ArmedEvent(n));
    RequestAdded(w, n, Armed, w2);
    RestsAgain(w, limits, n, w2);
    var w3 := Step(w2, limits, PublishedEvent(n, n, n));
    RunsThree(w, limits, StartEvent(REQUEST.(id := n), n, n), ArmedEvent(n), PublishedEvent(n, n, n), w1, w2, w3);
    assert Recordings(n, 1) == [StartEvent(REQUEST.(id := n), n, n), ArmedEvent(n), PublishedEvent(n, n, n)];
  }

  lemma RunsThree(w: World, limits: Limits, a: Event, b: Event, c: Event, w1: World, w2: World, w3: World)
    requires RequestsOk(w.c) && Enabled(w, a) && Step(w, limits, a) == w1
    requires RequestsOk(w1.c) && Enabled(w1, b) && Step(w1, limits, b) == w2
    requires RequestsOk(w2.c) && Enabled(w2, c) && Step(w2, limits, c) == w3
    ensures RunsTo(w, limits, [a, b, c], w3)
  {
    hide RequestsOk, Enabled, Step;
    assert [a, b, c][1..] == [b, c] && [b, c][1..] == [c] && [c][1..] == [];
    assert RunsTo(w3, limits, [], w3);
    assert RunsTo(w2, limits, [c], w3);
    assert RunsTo(w1, limits, [b, c], w3);
  }

  lemma {:induction false} RunsOn(w: World, limits: Limits, a: seq<Event>, w1: World, b: seq<Event>, w2: World)
    requires RunsTo(w, limits, a, w1) && RunsTo(w1, limits, b, w2)
    ensures RunsTo(w, limits, a + b, w2)
    decreases |a|
  {
    hide RequestsOk, Enabled, Step;
    if a == [] {
      assert a + b == b;
    } else {
      assert (a + b)[1..] == a[1..] + b;
      RunsOn(Step(w, limits, a[0]), limits, a[1..], w1, b, w2);
    }
  }

  lemma RecordingsSplit(w: World, limits: Limits, n: nat, many: nat)
    ensures many == 0 ==> RunsTo(w, limits, Recordings(n, many), w)
    ensures many > 0 ==> Recordings(n, many) == Recordings(n, 1) + Recordings(n + 1, many - 1)
  {
    if many == 0 { assert RunsTo(w, limits, [], w); }
    assert Recordings(n + 1, 0) == [];
  }

  lemma {:induction false} DecodesPileUp(w: World, limits: Limits, n: nat, many: nat)
    requires Rested(w, n) && limits.maxActiveCaptures > 0 && limits.maxPendingExpensive > 0
    ensures exists w' :: RunsTo(w, limits, Recordings(n, many), w') && w'.c.runningDecode == w.c.runningDecode + many
    decreases many
  {
    hide Rested, RunsTo, Recordings;
    RecordingsSplit(w, limits, n, many);
    if many > 0 {
      RecordOne(w, limits, n);
      var w1 :| Rested(w1, n + 1) && RunsTo(w, limits, Recordings(n, 1), w1)
        && w1.c.runningDecode == w.c.runningDecode + 1;
      var rest := Recordings(n + 1, many - 1);
      DecodesPileUp(w1, limits, n + 1, many - 1);
      var w' :| RunsTo(w1, limits, rest, w') && w'.c.runningDecode == w1.c.runningDecode + (many - 1);
      RunsOn(w, limits, Recordings(n, 1), w1, rest, w');
    }
  }

  /** As long as anything can be recorded at all, any number of decodes can run at once, whatever `maxDecodeJobs` is. */
  lemma DecodesAreUnlimited(limits: Limits, many: nat)
    requires limits.maxActiveCaptures > 0 && limits.maxPendingExpensive > 0
    ensures exists w :: RunsTo(NOTHING, limits, Recordings(0, many), w) && |w.decodes| == many
  {
    hide RunsTo, Recordings, CoordInv;
    assert Rested(NOTHING, 0);
    DecodesPileUp(NOTHING, limits, 0, many);
    var w :| RunsTo(NOTHING, limits, Recordings(0, many), w) && w.c.runningDecode == many;
    RunInv(limits, Recordings(0, many), w);
    Counted(w, limits);
  }

  lemma Counted(w: World, limits: Limits)
    requires CoordInv(w, limits)
    ensures |w.decodes| == w.c.runningDecode
  {}
}
