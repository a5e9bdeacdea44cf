/** The process filter over a whole stream: a thread that is traced once is traced to the end. */
module Tracking {
  import opened TraceTypes
  import opened Symbols
  import opened Recon
  import RoundTrip

  /** No record takes a live thread away. */
  lemma LiveStaysLive(t: Tracker, rec: Record, pid: nat, tid: nat)
    requires t.IsLiveThread(pid, tid)
    ensures t.Observe(rec).IsLiveThread(pid, tid)
  {}

  function ObserveAll(t: Tracker, recs: seq<Record>): Tracker {
    if recs == [] then t else ObserveAll(t, recs[..|recs| - 1]).Observe(recs[|recs| - 1])
  }

  /** What every tracker satisfies from its creation on. */
  predicate Sound(t: Tracker) {
    t.execDone <= t.pids
  }

  /** The process takes on the awaited name (or, with none awaited, the recorder's own), or a live process forks it. */
  predicate MakesLive(t: Tracker, rec: Record, pid: nat) {
    && rec.TaskRecord? && rec.task.pid == pid
    && var e := rec.task;
    || ((e.kind == Comm || e.kind == Exec) && e.comm == Some("perf-exec") && t.targetComm.None?)
    || ((e.kind == Comm || e.kind == Exec) && e.comm != Some("perf-exec") && pid in t.pids && t.targetComm.Some?
        && e.comm == t.targetComm)
    || (e.kind == Fork && e.ppid.Some? && t.IsLive(e.ppid.value) && !(e.ppid == Some(pid) && e.tid != pid))
  }

  /** A thread that a process starts before its awaited exec is held back until it exits. */
  predicate HoldsBack(t: Tracker, rec: Record, key: Key) {
    && rec.TaskRecord? && (rec.task.pid, rec.task.tid) == key && rec.task.kind == Fork && rec.task.ppid == Some(key.0)
    && key.1 != key.0
    && key.0 in t.pids && t.targetComm.Some? && key.0 !in t.execDone
  }

  predicate Ends(rec: Record, key: Key) {
    rec.TaskRecord? && (rec.task.pid, rec.task.tid) == key && rec.task.kind == Exit
  }

  /** One record makes exactly these processes live, and takes none away. */
  lemma LiveStep(t: Tracker, rec: Record, pid: nat)
    requires Sound(t)
    ensures t.Observe(rec).IsLive(pid) <==> t.IsLive(pid) || MakesLive(t, rec, pid)
    ensures Sound(t.Observe(rec))
  {}

  lemma HoldStep(t: Tracker, rec: Record, key: Key)
    ensures key in t.Observe(rec).preExec <==> HoldsBack(t, rec, key) || (key in t.preExec && !Ends(rec, key))
  {}

  /** The process was live at first, or some record has made it so. */
  ghost predicate BecameLive(t: Tracker, recs: seq<Record>, pid: nat) {
    t.IsLive(pid) || exists i :: 0 <= i < |recs| && MakesLive(ObserveAll(t, recs[..i]), recs[i], pid)
  }

  predicate NotEnded(recs: seq<Record>, from: nat, key: Key) {
    forall j :: from <= j < |recs| ==> !Ends(recs[j], key)
  }

  /** The thread was held back at first or by some record, and has not exited since. */
  ghost predicate HeldBack(t: Tracker, recs: seq<Record>, key: Key) {
    || (key in t.preExec && NotEnded(recs, 0, key))
    || exists i :: 0 <= i < |recs| && HoldsBack(ObserveAll(t, recs[..i]), recs[i], key) && NotEnded(recs, i + 1, key)
  }

  lemma {:induction false} LiveIff(t: Tracker, recs: seq<Record>, pid: nat)
    requires Sound(t)
    ensures Sound(ObserveAll(t, recs)) && (ObserveAll(t, recs).IsLive(pid) <==> BecameLive(t, recs, pid))
    decreases |recs|
  {
    hide Tracker.Observe, Tracker.IsLive, MakesLive;
    if recs != [] {
      var init, n := recs[..|recs| - 1], |recs| - 1;
      LiveIff(t, init, pid);
      LiveStep(ObserveAll(t, init), recs[n], pid);
      assert forall i :: 0 <= i < n ==> init[..i] == recs[..i] && init[i] == recs[i];
    }
  }

  lemma {:induction false} HeldBackIff(t: Tracker, recs: seq<Record>, key: Key)
    ensures key in ObserveAll(t, recs).preExec <==> HeldBack(t, recs, key)
    decreases |recs|
  {
    hide Tracker.Observe, HoldsBack, Ends, HeldBack;
    if recs == [] {
      AtFirst(t, key);
    } else {
      var init, rec := recs[..|recs| - 1], recs[|recs| - 1];
      HeldBackIff(t, init, key);
      HoldStep(ObserveAll(t, init), rec, key);
      HeldStep(t, init, rec, key);
      assert recs == init + [rec];
    }
  }

  lemma AtFirst(t: Tracker, key: Key)
    ensures HeldBack(t, [], key) <==> key in t.preExec
  {}

  lemma HeldStep(t: Tracker, init: seq<Record>, rec: Record, key: Key)
    ensures HeldBack(t, init + [rec], key) <==>
              HoldsBack(ObserveAll(t, init), rec, key) || (HeldBack(t, init, key) && !Ends(rec, key))
  {
    hide ObserveAll, HoldsBack, Ends, NotEnded;
    var recs, n := init + [rec], |init|;
    forall i | 0 <= i <= n ensures recs[..i] == init[..i]
      && (NotEnded(recs, i, key) <==> NotEnded(init, i, key) && !Ends(rec, key)) {
      OneMoreNotEnded(init, rec, i, key);
    }
    NoneLeft(recs, key);
    assert init[..n] == init;
    forall i | 0 <= i < n ensures recs[i] == init[i] {}
    assert HoldsBack(ObserveAll(t, init), rec, key) ==>
             HoldsBack(ObserveAll(t, recs[..n]), recs[n], key) && NotEnded(recs, n + 1, key);
  }

  lemma OneMoreNotEnded(init: seq<Record>, rec: Record, i: nat, key: Key)
    requires i <= |init|
    ensures NotEnded(init + [rec], i, key) <==> NotEnded(init, i, key) && !Ends(rec, key)
  {
    hide Ends;
    var recs := init + [rec];
    assert recs[|init|] == rec;
    if NotEnded(recs, i, key) {
      forall j | i <= j < |init| ensures !Ends(init[j], key) { assert recs[j] == init[j]; }
    }
  }

  lemma NoneLeft(recs: seq<Record>, key: Key)
    ensures NotEnded(recs, |recs|, key)
  {}

  lemma {:induction false} RunObserves(images: seq<Image>, t: Tracker, recs: seq<Record>)
    ensures PushAll(images, New(Some(t)), recs).filter == Some(ObserveAll(t, recs))
    decreases |recs|
  {
    hide Push, PushAll, Tracker.Observe;
    if recs == [] {
      PushedNothing(images, New(Some(t)));
    } else {
      var init, rec := recs[..|recs| - 1], recs[|recs| - 1];
      assert recs == init + [rec];
      RoundTrip.PushAllConcat(images, New(Some(t)), init, [rec]);
      RunObserves(images, t, init);
      var r := PushAll(images, New(Some(t)), init);
      PushedOne(images, r, rec);
      PushObserves(images, r, rec);
    }
  }

  lemma PushedNothing(images: seq<Image>, r: Recon)
    ensures PushAll(images, r, []) == r
  {}

  lemma PushedOne(images: seq<Image>, r: Recon, rec: Record)
    ensures PushAll(images, r, [rec]) == Push(images, r, rec)
  {
    hide Push;
  }

  /** After any stream a sample is kept exactly if its process became live and its thread is not held back. */
  lemma KeptIff(images: seq<Image>, t: Tracker, recs: seq<Record>, s: Sample)
    requires Sound(t)
    ensures Keeps(PushAll(images, New(Some(t)), recs), SampleRecord(s)) <==>
            BecameLive(t, recs, s.pid) && !HeldBack(t, recs, (s.pid, s.tid))
  {
    hide PushAll, New, ObserveAll, BecameLive, HeldBack, Tracker.IsLive;
    RunObserves(images, t, recs);
    LiveIff(t, recs, s.pid);
    HeldBackIff(t, recs, (s.pid, s.tid));
  }

  // ----- the other records -----

  /** The recorder runs the process, or a tracked process forks it. */
  predicate Adopts(t: Tracker, rec: Record, pid: nat) {
    && rec.TaskRecord? && rec.task.pid == pid
    && var e := rec.task;
    || ((e.kind == Comm || e.kind == Exec) && e.comm == Some("perf-exec"))
    || (e.kind == Fork && e.ppid.Some? && e.ppid.value in t.pids && !(e.ppid == Some(pid) && e.tid != pid))
  }

  /** The process was tracked at first, or some record has adopted it. */
  ghost predicate Tracked(t: Tracker, recs: seq<Record>, pid: nat) {
    pid in t.pids || exists i :: 0 <= i < |recs| && Adopts(ObserveAll(t, recs[..i]), recs[i], pid)
  }

  lemma AdoptStep(t: Tracker, rec: Record, pid: nat)
    ensures pid in t.Observe(rec).pids <==> pid in t.pids || Adopts(t, rec, pid)
  {}

  lemma {:induction false} TrackedIff(t: Tracker, recs: seq<Record>, pid: nat)
    ensures pid in ObserveAll(t, recs).pids <==> Tracked(t, recs, pid)
    decreases |recs|
  {
    hide Tracker.Observe, Adopts;
    if recs != [] {
      var init, n := recs[..|recs| - 1], |recs| - 1;
      TrackedIff(t, init, pid);
      AdoptStep(ObserveAll(t, init), recs[n], pid);
      assert forall i :: 0 <= i < n ==> init[..i] == recs[..i] && init[i] == recs[i];
    }
  }

  /** The tracked process takes on the awaited name at a known time. */
  predicate Execs(t: Tracker, rec: Record, pid: nat) {
    && rec.TaskRecord? && rec.task.pid == pid && (rec.task.kind == Comm || rec.task.kind == Exec) && rec.task.time.Some?
    && rec.task.comm != Some("perf-exec") && pid in t.pids && t.targetComm.Some? && rec.task.comm == t.targetComm
  }

  ghost predicate ExecAt(t: Tracker, recs: seq<Record>, pid: nat, i: nat)
    requires i < |recs|
  {
    Execs(ObserveAll(t, recs[..i]), recs[i], pid)
  }

  /** The i-th record is the last such exec of the process. */
  ghost predicate LastExec(t: Tracker, recs: seq<Record>, pid: nat, i: nat)
    requires i < |recs|
  {
    ExecAt(t, recs, pid, i) && forall j :: i < j < |recs| ==> !ExecAt(t, recs, pid, j)
  }

  ghost predicate NeverExecs(t: Tracker, recs: seq<Record>, pid: nat) {
    forall i :: 0 <= i < |recs| ==> !ExecAt(t, recs, pid, i)
  }

  /** The exec time that is kept is that of the last exec. */
  ghost predicate ExecKnown(t: Tracker, recs: seq<Record>, pid: nat) {
    var times := ObserveAll(t, recs).execTime;
    && (pid in times <==> !NeverExecs(t, recs, pid))
    && forall i :: 0 <= i < |recs| && LastExec(t, recs, pid, i) ==>
         recs[i].TaskRecord? && recs[i].task.time.Some? && pid in times && times[pid] == recs[i].task.time.value
  }

  lemma ExecStep(t: Tracker, rec: Record, pid: nat)
    ensures var times, times' := t.execTime, t.Observe(rec).execTime;
            if Execs(t, rec, pid) then pid in times' && times'[pid] == rec.task.time.value
            else (pid in times' <==> pid in times) && (pid in times ==> times'[pid] == times[pid])
  {}

  lemma ExecBefore(t: Tracker, init: seq<Record>, rec: Record, pid: nat, i: nat)
    requires i <= |init|
    ensures ExecAt(t, init + [rec], pid, i)
            <==> if i < |init| then ExecAt(t, init, pid, i) else Execs(ObserveAll(t, init), rec, pid)
  {
    hide ObserveAll, Execs;
    var recs := init + [rec];
    assert recs[..i] == init[..i] && init[..|init|] == init;
  }

  lemma {:induction false} ExecTimeIs(t: Tracker, recs: seq<Record>, pid: nat)
    requires t.execTime == map[]
    ensures ExecKnown(t, recs, pid)
    decreases |recs|
  {
    hide Tracker.Observe, Execs, ExecAt;
    if recs != [] {
      var init, rec := recs[..|recs| - 1], recs[|recs| - 1];
      assert recs == init + [rec];
      ExecTimeIs(t, init, pid);
      ExecStep(ObserveAll(t, init), rec, pid);
      forall i: nat | i <= |init|
        ensures ExecAt(t, recs, pid, i)
                <==> if i < |init| then ExecAt(t, init, pid, i) else Execs(ObserveAll(t, init), rec, pid)
      {
        ExecBefore(t, init, rec, pid, i);
      }
      ExecTold(t, init, rec, pid);
    }
  }

  lemma ExecTold(t: Tracker, init: seq<Record>, rec: Record, pid: nat)
    requires ExecKnown(t, init, pid)
    ensures ExecKnown(t, init + [rec], pid)
  {
    hide Tracker.Observe, ExecAt, ObserveAll;
    var recs, n := init + [rec], |init|;
    OneMoreObserved(t, init, rec);
    ExecStep(ObserveAll(t, init), rec, pid);
    forall i: nat | i <= n
      ensures ExecAt(t, recs, pid, i) <==>
                if i < n then ExecAt(t, init, pid, i) else Execs(ObserveAll(t, init), rec, pid)
    {
      ExecBefore(t, init, rec, pid, i);
    }
    if Execs(ObserveAll(t, init), rec, pid) { assert ExecAt(t, recs, pid, n); }
    forall i: nat | i < |recs| && LastExec(t, recs, pid, i)
      ensures i < n ==> LastExec(t, init, pid, i) && !Execs(ObserveAll(t, init), rec, pid) && recs[i] == init[i]
    {}
  }

  lemma OneMoreObserved(t: Tracker, init: seq<Record>, rec: Record)
    ensures ObserveAll(t, init + [rec]) == ObserveAll(t, init).Observe(rec)
  {
    hide Tracker.Observe;
    assert (init + [rec])[..|init|] == init;
  }

  /**
   * A mapping is kept exactly if its process is tracked and it is no older than the awaited exec, as far as
   * that is known.
   */
  ghost predicate Mapped(t: Tracker, recs: seq<Record>, m: MmapEvent) {
    && Tracked(t, recs, m.pid)
    && (t.targetComm.Some? ==>
          && (forall i ::
                0 <= i < |recs| && LastExec(t, recs, m.pid, i) && recs[i].TaskRecord? && recs[i].task.time.Some? ==>
                m.time.Some? && m.time.value >= recs[i].task.time.value)
          && (NeverExecs(t, recs, m.pid) ==> BecameLive(t, recs, m.pid)))
  }

  lemma {:induction false} SomeLast(t: Tracker, recs: seq<Record>, pid: nat, n: nat) returns (i: nat)
    requires n <= |recs| && (exists j :: 0 <= j < n && ExecAt(t, recs, pid, j))
    requires forall j :: n <= j < |recs| ==> !ExecAt(t, recs, pid, j)
    ensures i < |recs| && LastExec(t, recs, pid, i)
    decreases n
  {
    hide ExecAt;
    if ExecAt(t, recs, pid, n - 1) { i := n - 1; } else { i := SomeLast(t, recs, pid, n - 1); }
  }

  /** What is kept of each kind of record, after any stream. */
  lemma RecordKeptIff(images: seq<Image>, t: Tracker, recs: seq<Record>, rec: Record)
    requires Sound(t) && t.execTime == map[]
    ensures Keeps(PushAll(images, New(Some(t)), recs), rec) <==>
            match rec
            case SampleRecord(s) => BecameLive(t, recs, s.pid) && !HeldBack(t, recs, (s.pid, s.tid))
            case DecoderErrorRecord(e) =>
              e.pid.Some? ==>
                e.tid.Some? && BecameLive(t, recs, e.pid.value) && !HeldBack(t, recs, (e.pid.value, e.tid.value))
            case MmapRecord(m) => Mapped(t, recs, m)
            case TaskRecord(e) => Tracked(t, recs + [rec], e.pid)
            case _ => true
  {
    hide PushAll, New, ObserveAll, BecameLive, HeldBack, Tracker.IsLive, Mapped, Tracked, Tracker.MappingIsLive,
         Tracker.ObserveTask;
    RunObserves(images, t, recs);
    match rec
    case SampleRecord(s) => KeptIff(images, t, recs, s);
    case DecoderErrorRecord(e) =>
      if e.pid.Some? && e.tid.Some? {
        LiveIff(t, recs, e.pid.value);
        HeldBackIff(t, recs, (e.pid.value, e.tid.value));
      }
    case MmapRecord(m) => MappedIff(t, recs, m);
    case TaskRecord(e) =>
      OneMoreObserved(t, recs, rec);
      TrackedIff(t, recs + [rec], e.pid);
    case _ =>
  }

  lemma MappedIff(t: Tracker, recs: seq<Record>, m: MmapEvent)
    requires Sound(t) && t.execTime == map[]
    ensures ObserveAll(t, recs).MappingIsLive(m) <==> Mapped(t, recs, m)
  {
    hide BecameLive, Tracked, ExecAt, ObserveAll;
    LiveIff(t, recs, m.pid);
    TrackedIff(t, recs, m.pid);
    ExecTimeIs(t, recs, m.pid);
    SameTarget(t, recs);
    if !NeverExecs(t, recs, m.pid) {
      var i := SomeLast(t, recs, m.pid, |recs|);
      assert LastExec(t, recs, m.pid, i);
    }
  }

  lemma {:induction false} SameTarget(t: Tracker, recs: seq<Record>)
    ensures ObserveAll(t, recs).targetComm == t.targetComm
    decreases |recs|
  {
    if recs != [] { SameTarget(t, recs[..|recs| - 1]); }
  }

  lemma PushObserves(images: seq<Image>, r: Recon, rec: Record)
    ensures Push(images, r, rec).filter == if r.filter.Some? then Some(r.filter.value.Observe(rec)) else None
  {
    hide PushSample, PushTask, PushError, AddMapping;
    match rec
    case SampleRecord(s) => SampleObserves(images, Noted(r, rec), s);
    case TaskRecord(t) => TaskObserves(Noted(r, rec), t);
    case DecoderErrorRecord(e) => ErrorObserves(Noted(r, rec), e);
    case _ =>
  }

  lemma SampleObserves(images: seq<Image>, r: Recon, s: Sample)
    ensures PushSample(images, r, s).filter == r.filter
  {}

  lemma TaskObserves(r: Recon, t: TaskEvent)
    ensures PushTask(r, t).filter == r.filter
  {}

  lemma ErrorObserves(r: Recon, e: DecoderErrorEvent)
    ensures PushError(r, e).filter == r.filter
  {}

  /** Once a sample of a thread was kept, no later sample of that thread is dropped, whatever comes in between. */
  lemma {:induction false} KeptStaysKept(images: seq<Image>, r: Recon, a: Sample, between: seq<Record>, b: Sample)
    requires Keeps(r, SampleRecord(a)) && b.pid == a.pid && b.tid == a.tid
    ensures Keeps(PushAll(images, r, between), SampleRecord(b))
    decreases |between|
  {
    hide Push;
    if between != [] {
      PushObserves(images, r, between[0]);
      if r.filter.Some? { LiveStaysLive(r.filter.value, between[0], a.pid, a.tid); }
      KeptStaysKept(images, Push(images, r, between[0]), a, between[1..], b);
    }
  }
}
