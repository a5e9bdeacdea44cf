/** Reading a perf.data file: its records, and what each of them means. */
module PerfFile {
  import opened Lines
  import opened Bytes

  const MAGIC: Blob := [80, 69, 82, 70, 73, 76, 69, 50]

  datatype AuxBlob = AuxBlob(cpu: nat, tid: nat, bytes: nat, fileOffset: nat)

  datatype PtInfo = PtInfo(
    pmuType: nat, timeShift: nat, timeMult: nat, timeZero: nat, capUserTimeZero: bool, tscBit: nat,
    noretcompBit: nat, haveSchedSwitch: nat, snapshotMode: bool, perCpuMmaps: bool, mtcBit: nat,
    mtcFreqBits: nat, ratioN: nat, ratioD: nat, cycBit: nat, maxNonturboRatio: nat)

  const NO_INFO: PtInfo := PtInfo(0, 0, 0, 0, false, 0, 0, 0, false, false, 0, 0, 0, 0, 0, 0)

  datatype Sideband =
    | Mmap(pid: nat, tid: nat, time: nat, start: nat, len: nat, pgoff: nat, exec: bool, path: Blob)
    | Comm(pid: nat, tid: nat, time: nat, comm: Blob, exec: bool)
    | Fork(pid: nat, ppid: nat, tid: nat, ptid: nat, time: nat)
    | Exit(pid: nat, ppid: nat, tid: nat, ptid: nat, time: nat)
    | Switch(pid: nat, tid: nat, cpu: nat, time: nat, out: bool)
    | ItraceStart(pid: nat, tid: nat, cpu: nat, time: nat)
    | Lost(time: nat, cpu: nat, lost: nat)

  /** What one record contributes. */
  datatype Entry = Side(side: Sideband) | Info(info: PtInfo) | Aux(blob: AuxBlob) | Ignored

  // ----- one record -----

  function Flag(v: nat, k: nat): nat { if Bit(v, k) then 8 else 0 }

  /** Eight bytes for each of the fields TID, TIME, ID, STREAM_ID, CPU and IDENTIFIER that is present. */
  function TrailerLen(sampleType: nat): nat {
    Flag(sampleType, 1) + Flag(sampleType, 2) + Flag(sampleType, 6) + Flag(sampleType, 9) + Flag(sampleType, 7)
    + Flag(sampleType, 16)
  }

  datatype Trailer = Trailer(pid: nat, tid: nat, time: nat, cpu: nat)

  function ParseTrailer(rec: Blob, sampleType: nat): Trailer {
    var n := TrailerLen(sampleType);
    if |rec| < n then Trailer(0, 0, 0, 0)
    else
      var o1 := |rec| - n;
      var o2 := o1 + Flag(sampleType, 1);
      var o3 := o2 + Flag(sampleType, 2) + Flag(sampleType, 6) + Flag(sampleType, 9);
      Trailer(if Bit(sampleType, 1) then Word(rec, o1, 4) else 0,
              if Bit(sampleType, 1) then Word(rec, o1 + 4, 4) else 0,
              if Bit(sampleType, 2) then Word(rec, o2, 8) else 0,
              if Bit(sampleType, 7) then Word(rec, o3, 4) else 0)
  }

  /** Whether the fields that a record's kind calls for lie inside the file; the reader panics otherwise. */
  predicate Readable(file: Blob, pos: nat, size: nat, kind: nat, sampleType: nat) {
    match kind
    case 2 => size >= 24
    case 3 => size >= 16 + TrailerLen(sampleType)
    case 4 => pos + 32 <= |file|
    case 7 => pos + 32 <= |file|
    case 10 => pos + 68 <= |file| && pos + size >= TrailerLen(sampleType)
    case 12 => pos + 16 <= |file|
    case 70 => pos + 12 <= |file|
    case 71 => pos + 44 <= |file|
    case _ => true
  }

  function InfoAt(file: Blob, pos: nat): PtInfo
    requires pos + 144 <= |file|
  {
    var p := i requires 0 <= i < 16 => Word(file, pos + 16 + i * 8, 8);
    PtInfo(p(0), p(1), p(2), p(3), p(4) != 0, p(5), p(6), p(7), p(8) != 0, p(9) != 0, p(10), p(11), p(12), p(13),
           p(14), p(15))
  }

  /** The meaning of the record of this size at `pos`. */
  function EntryAt(file: Blob, pos: nat, size: nat, sampleType: nat): Entry
    requires 8 <= size && pos + size <= |file| && Readable(file, pos, size, Word(file, pos, 4), sampleType)
  {
    var kind, misc := Word(file, pos, 4), Word(file, pos + 4, 2);
    var tr := ParseTrailer(file[pos..pos + size], sampleType);
    var w := (at: nat, n: nat) requires pos + at + n <= |file| => Word(file, pos + at, n);
    var nameEnd := pos + size - TrailerLen(sampleType);
    match kind
    case 2 => Side(Lost(tr.time, tr.cpu, w(16, 8)))
    case 3 => Side(Comm(w(8, 4), w(12, 4), tr.time, TrimNul(file[pos + 16..nameEnd]), Bit(misc, 13)))
    case 4 => Side(Exit(w(8, 4), w(12, 4), w(16, 4), w(20, 4), w(24, 8)))
    case 7 => Side(Fork(w(8, 4), w(12, 4), w(16, 4), w(20, 4), w(24, 8)))
    case 10 =>
      Side(Mmap(w(8, 4), w(12, 4), tr.time, w(16, 8), w(24, 8), w(32, 8), Bit(w(64, 4), 2),
                if nameEnd > pos + 72 then TrimNul(file[pos + 72..nameEnd]) else []))
    case 12 => Side(ItraceStart(w(8, 4), w(12, 4), tr.cpu, tr.time))
    case 14 => Side(Switch(tr.pid, tr.tid, tr.cpu, tr.time, Bit(misc, 13)))
    case 15 => Side(Switch(tr.pid, tr.tid, tr.cpu, tr.time, Bit(misc, 13)))
    case 70 => if w(8, 4) == 1 && size >= 8 + 8 + 17 * 8 then Info(InfoAt(file, pos)) else Ignored
    case 71 => Aux(AuxBlob(w(40, 4), w(36, 4), w(8, 8), pos + size))
    case _ => Ignored
  }

  /** The bytes of trace data that follow a record. */
  function Payload(e: Entry): nat { if e.Aux? then e.blob.bytes else 0 }

  datatype Outcome<T> = Read(value: T) | Panicked | BadHeader | BeyondEnd

  /** The entries from `pos` on; a record that cannot be one ends the reading quietly. */
  function Entries(file: Blob, sampleType: nat, pos: nat, end: nat): Outcome<seq<Entry>>
    requires end <= |file|
    decreases end - pos
  {
    if pos + 8 > end then Read([])
    else
      var size := Word(file, pos + 6, 2);
      if size < 8 || pos + size > end then Read([])
      else if !Readable(file, pos, size, Word(file, pos, 4), sampleType) then Panicked
      else
        var e := EntryAt(file, pos, size, sampleType);
        match Entries(file, sampleType, pos + size + Payload(e), end)
        case Read(rest) => Read([e] + rest)
        case other => other
  }

  // ----- the whole file -----

  datatype PerfData = PerfData(info: PtInfo, sideband: seq<Sideband>, blobs: seq<AuxBlob>, sampleType: nat)

  /** Later parameters replace earlier ones. */
  function InfoOf(es: seq<Entry>): PtInfo {
    if es == [] then NO_INFO
    else if es[|es| - 1].Info? then es[|es| - 1].info
    else InfoOf(es[..|es| - 1])
  }

  function SidesOf(es: seq<Entry>): seq<Sideband> {
    if es == [] then []
    else SidesOf(es[..|es| - 1]) + if es[|es| - 1].Side? then [es[|es| - 1].side] else []
  }

  function BlobsOf(es: seq<Entry>): seq<AuxBlob> {
    if es == [] then []
    else BlobsOf(es[..|es| - 1]) + if es[|es| - 1].Aux? then [es[|es| - 1].blob] else []
  }

  function InsertByTime(sorted: seq<Sideband>, s: Sideband): seq<Sideband> {
    if sorted == [] || sorted[|sorted| - 1].time <= s.time then sorted + [s]
    else InsertByTime(sorted[..|sorted| - 1], s) + [sorted[|sorted| - 1]]
  }

  /** The stable sort by time that the reader asks for. */
  function SortByTime(ss: seq<Sideband>): seq<Sideband> {
    if ss == [] then [] else InsertByTime(SortByTime(ss[..|ss| - 1]), ss[|ss| - 1])
  }

  ghost predicate Sorted(ss: seq<Sideband>) {
    forall i, j :: 0 <= i < j < |ss| ==> ss[i].time <= ss[j].time
  }

  /** The records of one moment, in their order. */
  function Moment(ss: seq<Sideband>, t: nat): seq<Sideband> {
    if ss == [] then [] else Moment(ss[..|ss| - 1], t) + if ss[|ss| - 1].time == t then [ss[|ss| - 1]] else []
  }

  lemma MomentLast(ss: seq<Sideband>, s: Sideband, t: nat)
    ensures Moment(ss + [s], t) == Moment(ss, t) + if s.time == t then [s] else []
  {}

  lemma {:induction false} InsertSorts(sorted: seq<Sideband>, s: Sideband)
    requires Sorted(sorted)
    ensures Sorted(InsertByTime(sorted, s)) && |InsertByTime(sorted, s)| == |sorted| + 1
    ensures forall x :: x in InsertByTime(sorted, s) ==> x in sorted || x == s
  {
    if sorted != [] && sorted[|sorted| - 1].time > s.time {
      var n := |sorted| - 1;
      InsertSorts(sorted[..n], s);
      var r := InsertByTime(sorted[..n], s);
      assert forall i :: 0 <= i < |r| ==> r[i] in r;
    }
  }

  lemma {:induction false} InsertKeepsMoment(sorted: seq<Sideband>, s: Sideband, t: nat)
    requires Sorted(sorted)
    ensures Moment(InsertByTime(sorted, s), t) == Moment(sorted, t) + if s.time == t then [s] else []
  {
    hide Sorted, Moment;
    MomentLast(sorted, s, t);
    if sorted != [] && sorted[|sorted| - 1].time > s.time {
      var n := |sorted| - 1;
      InitSorted(sorted);
      InsertKeepsMoment(sorted[..n], s, t);
      MomentLast(InsertByTime(sorted[..n], s), sorted[n], t);
      assert sorted == sorted[..n] + [sorted[n]];
      MomentLast(sorted[..n], sorted[n], t);
    }
  }

  lemma InitSorted(ss: seq<Sideband>)
    requires Sorted(ss) && ss != []
    ensures Sorted(ss[..|ss| - 1])
  {}

  /** Sorted by time, with the records of each moment in the order of the file. */
  lemma {:induction false} SortIsStable(ss: seq<Sideband>, t: nat)
    ensures Sorted(SortByTime(ss)) && |SortByTime(ss)| == |ss|
    ensures Moment(SortByTime(ss), t) == Moment(ss, t)
  {
    if ss != [] {
      SortIsStable(ss[..|ss| - 1], t);
      InsertSorts(SortByTime(ss[..|ss| - 1]), ss[|ss| - 1]);
      InsertKeepsMoment(SortByTime(ss[..|ss| - 1]), ss[|ss| - 1], t);
    }
  }

  function ReadPerfData(file: Blob): Outcome<PerfData> {
    if |file| < 104 || file[..8] != MAGIC then BadHeader
    else
      var attrsOff, attrsSize := Word(file, 24, 8), Word(file, 32, 8);
      var dataOff, dataSize := Word(file, 40, 8), Word(file, 48, 8);
      if attrsSize < 40 || attrsOff + 40 > |file| || dataOff + dataSize > |file| then BeyondEnd
      else
        var sampleType := Word(file, attrsOff + 24, 8);
        match Gathered(Entries(file, sampleType, dataOff, dataOff + dataSize), sampleType)
        case Read(pd) => Read(pd.(sideband := SortByTime(pd.sideband)))
        case other => other
  }

  /** The reader's loop: advance record by record, appending to what has been found. */
  method ReadFile(file: Blob) returns (r: Outcome<PerfData>)
    ensures r == ReadPerfData(file)
  {
    hide Entries, Gathered, SortByTime, Word;
    if |file| < 104 || file[..8] != MAGIC { return BadHeader; }
    var attrsOff, attrsSize := Word(file, 24, 8), Word(file, 32, 8);
    var dataOff, dataSize := Word(file, 40, 8), Word(file, 48, 8);
    if attrsSize < 40 || attrsOff + 40 > |file| || dataOff + dataSize > |file| { return BeyondEnd; }
    var sampleType := Word(file, attrsOff + 24, 8);
    var all := ReadRecords(file, sampleType, dataOff, dataOff + dataSize);
    match all {
      case Read(pd) => r := Read(pd.(sideband := SortByTime(pd.sideband)));
      case _ => r := all;
    }
  }

  method ReadRecords(file: Blob, sampleType: nat, from: nat, end: nat) returns (r: Outcome<PerfData>)
    requires end <= |file|
    ensures r == Gathered(Entries(file, sampleType, from, end), sampleType)
  {
    hide Entries, Readable, EntryAt, InfoOf, SidesOf, BlobsOf, Joined;
    var pos := from;
    var info, sideband, blobs := NO_INFO, [], [];
    ghost var es: seq<Entry> := [];
    NothingYet(Entries(file, sampleType, from, end));
    while pos + 8 <= end
      invariant info == InfoOf(es) && sideband == SidesOf(es) && blobs == BlobsOf(es)
      invariant Joined(es, Entries(file, sampleType, pos, end)) == Entries(file, sampleType, from, end)
      decreases end - pos
    {
      EntriesStep(file, sampleType, pos, end);
      var size := Word(file, pos + 6, 2);
      if size < 8 || pos + size > end { break; }
      if !Readable(file, pos, size, Word(file, pos, 4), sampleType) {
        JoinedPanic(es);
        return Panicked;
      }
      var e := EntryAt(file, pos, size, sampleType);
      match e {
        case Side(s) => sideband := sideband + [s];
        case Info(i) => info := i;
        case Aux(b) => blobs := blobs + [b];
        case Ignored =>
      }
      JoinedStep(es, e, Entries(file, sampleType, pos + size + Payload(e), end));
      LastEntry(es, e);
      es := es + [e];
      pos := pos + size + Payload(e);
    }
    EntriesEnd(file, sampleType, pos, end);
    JoinedEnd(es);
    r := Read(PerfData(info, sideband, blobs, sampleType));
  }

  function Gathered(all: Outcome<seq<Entry>>, sampleType: nat): Outcome<PerfData> {
    match all
    case Read(es) => Read(PerfData(InfoOf(es), SidesOf(es), BlobsOf(es), sampleType))
    case Panicked => Panicked
    case BadHeader => BadHeader
    case BeyondEnd => BeyondEnd
  }

  /** Whether the bytes at `pos` stop the reading. */
  predicate Stops(file: Blob, pos: nat, end: nat)
    requires end <= |file|
  {
    pos + 8 > end || Word(file, pos + 6, 2) < 8 || pos + Word(file, pos + 6, 2) > end
  }

  lemma EntriesEnd(file: Blob, sampleType: nat, pos: nat, end: nat)
    requires end <= |file| && Stops(file, pos, end)
    ensures Entries(file, sampleType, pos, end) == Read([])
  {}

  lemma EntriesStep(file: Blob, sampleType: nat, pos: nat, end: nat)
    requires end <= |file|
    ensures !Stops(file, pos, end) ==>
              var size := Word(file, pos + 6, 2);
              Entries(file, sampleType, pos, end) ==
              if !Readable(file, pos, size, Word(file, pos, 4), sampleType) then Panicked
              else
                var e := EntryAt(file, pos, size, sampleType);
                Joined([e], Entries(file, sampleType, pos + size + Payload(e), end))
  {}

  lemma NothingYet(all: Outcome<seq<Entry>>)
    ensures Joined([], all) == all && InfoOf([]) == NO_INFO && SidesOf([]) == [] && BlobsOf([]) == []
  {
    if all.Read? { assert [] + all.value == all.value; }
  }

  lemma JoinedPanic(es: seq<Entry>)
    ensures Joined(es, Panicked) == Panicked
  {}

  lemma JoinedEnd(es: seq<Entry>)
    ensures Joined(es, Read([])) == Read(es)
  {
    assert es + [] == es;
  }

  function Joined(es: seq<Entry>, rest: Outcome<seq<Entry>>): Outcome<seq<Entry>> {
    match rest
    case Read(more) => Read(es + more)
    case other => other
  }

  lemma JoinedStep(es: seq<Entry>, e: Entry, rest: Outcome<seq<Entry>>)
    ensures Joined(es, Joined([e], rest)) == Joined(es + [e], rest)
  {
    if rest.Read? { assert es + ([e] + rest.value) == es + [e] + rest.value; }
  }

  lemma LastEntry(es: seq<Entry>, e: Entry)
    ensures InfoOf(es + [e]) == if e.Info? then e.info else InfoOf(es)
    ensures SidesOf(es + [e]) == SidesOf(es) + if e.Side? then [e.side] else []
    ensures BlobsOf(es + [e]) == BlobsOf(es) + if e.Aux? then [e.blob] else []
  {}
}
