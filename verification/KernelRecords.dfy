/**
 * The sideband records that the kernel writes, for any choice of fields behind them: written
 * one after the other, they are read as what they say.
 */
module KernelRecords {
  import opened Lines
  import opened Bytes
  import opened PerfFile
  import opened Bundle

  /** What stands behind a record, as far as the sample type asks for it. */
  datatype Stamp = Stamp(pid: U32, tid: U32, time: U64, id: U64, stream: U64, cpu: U32)

  datatype KernelRecord =
    | LostWritten(id: U64, lost: U64)
    | CommWritten(pid: U32, tid: U32, comm: Blob, exec: bool)
    | ExitWritten(pid: U32, ppid: U32, tid: U32, ptid: U32, time: U64)
    | ForkWritten(pid: U32, ppid: U32, tid: U32, ptid: U32, time: U64)
    | MmapWritten(pid: U32, tid: U32, start: U64, len: U64, pgoff: U64, exec: bool, path: Blob)
    | StartWritten(pid: U32, tid: U32)
    | SwitchWritten(out: bool)
    | SwitchWideWritten(other: U32, otherTid: U32, out: bool)

  // ----- writing -----

  function Kind(k: KernelRecord): U32 {
    match k
    case LostWritten(_, _) => 2
    case CommWritten(_, _, _, _) => 3
    case ExitWritten(_, _, _, _, _) => 4
    case ForkWritten(_, _, _, _, _) => 7
    case MmapWritten(_, _, _, _, _, _, _) => 10
    case StartWritten(_, _) => 12
    case SwitchWritten(_) => 14
    case SwitchWideWritten(_, _, _) => 15
  }

  /** Bit 13 says that a name comes from an exec, or that a task is switched out. */
  function Misc(k: KernelRecord): nat {
    match k
    case CommWritten(_, _, _, exec) => if exec then 0x2000 else 0
    case SwitchWritten(out) => if out then 0x2000 else 0
    case SwitchWideWritten(_, _, out) => if out then 0x2000 else 0
    case _ => 0
  }

  function TaskBytes(pid: U32, ppid: U32, tid: U32, ptid: U32, time: U64): Blob {
    Le(pid, 4) + (Le(ppid, 4) + (Le(tid, 4) + (Le(ptid, 4) + Le(time, 8))))
  }

  function Body(k: KernelRecord): Blob {
    match k
    case LostWritten(id, lost) => Le(id, 8) + Le(lost, 8)
    case CommWritten(pid, tid, comm, _) => Le(pid, 4) + (Le(tid, 4) + Padded(comm, 8))
    case ExitWritten(pid, ppid, tid, ptid, time) => TaskBytes(pid, ppid, tid, ptid, time)
    case ForkWritten(pid, ppid, tid, ptid, time) => TaskBytes(pid, ppid, tid, ptid, time)
    case MmapWritten(pid, tid, start, len, pgoff, exec, path) =>
      Le(pid, 4) + (Le(tid, 4) + (Le(start, 8) + (Le(len, 8) + (Le(pgoff, 8)
      + (Zeros(24) + (Le(if exec then 5 else 1, 4) + (Le(2, 4) + Padded(path, 8))))))))
    case StartWritten(pid, tid) => Le(pid, 4) + Le(tid, 4)
    case SwitchWritten(_) => []
    case SwitchWideWritten(other, otherTid, _) => Le(other, 4) + Le(otherTid, 4)
  }

  function If(yes: bool, b: Blob): Blob { if yes then b else [] }

  /** The fields behind a record, each present exactly if its bit of the sample type is set. */
  function StampBytes(st: nat, s: Stamp): (b: Blob)
    ensures |b| == TrailerLen(st)
  {
    If(Bit(st, 1), Le(s.pid, 4) + Le(s.tid, 4))
    + (If(Bit(st, 2), Le(s.time, 8))
    + (If(Bit(st, 6), Le(s.id, 8))
    + (If(Bit(st, 9), Le(s.stream, 8))
    + (If(Bit(st, 7), Le(s.cpu, 4) + Le(0, 4))
    + If(Bit(st, 16), Le(s.id, 8))))))
  }

  function Write(st: nat, k: KernelRecord, s: Stamp): Blob {
    RecordBytes(Kind(k), Misc(k), Body(k), StampBytes(st, s))
  }

  function RecordSize(st: nat, k: KernelRecord): nat { 8 + |Body(k)| + TrailerLen(st) }

  // ----- what it says -----

  /** The stamp as it is read: what is not written is 0. */
  function Seen(st: nat, s: Stamp): Trailer {
    Trailer(if Bit(st, 1) then s.pid else 0, if Bit(st, 1) then s.tid else 0, if Bit(st, 2) then s.time else 0,
            if Bit(st, 7) then s.cpu else 0)
  }

  function Says(st: nat, k: KernelRecord, s: Stamp): Sideband {
    var t := Seen(st, s);
    match k
    case LostWritten(_, lost) => Lost(t.time, t.cpu, lost)
    case CommWritten(pid, tid, comm, exec) => Comm(pid, tid, t.time, TrimNul(comm), exec)
    case ExitWritten(pid, ppid, tid, ptid, time) => Exit(pid, ppid, tid, ptid, time)
    case ForkWritten(pid, ppid, tid, ptid, time) => Fork(pid, ppid, tid, ptid, time)
    case MmapWritten(pid, tid, start, len, pgoff, exec, path) =>
      Mmap(pid, tid, t.time, start, len, pgoff, exec, TrimNul(path))
    case StartWritten(pid, tid) => ItraceStart(pid, tid, t.cpu, t.time)
    case SwitchWritten(out) => Switch(t.pid, t.tid, t.cpu, t.time, out)
    case SwitchWideWritten(_, _, out) => Switch(t.pid, t.tid, t.cpu, t.time, out)
  }

  // ----- reading -----

  lemma PartReads(file: Blob, at: nat, yes: bool, b: Blob, rest: Blob)
    requires Holds(file, at, If(yes, b) + rest)
    ensures yes ==> Holds(file, at, b)
    ensures Holds(file, at + (if yes then |b| else 0), rest)
  {
    Apart(file, at, If(yes, b), rest);
  }

  function TimeAt(st: nat): nat { Flag(st, 1) }

  function CpuAt(st: nat): nat { Flag(st, 1) + Flag(st, 2) + Flag(st, 6) + Flag(st, 9) }

  /** Where the fields that are looked at stand. */
  lemma StampParts(file: Blob, at: nat, st: nat, s: Stamp)
    requires Holds(file, at, StampBytes(st, s))
    ensures Bit(st, 1) ==> Holds(file, at, Le(s.pid, 4) + Le(s.tid, 4))
    ensures Bit(st, 2) ==> Holds(file, at + TimeAt(st), Le(s.time, 8))
    ensures Bit(st, 7) ==> Holds(file, at + CpuAt(st), Le(s.cpu, 4) + Le(0, 4))
  {
    hide Holds, Le, Bit, If;
    var (b, c, d, e, f) := (Le(s.time, 8), Le(s.id, 8), Le(s.stream, 8), Le(s.cpu, 4) + Le(0, 4),
                            If(Bit(st, 16), Le(s.id, 8)));
    var r4 := If(Bit(st, 7), e) + f;
    var r3 := If(Bit(st, 9), d) + r4;
    var r2 := If(Bit(st, 6), c) + r3;
    PartReads(file, at, Bit(st, 1), Le(s.pid, 4) + Le(s.tid, 4), If(Bit(st, 2), b) + r2);
    PartReads(file, at + Flag(st, 1), Bit(st, 2), b, r2);
    PartReads(file, at + Flag(st, 1) + Flag(st, 2), Bit(st, 6), c, r3);
    PartReads(file, at + Flag(st, 1) + Flag(st, 2) + Flag(st, 6), Bit(st, 9), d, r4);
    PartReads(file, at + CpuAt(st), Bit(st, 7), e, f);
  }

  lemma TwoWords(file: Blob, pos: nat, size: nat, at: nat, v: U32, w: U32)
    requires pos + size <= |file| && at + 8 <= size && Holds(file, pos + at, Le(v, 4) + Le(w, 4))
    ensures Word(file[pos..pos + size], at, 4) == v && Word(file[pos..pos + size], at + 4, 4) == w
  {
    hide Holds, Word, Le, Limit;
    Limits();
    Take(file, pos + at, v, 4, Le(w, 4));
    LastWord(file, pos + at + 4, w, 4);
    WordInside(file, pos, size, at, 4);
    WordInside(file, pos, size, at + 4, 4);
  }

  lemma OneWord(file: Blob, pos: nat, size: nat, at: nat, v: U64)
    requires pos + size <= |file| && at + 8 <= size && Holds(file, pos + at, Le(v, 8))
    ensures Word(file[pos..pos + size], at, 8) == v
  {
    hide Holds, Word, Le, Limit;
    Limits();
    LastWord(file, pos + at, v, 8);
    WordInside(file, pos, size, at, 8);
  }

  lemma StampReads(file: Blob, pos: nat, size: nat, st: nat, s: Stamp)
    requires TrailerLen(st) <= size && pos + size <= |file|
             && Holds(file, pos + size - TrailerLen(st), StampBytes(st, s))
    ensures ParseTrailer(file[pos..pos + size], st) == Seen(st, s)
  {
    hide Holds, Word, Le, Bit, StampBytes;
    var o := size - TrailerLen(st);
    StampParts(file, pos + o, st, s);
    if Bit(st, 1) { TwoWords(file, pos, size, o, s.pid, s.tid); }
    if Bit(st, 2) { OneWord(file, pos, size, o + TimeAt(st), s.time); }
    if Bit(st, 7) { TwoWords(file, pos, size, o + CpuAt(st), s.cpu, 0); }
  }

  /** The record is read where it stands as what it says. */
  ghost predicate Back(file: Blob, pos: nat, st: nat, k: KernelRecord, s: Stamp) {
    var size := RecordSize(st, k);
    && pos + size <= |file| && Word(file, pos + 6, 2) == size
    && Readable(file, pos, size, Word(file, pos, 4), st) && EntryAt(file, pos, size, st) == Side(Says(st, k, s))
  }

  /** The header, body and stamp of a record that stands in the file. */
  ghost predicate Stands(file: Blob, pos: nat, st: nat, k: KernelRecord, s: Stamp) {
    var size := RecordSize(st, k);
    && pos + size <= |file| && Word(file, pos, 4) == Kind(k) && Word(file, pos + 4, 2) == Misc(k)
    && Word(file, pos + 6, 2) == size && Holds(file, pos + 8, Body(k))
    && ParseTrailer(file[pos..pos + size], st) == Seen(st, s)
  }

  lemma RecordStands(file: Blob, pos: nat, st: nat, k: KernelRecord, s: Stamp)
    requires Holds(file, pos, Write(st, k, s)) && RecordSize(st, k) < 0x1_0000
    ensures Stands(file, pos, st, k, s)
  {
    hide Holds, Word, StampBytes, Body, TrailerLen, ParseTrailer;
    HeaderReads(file, pos, Kind(k), Misc(k), Body(k), StampBytes(st, s));
    StampReads(file, pos, RecordSize(st, k), st, s);
  }

  lemma TaskReads(file: Blob, at: nat, pid: U32, ppid: U32, tid: U32, ptid: U32, time: U64)
    requires Holds(file, at, TaskBytes(pid, ppid, tid, ptid, time))
    ensures at + 24 <= |file| && Word(file, at, 4) == pid && Word(file, at + 4, 4) == ppid
            && Word(file, at + 8, 4) == tid
    ensures Word(file, at + 12, 4) == ptid && Word(file, at + 16, 8) == time
  {
    hide Holds, Word, Le, Limit;
    Limits();
    Take(file, at, pid, 4, Le(ppid, 4) + (Le(tid, 4) + (Le(ptid, 4) + Le(time, 8))));
    Take(file, at + 4, ppid, 4, Le(tid, 4) + (Le(ptid, 4) + Le(time, 8)));
    Take(file, at + 8, tid, 4, Le(ptid, 4) + Le(time, 8));
    Take(file, at + 12, ptid, 4, Le(time, 8));
    LastWord(file, at + 16, time, 8);
  }

  lemma DirectionBits()
    ensures Bit(0x2000, 13) && !Bit(0, 13) && Bit(5, 2) && !Bit(1, 2)
  {
    BundleFlags();
    assert Bit(1, 2) == Bit(0, 1) == Bit(0, 0);
  }

  lemma TaskBack(file: Blob, pos: nat, st: nat, k: KernelRecord, s: Stamp)
    requires Stands(file, pos, st, k, s) && (k.ExitWritten? || k.ForkWritten?)
    ensures Back(file, pos, st, k, s)
  {
    hide Holds, Word, ParseTrailer, TrailerLen, Bit, TaskBytes, InfoAt;
    TaskReads(file, pos + 8, k.pid, k.ppid, k.tid, k.ptid, k.time);
  }

  lemma SwitchBack(file: Blob, pos: nat, st: nat, k: KernelRecord, s: Stamp)
    requires Stands(file, pos, st, k, s) && (k.SwitchWritten? || k.SwitchWideWritten?)
    ensures Back(file, pos, st, k, s)
  {
    hide Holds, Word, ParseTrailer, TrailerLen, Bit, InfoAt;
    DirectionBits();
  }

  lemma LostBack(file: Blob, pos: nat, st: nat, k: KernelRecord, s: Stamp)
    requires Stands(file, pos, st, k, s) && k.LostWritten?
    ensures Back(file, pos, st, k, s)
  {
    hide Holds, Word, Le, Limit, ParseTrailer, TrailerLen, Bit, InfoAt;
    Limits();
    Take(file, pos + 8, k.id, 8, Le(k.lost, 8));
    LastWord(file, pos + 16, k.lost, 8);
  }

  lemma StartBack(file: Blob, pos: nat, st: nat, k: KernelRecord, s: Stamp)
    requires Stands(file, pos, st, k, s) && k.StartWritten?
    ensures Back(file, pos, st, k, s)
  {
    hide Holds, Word, Le, Limit, ParseTrailer, TrailerLen, Bit, InfoAt;
    Limits();
    Take(file, pos + 8, k.pid, 4, Le(k.tid, 4));
    LastWord(file, pos + 12, k.tid, 4);
  }

  lemma CommBack(file: Blob, pos: nat, st: nat, k: KernelRecord, s: Stamp)
    requires Stands(file, pos, st, k, s) && k.CommWritten?
    ensures Back(file, pos, st, k, s)
  {
    hide Holds, Word, Le, Limit, ParseTrailer, TrailerLen, Bit, InfoAt, Padded, PaddedLength, TrimNul;
    Limits();
    DirectionBits();
    Take(file, pos + 8, k.pid, 4, Le(k.tid, 4) + Padded(k.comm, 8));
    Take(file, pos + 12, k.tid, 4, Padded(k.comm, 8));
    HeldSlice(file, pos + 16, Padded(k.comm, 8));
    PaddedTrims(k.comm, 8);
  }

  lemma MmapFieldsRead(file: Blob, at: nat, k: KernelRecord)
    requires k.MmapWritten? && Holds(file, at, Body(k))
    ensures at + 64 <= |file| && Word(file, at, 4) == k.pid && Word(file, at + 4, 4) == k.tid
    ensures Word(file, at + 8, 8) == k.start && Word(file, at + 16, 8) == k.len && Word(file, at + 24, 8) == k.pgoff
    ensures Word(file, at + 56, 4) == (if k.exec then 5 else 1) && Holds(file, at + 64, Padded(k.path, 8))
    ensures |Body(k)| == 64 + |Padded(k.path, 8)| && |Padded(k.path, 8)| > 0
  {
    hide Holds, Word, Le, Limit, Padded, PaddedLength, Zeros;
    Limits();
    var prot := if k.exec then 5 else 1;
    var tail := Le(prot, 4) + (Le(2, 4) + Padded(k.path, 8));
    Take(file, at, k.pid, 4, Le(k.tid, 4) + (Le(k.start, 8) + (Le(k.len, 8) + (Le(k.pgoff, 8) + (Zeros(24) + tail)))));
    Take(file, at + 4, k.tid, 4, Le(k.start, 8) + (Le(k.len, 8) + (Le(k.pgoff, 8) + (Zeros(24) + tail))));
    Take(file, at + 8, k.start, 8, Le(k.len, 8) + (Le(k.pgoff, 8) + (Zeros(24) + tail)));
    Take(file, at + 16, k.len, 8, Le(k.pgoff, 8) + (Zeros(24) + tail));
    Take(file, at + 24, k.pgoff, 8, Zeros(24) + tail);
    Apart(file, at + 32, Zeros(24), tail);
    Take(file, at + 56, prot, 4, Le(2, 4) + Padded(k.path, 8));
    Take(file, at + 60, 2, 4, Padded(k.path, 8));
  }

  lemma MmapBack(file: Blob, pos: nat, st: nat, k: KernelRecord, s: Stamp)
    requires Stands(file, pos, st, k, s) && k.MmapWritten?
    ensures Back(file, pos, st, k, s)
  {
    hide Holds, Word, ParseTrailer, TrailerLen, Bit, InfoAt, Padded, PaddedLength, TrimNul, Body;
    DirectionBits();
    MmapFieldsRead(file, pos + 8, k);
    HeldSlice(file, pos + 72, Padded(k.path, 8));
    PaddedTrims(k.path, 8);
  }

  /** Every kind, with every choice of fields behind it, is read as what it says. */
  lemma RecordReads(file: Blob, pos: nat, st: nat, k: KernelRecord, s: Stamp)
    requires Holds(file, pos, Write(st, k, s)) && RecordSize(st, k) < 0x1_0000
    ensures Back(file, pos, st, k, s)
  {
    hide Stands, Back, Holds, Write, RecordSize;
    RecordStands(file, pos, st, k, s);
    match k
    case LostWritten(_, _) => LostBack(file, pos, st, k, s);
    case CommWritten(_, _, _, _) => CommBack(file, pos, st, k, s);
    case MmapWritten(_, _, _, _, _, _, _) => MmapBack(file, pos, st, k, s);
    case StartWritten(_, _) => StartBack(file, pos, st, k, s);
    case ExitWritten(_, _, _, _, _) => TaskBack(file, pos, st, k, s);
    case ForkWritten(_, _, _, _, _) => TaskBack(file, pos, st, k, s);
    case SwitchWritten(_) => SwitchBack(file, pos, st, k, s);
    case SwitchWideWritten(_, _, _) => SwitchBack(file, pos, st, k, s);
  }

  // ----- one after the other -----

  function WriteAll(st: nat, ks: seq<(KernelRecord, Stamp)>): Blob {
    if ks == [] then [] else Write(st, ks[0].0, ks[0].1) + WriteAll(st, ks[1..])
  }

  function SaysAll(st: nat, ks: seq<(KernelRecord, Stamp)>): (es: seq<Entry>)
    ensures |es| == |ks| && forall i :: 0 <= i < |ks| ==> es[i] == Side(Says(st, ks[i].0, ks[i].1))
  {
    seq(|ks|, i requires 0 <= i < |ks| => Side(Says(st, ks[i].0, ks[i].1)))
  }

  predicate AllSmall(st: nat, ks: seq<(KernelRecord, Stamp)>) {
    forall i :: 0 <= i < |ks| ==> RecordSize(st, ks[i].0) < 0x1_0000
  }

  lemma BackEntry(file: Blob, pos: nat, st: nat, k: KernelRecord, s: Stamp, end: nat)
    requires Back(file, pos, st, k, s) && pos + RecordSize(st, k) <= end <= |file|
    ensures var rest := Entries(file, st, pos + RecordSize(st, k), end);
            Entries(file, st, pos, end)
            == match rest { case Read(es) => Read([Side(Says(st, k, s))] + es) case other => other }
  {
    hide EntryAt, Says, Word;
  }

  /** A data section of kernel records is read record by record, whatever the sample type. */
  lemma {:induction false} RecordsRead(file: Blob, pos: nat, st: nat, ks: seq<(KernelRecord, Stamp)>)
    requires Holds(file, pos, WriteAll(st, ks)) && AllSmall(st, ks)
    ensures pos + |WriteAll(st, ks)| <= |file|
    ensures Entries(file, st, pos, pos + |WriteAll(st, ks)|) == Read(SaysAll(st, ks))
    decreases |ks|
  {
    hide Holds, Write, Back, EntryAt, Readable, Says, Word, Body;
    HoldsWithin(file, pos, WriteAll(st, ks));
    if ks == [] {
      assert SaysAll(st, ks) == [];
    } else {
      hide Entries;
      var k, s, rest := ks[0].0, ks[0].1, ks[1..];
      Apart(file, pos, Write(st, k, s), WriteAll(st, rest));
      RecordReads(file, pos, st, k, s);
      WrittenLength(st, k, s);
      RecordsRead(file, pos + RecordSize(st, k), st, rest);
      BackEntry(file, pos, st, k, s, pos + |WriteAll(st, ks)|);
      assert SaysAll(st, ks) == [Side(Says(st, k, s))] + SaysAll(st, rest);
    }
  }

  lemma WrittenLength(st: nat, k: KernelRecord, s: Stamp)
    ensures |Write(st, k, s)| == RecordSize(st, k)
  {}
}
