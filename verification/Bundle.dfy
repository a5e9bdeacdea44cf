/**
 * The recorder's own perf.data bundle: written record by record, and read back
 * by the reader of perf files with nothing lost.
 */
module Bundle {
  import TraceTypes
  import opened Lines
  import opened Bytes
  import opened PerfFile

  /** The fields TID, TIME, CPU and IDENTIFIER of the trailer, and IP, which has no place in it. */
  const SAMPLE_TYPE: nat := 0x10087

  const COMM_EXEC: nat := 0x2000

  // ----- what is written -----

  datatype Item =
    | InfoItem(info: PtInfo)
    | ForkItem(pid: U32, ppid: U32, tid: U32, ptid: U32, cpu: U32)
    | CommItem(pid: U32, tid: U32, time: U64, exec: bool, name: Blob, cpu: U32)
    | MmapItem(pid: U32, time: U64, start: U64, len: U64, pgoff: U64, path: Blob)
    | StartItem(pid: U32, tid: U32, cpu: U32)
    | AuxItem(tid: U32, cpu: U32, blob: Blob)

  function Zeros(n: nat): (z: Blob)
    ensures |z| == n && forall k :: 0 <= k < n ==> z[k] == 0
  {
    seq(n, k => 0)
  }

  /** The length of a name with its closing NUL, at least `min` and a multiple of eight. */
  function PaddedLength(n: nat, min: nat): (r: nat)
    ensures r > n && r >= min && r % 8 == 0 && (r < n + 9 || r < min + 8)
  {
    var k := if n + 1 < min then min else n + 1;
    (k + 7) / 8 * 8
  }

  function Padded(s: Blob, min: nat): (b: Blob)
    ensures |b| == PaddedLength(|s|, min)
  {
    s + Zeros(PaddedLength(|s|, min) - |s|)
  }

  method Pad(s: Blob, min: nat) returns (b: Blob)
    ensures b == Padded(s, min)
  {
    b := s + [0];
    assert b == s + Zeros(1);
    while |b| < min || |b| % 8 != 0
      invariant |s| < |b| <= PaddedLength(|s|, min)
      invariant b == s + Zeros(|b| - |s|)
      decreases PaddedLength(|s|, min) - |b|
    {
      b := b + [0];
      assert b == s + Zeros(|b| - |s|);
    }
  }

  function TrailerBytes(pid: U32, tid: U32, time: U64, cpu: U32): (t: Blob)
    ensures |t| == 32
  {
    Le(pid, 4) + (Le(tid, 4) + (Le(time, 8) + (Le(cpu, 4) + (Le(0, 4) + Le(0, 8)))))
  }

  /** A record; only the low sixteen bits of its size are written. */
  function RecordBytes(kind: U32, misc: nat, body: Blob, trail: Blob): (r: Blob)
    ensures |r| == 8 + |body| + |trail|
  {
    Le(kind, 4) + (Le(misc, 2) + (Le(8 + |body| + |trail|, 2) + (body + trail)))
  }

  function FlagWord(b: bool): nat { if b then 1 else 0 }

  function InfoWords(i: PtInfo): (w: seq<nat>)
    ensures |w| == 17
  {
    [i.pmuType, i.timeShift, i.timeMult, i.timeZero, FlagWord(i.capUserTimeZero), i.tscBit, i.noretcompBit,
     i.haveSchedSwitch, FlagWord(i.snapshotMode), FlagWord(i.perCpuMmaps), i.mtcBit, i.mtcFreqBits, i.ratioN, i.ratioD,
     i.cycBit, i.maxNonturboRatio, 0]
  }

  function WordBytes(ws: seq<nat>): (b: Blob)
    ensures |b| == 8 * |ws|
  {
    if ws == [] then [] else Le(ws[0], 8) + WordBytes(ws[1..])
  }

  predicate InfoFits(i: PtInfo) {
    forall k :: 0 <= k < 17 ==> InfoWords(i)[k] < 0x1_0000_0000_0000_0000
  }

  function Body(i: Item): Blob {
    match i
    case InfoItem(info) => Le(1, 4) + (Le(0, 4) + WordBytes(InfoWords(info)))
    case ForkItem(pid, ppid, tid, ptid, _) => Le(pid, 4) + (Le(ppid, 4) + (Le(tid, 4) + (Le(ptid, 4) + Le(0, 8))))
    case CommItem(pid, tid, _, _, name, _) => Le(pid, 4) + (Le(tid, 4) + Padded(name, 16))
    case MmapItem(pid, _, start, len, pgoff, path) =>
      Le(pid, 4) + (Le(pid, 4) + (Le(start, 8)
                                  + (Le(len, 8) + (Le(pgoff, 8) + (Zeros(24)
                                                                   + (Le(5, 4) + (Le(0, 4) + Padded(path, 8))))))))
    case StartItem(pid, tid, _) => Le(pid, 4) + Le(tid, 4)
    case AuxItem(tid, cpu, blob) =>
      Le(|blob|, 8) + (Le(0, 8) + (Le(0, 8) + (Le(cpu, 4) + (Le(tid, 4) + (Le(cpu, 4) + Le(0, 4))))))
  }

  function Trail(i: Item): Blob {
    match i
    case ForkItem(pid, _, tid, _, cpu) => TrailerBytes(pid, tid, 0, cpu)
    case CommItem(pid, tid, time, _, _, cpu) => TrailerBytes(pid, tid, time, cpu)
    case MmapItem(pid, time, _, _, _, _) => TrailerBytes(pid, pid, time, 0)
    case StartItem(pid, tid, cpu) => TrailerBytes(pid, tid, 0, cpu)
    case _ => []
  }

  function Kind(i: Item): U32 {
    match i
    case InfoItem(_) => 70
    case ForkItem(_, _, _, _, _) => 7
    case CommItem(_, _, _, _, _, _) => 3
    case MmapItem(_, _, _, _, _, _) => 10
    case StartItem(_, _, _) => 12
    case AuxItem(_, _, _) => 71
  }

  function Misc(i: Item): nat {
    match i
    case CommItem(_, _, _, exec, _, _) => if exec then COMM_EXEC else 0
    case MmapItem(_, _, _, _, _, _) => 2
    case _ => 0
  }

  function Encode(i: Item): Blob {
    RecordBytes(Kind(i), Misc(i), Body(i), Trail(i)) + if i.AuxItem? then i.blob else []
  }

  function EncodeAll(items: seq<Item>): Blob {
    if items == [] then [] else Encode(items[0]) + EncodeAll(items[1..])
  }

  function Size(i: Item): nat { 8 + |Body(i)| + |Trail(i)| }

  /** The size fits its sixteen bits, and trace lengths and parameters their words. */
  predicate Representable(i: Item) {
    && Size(i) < 0x1_0000
    && (i.InfoItem? ==> InfoFits(i.info))
    && (i.AuxItem? ==> |i.blob| < 0x1_0000_0000_0000_0000)
  }

  // ----- what is read back -----

  /** What a written item says: names lose the NULs they end in. */
  function Meaning(i: Item, pos: nat): Entry {
    match i
    case InfoItem(info) => Info(info)
    case ForkItem(pid, ppid, tid, ptid, _) => Side(Fork(pid, ppid, tid, ptid, 0))
    case CommItem(pid, tid, time, exec, name, _) => Side(Comm(pid, tid, time, TrimNul(name), exec))
    case MmapItem(pid, time, start, len, pgoff, path) =>
      Side(Mmap(pid, pid, time, start, len, pgoff, true, TrimNul(path)))
    case StartItem(pid, tid, cpu) => Side(ItraceStart(pid, tid, cpu, 0))
    case AuxItem(tid, cpu, blob) => Aux(AuxBlob(cpu, tid, |blob|, pos + 48))
  }

  lemma BundleFlags()
    ensures TrailerLen(SAMPLE_TYPE) == 32
    ensures Bit(SAMPLE_TYPE, 1) && Bit(SAMPLE_TYPE, 2) && Bit(SAMPLE_TYPE, 7)
    ensures !Bit(SAMPLE_TYPE, 6) && !Bit(SAMPLE_TYPE, 9)
    ensures Bit(COMM_EXEC, 13) && !Bit(0, 13) && Bit(5, 2)
  {
    assert Bit(0x1008, 3) == Bit(0x804, 2);
    assert Bit(0x804, 2) == Bit(0x402, 1);
    Nibble(0x10087, 16);
    Nibble(0x1008, 12);
    Nibble(0x100, 8);
    Nibble(0x10, 4);
    Nibble(0x10087, 9);
    Nibble(0x1008, 5);
    Nibble(0x10087, 7);
    Nibble(0x10087, 6);
    Nibble(0x2000, 13);
    Nibble(0x200, 9);
    Nibble(0x20, 5);
    Nibble(0, 13);
    Nibble(0, 9);
    Nibble(0, 5);
  }

  lemma Nibble(v: nat, k: nat)
    requires k >= 4
    ensures Bit(v, k) == Bit(v / 16, k - 4)
  {
    assert Bit(v, k) == Bit(v / 2, k - 1) == Bit(v / 4, k - 2) == Bit(v / 8, k - 3);
  }

  lemma HeaderReads(file: Blob, pos: nat, kind: U32, misc: nat, body: Blob, trail: Blob)
    requires Holds(file, pos, RecordBytes(kind, misc, body, trail)) && misc < 0x1_0000
             && 8 + |body| + |trail| < 0x1_0000
    ensures pos + 8 + |body| + |trail| <= |file|
    ensures Word(file, pos, 4) == kind && Word(file, pos + 4, 2) == misc
            && Word(file, pos + 6, 2) == 8 + |body| + |trail|
    ensures Holds(file, pos + 8, body) && Holds(file, pos + 8 + |body|, trail)
  {
    hide Holds, Word, Le, Limit;
    Limits();
    var size := 8 + |body| + |trail|;
    Take(file, pos, kind, 4, Le(misc, 2) + (Le(size, 2) + (body + trail)));
    Take(file, pos + 4, misc, 2, Le(size, 2) + (body + trail));
    Take(file, pos + 6, size, 2, body + trail);
    Apart(file, pos + 8, body, trail);
    HoldsWithin(file, pos + 8, body + trail);
  }

  lemma HoldsWithin(file: Blob, pos: nat, s: Blob)
    requires Holds(file, pos, s)
    ensures pos + |s| <= |file|
  {}

  lemma WordInside(file: Blob, pos: nat, size: nat, at: nat, n: nat)
    requires pos + size <= |file| && at + n <= size
    ensures Word(file[pos..pos + size], at, n) == Word(file, pos + at, n)
  {
    var rec := file[pos..pos + size];
    var a, b := rec[at..at + n], file[pos + at..pos + at + n];
    assert |a| == |b|;
    assert forall k :: 0 <= k < n ==> a[k] == rec[at + k] && b[k] == file[pos + at + k];
    assert a == b;
  }

  lemma TrailerReads(file: Blob, pos: nat, size: nat, pid: U32, tid: U32, time: U64, cpu: U32)
    requires size >= 32 && pos + size <= |file| && Holds(file, pos + size - 32, TrailerBytes(pid, tid, time, cpu))
    ensures ParseTrailer(file[pos..pos + size], SAMPLE_TYPE) == Trailer(pid, tid, time, cpu)
  {
    hide Holds, Word, Le, Limit, Bit;
    Limits();
    BundleFlags();
    var o := pos + size - 32;
    Take(file, o, pid, 4, Le(tid, 4) + (Le(time, 8) + (Le(cpu, 4) + (Le(0, 4) + Le(0, 8)))));
    Take(file, o + 4, tid, 4, Le(time, 8) + (Le(cpu, 4) + (Le(0, 4) + Le(0, 8))));
    Take(file, o + 8, time, 8, Le(cpu, 4) + (Le(0, 4) + Le(0, 8)));
    Take(file, o + 16, cpu, 4, Le(0, 4) + Le(0, 8));
    WordInside(file, pos, size, size - 32, 4);
    WordInside(file, pos, size, size - 28, 4);
    WordInside(file, pos, size, size - 24, 8);
    WordInside(file, pos, size, size - 16, 4);
  }

  /** The header of an item that stands in the file, and where its body and trailer stand. */
  lemma ItemHeader(file: Blob, pos: nat, i: Item)
    requires Holds(file, pos, Encode(i)) && Representable(i)
    ensures pos + Size(i) <= |file|
    ensures Word(file, pos, 4) == Kind(i) && Word(file, pos + 4, 2) == Misc(i) && Word(file, pos + 6, 2) == Size(i)
    ensures Holds(file, pos + 8, Body(i)) && Holds(file, pos + 8 + |Body(i)|, Trail(i))
    ensures i.AuxItem? ==> Holds(file, pos + Size(i), i.blob)
  {
    hide Holds, Word, Body, Trail;
    Apart(file, pos, RecordBytes(Kind(i), Misc(i), Body(i), Trail(i)), if i.AuxItem? then i.blob else []);
    HeaderReads(file, pos, Kind(i), Misc(i), Body(i), Trail(i));
  }

  /** The item can be read where it stands, and is read as what it means. */
  ghost predicate ReadsBack(file: Blob, pos: nat, i: Item) {
    && pos + Size(i) <= |file|
    && Word(file, pos + 6, 2) == Size(i)
    && Readable(file, pos, Size(i), Word(file, pos, 4), SAMPLE_TYPE)
    && EntryAt(file, pos, Size(i), SAMPLE_TYPE) == Meaning(i, pos)
  }

  lemma ForkReads(file: Blob, pos: nat, i: Item)
    requires Holds(file, pos, Encode(i)) && Representable(i) && i.ForkItem?
    ensures ReadsBack(file, pos, i)
  {
    hide Holds, Word, Le, Limit, ParseTrailer, TrailerLen, TrailerBytes, Bit, Encode;
    Limits();
    ItemHeader(file, pos, i);
    Take(file, pos + 8, i.pid, 4, Le(i.ppid, 4) + (Le(i.tid, 4) + (Le(i.ptid, 4) + Le(0, 8))));
    Take(file, pos + 12, i.ppid, 4, Le(i.tid, 4) + (Le(i.ptid, 4) + Le(0, 8)));
    Take(file, pos + 16, i.tid, 4, Le(i.ptid, 4) + Le(0, 8));
    Take(file, pos + 20, i.ptid, 4, Le(0, 8));
    LastWord(file, pos + 24, 0, 8);
  }

  lemma LastWord(file: Blob, at: nat, v: nat, n: nat)
    requires Holds(file, at, Le(v, n)) && v < Limit(n)
    ensures at + n <= |file| && Word(file, at, n) == v
  {
    assert Le(v, n) + [] == Le(v, n);
    Take(file, at, v, n, []);
  }

  lemma StartReads(file: Blob, pos: nat, i: Item)
    requires Holds(file, pos, Encode(i)) && Representable(i) && i.StartItem?
    ensures ReadsBack(file, pos, i)
  {
    hide Holds, Word, Le, Limit, ParseTrailer, TrailerLen, TrailerBytes, Bit, Encode;
    Limits();
    ItemHeader(file, pos, i);
    Take(file, pos + 8, i.pid, 4, Le(i.tid, 4));
    LastWord(file, pos + 12, i.tid, 4);
    TrailerReads(file, pos, Size(i), i.pid, i.tid, 0, i.cpu);
  }

  lemma AuxReads(file: Blob, pos: nat, i: Item)
    requires Holds(file, pos, Encode(i)) && Representable(i) && i.AuxItem?
    ensures ReadsBack(file, pos, i) && Holds(file, pos + 48, i.blob)
  {
    hide Holds, Word, Le, Limit, ParseTrailer, TrailerLen, TrailerBytes, Bit, Encode;
    Limits();
    ItemHeader(file, pos, i);
    Take(file, pos + 8, |i.blob|, 8,
         Le(0, 8) + (Le(0, 8) + (Le(i.cpu, 4) + (Le(i.tid, 4) + (Le(i.cpu, 4) + Le(0, 4))))));
    Take(file, pos + 16, 0, 8, Le(0, 8) + (Le(i.cpu, 4) + (Le(i.tid, 4) + (Le(i.cpu, 4) + Le(0, 4)))));
    Take(file, pos + 24, 0, 8, Le(i.cpu, 4) + (Le(i.tid, 4) + (Le(i.cpu, 4) + Le(0, 4))));
    Take(file, pos + 32, i.cpu, 4, Le(i.tid, 4) + (Le(i.cpu, 4) + Le(0, 4)));
    Take(file, pos + 36, i.tid, 4, Le(i.cpu, 4) + Le(0, 4));
    Take(file, pos + 40, i.cpu, 4, Le(0, 4));
  }

  lemma PaddedTrims(s: Blob, min: nat)
    ensures TrimNul(Padded(s, min)) == TrimNul(s)
  {
    TrimZeros(s, Zeros(PaddedLength(|s|, min) - |s|));
  }

  lemma HeldSlice(file: Blob, at: nat, s: Blob)
    requires Holds(file, at, s)
    ensures at + |s| <= |file| && file[at..at + |s|] == s
  {}

  lemma CommFields(file: Blob, pos: nat, i: Item)
    requires i.CommItem? && Holds(file, pos + 8, Body(i))
    ensures pos + 16 <= |file| && Word(file, pos + 8, 4) == i.pid && Word(file, pos + 12, 4) == i.tid
    ensures Holds(file, pos + 16, Padded(i.name, 16)) && |Body(i)| == 8 + |Padded(i.name, 16)|
  {
    hide Holds, Word, Le, Limit, Padded, PaddedLength;
    Limits();
    Take(file, pos + 8, i.pid, 4, Le(i.tid, 4) + Padded(i.name, 16));
    Take(file, pos + 12, i.tid, 4, Padded(i.name, 16));
  }

  lemma CommReads(file: Blob, pos: nat, i: Item)
    requires Holds(file, pos, Encode(i)) && Representable(i) && i.CommItem?
    ensures ReadsBack(file, pos, i)
  {
    hide Holds, Word, Le, ParseTrailer, TrailerLen, TrailerBytes, Bit, Encode, Padded, PaddedLength, TrimNul, InfoAt,
         Body;
    BundleFlags();
    ItemHeader(file, pos, i);
    CommFields(file, pos, i);
    TrailerReads(file, pos, Size(i), i.pid, i.tid, i.time, i.cpu);
    HeldSlice(file, pos + 16, Padded(i.name, 16));
    PaddedTrims(i.name, 16);
  }

  lemma MmapFields(file: Blob, pos: nat, i: Item)
    requires i.MmapItem? && Holds(file, pos + 8, Body(i))
    ensures pos + 72 <= |file| && Word(file, pos + 8, 4) == i.pid && Word(file, pos + 12, 4) == i.pid
    ensures Word(file, pos + 16, 8) == i.start && Word(file, pos + 24, 8) == i.len && Word(file, pos + 32, 8) == i.pgoff
    ensures Word(file, pos + 64, 4) == 5 && Holds(file, pos + 72, Padded(i.path, 8))
  {
    hide Holds, Word, Le, Limit, Padded, PaddedLength, Zeros;
    Limits();
    var tail := Le(5, 4) + (Le(0, 4) + Padded(i.path, 8));
    Take(file, pos + 8, i.pid, 4,
         Le(i.pid, 4) + (Le(i.start, 8) + (Le(i.len, 8) + (Le(i.pgoff, 8) + (Zeros(24) + tail)))));
    Take(file, pos + 12, i.pid, 4, Le(i.start, 8) + (Le(i.len, 8) + (Le(i.pgoff, 8) + (Zeros(24) + tail))));
    Take(file, pos + 16, i.start, 8, Le(i.len, 8) + (Le(i.pgoff, 8) + (Zeros(24) + tail)));
    Take(file, pos + 24, i.len, 8, Le(i.pgoff, 8) + (Zeros(24) + tail));
    Take(file, pos + 32, i.pgoff, 8, Zeros(24) + tail);
    Apart(file, pos + 40, Zeros(24), tail);
    Take(file, pos + 64, 5, 4, Le(0, 4) + Padded(i.path, 8));
    Take(file, pos + 68, 0, 4, Padded(i.path, 8));
  }

  lemma MmapReads(file: Blob, pos: nat, i: Item)
    requires Holds(file, pos, Encode(i)) && Representable(i) && i.MmapItem?
    ensures ReadsBack(file, pos, i)
  {
    hide Holds, Word, Le, ParseTrailer, TrailerLen, TrailerBytes, Bit, Encode, Padded, PaddedLength, TrimNul, InfoAt,
         Body;
    BundleFlags();
    ItemHeader(file, pos, i);
    MmapFields(file, pos, i);
    MmapBody(i);
    TrailerReads(file, pos, Size(i), i.pid, i.pid, i.time, 0);
    HeldSlice(file, pos + 72, Padded(i.path, 8));
    PaddedTrims(i.path, 8);
  }

  lemma MmapBody(i: Item)
    requires i.MmapItem?
    ensures |Body(i)| == 64 + |Padded(i.path, 8)| && |Padded(i.path, 8)| > 0
  {}

  lemma {:induction false} WordsRead(file: Blob, at: nat, ws: seq<nat>, k: nat)
    requires Holds(file, at, WordBytes(ws)) && k < |ws| && forall j :: 0 <= j < |ws| ==> ws[j] < 0x1_0000_0000_0000_0000
    ensures at + 8 * k + 8 <= |file| && Word(file, at + 8 * k, 8) == ws[k]
    decreases k
  {
    hide Holds, Word, Le, Limit;
    Limits();
    Take(file, at, ws[0], 8, WordBytes(ws[1..]));
    if k > 0 { WordsRead(file, at + 8, ws[1..], k - 1); }
  }

  lemma InfoReads(file: Blob, pos: nat, i: Item)
    requires Holds(file, pos, Encode(i)) && Representable(i) && i.InfoItem?
    ensures ReadsBack(file, pos, i)
  {
    hide Holds, Word, Le, Limit, ParseTrailer, TrailerLen, TrailerBytes, Bit, Encode, WordBytes, InfoAt, TrimNul,
         InfoWords;
    Limits();
    ItemHeader(file, pos, i);
    var ws := InfoWords(i.info);
    Take(file, pos + 8, 1, 4, Le(0, 4) + WordBytes(ws));
    Take(file, pos + 12, 0, 4, WordBytes(ws));
    forall k | 0 <= k < 16 ensures Word(file, pos + 16 + k * 8, 8) == ws[k] {
      WordsRead(file, pos + 16, ws, k);
    }
    InfoIs(file, pos, i.info);
  }

  lemma InfoIs(file: Blob, pos: nat, info: PtInfo)
    requires pos + 144 <= |file| && forall k :: 0 <= k < 16 ==> Word(file, pos + 16 + k * 8, 8) == InfoWords(info)[k]
    ensures InfoAt(file, pos) == info
  {
    hide Word;
    var p := k requires 0 <= k < 16 => Word(file, pos + 16 + k * 8, 8);
    assert forall k :: 0 <= k < 16 ==> p(k) == InfoWords(info)[k];
  }

  /** Every item is read back from the place where it was written. */
  lemma ItemReads(file: Blob, pos: nat, i: Item)
    requires Holds(file, pos, Encode(i)) && Representable(i)
    ensures ReadsBack(file, pos, i)
  {
    hide Holds, Encode, Representable, ReadsBack;
    match i
    case InfoItem(_) => InfoReads(file, pos, i);
    case ForkItem(_, _, _, _, _) => ForkReads(file, pos, i);
    case CommItem(_, _, _, _, _, _) => CommReads(file, pos, i);
    case MmapItem(_, _, _, _, _, _) => MmapReads(file, pos, i);
    case StartItem(_, _, _) => StartReads(file, pos, i);
    case AuxItem(_, _, _) => AuxReads(file, pos, i);
  }
}
