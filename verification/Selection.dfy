/** A file cut down to some processors says the same as the whole, but for the other processors' traces. */
module Selection {
  import opened Lines
  import opened Bytes
  import opened PerfFile
  import opened Bundle
  import opened Splitting

  // ----- a record means the same wherever it stands -----

  /** Large enough for the fields that its kind calls for. */
  predicate Proper(kind: nat, size: nat, sampleType: nat) {
    match kind
    case 2 => size >= 24
    case 3 => size >= 16 + TrailerLen(sampleType)
    case 4 => size >= 32
    case 7 => size >= 32
    case 10 => size >= 68 && size >= TrailerLen(sampleType)
    case 12 => size >= 16
    case 70 => size >= 12
    case 71 => size >= 44
    case _ => true
  }

  function Moved(e: Entry, offset: nat): Entry {
    if e.Aux? then Aux(e.blob.(fileOffset := offset)) else e
  }

  lemma SameInfo(file: Blob, pos: nat, size: nat)
    requires 144 <= size && pos + size <= |file|
    ensures InfoAt(file, pos) == InfoAt(file[pos..pos + size], 0)
  {
    hide Word;
    forall k | 0 <= k < 16 ensures Word(file, pos + 16 + k * 8, 8) == Word(file[pos..pos + size], 0 + 16 + k * 8, 8) {
      WordInside(file, pos, size, 16 + k * 8, 8);
    }
    var p := k requires 0 <= k < 16 => Word(file, pos + 16 + k * 8, 8);
    var q := k requires 0 <= k < 16 => Word(file[pos..pos + size], 0 + 16 + k * 8, 8);
    assert forall k :: 0 <= k < 16 ==> p(k) == q(k);
  }

  lemma SliceOfSlice(file: Blob, pos: nat, size: nat, a: nat, b: nat)
    requires pos + size <= |file| && a <= b <= size
    ensures file[pos..pos + size][a..b] == file[pos + a..pos + b]
  {
    var rec := file[pos..pos + size];
    assert forall k :: 0 <= k < b - a ==> rec[a..b][k] == rec[a + k] && file[pos + a..pos + b][k] == file[pos + a + k];
  }

  lemma EntryOfRecord(file: Blob, pos: nat, size: nat, sampleType: nat)
    requires 8 <= size && pos + size <= |file| && Proper(Word(file, pos, 4), size, sampleType)
    ensures var rec := file[pos..pos + size];
            && Word(rec, 0, 4) == Word(file, pos, 4) && Word(rec, 6, 2) == Word(file, pos + 6, 2)
            && Readable(rec, 0, size, Word(rec, 0, 4), sampleType)
            && Readable(file, pos, size, Word(file, pos, 4), sampleType)
            && EntryAt(file, pos, size, sampleType) == Moved(EntryAt(rec, 0, size, sampleType), pos + size)
  {
    hide Word, ParseTrailer, TrailerLen, TrimNul, InfoAt, Bit;
    var rec := file[pos..pos + size];
    assert rec[0..0 + size] == rec;
    WordInside(file, pos, size, 0, 4);
    WordInside(file, pos, size, 4, 2);
    WordInside(file, pos, size, 6, 2);
    var kind, tl := Word(file, pos, 4), TrailerLen(sampleType);
    if kind == 2 {
      WordInside(file, pos, size, 16, 8);
    } else if kind == 3 {
      WordInside(file, pos, size, 8, 4);
      WordInside(file, pos, size, 12, 4);
      SliceOfSlice(file, pos, size, 16, size - tl);
    } else if kind == 4 || kind == 7 {
      WordInside(file, pos, size, 8, 4);
      WordInside(file, pos, size, 12, 4);
      WordInside(file, pos, size, 16, 4);
      WordInside(file, pos, size, 20, 4);
      WordInside(file, pos, size, 24, 8);
    } else if kind == 10 {
      MmapOfRecord(file, pos, size, sampleType);
    } else if kind == 12 {
      WordInside(file, pos, size, 8, 4);
      WordInside(file, pos, size, 12, 4);
    } else if kind == 70 {
      WordInside(file, pos, size, 8, 4);
      if size >= 152 { SameInfo(file, pos, size); }
    } else if kind == 71 {
      WordInside(file, pos, size, 8, 8);
      WordInside(file, pos, size, 36, 4);
      WordInside(file, pos, size, 40, 4);
    }
  }

  lemma MmapOfRecord(file: Blob, pos: nat, size: nat, sampleType: nat)
    requires 68 <= size && pos + size <= |file| && Word(file, pos, 4) == 10 && size >= TrailerLen(sampleType)
    requires Word(file[pos..pos + size], 0, 4) == 10
    ensures EntryAt(file, pos, size, sampleType) == EntryAt(file[pos..pos + size], 0, size, sampleType)
  {
    hide Word, ParseTrailer, TrailerLen, TrimNul, InfoAt, Bit;
    var rec, tl := file[pos..pos + size], TrailerLen(sampleType);
    assert rec[0..0 + size] == rec;
    WordInside(file, pos, size, 8, 4);
    WordInside(file, pos, size, 12, 4);
    WordInside(file, pos, size, 16, 8);
    WordInside(file, pos, size, 24, 8);
    WordInside(file, pos, size, 32, 8);
    WordInside(file, pos, size, 64, 4);
    if size - tl > 72 { SliceOfSlice(file, pos, size, 72, size - tl); }
  }

  /** Equal bytes in two files are read as equal entries. */
  lemma EntryMoves(file: Blob, pos: nat, file': Blob, pos': nat, size: nat, sampleType: nat)
    requires 8 <= size && pos + size <= |file| && Proper(Word(file, pos, 4), size, sampleType)
    requires Holds(file', pos', file[pos..pos + size])
    ensures pos' + size <= |file'|
    ensures Word(file', pos', 4) == Word(file, pos, 4) && Word(file', pos' + 6, 2) == Word(file, pos + 6, 2)
    ensures Readable(file, pos, size, Word(file, pos, 4), sampleType)
    ensures Readable(file', pos', size, Word(file', pos', 4), sampleType)
    ensures EntryAt(file', pos', size, sampleType) == Moved(EntryAt(file, pos, size, sampleType), pos' + size)
  {
    hide Word, EntryAt, Readable;
    EntryOfRecord(file, pos, size, sampleType);
    assert file'[pos'..pos' + size] == file[pos..pos + size];
    WordInside(file', pos', size, 0, 4);
    EntryOfRecord(file', pos', size, sampleType);
  }

  // ----- the records of a split file -----

  /** Every record up to where reading stops is large enough, and its trace data lies inside the section. */
  predicate WellFormed(file: Blob, sampleType: nat, pos: nat, end: nat)
    requires end <= |file|
    decreases end - pos
  {
    Stops(file, pos, end) ||
    var kind, size := Word(file, pos, 4), Word(file, pos + 6, 2);
    && Proper(kind, size, sampleType)
    && pos + size + Follows(file, pos, size) <= end
    && WellFormed(file, sampleType, pos + size + Follows(file, pos, size), end)
  }

  /** The length of the trace data behind a record. */
  function Follows(file: Blob, pos: nat, size: nat): nat
    requires 8 <= size && pos + size <= |file|
  {
    if Word(file, pos, 4) == 71 && size >= 16 then Word(file, pos + 8, 8) else 0
  }

  /** The same bytes in both files. */
  predicate SameBytes(file: Blob, o: Blob, a: AuxBlob, b: AuxBlob) {
    && b.cpu == a.cpu && b.tid == a.tid && b.bytes == a.bytes
    && a.fileOffset + a.bytes <= |file|
    && Holds(o, b.fileOffset, file[a.fileOffset..a.fileOffset + a.bytes])
  }

  predicate SameEntry(file: Blob, o: Blob, a: Entry, b: Entry) {
    if a.Aux? then b.Aux? && SameBytes(file, o, a.blob, b.blob) else b == a
  }

  /** Entry for entry the same, but without the trace data of other processors. */
  predicate Corresponds(file: Blob, o: Blob, cpus: set<nat>, es: seq<Entry>, fs: seq<Entry>)
    decreases |es|
  {
    if es == [] then fs == []
    else if es[0].Aux? && es[0].blob.cpu !in cpus then Corresponds(file, o, cpus, es[1..], fs)
    else fs != [] && SameEntry(file, o, es[0], fs[0]) && Corresponds(file, o, cpus, es[1..], fs[1..])
  }

  lemma AuxEntry(file: Blob, pos: nat, size: nat, sampleType: nat)
    requires 8 <= size && pos + size <= |file| && Proper(Word(file, pos, 4), size, sampleType)
    requires Readable(file, pos, size, Word(file, pos, 4), sampleType)
    ensures var e := EntryAt(file, pos, size, sampleType);
            && (e.Aux? <==> Word(file, pos, 4) == 71)
            && Payload(e) == Follows(file, pos, size)
            && (e.Aux? ==> e.blob.cpu == Word(file, pos + 40, 4) && e.blob.fileOffset == pos + size)
  {}

  lemma {:induction false} KeptReads(file: Blob, sampleType: nat, cpus: set<nat>, pos: nat, end: nat, o: Blob, at: nat)
    requires end <= |file| && WellFormed(file, sampleType, pos, end)
    requires Kept(file, cpus, pos, end).Read? ==> Holds(o, at, Kept(file, cpus, pos, end).value)
    ensures Kept(file, cpus, pos, end).Read? && Entries(file, sampleType, pos, end).Read?
    ensures var kept := Kept(file, cpus, pos, end).value;
            && at + |kept| <= |o| && Entries(o, sampleType, at, at + |kept|).Read?
            && Corresponds(file, o, cpus, Entries(file, sampleType, pos, end).value,
                           Entries(o, sampleType, at, at + |kept|).value)
    decreases end - pos
  {
    hide Word, Entries, EntryAt, Readable, Proper, Follows, SameEntry, Holds;
    if Stops(file, pos, end) {
      EntriesEnd(file, sampleType, pos, end);
      HoldsWithin(o, at, []);
      EntriesEnd(o, sampleType, at, at);
    } else {
      var size := Word(file, pos + 6, 2);
      var next := pos + size + Follows(file, pos, size);
      KeptStep(file, sampleType, cpus, pos, end);
      var piece := if Drops(file, cpus, pos) then [] else file[pos..next];
      var rest := Kept(file, cpus, next, end);
      if rest.Read? { Apart(o, at, piece, rest.value); }
      KeptReads(file, sampleType, cpus, next, end, o, at + |piece|);
      EntriesStep(file, sampleType, pos, end);
      if Drops(file, cpus, pos) {
        DroppedStep(file, sampleType, cpus, pos, end, o, at, rest.value);
      } else {
        CopiedStep(file, sampleType, cpus, pos, end, o, at, rest.value);
      }
    }
  }

  /** The record at `pos` belongs to a processor that was not asked for. */
  predicate Drops(file: Blob, cpus: set<nat>, pos: nat)
    requires pos + 4 <= |file|
  {
    Word(file, pos, 4) == 71 && (pos + 44 <= |file| ==> Word(file, pos + 40, 4) !in cpus)
  }

  lemma KeptStep(file: Blob, sampleType: nat, cpus: set<nat>, pos: nat, end: nat)
    requires end <= |file| && !Stops(file, pos, end) && WellFormed(file, sampleType, pos, end)
    ensures var size := Word(file, pos + 6, 2);
            var next := pos + size + Follows(file, pos, size);
            && pos + 8 <= next <= end
            && Kept(file, cpus, pos, end) == Prefixed(if Drops(file, cpus, pos) then [] else file[pos..next],
                                                      Kept(file, cpus, next, end))
  {}

  lemma DroppedStep(file: Blob, sampleType: nat, cpus: set<nat>, pos: nat, end: nat, o: Blob, at: nat, rest: Blob)
    requires end <= |file| && !Stops(file, pos, end) && WellFormed(file, sampleType, pos, end) && Drops(file, cpus, pos)
    requires var next := pos + Word(file, pos + 6, 2) + Follows(file, pos, Word(file, pos + 6, 2));
             && at + |rest| <= |o| && Entries(o, sampleType, at, at + |rest|).Read?
             && Entries(file, sampleType, next, end).Read?
             && Corresponds(file, o, cpus, Entries(file, sampleType, next, end).value,
                            Entries(o, sampleType, at, at + |rest|).value)
    ensures Entries(file, sampleType, pos, end).Read?
    ensures Corresponds(file, o, cpus, Entries(file, sampleType, pos, end).value,
                        Entries(o, sampleType, at, at + |rest|).value)
  {
    ProperReadable(file, pos, Word(file, pos + 6, 2), sampleType);
    hide Word, Entries, EntryAt, Readable, Follows, SameEntry, TrailerLen;
    var size := Word(file, pos + 6, 2);
    EntriesStep(file, sampleType, pos, end);
    AuxEntry(file, pos, size, sampleType);
    var e := EntryAt(file, pos, size, sampleType);
    var es := Entries(file, sampleType, pos + size + Payload(e), end).value;
    assert ([e] + es)[1..] == es;
  }

  lemma ProperReadable(file: Blob, pos: nat, size: nat, sampleType: nat)
    requires 8 <= size && pos + size <= |file| && Proper(Word(file, pos, 4), size, sampleType)
    ensures Readable(file, pos, size, Word(file, pos, 4), sampleType)
  {}

  lemma CopiedStep(file: Blob, sampleType: nat, cpus: set<nat>, pos: nat, end: nat, o: Blob, at: nat, rest: Blob)
    requires end <= |file| && !Stops(file, pos, end) && WellFormed(file, sampleType, pos, end)
             && !Drops(file, cpus, pos)
    requires var next := pos + Word(file, pos + 6, 2) + Follows(file, pos, Word(file, pos + 6, 2));
             && Holds(o, at, file[pos..next])
             && at + next - pos + |rest| <= |o|
             && Entries(o, sampleType, at + next - pos, at + next - pos + |rest|).Read?
             && Entries(file, sampleType, next, end).Read?
             && Corresponds(file, o, cpus, Entries(file, sampleType, next, end).value,
                            Entries(o, sampleType, at + next - pos, at + next - pos + |rest|).value)
    ensures Entries(file, sampleType, pos, end).Read?
    ensures var next := pos + Word(file, pos + 6, 2) + Follows(file, pos, Word(file, pos + 6, 2));
            var end' := at + next - pos + |rest|;
            && Entries(o, sampleType, at, end').Read?
            && Corresponds(file, o, cpus, Entries(file, sampleType, pos, end).value,
                           Entries(o, sampleType, at, end').value)
  {
    hide Word, Entries, EntryAt, Readable, Follows, TrailerLen, Proper, Holds;
    var size := Word(file, pos + 6, 2);
    var more := Follows(file, pos, size);
    var next := pos + size + more;
    var end' := at + next - pos + |rest|;
    assert file[pos..next] == file[pos..pos + size] + file[pos + size..next];
    Apart(o, at, file[pos..pos + size], file[pos + size..next]);
    EntryMoves(file, pos, o, at, size, sampleType);
    AuxEntry(file, pos, size, sampleType);
    EntriesStep(file, sampleType, pos, end);
    EntriesStep(o, sampleType, at, end');
    var e, f := EntryAt(file, pos, size, sampleType), EntryAt(o, at, size, sampleType);
    var es, fs := Entries(file, sampleType, next, end).value, Entries(o, sampleType, at + size + more, end').value;
    assert ([e] + es)[1..] == es && ([f] + fs)[1..] == fs;
  }
}
