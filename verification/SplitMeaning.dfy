/** The meaning of a whole file is preserved when it is split: sideband, parameters, features, and the chosen traces. */
module SplitMeaning {
  import opened Lines
  import opened Bytes
  import opened PerfFile
  import opened Bundle
  import opened Splitting
  import opened Selection

  // ----- from entries to what is read off them -----

  function Plain(es: seq<Entry>): seq<Entry> {
    if es == [] then []
    else Plain(es[..|es| - 1]) + if es[|es| - 1].Aux? then [] else [es[|es| - 1]]
  }

  lemma {:induction false} PlainMeans(es: seq<Entry>)
    ensures SidesOf(Plain(es)) == SidesOf(es) && InfoOf(Plain(es)) == InfoOf(es)
  {
    if es != [] {
      var init, e := es[..|es| - 1], es[|es| - 1];
      PlainMeans(init);
      assert es == init + [e];
      assert Plain(es) == if e.Aux? then Plain(init) else Plain(init) + [e];
      hide Plain, SidesOf, InfoOf, BlobsOf;
      LastEntry(init, e);
      LastEntry(Plain(init), e);
    }
  }

  lemma {:induction false} PlainConcat(a: seq<Entry>, b: seq<Entry>)
    ensures Plain(a + b) == Plain(a) + Plain(b) && BlobsOf(a + b) == BlobsOf(a) + BlobsOf(b)
    decreases |b|
  {
    if b == [] {
      assert a + b == a;
    } else {
      PlainConcat(a, b[..|b| - 1]);
      assert (a + b)[..|a + b| - 1] == a + b[..|b| - 1];
    }
  }

  lemma FirstEntry(es: seq<Entry>)
    requires es != []
    ensures Plain(es) == (if es[0].Aux? then [] else [es[0]]) + Plain(es[1..])
    ensures BlobsOf(es) == (if es[0].Aux? then [es[0].blob] else []) + BlobsOf(es[1..])
  {
    var one := [es[0]];
    assert one[..|one| - 1] == [] && Plain([]) == [] && BlobsOf([]) == [];
    assert es == one + es[1..];
    PlainConcat(one, es[1..]);
  }

  /** The blobs of the chosen processors. */
  function Chosen(blobs: seq<AuxBlob>, cpus: set<nat>): seq<AuxBlob> {
    if blobs == [] then []
    else (if blobs[0].cpu in cpus then [blobs[0]] else []) + Chosen(blobs[1..], cpus)
  }

  ghost predicate SameBlobs(file: Blob, o: Blob, a: seq<AuxBlob>, b: seq<AuxBlob>) {
    |a| == |b| && forall j :: 0 <= j < |a| ==> SameBytes(file, o, a[j], b[j])
  }

  lemma {:induction false} CorrespondingMeaning(file: Blob, o: Blob, cpus: set<nat>, es: seq<Entry>, fs: seq<Entry>)
    requires Corresponds(file, o, cpus, es, fs)
    ensures Plain(fs) == Plain(es) && SameBlobs(file, o, Chosen(BlobsOf(es), cpus), BlobsOf(fs))
    decreases |es|
  {
    hide Plain, BlobsOf, SameBytes;
    if es == [] {
      NoBlobs();
    } else {
      FirstEntry(es);
      if es[0].Aux? && es[0].blob.cpu !in cpus {
        CorrespondingMeaning(file, o, cpus, es[1..], fs);
        ChosenFirst(es[0].blob, BlobsOf(es[1..]), cpus);
      } else {
        FirstEntry(fs);
        CorrespondingMeaning(file, o, cpus, es[1..], fs[1..]);
        if es[0].Aux? {
          ChosenFirst(es[0].blob, BlobsOf(es[1..]), cpus);
          SameBlobsCons(file, o, es[0].blob, fs[0].blob, Chosen(BlobsOf(es[1..]), cpus), BlobsOf(fs[1..]));
        } else {
          assert BlobsOf(es) == BlobsOf(es[1..]) && BlobsOf(fs) == BlobsOf(fs[1..]);
        }
      }
    }
  }

  lemma SameBlobsCons(file: Blob, o: Blob, a: AuxBlob, b: AuxBlob, more: seq<AuxBlob>, bs: seq<AuxBlob>)
    requires SameBytes(file, o, a, b) && SameBlobs(file, o, more, bs)
    ensures SameBlobs(file, o, [a] + more, [b] + bs)
  {}

  lemma NoBlobs()
    ensures BlobsOf([]) == []
  {}

  lemma ChosenFirst(b: AuxBlob, rest: seq<AuxBlob>, cpus: set<nat>)
    ensures Chosen([b] + rest, cpus) == (if b.cpu in cpus then [b] else []) + Chosen(rest, cpus)
  {}

  // ----- where everything stands in the new file -----

  /** The header before the data, with the new size of the data section. */
  function NewHeader(file: Blob, dataOff: nat, size: nat): (h: Blob)
    requires 56 <= dataOff <= |file|
    ensures |h| == dataOff
  {
    file[..48] + Le(size, 8) + file[56..dataOff]
  }

  lemma PatchedParts(file: Blob, dataOff: nat, size: nat, rest: Blob)
    requires 56 <= dataOff <= |file|
    ensures Patched(file[..dataOff] + rest, size) == NewHeader(file, dataOff, size) + rest
  {}

  /** Words of the header are kept, all but the one at 48. */
  lemma HeaderWords(file: Blob, dataOff: nat, size: U64, o: Blob, at: nat)
    requires 56 <= dataOff <= |file| && Holds(o, 0, NewHeader(file, dataOff, size))
    requires at + 8 <= 48 || (56 <= at && at + 8 <= dataOff)
    ensures |o| >= dataOff && Word(o, at, 8) == Word(file, at, 8) && Word(o, 48, 8) == size
    ensures o[..48] == file[..48] && o[56..dataOff] == file[56..dataOff]
  {
    var head, tail := file[..48], file[56..dataOff];
    assert NewHeader(file, dataOff, size) == head + (Le(size, 8) + tail);
    Apart(o, 0, head, Le(size, 8) + tail);
    Limits();
    Take(o, 48, size, 8, tail);
    assert Holds(o, 56, tail);
    hide Word, Le, Limit, NewHeader;
    if at + 8 <= 48 {
      assert o[at..at + 8] == head[at..at + 8] == file[at..at + 8];
    } else {
      SliceOfSlice(file, 56, dataOff - 56, at - 56, at - 48);
      SliceOfSlice(o, 56, dataOff - 56, at - 56, at - 48);
    }
    SameWord(o, file, at);
  }

  lemma SameWord(o: Blob, file: Blob, at: nat)
    requires at + 8 <= |o| && at + 8 <= |file| && o[at..at + 8] == file[at..at + 8]
    ensures Word(o, at, 8) == Word(file, at, 8)
  {}

  lemma {:induction false} FeaturesMove(file: Blob, table: nat, i: nat, n: nat, o: Blob, table': nat, next: nat, k: nat)
    requires i <= k < n && table + 16 * n <= |file| && FeaturesInside(file, table, n) && |o| < 0x1_0000_0000_0000_0000
    requires Holds(o, table' + 16 * i, NewTable(file, table, i, n, next)) && Holds(o, next, NewBlobs(file, table, i, n))
    ensures table' + 16 * k + 16 <= |o| && FeatureInside(o, table', k)
    ensures Feature(o, table', k) == Feature(file, table, k)
    decreases n - i
  {
    hide Word, Le, Limit, Holds, NewTable, NewBlobs, FeatureSize, Feature;
    FeatureStands(file, table, i, n, o, table', next);
    if i < k {
      FeaturesMove(file, table, i + 1, n, o, table', next + FeatureSize(file, table, i), k);
    }
  }

  lemma FeatureStands(file: Blob, table: nat, i: nat, n: nat, o: Blob, table': nat, next: nat)
    requires i < n && table + 16 * n <= |file| && FeaturesInside(file, table, n) && |o| < 0x1_0000_0000_0000_0000
    requires Holds(o, table' + 16 * i, NewTable(file, table, i, n, next)) && Holds(o, next, NewBlobs(file, table, i, n))
    ensures var size := FeatureSize(file, table, i);
            && Holds(o, table' + 16 * (i + 1), NewTable(file, table, i + 1, n, next + size))
            && Holds(o, next + size, NewBlobs(file, table, i + 1, n))
    ensures table' + 16 * i + 16 <= |o| && FeatureInside(o, table', i)
    ensures Feature(o, table', i) == Feature(file, table, i)
  {
    hide Word, Le, Limit, Holds;
    assert FeatureInside(file, table, i);
    hide FeaturesInside;
    var size, at := FeatureSize(file, table, i), table' + 16 * i;
    var rest := NewTable(file, table, i + 1, n, next + size);
    var blobs := NewBlobs(file, table, i + 1, n);
    Limits();
    Apart(o, next, Feature(file, table, i), blobs);
    HeldSlice(o, next, Feature(file, table, i));
    Take(o, at, next, 8, Le(size, 8) + rest);
    Take(o, at + 8, size, 8, rest);
  }

  // ----- the whole file -----

  /** Header, attributes and data in this order; every record and feature inside its section. */
  predicate ProperFile(file: Blob) {
    && |file| >= 104 && file[..8] == MAGIC
    && var attrsOff, dataOff := Word(file, 24, 8), Word(file, 40, 8);
    && var end := dataOff + Word(file, 48, 8);
    && 104 <= attrsOff && attrsOff + 40 <= dataOff && Word(file, 32, 8) >= 40
    && end <= |file| && end + 16 * FeatureCount(file) <= |file| && FeaturesInside(file, end, FeatureCount(file))
    && WellFormed(file, Word(file, attrsOff + 24, 8), dataOff, end)
  }

  function DataOff(file: Blob): nat
    requires ProperFile(file)
  {
    Word(file, 40, 8)
  }

  function TableOff(file: Blob): nat
    requires ProperFile(file)
  {
    Word(file, 40, 8) + Word(file, 48, 8)
  }

  /** The parts of the new file, and where they stand. */
  ghost predicate Laid(file: Blob, cpus: set<nat>, kept: Blob, o: Blob)
    requires ProperFile(file)
  {
    var d, n := DataOff(file), FeatureCount(file);
    var table := d + |kept|;
    && Kept(file, cpus, d, TableOff(file)) == Read(kept)
    && Holds(o, 0, NewHeader(file, d, |kept|)) && Holds(o, d, kept)
    && Holds(o, table, NewTable(file, TableOff(file), 0, n, table + 16 * n))
    && Holds(o, table + 16 * n, NewBlobs(file, TableOff(file), 0, n))
  }

  lemma SplitLays(file: Blob, cpus: set<nat>, kept: Blob)
    requires ProperFile(file) && Kept(file, cpus, DataOff(file), TableOff(file)) == Read(kept)
    ensures Split(file, cpus).Read? && Laid(file, cpus, kept, Split(file, cpus).value)
    ensures |Split(file, cpus).value| >= DataOff(file) + |kept| + 16 * FeatureCount(file)
  {
    hide Word, Kept, NewTable, NewBlobs, FeatureCount, FeaturesInside, WellFormed, NewHeader, Patched, Holds;
    var d, n, end := DataOff(file), FeatureCount(file), TableOff(file);
    var t := NewTable(file, end, 0, n, d + |kept| + 16 * n);
    var b := NewBlobs(file, end, 0, n);
    var h := NewHeader(file, d, |kept|);
    PatchedParts(file, d, |kept|, kept + t + b);
    assert file[..d] + (kept + t + b) == file[..d] + kept + t + b;
    var o := Split(file, cpus).value;
    assert o == h + (kept + t + b);
    Stand(h, kept, t, b);
    assert h + (kept + t + b) == h + kept + t + b;
  }

  lemma Stand(h: Blob, k: Blob, t: Blob, b: Blob)
    ensures var o := h + k + t + b;
            && Holds(o, 0, h) && Holds(o, |h|, k) && Holds(o, |h| + |k|, t) && Holds(o, |h| + |k| + |t|, b)
  {}

  /** The new header still describes the file: only the size of the data has changed. */
  lemma HeaderKept(file: Blob, cpus: set<nat>, kept: Blob, o: Blob)
    requires ProperFile(file) && Laid(file, cpus, kept, o) && |kept| < 0x1_0000_0000_0000_0000
    ensures |o| >= DataOff(file) && o[..48] == file[..48] && o[56..DataOff(file)] == file[56..DataOff(file)]
    ensures Word(o, 24, 8) == Word(file, 24, 8) && Word(o, 32, 8) == Word(file, 32, 8)
    ensures Word(o, 40, 8) == DataOff(file) && Word(o, 48, 8) == |kept| && FeatureCount(o) == FeatureCount(file)
    ensures Word(o, Word(file, 24, 8) + 24, 8) == Word(file, Word(file, 24, 8) + 24, 8)
  {
    var d, size: U64 := DataOff(file), |kept|;
    hide Word, Kept, NewTable, NewBlobs, FeaturesInside, WellFormed, NewHeader, Holds, PopCount;
    HeaderWords(file, d, size, o, 24);
    HeaderWords(file, d, size, o, 32);
    HeaderWords(file, d, size, o, 40);
    HeaderWords(file, d, size, o, 72);
    HeaderWords(file, d, size, o, 80);
    HeaderWords(file, d, size, o, 88);
    HeaderWords(file, d, size, o, 96);
    HeaderWords(file, d, size, o, Word(file, 24, 8) + 24);
  }

  lemma ReadIs(file: Blob, attrsOff: nat, sampleType: nat, from: nat, size: nat, es: seq<Entry>)
    requires |file| >= 104 && file[..8] == MAGIC && Word(file, 24, 8) == attrsOff && Word(file, 32, 8) >= 40
    requires Word(file, 40, 8) == from && Word(file, 48, 8) == size && attrsOff + 40 <= |file| && from + size <= |file|
    requires Word(file, attrsOff + 24, 8) == sampleType && Entries(file, sampleType, from, from + size) == Read(es)
    ensures ReadPerfData(file) == Read(PerfData(InfoOf(es), SortByTime(SidesOf(es)), BlobsOf(es), sampleType))
  {
    hide Word, Entries, SortByTime, InfoOf, SidesOf, BlobsOf;
  }

  lemma SameMagic(file: Blob, o: Blob)
    requires |file| >= 48 && |o| >= 48 && o[..48] == file[..48]
    ensures o[..8] == file[..8]
  {}

  /** Reading the split file gives what reading the whole gives, and of the traces the chosen ones. */
  lemma SplitPreservesMeaning(file: Blob, cpus: set<nat>)
    requires ProperFile(file) && |file| < 0x1_0000_0000_0000_0000
    ensures Split(file, cpus).Read?
    ensures ReadPerfData(file).Read? && ReadPerfData(Split(file, cpus).value).Read?
    ensures var o := Split(file, cpus).value;
            var was, got := ReadPerfData(file).value, ReadPerfData(o).value;
            && got.info == was.info && got.sideband == was.sideband && got.sampleType == was.sampleType
            && SameBlobs(file, o, Chosen(was.blobs, cpus), got.blobs)
  {
    hide Word, Split, Kept, Entries, Holds, FeatureCount, FeaturesInside, WellFormed, SameBlobs, Plain, SortByTime,
         SidesOf,
         InfoOf, BlobsOf, Corresponds, NewHeader, NewTable, NewBlobs, ReadPerfData;
    var attrs, d, end := Word(file, 24, 8), DataOff(file), TableOff(file);
    var st := Word(file, attrs + 24, 8);
    KeptSucceeds(file, st, cpus, d, end);
    var kept := Kept(file, cpus, d, end).value;
    SplitLays(file, cpus, kept);
    var o := Split(file, cpus).value;
    HeaderKept(file, cpus, kept, o);
    KeptReads(file, st, cpus, d, end, o, d);
    var es, fs := Entries(file, st, d, end).value, Entries(o, st, d, d + |kept|).value;
    CorrespondingMeaning(file, o, cpus, es, fs);
    PlainMeans(es);
    PlainMeans(fs);
    SameMagic(file, o);
    ReadIs(file, attrs, st, d, end - d, es);
    ReadIs(o, attrs, st, d, |kept|, fs);
  }

  lemma {:induction false} KeptSucceeds(file: Blob, sampleType: nat, cpus: set<nat>, pos: nat, end: nat)
    requires end <= |file| && WellFormed(file, sampleType, pos, end)
    ensures Kept(file, cpus, pos, end).Read? && |Kept(file, cpus, pos, end).value| <= |file|
    ensures pos <= end ==> |Kept(file, cpus, pos, end).value| <= end - pos
    decreases end - pos
  {
    hide Word, Proper, Follows;
    if !Stops(file, pos, end) {
      KeptStep(file, sampleType, cpus, pos, end);
      var size := Word(file, pos + 6, 2);
      KeptSucceeds(file, sampleType, cpus, pos + size + Follows(file, pos, size), end);
    }
  }

  /** The k-th feature section of both files holds the same bytes. */
  ghost predicate FeatureKept(file: Blob, o: Blob, k: nat)
    requires ProperFile(file) && |o| >= 104
  {
    var was, table := TableOff(file), Word(o, 40, 8) + Word(o, 48, 8);
    && was + 16 * k + 16 <= |file| && FeatureInside(file, was, k)
    && table + 16 * k + 16 <= |o| && FeatureInside(o, table, k)
    && Feature(o, table, k) == Feature(file, was, k)
  }

  /** Every feature section is still found in its place of the table, byte for byte. */
  lemma SplitPreservesFeatures(file: Blob, cpus: set<nat>, k: nat)
    requires ProperFile(file) && k < FeatureCount(file)
    requires Split(file, cpus).Read? ==> |Split(file, cpus).value| < 0x1_0000_0000_0000_0000
    ensures Split(file, cpus).Read? && |Split(file, cpus).value| >= 104
    ensures FeatureCount(Split(file, cpus).value) == FeatureCount(file) && FeatureKept(file, Split(file, cpus).value, k)
  {
    hide Word, Split, Kept, FeatureCount, WellFormed, NewHeader, NewTable, NewBlobs, Holds, Feature;
    var d, end, st := DataOff(file), TableOff(file), Word(file, Word(file, 24, 8) + 24, 8);
    KeptSucceeds(file, st, cpus, d, end);
    var kept := Kept(file, cpus, d, end).value;
    SplitLays(file, cpus, kept);
    var o := Split(file, cpus).value;
    HeaderKept(file, cpus, kept, o);
    var n := FeatureCount(file);
    FeaturesMove(file, end, 0, n, o, d + |kept|, d + |kept| + 16 * n, k);
  }
}
