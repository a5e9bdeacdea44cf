/** A written bundle is a proper file, so it can be split by rings without losing anything else. */
module BundleSplit {
  import opened Lines
  import opened Bytes
  import opened PerfFile
  import opened Bundle
  import opened Recording
  import opened Recovery
  import opened Splitting
  import opened Selection
  import opened SplitMeaning

  lemma ItemIsProper(i: Item)
    ensures Proper(Kind(i), Size(i), SAMPLE_TYPE)
  {}

  lemma {:induction false} ItemsWellFormed(file: Blob, pos: nat, items: seq<Item>)
    requires Holds(file, pos, EncodeAll(items)) && AllRepresentable(items)
    ensures pos + |EncodeAll(items)| <= |file| && WellFormed(file, SAMPLE_TYPE, pos, pos + |EncodeAll(items)|)
    decreases |items|
  {
    hide Encode, Representable, Meaning, EntryAt, Readable, Word, Size, Follows, Proper, ReadsBack;
    if items != [] {
      var i, rest := items[0], items[1..];
      Apart(file, pos, Encode(i), EncodeAll(rest));
      ItemFollows(file, pos, i);
      ItemsWellFormed(file, pos + |Encode(i)|, rest);
    }
  }

  lemma ItemFollows(file: Blob, pos: nat, i: Item)
    requires Holds(file, pos, Encode(i)) && Representable(i)
    ensures Size(i) >= 8 && pos + |Encode(i)| <= |file| && Word(file, pos + 6, 2) == Size(i)
            && Word(file, pos, 4) == Kind(i)
    ensures Proper(Kind(i), Size(i), SAMPLE_TYPE) && Size(i) + Follows(file, pos, Size(i)) == |Encode(i)|
  {
    hide Encode, Body, Trail, Word, Readable, EntryAt, Proper, Follows, Holds;
    ItemHeader(file, pos, i);
    ItemReads(file, pos, i);
    ItemIsProper(i);
    EncodedLength(i, pos);
    AuxEntry(file, pos, Size(i), SAMPLE_TYPE);
    HoldsWithin(file, pos, Encode(i));
  }

  lemma {:induction false} UnZeros(s: Blob)
    requires forall k :: 0 <= k < |s| ==> s[k] == 0
    ensures Un(s) == 0
  {
    if s != [] { UnZeros(s[1..]); }
  }

  lemma ZeroWord(file: Blob, at: nat, n: nat, k: nat)
    requires Holds(file, at, Zeros(n)) && k + 8 <= n
    ensures Word(file, at + k, 8) == 0
  {
    SliceOfSlice(file, at, n, k, k + 8);
    var z := Zeros(n)[k..k + 8];
    assert forall j :: 0 <= j < 8 ==> z[j] == Zeros(n)[k + j];
    UnZeros(z);
  }

  /** A bundle announces no features. */
  lemma NoFeatureBits(c: Capture, n: U64, file: Blob)
    requires Holds(file, 0, Preamble(c, n))
    ensures |file| >= 264 && FeatureCount(file) == 0
  {
    PreambleReads(c, n, file);
    hide Preamble, Holds, Word;
    ZeroWord(file, 56, 48, 16);
    ZeroWord(file, 56, 48, 24);
    ZeroWord(file, 56, 48, 32);
    ZeroWord(file, 56, 48, 40);
  }

  lemma BundleIsProper(c: Capture)
    requires Writable(c)
    ensures ProperFile(BundleBytes(c))
  {
    hide Preamble, EncodeAll, Items, AllRepresentable, WellFormed, Word, FeatureCount;
    var data := EncodeAll(Items(c));
    var file := BundleBytes(c);
    HeldHalves(Preamble(c, |data|), data);
    PreambleReads(c, |data|, file);
    NoFeatureBits(c, |data|, file);
    ItemsWellFormed(file, 264, Items(c));
  }

  /** Splitting a bundle keeps its parameters and its sideband, and exactly the rings asked for. */
  lemma SplitBundle(c: Capture, rings: set<nat>)
    requires Writable(c) && |BundleBytes(c)| < 0x1_0000_0000_0000_0000
    ensures var file := BundleBytes(c);
            && ReadPerfData(file).Read? && Split(file, rings).Read? && ReadPerfData(Split(file, rings).value).Read?
            && var got := ReadPerfData(Split(file, rings).value).value;
            && got.info == c.info && got.sideband == SortByTime(ItemSides(Items(c)))
            && SameBlobs(file, Split(file, rings).value, Chosen(ReadPerfData(file).value.blobs, rings), got.blobs)
  {
    hide BundleBytes, ReadPerfData, Split, ProperFile, SameBlobs, RingsRead, RingsOf, SortByTime, ItemSides,
         AllRepresentable;
    BundleIsProper(c);
    BundleRoundTrip(c);
    SplitPreservesMeaning(BundleBytes(c), rings);
  }
}
