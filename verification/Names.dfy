/**
 * A record's size is written in sixteen bits. Which names survive that, what the
 * reader makes of those that do not, and what becomes of the bundle around them.
 */
module Names {
  import opened Lines
  import opened Bytes
  import opened PerfFile
  import opened Bundle
  import opened Recording
  import opened Recovery

  // ----- one record -----

  /** What the reader makes of the record at a position. */
  datatype First = Stopped | Crashed | Got(entry: Entry)

  function FirstAt(file: Blob, pos: nat, end: nat): First
    requires end <= |file|
  {
    if Stops(file, pos, end) then Stopped
    else
      var size := Word(file, pos + 6, 2);
      if !Readable(file, pos, size, Word(file, pos, 4), SAMPLE_TYPE) then Crashed
      else Got(EntryAt(file, pos, size, SAMPLE_TYPE))
  }

  /** The name of an item that has one. */
  function NameOf(i: Item): Blob
    requires i.CommItem? || i.MmapItem?
  {
    if i.CommItem? then i.name else i.path
  }

  /** A name that could be a file's: it does not end in NUL. */
  predicate PlainName(i: Item) {
    i.CommItem? || i.MmapItem? ==> NameOf(i) == [] || NameOf(i)[|NameOf(i)| - 1] != 0
  }

  lemma SizeOfNamed(i: Item)
    requires i.CommItem? || i.MmapItem?
    ensures Size(i) == if i.CommItem? then 48 + PaddedLength(|i.name|, 16) else 104 + PaddedLength(|i.path|, 8)
  {
    hide Le, PaddedLength;
  }

  /** Exactly which names a record has room for. */
  lemma NameFitsIff(i: Item)
    requires i.CommItem? || i.MmapItem?
    ensures Representable(i) <==> |NameOf(i)| <= if i.CommItem? then 65479 else 65423
  {
    SizeOfNamed(i);
  }

  /** The size that is read is the size modulo 65536. */
  lemma WrittenSize(file: Blob, pos: nat, i: Item)
    requires Holds(file, pos, Encode(i)) && (i.CommItem? || i.MmapItem?)
    ensures pos + Size(i) <= |file| && Word(file, pos, 4) == Kind(i) && Word(file, pos + 6, 2) == Size(i) % 0x1_0000
    ensures Holds(file, pos + 8, Body(i))
  {
    hide Holds, Word, Le, Limit, Body, Trail;
    Limits();
    var body, trail, size := Body(i), Trail(i), Size(i);
    assert Encode(i) == RecordBytes(Kind(i), Misc(i), body, trail) + [];
    assert RecordBytes(Kind(i), Misc(i), body, trail) + [] == RecordBytes(Kind(i), Misc(i), body, trail);
    HoldsWithin(file, pos, RecordBytes(Kind(i), Misc(i), body, trail));
    Take(file, pos, Kind(i), 4, Le(Misc(i), 2) + (Le(size, 2) + (body + trail)));
    Take(file, pos + 4, Misc(i), 2, Le(size, 2) + (body + trail));
    TakeWrapped(file, pos + 6, size, 2, body + trail);
    Apart(file, pos + 8, body, trail);
  }

  /** A name read off a record is no longer than the record allows. */
  predicate NameWithin(e: Entry, size: nat) {
    && (e.Side? && e.side.Comm? ==> |e.side.comm| + 48 <= size)
    && (e.Side? && e.side.Mmap? ==> e.side.path == [] || |e.side.path| + 104 <= size)
  }

  lemma NamesAreShort(file: Blob, pos: nat, size: nat)
    requires 8 <= size && pos + size <= |file| && Readable(file, pos, size, Word(file, pos, 4), SAMPLE_TYPE)
    ensures NameWithin(EntryAt(file, pos, size, SAMPLE_TYPE), size)
  {
    BundleFlags();
    hide Word, ParseTrailer, TrailerLen, Bit, InfoAt;
  }

  lemma TrimmedPlain(i: Item)
    requires PlainName(i) && (i.CommItem? || i.MmapItem?)
    ensures TrimNul(NameOf(i)) == NameOf(i)
  {}

  /** How much of a name a record of this size has room for, as the reader sees it. */
  function Room(i: Item, size: nat): nat {
    TraceTypes.SatSub(size, if i.CommItem? then 48 else 104)
  }

  /** A record of the item's kind with this name. */
  predicate IsNamed(e: Entry, i: Item, name: Blob) {
    e.Side? && if i.CommItem? then e.side.Comm? && e.side.comm == name else e.side.Mmap? && e.side.path == name
  }

  /**
   * What becomes of a named item: it is read back exactly if it fits; if not, reading stops or
   * crashes, or gives a record of the same kind with a beginning of the name.
   */
  lemma NamedItemReadIff(file: Blob, pos: nat, end: nat, i: Item)
    requires Holds(file, pos, Encode(i)) && (i.CommItem? || i.MmapItem?) && PlainName(i)
    requires pos + |Encode(i)| <= end <= |file|
    ensures FirstAt(file, pos, end) == Got(Meaning(i, pos)) <==> Representable(i)
    ensures Size(i) % 0x1_0000 < 8 ==> FirstAt(file, pos, end) == Stopped
    ensures !Representable(i) && FirstAt(file, pos, end).Got? ==>
              var room := Room(i, Size(i) % 0x1_0000);
              && room < |NameOf(i)|
              && IsNamed(FirstAt(file, pos, end).entry, i, TrimNul(NameOf(i)[..room]))
  {
    hide Encode, Representable, Meaning, FirstAt, Holds;
    if Representable(i) {
      FittingRead(file, pos, end, i);
    } else {
      OverflowRead(file, pos, end, i);
      MeaningHasName(i, pos);
    }
  }

  lemma FittingRead(file: Blob, pos: nat, end: nat, i: Item)
    requires Holds(file, pos, Encode(i)) && Representable(i) && pos + |Encode(i)| <= end <= |file|
    ensures FirstAt(file, pos, end) == Got(Meaning(i, pos)) && 8 <= Size(i) % 0x1_0000
  {
    hide Encode, Representable, Meaning, Readable, EntryAt, Word, Holds, Size;
    ItemReads(file, pos, i);
    EncodedLength(i, pos);
    FitsItself(i);
  }

  lemma OverflowRead(file: Blob, pos: nat, end: nat, i: Item)
    requires Holds(file, pos, Encode(i)) && (i.CommItem? || i.MmapItem?) && !Representable(i)
    requires pos + |Encode(i)| <= end <= |file|
    ensures var first := FirstAt(file, pos, end);
            && (Size(i) % 0x1_0000 < 8 ==> first == Stopped)
            && (first.Got? ==>
                  var room := Room(i, Size(i) % 0x1_0000);
                  && room < |NameOf(i)| && IsNamed(first.entry, i, TrimNul(NameOf(i)[..room])))
  {
    hide Encode, Representable, Readable, EntryAt, Word, Holds, Size;
    WrittenSize(file, pos, i);
    EncodedLength(i, pos);
    Overflows(i);
    var w := Size(i) % 0x1_0000;
    if FirstAt(file, pos, end).Got? { NameInRecord(file, pos, i, w); }
  }

  /** Where the bytes of a name stand. */
  lemma NameStands(file: Blob, pos: nat, i: Item)
    requires Holds(file, pos + 8, Body(i)) && (i.CommItem? || i.MmapItem?)
    ensures var at := pos + if i.CommItem? then 16 else 72;
            at + |NameOf(i)| <= |file| && file[at..at + |NameOf(i)|] == NameOf(i)
  {
    hide Holds, Le, Limit, Word, Body;
    if i.CommItem? { CommFields(file, pos, i); } else { MmapFields(file, pos, i); }
    var at, pad := pos + if i.CommItem? then 16 else 72, if i.CommItem? then 16 else 8;
    var tail := Padded(NameOf(i), pad)[|NameOf(i)|..];
    assert Padded(NameOf(i), pad) == NameOf(i) + tail;
    Apart(file, at, NameOf(i), tail);
    HeldSlice(file, at, NameOf(i));
  }

  lemma NameInRecord(file: Blob, pos: nat, i: Item, w: nat)
    requires Holds(file, pos + 8, Body(i)) && (i.CommItem? || i.MmapItem?) && Word(file, pos, 4) == Kind(i)
    requires 8 <= w && pos + w <= |file| && Readable(file, pos, w, Kind(i), SAMPLE_TYPE) && Room(i, w) < |NameOf(i)|
    ensures IsNamed(EntryAt(file, pos, w, SAMPLE_TYPE), i, TrimNul(NameOf(i)[..Room(i, w)]))
  {
    hide Holds, Word, EntryAt, Readable, Body, TrimNul;
    NameStands(file, pos, i);
    SliceOfName(file, pos + if i.CommItem? then 16 else 72, NameOf(i), Room(i, w));
    NameIsSlice(file, pos, i, w);
  }

  lemma NameIsSlice(file: Blob, pos: nat, i: Item, w: nat)
    requires (i.CommItem? || i.MmapItem?) && 8 <= w && pos + w <= |file|
    requires Word(file, pos, 4) == Kind(i) && Readable(file, pos, w, Kind(i), SAMPLE_TYPE)
    requires pos + (if i.CommItem? then 16 else 72) + Room(i, w) <= |file|
    ensures var at := pos + if i.CommItem? then 16 else 72;
            IsNamed(EntryAt(file, pos, w, SAMPLE_TYPE), i, TrimNul(file[at..at + Room(i, w)]))
  {
    hide Word, ParseTrailer, TrailerLen, Bit, TrimNul, InfoAt;
    BundleFlags();
    TrimNothing();
  }

  lemma TrimNothing()
    ensures TrimNul([]) == []
  {}

  lemma SliceOfName(file: Blob, at: nat, name: Blob, n: nat)
    requires at + |name| <= |file| && file[at..at + |name|] == name && n <= |name|
    ensures file[at..at + n] == name[..n]
  {
    assert file[at..at + n] == file[at..at + |name|][..n];
  }

  lemma FitsItself(i: Item)
    requires Representable(i)
    ensures 8 <= Size(i) < 0x1_0000 && Size(i) % 0x1_0000 == Size(i)
  {
    hide Body, Trail;
  }

  lemma MeaningHasName(i: Item, pos: nat)
    requires PlainName(i) && (i.CommItem? || i.MmapItem?)
    ensures var e := Meaning(i, pos);
            && (i.CommItem? ==> e.Side? && e.side.Comm? && e.side.comm == NameOf(i))
            && (i.MmapItem? ==> e.Side? && e.side.Mmap? && e.side.path == NameOf(i))
  {
    TrimmedPlain(i);
  }

  /** A size that wraps leaves less room than the name needs. */
  lemma Overflows(i: Item)
    requires (i.CommItem? || i.MmapItem?) && !Representable(i)
    ensures var w := Size(i) % 0x1_0000;
            && Size(i) >= 0x1_0000 && w % 8 == 0
            && (w >= 8 ==>
                  && |NameOf(i)| + (if i.CommItem? then 48 else 104) > w && |NameOf(i)| > 65423
                  && |NameOf(i)| + 48 > w)
            && (w >= 8 && i.CommItem? ==> |NameOf(i)| >= 65488) && (w >= 8 && i.MmapItem? ==> |NameOf(i)| >= 65432)
  {
    hide Body, Trail;
    SizeOfNamed(i);
    NameFitsIff(i);
  }

  // ----- the bundle around it -----

  /** Everything but the names fits its field, as the types of the recorder ensure. */
  ghost predicate ValuesFit(c: Capture) {
    && InfoFits(c.info) && |EncodeAll(Items(c))| < 0x1_0000_0000_0000_0000
    && (forall k :: 0 <= k < |Items(c)| && Items(c)[k].AuxItem? ==> |Items(c)[k].blob| < 0x1_0000_0000_0000_0000)
    && (forall k :: 0 <= k < |Items(c)| ==> PlainName(Items(c)[k]))
  }

  predicate NameFits(i: Item) {
    i.CommItem? || i.MmapItem? ==> |NameOf(i)| <= if i.CommItem? then 65479 else 65423
  }

  ghost predicate NamesFit(c: Capture) {
    forall k :: 0 <= k < |Items(c)| ==> NameFits(Items(c)[k])
  }

  lemma OthersFit(i: Item)
    requires !i.CommItem? && !i.MmapItem? && (i.InfoItem? ==> InfoFits(i.info))
             && (i.AuxItem? ==> |i.blob| < 0x1_0000_0000_0000_0000)
    ensures Representable(i)
  {
    hide Le;
  }

  lemma InfoOfItems(c: Capture, k: nat)
    requires k < |Items(c)| && Items(c)[k].InfoItem?
    ensures Items(c)[k] == InfoItem(c.info)
  {
    PartsOfItems(c);
  }

  lemma FitsIff(c: Capture, k: nat)
    requires ValuesFit(c) && k < |Items(c)|
    ensures Representable(Items(c)[k]) <==> NameFits(Items(c)[k])
  {
    var i := Items(c)[k];
    hide Items, Representable;
    if i.CommItem? || i.MmapItem? {
      NameFitsIff(i);
    } else {
      if i.InfoItem? { InfoOfItems(c, k); }
      OthersFit(i);
    }
  }

  /** The bundle says what was captured. */
  ghost predicate Recovered(c: Capture) {
    var r := ReadPerfData(BundleBytes(c));
    && r.Read? && r.value.info == c.info && r.value.sampleType == SAMPLE_TYPE
    && r.value.sideband == SortByTime(ItemSides(Items(c)))
    && RingsRead(BundleBytes(c), r.value.blobs, RingItems(c.events))
  }

  /** Items that fit are read one after the other, and reading goes on behind them. */
  lemma {:induction false} ItemsReadThen(file: Blob, pos: nat, items: seq<Item>, end: nat)
    requires Holds(file, pos, EncodeAll(items)) && AllRepresentable(items) && pos + |EncodeAll(items)| <= end <= |file|
    ensures Entries(file, SAMPLE_TYPE, pos, end) ==
            Joined(EntriesOf(items, pos), Entries(file, SAMPLE_TYPE, pos + |EncodeAll(items)|, end))
    decreases |items|
  {
    hide Entries, Encode, Representable, Meaning, EntryAt, Readable, Word, Size, Joined;
    if items == [] {
      NothingYet(Entries(file, SAMPLE_TYPE, pos, end));
    } else {
      var i, rest := items[0], items[1..];
      Apart(file, pos, Encode(i), EncodeAll(rest));
      ItemReads(file, pos, i);
      EncodedLength(i, pos);
      ItemsReadThen(file, pos + |Encode(i)|, rest, end);
      EntriesStep(file, SAMPLE_TYPE, pos, end);
      JoinedTwice([Meaning(i, pos)], EntriesOf(rest, pos + |Encode(i)|),
                  Entries(file, SAMPLE_TYPE, pos + |EncodeAll(items)|, end));
    }
  }

  lemma JoinedTwice(a: seq<Entry>, b: seq<Entry>, rest: Outcome<seq<Entry>>)
    ensures Joined(a, Joined(b, rest)) == Joined(a + b, rest)
  {
    if rest.Read? { assert a + (b + rest.value) == a + b + rest.value; }
  }

  /** No name read anywhere is longer than a record can hold. */
  predicate NameBounded(s: Sideband) {
    (s.Comm? ==> |s.comm| <= 65487) && (s.Mmap? ==> |s.path| <= 65431)
  }

  lemma {:induction false} EntriesBounded(file: Blob, pos: nat, end: nat)
    requires end <= |file| && Entries(file, SAMPLE_TYPE, pos, end).Read?
    ensures forall s :: s in SidesOf(Entries(file, SAMPLE_TYPE, pos, end).value) ==> NameBounded(s)
    decreases end - pos
  {
    hide Entries, EntryAt, Readable, Joined, SidesOf;
    if Stops(file, pos, end) {
      EntriesEnd(file, SAMPLE_TYPE, pos, end);
      NothingYet(Read([]));
    } else {
      EntriesStep(file, SAMPLE_TYPE, pos, end);
      var size := Word(file, pos + 6, 2);
      var e := EntryAt(file, pos, size, SAMPLE_TYPE);
      var rest := Entries(file, SAMPLE_TYPE, pos + size + Payload(e), end);
      JoinedRead(e, rest);
      EntriesBounded(file, pos + size + Payload(e), end);
      SizeBounded(file, pos);
      NamesAreShort(file, pos, size);
      FirstSide(e, rest.value);
    }
  }

  lemma SizeBounded(file: Blob, pos: nat)
    requires pos + 8 <= |file|
    ensures Word(file, pos + 6, 2) < 0x1_0000
  {
    Limits();
    UnBelow(file[pos + 6..pos + 8]);
  }

  lemma JoinedRead(e: Entry, rest: Outcome<seq<Entry>>)
    requires Joined([e], rest).Read?
    ensures rest.Read? && Joined([e], rest).value == [e] + rest.value
  {}

  lemma {:induction false} FirstSide(e: Entry, es: seq<Entry>)
    ensures SidesOf([e] + es) == (if e.Side? then [e.side] else []) + SidesOf(es)
    decreases |es|
  {
    if es == [] {
      assert [e] + es == [] + [e];
      LastEntry([], e);
    } else {
      var init, last := es[..|es| - 1], es[|es| - 1];
      FirstSide(e, init);
      assert [e] + es == ([e] + init) + [last] && es == init + [last];
      hide SidesOf;
      LastEntry([e] + init, last);
      LastEntry(init, last);
    }
  }

  lemma {:induction false} SidesJoin(a: seq<Item>, b: seq<Item>)
    ensures ItemSides(a + b) == ItemSides(a) + ItemSides(b)
    decreases |b|
  {
    if b == [] {
      assert a + b == a;
    } else {
      SidesJoin(a, b[..|b| - 1]);
      assert (a + b)[..|a + b| - 1] == a + b[..|b| - 1];
    }
  }

  /** The first item that does not fit, and what is before it. */
  lemma FirstMisfit(c: Capture) returns (k: nat)
    requires !NamesFit(c)
    ensures k < |Items(c)| && !NameFits(Items(c)[k]) && forall j :: 0 <= j < k ==> NameFits(Items(c)[j])
  {
    var n: nat :| n < |Items(c)| && !NameFits(Items(c)[n]);
    k := 0;
    while NameFits(Items(c)[k])
      invariant k <= n && forall j :: 0 <= j < k ==> NameFits(Items(c)[j])
      decreases n - k
    {
      k := k + 1;
    }
  }

  /** The reader reads the data section, and fails or returns what stands there. */
  lemma ReadOfBundle(c: Capture)
    requires ValuesFit(c)
    ensures var file, end := BundleBytes(c), 264 + |EncodeAll(Items(c))|;
            && end <= |file| && Holds(file, 264, EncodeAll(Items(c)))
            && (ReadPerfData(file).Read? ==>
                  var all := Entries(file, SAMPLE_TYPE, 264, end);
                  all.Read? && ReadPerfData(file).value.sideband == SortByTime(SidesOf(all.value)))
  {
    hide Preamble, Entries, EncodeAll, Items, SortByTime, SidesOf, InfoOf, BlobsOf, Word;
    var data := EncodeAll(Items(c));
    HeldHalves(Preamble(c, |data|), data);
    PreambleReads(c, |data|, BundleBytes(c));
  }

  /** A named item has its place among the sideband. */
  lemma SideAmong(items: seq<Item>, k: nat)
    requires k < |items| && Meaning(items[k], 0).Side?
    ensures Meaning(items[k], 0).side in ItemSides(items) && |ItemSides(items[..k])| < |ItemSides(items)|
  {
    hide ItemSides, Meaning;
    var i, init, rest := items[k], items[..k], items[k + 1..];
    assert items == init + [i] + rest;
    SidesJoin(init + [i], rest);
    SidesJoin(init, [i]);
    SideOfOne(i);
  }

  /** No record of any bundle can hold the name. */
  lemma TooLongToRead(c: Capture, k: nat)
    requires ValuesFit(c) && k < |Items(c)| && !NameFits(Items(c)[k]) && Size(Items(c)[k]) % 0x1_0000 >= 8
    ensures !Recovered(c)
  {
    hide Entries, EncodeAll, Items, SortByTime, SidesOf, ItemSides, ReadPerfData, BundleBytes, Representable, RingsRead,
         Holds, Meaning, PlainName, Size;
    var i, file, end := Items(c)[k], BundleBytes(c), 264 + |EncodeAll(Items(c))|;
    ReadOfBundle(c);
    FitsIff(c, k);
    assert PlainName(i);
    MeaningHasName(i, 0);
    SideAmong(Items(c), k);
    Overflows(i);
    if Recovered(c) {
      InSorted(SidesOf(Entries(file, SAMPLE_TYPE, 264, end).value));
      InSorted(ItemSides(Items(c)));
      EntriesBounded(file, 264, end);
      assert false;
    }
  }

  /** The sideband behind the name is missing, and the name too. */
  lemma CutOff(c: Capture, k: nat)
    requires ValuesFit(c) && k < |Items(c)| && (forall j :: 0 <= j < k ==> NameFits(Items(c)[j]))
    requires (Items(c)[k].CommItem? || Items(c)[k].MmapItem?) && Size(Items(c)[k]) % 0x1_0000 == 0
    ensures !Recovered(c)
  {
    hide Entries, EncodeAll, Items, SortByTime, SidesOf, ItemSides, EntriesOf, ReadPerfData, BundleBytes, RingsRead,
         Holds, Meaning, PlainName, Size;
    var i := Items(c)[k];
    ReadOfBundle(c);
    assert PlainName(i);
    MeaningHasName(i, 0);
    SideAmong(Items(c), k);
    StoppedAt(c, k);
    EntriesMean(Items(c)[..k], 264);
    SortIsStable(ItemSides(Items(c)[..k]), 0);
    SortIsStable(ItemSides(Items(c)), 0);
  }

  /** A name that does not fit is not recovered: the reading ends there, or no record can hold the name. */
  lemma MisfitIsLost(c: Capture, k: nat)
    requires ValuesFit(c) && k < |Items(c)| && !NameFits(Items(c)[k]) && forall j :: 0 <= j < k ==>
               NameFits(Items(c)[j])
    ensures !Recovered(c)
  {
    hide Items, Recovered, ValuesFit, Size;
    FitsIff(c, k);
    Overflows(Items(c)[k]);
    if Size(Items(c)[k]) % 0x1_0000 == 0 { CutOff(c, k); } else { TooLongToRead(c, k); }
  }

  lemma SideOfOne(i: Item)
    ensures ItemSides([i]) == if Meaning(i, 0).Side? then [Meaning(i, 0).side] else []
  {
    assert [i][..0] == [];
  }

  /** A size that is a multiple of 65536 ends the reading at its item. */
  lemma StoppedAt(c: Capture, k: nat)
    requires ValuesFit(c) && k < |Items(c)| && (forall j :: 0 <= j < k ==> NameFits(Items(c)[j]))
    requires (Items(c)[k].CommItem? || Items(c)[k].MmapItem?) && Size(Items(c)[k]) % 0x1_0000 == 0
    ensures var file, end := BundleBytes(c), 264 + |EncodeAll(Items(c))|;
            end <= |file| && Entries(file, SAMPLE_TYPE, 264, end) == Read(EntriesOf(Items(c)[..k], 264))
  {
    hide Entries, Encode, Items, EntriesOf, ReadPerfData, BundleBytes, Representable, Holds, Size, Word, EncodeAll;
    var items := Items(c);
    var i, init, rest := items[k], items[..k], items[k + 1..];
    var file, end := BundleBytes(c), 264 + |EncodeAll(items)|;
    ReadOfBundle(c);
    assert items == init + ([i] + rest);
    EncodeAllConcat(init, [i] + rest);
    EncodeAllConcat([i], rest);
    EncodeOne(i);
    Apart(file, 264, EncodeAll(init), Encode(i) + EncodeAll(rest));
    var pos := 264 + |EncodeAll(init)|;
    Apart(file, pos, Encode(i), EncodeAll(rest));
    forall j | 0 <= j < k ensures Representable(init[j]) { FitsIff(c, j); }
    ItemsReadThen(file, 264, init, end);
    WrittenSize(file, pos, i);
    EntriesEnd(file, SAMPLE_TYPE, pos, end);
    JoinedEnd(EntriesOf(init, 264));
  }

  /** For every capture: the bundle is recovered if and only if all its names fit. */
  lemma BundleRoundTripIff(c: Capture)
    requires ValuesFit(c)
    ensures Recovered(c) <==> NamesFit(c)
  {
    hide Items, EncodeAll, Recovered, Representable, NameFits, BundleBytes, ReadPerfData;
    if NamesFit(c) {
      forall k: nat | k < |Items(c)| ensures Representable(Items(c)[k]) { FitsIff(c, k); }
      RecoveredIf(c);
    } else {
      var k := FirstMisfit(c);
      MisfitIsLost(c, k);
    }
  }

  lemma RecoveredIf(c: Capture)
    requires Writable(c)
    ensures Recovered(c)
  {
    hide Writable, ReadPerfData, BundleBytes, RingsRead, RingsOf, SortByTime, ItemSides, Items;
    BundleRoundTrip(c);
  }
}
