/** Whole bundles: the writer's loops, what the reader recovers, and whom each ring belongs to. */
module Recording {
  import opened Lines
  import opened Bytes
  import opened PerfFile
  import opened Bundle
  import TraceTypes

  // ----- lists of items -----

  function EntriesOf(items: seq<Item>, pos: nat): seq<Entry>
    decreases |items|
  {
    if items == [] then [] else [Meaning(items[0], pos)] + EntriesOf(items[1..], pos + |Encode(items[0])|)
  }

  ghost predicate AllRepresentable(items: seq<Item>) {
    forall k :: 0 <= k < |items| ==> Representable(items[k])
  }

  lemma EncodedLength(i: Item, pos: nat)
    ensures |Encode(i)| == Size(i) + Payload(Meaning(i, pos)) && Size(i) >= 8
  {}

  /** Items written one after the other are read one after the other. */
  lemma {:induction false} ItemsRead(file: Blob, pos: nat, items: seq<Item>)
    requires Holds(file, pos, EncodeAll(items)) && AllRepresentable(items)
    ensures pos + |EncodeAll(items)| <= |file|
    ensures Entries(file, SAMPLE_TYPE, pos, pos + |EncodeAll(items)|) == Read(EntriesOf(items, pos))
    decreases |items|
  {
    hide Entries, Encode, Representable, Meaning, EntryAt, Readable, Word, Size;
    if items == [] {
      EntriesEnd(file, SAMPLE_TYPE, pos, pos);
    } else {
      var i, rest := items[0], items[1..];
      var end := pos + |EncodeAll(items)|;
      Apart(file, pos, Encode(i), EncodeAll(rest));
      ItemReads(file, pos, i);
      EncodedLength(i, pos);
      ItemsRead(file, pos + |Encode(i)|, rest);
      EntriesStep(file, SAMPLE_TYPE, pos, end);
    }
  }

  lemma {:induction false} EncodeAllConcat(a: seq<Item>, b: seq<Item>)
    ensures EncodeAll(a + b) == EncodeAll(a) + EncodeAll(b)
    decreases |a|
  {
    hide Encode;
    if a == [] {
      assert a + b == b;
    } else {
      EncodeAllConcat(a[1..], b);
      assert (a + b)[0] == a[0] && (a + b)[1..] == a[1..] + b;
    }
  }

  lemma EncodeOne(i: Item)
    ensures EncodeAll([i]) == Encode(i)
  {}

  // ----- bundles -----

  datatype Mapping = Mapping(start: U64, len: U64, pgoff: U64, path: Blob)

  datatype Process = Process(pid: U32, ppid: U32, comm: Blob, maps: seq<Mapping>, exec: TraceTypes.Option<U64>)

  datatype Event = Event(pid: U32, tid: U32, comm: Blob, snapshot: TraceTypes.Option<Blob>)

  /** Events are numbered in 32 bits. */
  type Events = es: seq<Event> | |es| <= 0x1_0000_0000

  const PERF_EXEC: Blob := [112, 101, 114, 102, 45, 101, 120, 101, 99]

  function MapItems(pid: U32, time: U64, maps: seq<Mapping>): seq<Item> {
    if maps == [] then []
    else
      var m := maps[|maps| - 1];
      MapItems(pid, time, maps[..|maps| - 1]) + [MmapItem(pid, time, m.start, m.len, m.pgoff, m.path)]
  }

  /** A process appears as a fork, or, at the root, as what perf's own child is called; then its name and mappings. */
  function ProcessItems(p: Process, root: TraceTypes.Option<U32>): seq<Item> {
    var time: U64 := if p.exec.Some? then p.exec.value else 0;
    [if root == TraceTypes.Some(p.pid) then CommItem(p.pid, p.pid, 0, false, PERF_EXEC, 0)
     else ForkItem(p.pid, p.ppid, p.pid, p.ppid, 0),
     CommItem(p.pid, p.pid, time, p.exec.Some?, p.comm, 0)] + MapItems(p.pid, time, p.maps)
  }

  function ProcessesItems(ps: seq<Process>, root: TraceTypes.Option<U32>): seq<Item> {
    if ps == [] then [] else ProcessesItems(ps[..|ps| - 1], root) + ProcessItems(ps[|ps| - 1], root)
  }

  /** A thread is announced on the pseudo processor of its ring. */
  function ThreadItems(e: Event, n: U32): seq<Item> {
    (if e.tid == e.pid then []
     else [ForkItem(e.pid, e.pid, e.tid, e.pid, n)] + if e.comm == [] then []
       else [CommItem(e.pid, e.tid, 0, false, e.comm, n)])
    + [StartItem(e.pid, e.tid, n)]
  }

  function ThreadsItems(es: Events): seq<Item>
  {
    if es == [] then [] else ThreadsItems(es[..|es| - 1]) + ThreadItems(es[|es| - 1], |es| - 1)
  }

  predicate HasRing(e: Event) { e.snapshot.Some? && e.snapshot.value != [] }

  function RingItems(es: Events): seq<Item>
  {
    if es == [] then []
    else
      var e := es[|es| - 1];
      RingItems(es[..|es| - 1]) + if HasRing(e) then [AuxItem(e.tid, |es| - 1, e.snapshot.value)] else []
  }

  datatype Capture = Capture(
    info: PtInfo, config: U64, processes: seq<Process>, events: Events, root: TraceTypes.Option<U32>)

  function Items(c: Capture): seq<Item>
  {
    [InfoItem(c.info)] + ProcessesItems(c.processes, c.root) + ThreadsItems(c.events) + RingItems(c.events)
  }

  /** Magic, section table, one attribute with its id list: 264 bytes before the data. */
  function Preamble(c: Capture, dataSize: nat): (b: Blob)
    ensures |b| == 264
  {
    var ids := Le(256, 8) + Le(8, 8) + Le(0, 8);
    MAGIC + (Le(104, 8) + (Le(152, 8) + (Le(104, 8) + (Le(152, 8) + (Le(264, 8) + (Le(dataSize, 8)
                                                                                   + (Zeros(48) + Attribute(c,
                                                                                       ids))))))))
  }

  function Attribute(c: Capture, rest: Blob): (b: Blob)
    ensures |b| == 136 + |rest|
  {
    Le(c.info.pmuType, 4) + (Le(136, 4)
                             + (Le(c.config,
                                   8) + (Le(0, 8) + (Le(SAMPLE_TYPE, 8)
                                                     + (Le(0, 8) + Le(0x4_0060, 8) + Zeros(88) + rest)))))
  }

  function BundleBytes(c: Capture): Blob
  {
    Preamble(c, |EncodeAll(Items(c))|) + EncodeAll(Items(c))
  }

  // ----- the writer -----

  lemma Appended(items: seq<Item>, more: seq<Item>)
    ensures EncodeAll(items) + EncodeAll(more) == EncodeAll(items + more)
  {
    EncodeAllConcat(items, more);
  }

  method EncodeRecord(i: Item) returns (r: Blob)
    ensures r == EncodeAll([i])
  {
    EncodeOne(i);
    var body := Body(i);
    match i {
      case CommItem(pid, tid, _, _, name, _) =>
        var padded := Pad(name, 16);
        body := Le(pid, 4) + (Le(tid, 4) + padded);
      case MmapItem(pid, _, start, len, pgoff, path) =>
        var padded := Pad(path, 8);
        body := Le(pid,
                   4) + (Le(pid,
                            4) + (Le(start,
                                     8) + (Le(len,
                                              8) + (Le(pgoff, 8) + (Zeros(24) + (Le(5, 4) + (Le(0, 4) + padded)))))));
      case _ =>
    }
    r := RecordBytes(Kind(i), Misc(i), body, Trail(i));
    if i.AuxItem? { r := r + i.blob; }
  }

  method WriteProcesses(ps: seq<Process>, root: TraceTypes.Option<U32>) returns (data: Blob)
    ensures data == EncodeAll(ProcessesItems(ps, root))
  {
    hide Encode;
    data := [];
    for k := 0 to |ps|
      invariant data == EncodeAll(ProcessesItems(ps[..k], root))
    {
      var p := ps[k];
      ghost var before := ProcessesItems(ps[..k], root);
      assert ps[..k + 1][..k] == ps[..k];
      var first := if root == TraceTypes.Some(p.pid) then CommItem(p.pid, p.pid, 0, false, PERF_EXEC, 0)
                   else ForkItem(p.pid, p.ppid, p.pid, p.ppid, 0);
      var time: U64 := if p.exec.Some? then p.exec.value else 0;
      var comm := CommItem(p.pid, p.pid, time, p.exec.Some?, p.comm, 0);
      var a := EncodeRecord(first);
      var b := EncodeRecord(comm);
      var m := WriteMaps(p.pid, time, p.maps);
      Appended([first], [comm]);
      Appended([first] + [comm], MapItems(p.pid, time, p.maps));
      assert [first] + [comm] == [first, comm];
      Appended(before, ProcessItems(p, root));
      data := data + (a + b + m);
    }
    assert ps[..|ps|] == ps;
  }

  method WriteMaps(pid: U32, time: U64, maps: seq<Mapping>) returns (data: Blob)
    ensures data == EncodeAll(MapItems(pid, time, maps))
  {
    hide Encode;
    data := [];
    for k := 0 to |maps|
      invariant data == EncodeAll(MapItems(pid, time, maps[..k]))
    {
      var m := maps[k];
      assert maps[..k + 1][..k] == maps[..k];
      var item := MmapItem(pid, time, m.start, m.len, m.pgoff, m.path);
      var r := EncodeRecord(item);
      Appended(MapItems(pid, time, maps[..k]), [item]);
      data := data + r;
    }
    assert maps[..|maps|] == maps;
  }

  method WriteThreads(es: Events) returns (data: Blob)
    ensures data == EncodeAll(ThreadsItems(es))
  {
    hide Encode;
    data := [];
    for k := 0 to |es|
      invariant data == EncodeAll(ThreadsItems(es[..k]))
    {
      assert es[..k + 1][..k] == es[..k];
      var r := WriteThread(es[k], k);
      Appended(ThreadsItems(es[..k]), ThreadItems(es[k], k));
      data := data + r;
    }
    assert es[..|es|] == es;
  }

  method WriteThread(e: Event, n: U32) returns (data: Blob)
    ensures data == EncodeAll(ThreadItems(e, n))
  {
    hide Encode;
    data := [];
    ghost var items: seq<Item> := [];
    if e.tid != e.pid {
      data := EncodeRecord(ForkItem(e.pid, e.pid, e.tid, e.pid, n));
      items := [ForkItem(e.pid, e.pid, e.tid, e.pid, n)];
      if e.comm != [] {
        var r := EncodeRecord(CommItem(e.pid, e.tid, 0, false, e.comm, n));
        Appended(items, [CommItem(e.pid, e.tid, 0, false, e.comm, n)]);
        items := items + [CommItem(e.pid, e.tid, 0, false, e.comm, n)];
        data := data + r;
      }
    }
    var s := EncodeRecord(StartItem(e.pid, e.tid, n));
    Appended(items, [StartItem(e.pid, e.tid, n)]);
    data := data + s;
    assert items + [StartItem(e.pid, e.tid, n)] == ThreadItems(e, n);
  }

  method WriteRings(es: Events) returns (data: Blob, total: nat)
    ensures data == EncodeAll(RingItems(es)) && total == RingTotal(es)
  {
    hide Encode;
    data, total := [], 0;
    for k := 0 to |es|
      invariant data == EncodeAll(RingItems(es[..k])) && total == RingTotal(es[..k])
    {
      assert es[..k + 1][..k] == es[..k];
      var e := es[k];
      if e.snapshot.Some? && e.snapshot.value != [] {
        var item := AuxItem(e.tid, k, e.snapshot.value);
        var r := EncodeRecord(item);
        Appended(RingItems(es[..k]), [item]);
        data, total := data + r, total + |e.snapshot.value|;
      } else {
        assert RingItems(es[..k]) + [] == RingItems(es[..k]);
      }
    }
    assert es[..|es|] == es;
  }

  function RingTotal(es: Events): nat {
    if es == [] then 0
    else RingTotal(es[..|es| - 1]) + if HasRing(es[|es| - 1]) then |es[|es| - 1].snapshot.value| else 0
  }

  method WriteBundle(c: Capture) returns (out: Blob, total: nat)
    ensures out == BundleBytes(c) && total == RingTotal(c.events)
  {
    hide Encode, Preamble, EncodeAll;
    var data := EncodeRecord(InfoItem(c.info));
    var processes := WriteProcesses(c.processes, c.root);
    var threads := WriteThreads(c.events);
    var rings;
    rings, total := WriteRings(c.events);
    Appended([InfoItem(c.info)], ProcessesItems(c.processes, c.root));
    Appended([InfoItem(c.info)] + ProcessesItems(c.processes, c.root), ThreadsItems(c.events));
    Appended([InfoItem(c.info)] + ProcessesItems(c.processes, c.root) + ThreadsItems(c.events), RingItems(c.events));
    data := data + processes + threads + rings;
    out := Preamble(c, |data|) + data;
  }

  // ----- what the reader recovers -----

  function ItemSides(items: seq<Item>): seq<Sideband> {
    if items == [] then []
    else
      var e := Meaning(items[|items| - 1], 0);
      ItemSides(items[..|items| - 1]) + if e.Side? then [e.side] else []
  }

  function AuxOf(items: seq<Item>): seq<Item> {
    if items == [] then []
    else AuxOf(items[..|items| - 1]) + if items[|items| - 1].AuxItem? then [items[|items| - 1]] else []
  }

  /** A blob names the ring's thread and pseudo processor, and its bytes are the ring's. */
  predicate RingRead(file: Blob, b: AuxBlob, i: Item) {
    i.AuxItem? && b.cpu == i.cpu && b.tid == i.tid && b.bytes == |i.blob| && Holds(file, b.fileOffset, i.blob)
  }

  ghost predicate RingsRead(file: Blob, blobs: seq<AuxBlob>, rings: seq<Item>) {
    |blobs| == |rings| && forall j :: 0 <= j < |rings| ==> RingRead(file, blobs[j], rings[j])
  }

  lemma {:induction false} EntriesLast(items: seq<Item>, i: Item, pos: nat)
    ensures EntriesOf(items + [i], pos) == EntriesOf(items, pos) + [Meaning(i, pos + |EncodeAll(items)|)]
    decreases |items|
  {
    hide Encode, Meaning;
    if items == [] {
      assert (items + [i])[1..] == [];
    } else {
      assert (items + [i])[0] == items[0] && (items + [i])[1..] == items[1..] + [i];
      EntriesLast(items[1..], i, pos + |Encode(items[0])|);
    }
  }

  lemma {:induction false} EntriesMean(items: seq<Item>, pos: nat)
    ensures SidesOf(EntriesOf(items, pos)) == ItemSides(items)
  {
    hide EntriesOf, EncodeAll;
    if items == [] {
      NoEntries(pos);
    } else {
      var init, i := items[..|items| - 1], items[|items| - 1];
      assert items == init + [i];
      EntriesMean(init, pos);
      EntriesLast(init, i, pos);
      LastEntry(EntriesOf(init, pos), Meaning(i, pos + |EncodeAll(init)|));
    }
  }

  lemma NoEntries(pos: nat)
    ensures EntriesOf([], pos) == [] && BlobsOf([]) == []
  {}

  lemma {:induction false} EntriesHold(file: Blob, items: seq<Item>, pos: nat)
    requires Holds(file, pos, EncodeAll(items)) && AllRepresentable(items)
    ensures RingsRead(file, BlobsOf(EntriesOf(items, pos)), AuxOf(items))
  {
    hide EntriesOf, EncodeAll, Encode, Representable, Holds, BlobsOf, RingsRead, Meaning;
    if items == [] {
      NoEntries(pos);
      NoRings(file);
    } else {
      var init, i := items[..|items| - 1], items[|items| - 1];
      assert items == init + [i];
      EncodeAllConcat(init, [i]);
      EncodeOne(i);
      Apart(file, pos, EncodeAll(init), Encode(i));
      EntriesHold(file, init, pos);
      EntriesLast(init, i, pos);
      var at := pos + |EncodeAll(init)|;
      LastEntry(EntriesOf(init, pos), Meaning(i, at));
      if i.AuxItem? {
        AuxReads(file, at, i);
        RingMeant(file, at, i);
        OneMoreRing(file, BlobsOf(EntriesOf(init, pos)), AuxOf(init), Meaning(i, at).blob, i);
      } else {
        NoRingMeant(i, at);
        assert AuxOf(items) == AuxOf(init) && BlobsOf(EntriesOf(items, pos)) == BlobsOf(EntriesOf(init, pos));
      }
    }
  }

  lemma NoRings(file: Blob)
    ensures RingsRead(file, [], [])
  {}

  lemma RingMeant(file: Blob, at: nat, i: Item)
    requires i.AuxItem? && Holds(file, at + 48, i.blob)
    ensures Meaning(i, at).Aux? && RingRead(file, Meaning(i, at).blob, i)
  {
    hide Holds;
  }

  lemma NoRingMeant(i: Item, at: nat)
    ensures !i.AuxItem? ==> !Meaning(i, at).Aux?
  {}

  lemma OneMoreRing(file: Blob, blobs: seq<AuxBlob>, rings: seq<Item>, b: AuxBlob, i: Item)
    requires RingsRead(file, blobs, rings) && RingRead(file, b, i)
    ensures RingsRead(file, blobs + [b], rings + [i])
  {
    hide RingRead;
  }

  lemma {:induction false} InfoFirst(items: seq<Item>, pos: nat, info: PtInfo)
    requires items != [] && items[0] == InfoItem(info) && forall k :: 0 < k < |items| ==> !items[k].InfoItem?
    ensures InfoOf(EntriesOf(items, pos)) == info
  {
    hide EntriesOf, EncodeAll;
    var init, i := items[..|items| - 1], items[|items| - 1];
    assert items == init + [i];
    EntriesLast(init, i, pos);
    LastEntry(EntriesOf(init, pos), Meaning(i, pos + |EncodeAll(init)|));
    if |items| > 1 { InfoFirst(init, pos, info); }
  }

  lemma PreambleReads(c: Capture, n: U64, file: Blob)
    requires Holds(file, 0, Preamble(c, n))
    ensures |file| >= 264 && file[..8] == MAGIC && Word(file, 24, 8) == 104 && Word(file, 32, 8) == 152
    ensures Word(file, 40, 8) == 264 && Word(file, 48, 8) == n && Word(file, 128, 8) == SAMPLE_TYPE
    ensures Holds(file, 56, Zeros(48))
  {
    hide Holds, Le, Limit, Word, Attribute;
    Limits();
    var ids := Le(256, 8) + Le(8, 8) + Le(0, 8);
    var attr := Zeros(48) + Attribute(c, ids);
    var e := Le(264, 8) + (Le(n, 8) + attr);
    var d := Le(104, 8) + (Le(152, 8) + e);
    Apart(file, 0, MAGIC, Le(104, 8) + (Le(152, 8) + d));
    HeldSlice(file, 0, MAGIC);
    Take(file, 8, 104, 8, Le(152, 8) + d);
    Take(file, 16, 152, 8, d);
    Take(file, 24, 104, 8, Le(152, 8) + e);
    Take(file, 32, 152, 8, e);
    Take(file, 40, 264, 8, Le(n, 8) + attr);
    Take(file, 48, n, 8, attr);
    Apart(file, 56, Zeros(48), Attribute(c, ids));
    AttributeReads(c, ids, file);
    HoldsWithin(file, 0, Preamble(c, n));
  }

  lemma AttributeReads(c: Capture, rest: Blob, file: Blob)
    requires Holds(file, 104, Attribute(c, rest))
    ensures |file| >= 136 && Word(file, 128, 8) == SAMPLE_TYPE
  {
    hide Holds, Le, Limit, Word;
    Limits();
    var tail := Le(0, 8) + Le(0x4_0060, 8) + Zeros(88) + rest;
    var st := Le(SAMPLE_TYPE, 8) + tail;
    Apart(file, 104, Le(c.info.pmuType, 4), Le(136, 4) + (Le(c.config, 8) + (Le(0, 8) + st)));
    Take(file, 108, 136, 4, Le(c.config, 8) + (Le(0, 8) + st));
    Take(file, 112, c.config, 8, Le(0, 8) + st);
    Take(file, 120, 0, 8, st);
    Take(file, 128, SAMPLE_TYPE, 8, tail);
  }
}
