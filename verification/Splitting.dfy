/**
 * Cutting a perf.data file down to some processors: every record is copied but
 * the trace data of the others, and the feature table moves with its blobs.
 */
module Splitting {
  import opened Lines
  import opened Bytes
  import opened PerfFile
  import opened Bundle

  // ----- the copied records -----

  /** The records from `pos` on that are kept, byte for byte. */
  function Kept(file: Blob, cpus: set<nat>, pos: nat, end: nat): Outcome<Blob>
    requires end <= |file|
    decreases end - pos
  {
    if Stops(file, pos, end) then Read([])
    else
      var size := Word(file, pos + 6, 2);
      if Word(file, pos, 4) != 71 then Prefixed(file[pos..pos + size], Kept(file, cpus, pos + size, end))
      else if pos + 44 > |file| then Panicked
      else
        var total := size + Word(file, pos + 8, 8);
        if pos + total > end then Read([])
        else
          Prefixed(if Word(file, pos + 40, 4) in cpus then file[pos..pos + total] else [],
                   Kept(file, cpus, pos + total, end))
  }

  function Prefixed(a: Blob, rest: Outcome<Blob>): Outcome<Blob> {
    if rest.Read? then Read(a + rest.value) else rest
  }

  // ----- the feature table -----

  function PopCount(v: nat): nat {
    if v == 0 then 0 else v % 2 + PopCount(v / 2)
  }

  /** One feature section for each bit set in the four words of the header. */
  function FeatureCount(file: Blob): nat
    requires |file| >= 104
  {
    PopCount(Word(file, 72, 8)) + PopCount(Word(file, 80, 8)) + PopCount(Word(file, 88, 8))
      + PopCount(Word(file, 96, 8))
  }

  function FeatureOffset(file: Blob, table: nat, i: nat): nat
    requires table + 16 * i + 16 <= |file|
  {
    Word(file, table + 16 * i, 8)
  }

  function FeatureSize(file: Blob, table: nat, i: nat): nat
    requires table + 16 * i + 16 <= |file|
  {
    Word(file, table + 16 * i + 8, 8)
  }

  predicate FeatureInside(file: Blob, table: nat, i: nat)
    requires table + 16 * i + 16 <= |file|
  {
    FeatureOffset(file, table, i) + FeatureSize(file, table, i) <= |file|
  }

  predicate FeaturesInside(file: Blob, table: nat, n: nat)
    requires table + 16 * n <= |file|
  {
    forall i :: 0 <= i < n ==> FeatureInside(file, table, i)
  }

  function Feature(file: Blob, table: nat, i: nat): Blob
    requires table + 16 * i + 16 <= |file| && FeatureInside(file, table, i)
  {
    file[FeatureOffset(file, table, i)..FeatureOffset(file, table, i) + FeatureSize(file, table, i)]
  }

  /** The rewritten entries from the i-th on, the first of them pointing at `next`. */
  function NewTable(file: Blob, table: nat, i: nat, n: nat, next: nat): (t: Blob)
    requires i <= n && table + 16 * n <= |file|
    ensures |t| == 16 * (n - i)
    decreases n - i
  {
    if i == n then []
    else
      var size := FeatureSize(file, table, i);
      Le(next, 8) + (Le(size, 8) + NewTable(file, table, i + 1, n, next + size))
  }

  function NewBlobs(file: Blob, table: nat, i: nat, n: nat): Blob
    requires i <= n && table + 16 * n <= |file| && FeaturesInside(file, table, n)
    decreases n - i
  {
    if i == n then [] else Feature(file, table, i) + NewBlobs(file, table, i + 1, n)
  }

  // ----- the whole file -----

  function Patched(out: Blob, size: nat): (r: Blob)
    requires |out| >= 56
    ensures |r| == |out|
  {
    out[..48] + Le(size, 8) + out[56..]
  }

  /** The file without trace data of other processors. */
  function Split(file: Blob, cpus: set<nat>): Outcome<Blob> {
    if |file| < 104 || file[..8] != MAGIC then BadHeader
    else
      var dataOff := Word(file, 40, 8);
      var end := dataOff + Word(file, 48, 8);
      var n := FeatureCount(file);
      if end > |file| || end + 16 * n > |file| then BeyondEnd
      else
        match Kept(file, cpus, dataOff, end)
        case Read(kept) =>
          var table := dataOff + |kept|;
          if !FeaturesInside(file, end, n) then BeyondEnd
          else
            var out := file[..dataOff] + kept + NewTable(file, end, 0, n, table + 16 * n) + NewBlobs(file, end, 0, n);
            if |out| < 56 then Panicked else Read(Patched(out, |kept|))
        case other => other
  }

  method CopyRecords(file: Blob, cpus: set<nat>, from: nat, end: nat) returns (r: Outcome<Blob>)
    requires end <= |file|
    ensures r == Kept(file, cpus, from, end)
  {
    hide Word, Prefixed, Kept;
    var pos, out := from, [];
    NothingKept(Kept(file, cpus, from, end));
    while pos + 8 <= end
      invariant Prefixed(out, Kept(file, cpus, pos, end)) == Kept(file, cpus, from, end)
      decreases end - pos
    {
      KeptAt(file, cpus, pos, end, out);
      var kind, size := Word(file, pos, 4), Word(file, pos + 6, 2);
      if size < 8 || pos + size > end { break; }
      if kind == 71 {
        if pos + 44 > |file| { return Panicked; }
        var total := size + Word(file, pos + 8, 8);
        if pos + total > end { break; }
        if Word(file, pos + 40, 4) in cpus {
          out := out + file[pos..pos + total];
        }
        pos := pos + total;
      } else {
        out := out + file[pos..pos + size];
        pos := pos + size;
      }
    }
    if pos + 8 > end { KeptAt(file, cpus, pos, end, out); }
    r := Read(out);
  }

  /** One step of the copying, with `out` copied before. */
  lemma KeptAt(file: Blob, cpus: set<nat>, pos: nat, end: nat, out: Blob)
    requires end <= |file|
    ensures var all := Prefixed(out, Kept(file, cpus, pos, end));
            if Stops(file, pos, end) then all == Read(out)
            else
              var size := Word(file, pos + 6, 2);
              if Word(file, pos, 4) != 71 then all
                == Prefixed(out + file[pos..pos + size], Kept(file, cpus, pos + size, end))
              else if pos + 44 > |file| then all == Panicked
              else
                var total := size + Word(file, pos + 8, 8);
                if pos + total > end then all == Read(out)
                else
                  && (Word(file, pos + 40, 4) in cpus ==>
                        all == Prefixed(out + file[pos..pos + total], Kept(file, cpus, pos + total, end)))
                  && (Word(file, pos + 40, 4) !in cpus ==> all == Prefixed(out, Kept(file, cpus, pos + total, end)))
  {
    hide Word;
    assert out + [] == out;
    if !Stops(file, pos, end) {
      var size := Word(file, pos + 6, 2);
      if Word(file, pos, 4) != 71 {
        PrefixedStep(out, file[pos..pos + size], Kept(file, cpus, pos + size, end));
      } else if pos + 44 <= |file| {
        var total := size + Word(file, pos + 8, 8);
        if pos + total <= end {
          PrefixedStep(out, file[pos..pos + total], Kept(file, cpus, pos + total, end));
          PrefixedStep(out, [], Kept(file, cpus, pos + total, end));
        }
      }
    }
  }

  lemma NothingKept(rest: Outcome<Blob>)
    ensures Prefixed([], rest) == rest
  {
    if rest.Read? { assert [] + rest.value == rest.value; }
  }

  lemma PrefixedStep(a: Blob, b: Blob, rest: Outcome<Blob>)
    ensures Prefixed(a, Prefixed(b, rest)) == Prefixed(a + b, rest)
  {
    if rest.Read? { assert a + (b + rest.value) == a + b + rest.value; }
  }

  method MoveFeatures(file: Blob, table: nat, n: nat, start: nat) returns (ok: bool, entries: Blob, blobs: Blob)
    requires table + 16 * n <= |file|
    ensures ok == FeaturesInside(file, table, n)
    ensures ok ==> entries == NewTable(file, table, 0, n, start) && blobs == NewBlobs(file, table, 0, n)
  {
    entries, blobs := [], [];
    var next: nat := start;
    hide FeaturesInside, FeatureInside, NewTable, NewBlobs, Feature;
    NoFeatures(file, table, n, start);
    for i := 0 to n
      invariant forall j :: 0 <= j < i ==> FeatureInside(file, table, j)
      invariant entries + NewTable(file, table, i, n, next) == NewTable(file, table, 0, n, start)
      invariant FeaturesInside(file, table, n) ==> blobs + NewBlobs(file, table, i, n) == NewBlobs(file, table, 0, n)
    {
      var off, size := FeatureOffset(file, table, i), FeatureSize(file, table, i);
      NextFeature(file, table, i, n, next, entries, blobs);
      if off + size > |file| { return false, [], []; }
      entries := entries + Le(next, 8) + Le(size, 8);
      blobs := blobs + file[off..off + size];
      next := next + size;
    }
    LastFeature(file, table, n, next, entries, blobs);
    ok := true;
  }

  lemma NoFeatures(file: Blob, table: nat, n: nat, start: nat)
    requires table + 16 * n <= |file|
    ensures [] + NewTable(file, table, 0, n, start) == NewTable(file, table, 0, n, start)
    ensures FeaturesInside(file, table, n) ==> [] + NewBlobs(file, table, 0, n) == NewBlobs(file, table, 0, n)
  {}

  lemma NextFeature(file: Blob, table: nat, i: nat, n: nat, next: nat, entries: Blob, blobs: Blob)
    requires i < n && table + 16 * n <= |file|
    ensures var off, size := FeatureOffset(file, table, i), FeatureSize(file, table, i);
            && entries + NewTable(file, table, i, n, next) ==
               entries + Le(next, 8) + Le(size, 8) + NewTable(file, table, i + 1, n, next + size)
            && (FeatureInside(file, table, i) <==> off + size <= |file|)
            && (FeaturesInside(file, table, n) ==>
                  && off + size <= |file|
                  && blobs + NewBlobs(file, table, i, n)
                     == blobs + file[off..off + size] + NewBlobs(file, table, i + 1, n))
  {
    hide Word;
    if FeaturesInside(file, table, n) { assert FeatureInside(file, table, i); }
  }

  lemma LastFeature(file: Blob, table: nat, n: nat, next: nat, entries: Blob, blobs: Blob)
    requires table + 16 * n <= |file| && forall j :: 0 <= j < n ==> FeatureInside(file, table, j)
    ensures FeaturesInside(file, table, n)
    ensures entries + NewTable(file, table, n, n, next) == entries && blobs + NewBlobs(file, table, n, n) == blobs
  {}

  method SplitByCpus(file: Blob, cpus: set<nat>) returns (r: Outcome<Blob>)
    ensures r == Split(file, cpus)
  {
    hide Word, Kept, FeatureCount, FeaturesInside, NewTable, NewBlobs, Patched;
    if |file| < 104 || file[..8] != MAGIC { return BadHeader; }
    var dataOff := Word(file, 40, 8);
    var end := dataOff + Word(file, 48, 8);
    if end > |file| { return BeyondEnd; }
    var n := FeatureCount(file);
    if end + 16 * n > |file| { return BeyondEnd; }
    var kept := CopyRecords(file, cpus, dataOff, end);
    if !kept.Read? { return kept; }
    var ok, entries, blobs := MoveFeatures(file, end, n, dataOff + |kept.value| + 16 * n);
    if !ok { return BeyondEnd; }
    var out := file[..dataOff] + kept.value + entries + blobs;
    if |out| < 56 { return Panicked; }
    r := Read(Patched(out, |kept.value|));
  }
}
