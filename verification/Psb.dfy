/**
 * Cutting a trace buffer at its stream boundaries: a decoder can start at a
 * PSB packet, the 16-byte pattern of section 33.4.2.17 of the Intel SDM
 * Volume 3C, so a buffer is cut there and nowhere else.
 */
module Psb {
  import opened Lines

  const PSB: seq<Byte> := [0x02, 0x82, 0x02, 0x82, 0x02, 0x82, 0x02, 0x82, 0x02, 0x82, 0x02, 0x82, 0x02, 0x82, 0x02,
                           0x82]
  const MIN_CHUNK: nat := 0x20_0000

  predicate PsbAt(data: seq<Byte>, i: int) {
    0 <= i && i + 16 <= |data| && data[i..i + 16] == PSB
  }

  // ----- finding boundaries -----

  /** The boundaries found from position `i` on. */
  function Offsets(data: seq<Byte>, i: nat): seq<nat>
    decreases |data| - i
  {
    if i + 16 > |data| then []
    else if PsbAt(data, i) then [i] + Offsets(data, i + 16)
    else Offsets(data, i + 1)
  }

  /** Matches in order that do not overlap, and that leave no occurrence outside them. */
  ghost predicate Complete(data: seq<Byte>, from: nat, offs: seq<nat>) {
    && (forall j :: 0 <= j < |offs| ==> from <= offs[j] && PsbAt(data, offs[j]))
    && Apart(offs)
    && (forall p :: from <= p && PsbAt(data, p) ==> InsideOne(offs, p))
  }

  predicate Apart(offs: seq<nat>) {
    forall j, k :: 0 <= j < k < |offs| ==> offs[j] + 16 <= offs[k]
  }

  ghost predicate InsideOne(offs: seq<nat>, p: int) {
    exists j :: 0 <= j < |offs| && offs[j] <= p < offs[j] + 16
  }

  lemma {:induction false} OffsetsComplete(data: seq<Byte>, i: nat)
    ensures Complete(data, i, Offsets(data, i))
    decreases |data| - i
  {
    if i + 16 <= |data| {
      if PsbAt(data, i) {
        var rest := Offsets(data, i + 16);
        OffsetsComplete(data, i + 16);
        ConsComplete(data, i, rest);
      } else {
        OffsetsComplete(data, i + 1);
        assert forall p :: i <= p && PsbAt(data, p) ==> i + 1 <= p;
      }
    }
  }

  lemma ConsComplete(data: seq<Byte>, i: nat, rest: seq<nat>)
    requires PsbAt(data, i) && Complete(data, i + 16, rest)
    ensures Complete(data, i, [i] + rest)
  {
    hide PsbAt, InsideOne;
    var offs := [i] + rest;
    assert forall j :: 0 < j < |offs| ==> offs[j] == rest[j - 1];
    forall p | i <= p && PsbAt(data, p) ensures InsideOne(offs, p) {
      InsideCons(i, rest, p);
    }
  }

  lemma InsideCons(i: nat, rest: seq<nat>, p: int)
    ensures InsideOne([i] + rest, p) <==> i <= p < i + 16 || InsideOne(rest, p)
  {
    var offs := [i] + rest;
    if i <= p < i + 16 {
      assert offs[0] <= p < offs[0] + 16;
    }
    if InsideOne(rest, p) {
      var j := Locate(rest, p);
      assert offs[j + 1] <= p < offs[j + 1] + 16;
    }
    if InsideOne(offs, p) {
      var j := Locate(offs, p);
      assert j > 0 ==> offs[j] == rest[j - 1];
    }
  }

  lemma Locate(offs: seq<nat>, p: int) returns (j: nat)
    requires InsideOne(offs, p)
    ensures j < |offs| && offs[j] <= p < offs[j] + 16
  {
    j :| 0 <= j < |offs| && offs[j] <= p < offs[j] + 16;
  }

  /** These properties leave one answer only. */
  lemma {:induction false} CompleteIsUnique(data: seq<Byte>, from: nat, a: seq<nat>, b: seq<nat>)
    requires Complete(data, from, a) && Complete(data, from, b)
    ensures a == b
    decreases |a|
  {
    hide PsbAt, InsideOne;
    if a == [] {
      if b != [] {
        assert InsideOne(a, b[0]);
        var j := Locate(a, b[0]);
        assert false;
      }
    } else {
      assert InsideOne(b, a[0]);
      var j := Locate(b, a[0]);
      var k := Locate(a, b[0]);
      TailComplete(data, from, a);
      TailComplete(data, from, b);
      CompleteIsUnique(data, a[0] + 16, a[1..], b[1..]);
      assert a == [a[0]] + a[1..] && b == [b[0]] + b[1..];
    }
  }

  lemma TailComplete(data: seq<Byte>, from: nat, a: seq<nat>)
    requires Complete(data, from, a) && a != []
    ensures Complete(data, a[0] + 16, a[1..])
  {
    hide PsbAt, InsideOne;
    assert a == [a[0]] + a[1..];
    forall p | a[0] + 16 <= p && PsbAt(data, p) ensures InsideOne(a[1..], p) {
      InsideCons(a[0], a[1..], p);
    }
  }

  method PsbOffsets(data: seq<Byte>) returns (offs: seq<nat>)
    ensures offs == Offsets(data, 0) && Complete(data, 0, offs)
  {
    offs := [];
    var i := 0;
    while i + 16 <= |data|
      invariant offs + Offsets(data, i) == Offsets(data, 0)
      decreases |data| - i
    {
      if data[i] == 0x02 && data[i..i + 16] == PSB {
        offs := offs + [i];
        i := i + 16;
      } else {
        assert data[i..i + 16][0] == data[i];
        i := i + 1;
      }
    }
    OffsetsComplete(data, 0);
  }

  // ----- cutting -----

  /** The cuts after `last` that the offsets give, each at least `target` behind the one before. */
  function Cuts(len: nat, target: nat, offs: seq<nat>, last: nat): seq<nat> {
    if offs == [] then []
    else if offs[0] - last >= target && len - offs[0] >= MIN_CHUNK / 2
    then [offs[0]] + Cuts(len, target, offs[1..], offs[0])
    else Cuts(len, target, offs[1..], last)
  }

  function Target(len: nat, parts: nat): (t: nat)
    requires parts >= 1
    ensures t >= MIN_CHUNK
  {
    if len / parts > MIN_CHUNK then len / parts else MIN_CHUNK
  }

  predicate Whole(len: nat, parts: nat) { parts <= 1 || len < 2 * MIN_CHUNK }

  /** Every position at which a chunk starts or ends. */
  function CutPoints(data: seq<Byte>, parts: nat): seq<nat>
    requires !Whole(|data|, parts)
  {
    [0] + Cuts(|data|, Target(|data|, parts), Offsets(data, 0), 0) + [|data|]
  }

  function Windows(cuts: seq<nat>): (w: seq<(nat, nat)>)
    requires forall j, k :: 0 <= j < k < |cuts| ==> cuts[j] <= cuts[k]
    ensures |w| == if cuts == [] then 0 else |cuts| - 1
    ensures forall i :: 0 <= i < |w| ==> w[i].0 == cuts[i] && w[i].0 + w[i].1 == cuts[i + 1]
  {
    seq(if cuts == [] then 0 else |cuts| - 1, i requires 0 <= i < |cuts| - 1 => (cuts[i], cuts[i + 1] - cuts[i]))
  }

  predicate Spaced(cuts: seq<nat>, last: nat, target: nat) {
    && (forall j :: 0 <= j < |cuts| ==> last + target <= cuts[j])
    && (forall j, k :: 0 <= j < k < |cuts| ==> cuts[j] + target <= cuts[k])
  }

  /** What the cuts keep: their source, their distance, what they leave behind, and that none is missed. */
  ghost predicate WellCut(len: nat, target: nat, offs: seq<nat>, last: nat, cuts: seq<nat>) {
    && Spaced(cuts, last, target)
    && (forall c :: c in cuts ==> c in offs && c + MIN_CHUNK / 2 <= len)
    && (forall o :: o in offs && o + MIN_CHUNK / 2 <= len ==> o < last + target || NearCut(cuts, target, o))
  }

  ghost predicate NearCut(cuts: seq<nat>, target: nat, o: nat) {
    exists j :: 0 <= j < |cuts| && cuts[j] <= o < cuts[j] + target
  }

  lemma LocateCut(cuts: seq<nat>, target: nat, o: nat) returns (j: nat)
    requires NearCut(cuts, target, o)
    ensures j < |cuts| && cuts[j] <= o < cuts[j] + target
  {
    j :| 0 <= j < |cuts| && cuts[j] <= o < cuts[j] + target;
  }

  lemma NearCons(c: nat, rest: seq<nat>, target: nat, o: nat)
    requires c <= o < c + target || NearCut(rest, target, o)
    ensures NearCut([c] + rest, target, o)
  {
    var cuts := [c] + rest;
    if c <= o < c + target {
      assert cuts[0] <= o < cuts[0] + target;
    } else {
      var j := LocateCut(rest, target, o);
      assert cuts[j + 1] <= o < cuts[j + 1] + target;
    }
  }

  lemma {:induction false} CutsWellCut(len: nat, target: nat, offs: seq<nat>, last: nat)
    requires target >= 1 && forall j, k :: 0 <= j < k < |offs| ==> offs[j] < offs[k]
    ensures WellCut(len, target, offs, last, Cuts(len, target, offs, last))
    decreases |offs|
  {
    hide NearCut, Spaced;
    if offs == [] {
      EmptySpaced(last, target);
    } else {
      assert forall o :: o in offs ==> o == offs[0] || o in offs[1..];
      if offs[0] - last >= target && len - offs[0] >= MIN_CHUNK / 2 {
        CutsWellCut(len, target, offs[1..], offs[0]);
        ConsWellCut(len, target, offs, last, Cuts(len, target, offs[1..], offs[0]));
      } else {
        CutsWellCut(len, target, offs[1..], last);
      }
    }
  }

  lemma EmptySpaced(last: nat, target: nat)
    ensures Spaced([], last, target)
  {}

  lemma ConsWellCut(len: nat, target: nat, offs: seq<nat>, last: nat, rest: seq<nat>)
    requires offs != [] && target >= 1 && (forall j, k :: 0 <= j < k < |offs| ==> offs[j] < offs[k])
    requires WellCut(len, target, offs[1..], offs[0], rest)
    requires last + target <= offs[0] && offs[0] + MIN_CHUNK / 2 <= len
    ensures WellCut(len, target, offs, last, [offs[0]] + rest)
  {
    hide NearCut;
    var cuts := [offs[0]] + rest;
    assert forall j :: 0 < j < |cuts| ==> cuts[j] == rest[j - 1];
    assert Spaced(cuts, last, target);
    hide Spaced;
    forall o | o in offs && o + MIN_CHUNK / 2 <= len ensures o < last + target || NearCut(cuts, target, o) {
      assert offs[0] <= o && (o == offs[0] || o in offs[1..]);
      NearCons(offs[0], rest, target, o);
    }
  }

  /** The chunks of a buffer: they tile it, and begin where a decoder can. */
  ghost predicate Tiles(data: seq<Byte>, chunks: seq<(nat, nat)>) {
    && |chunks| >= 1
    && chunks[0].0 == 0
    && (forall j, k :: 0 <= j && k == j + 1 < |chunks| ==> chunks[k].0 == chunks[j].0 + chunks[j].1)
    && (forall k :: 0 < k < |chunks| ==> PsbAt(data, chunks[k].0))
    && chunks[|chunks| - 1].0 + chunks[|chunks| - 1].1 == |data|
    && (data != [] ==> forall j :: 0 <= j < |chunks| ==> chunks[j].1 > 0)
  }

  /** No chunk but the last is shorter than the target, and the last has half a minimal chunk. */
  predicate LongEnough(chunks: seq<(nat, nat)>, target: nat) {
    forall j :: 0 <= j < |chunks| && |chunks| > 1 ==>
                  chunks[j].1 >= if j < |chunks| - 1 then target else MIN_CHUNK / 2
  }

  lemma CutPointsTile(data: seq<Byte>, parts: nat)
    requires !Whole(|data|, parts)
    ensures var cuts := CutPoints(data, parts);
            && (forall j, k :: 0 <= j < k < |cuts| ==> cuts[j] <= cuts[k])
            && Tiles(data, Windows(cuts)) && LongEnough(Windows(cuts), Target(|data|, parts))
  {
    hide PsbAt, InsideOne, NearCut, Offsets, Cuts, Target;
    var len, target, offs := |data|, Target(|data|, parts), Offsets(data, 0);
    OffsetsComplete(data, 0);
    CutsWellCut(len, target, offs, 0);
    PointsTile(data, target, offs, Cuts(len, target, offs, 0));
  }

  lemma PointsTile(data: seq<Byte>, target: nat, offs: seq<nat>, inner: seq<nat>)
    requires target >= 1 && |data| >= 1 && WellCut(|data|, target, offs, 0, inner)
    requires forall j :: 0 <= j < |offs| ==> PsbAt(data, offs[j])
    ensures var cuts := [0] + inner + [|data|];
            && (forall j, k :: 0 <= j < k < |cuts| ==> cuts[j] <= cuts[k])
            && Tiles(data, Windows(cuts)) && LongEnough(Windows(cuts), target)
  {
    hide PsbAt, NearCut, Windows;
    var cuts := [0] + inner + [|data|];
    PointsSpaced(|data|, target, inner);
    hide Spaced;
    forall k | 0 < k < |cuts| - 1 ensures PsbAt(data, cuts[k]) {
      assert cuts[k] == inner[k - 1];
      assert inner[k - 1] in inner;
    }
    hide WellCut;
    WindowsTile(data, cuts);
    forall j | 0 <= j < |Windows(cuts)| && |Windows(cuts)| > 1
      ensures Windows(cuts)[j].1 >= if j < |Windows(cuts)| - 1 then target else MIN_CHUNK / 2
    {
      assert cuts[j] < cuts[j + 1];
    }
  }

  lemma WindowsTile(data: seq<Byte>, cuts: seq<nat>)
    requires |cuts| >= 2 && cuts[0] == 0 && cuts[|cuts| - 1] == |data|
    requires forall j, k :: 0 <= j < k < |cuts| ==> cuts[j] < cuts[k]
    requires forall k :: 0 < k < |cuts| - 1 ==> PsbAt(data, cuts[k])
    ensures Tiles(data, Windows(cuts))
  {
    hide PsbAt, Windows;
    var w := Windows(cuts);
    assert w[|w| - 1].0 + w[|w| - 1].1 == |data|;
    forall j | 0 <= j < |w| ensures w[j].1 > 0 {
      assert cuts[j] < cuts[j + 1];
    }
    assert forall k :: 0 < k < |w| ==> PsbAt(data, w[k].0);
  }

  lemma PointsSpaced(len: nat, target: nat, inner: seq<nat>)
    requires target >= 1 && len >= 1 && Spaced(inner, 0, target)
    requires forall c :: c in inner ==> c + MIN_CHUNK / 2 <= len
    ensures var cuts := [0] + inner + [len];
            forall j, k :: 0 <= j < k < |cuts| ==>
                             cuts[j] + (if k <= |inner| then target else if j == 0 then 1 else MIN_CHUNK / 2) <= cuts[k]
  {
    var cuts := [0] + inner + [len];
    forall j, k | 0 <= j < k < |cuts|
      ensures cuts[j] + (if k <= |inner| then target else if j == 0 then 1 else MIN_CHUNK / 2) <= cuts[k]
    {
      if k <= |inner| {
        assert cuts[k] == inner[k - 1];
        assert j > 0 ==> cuts[j] == inner[j - 1];
      } else if j > 0 {
        assert cuts[j] == inner[j - 1] && inner[j - 1] in inner;
      }
    }
  }

  method SplitAtPsb(data: seq<Byte>, parts: nat) returns (chunks: seq<(nat, nat)>)
    ensures Tiles(data, chunks) && chunks == Chunks(data, parts)
    ensures !Whole(|data|, parts) ==> LongEnough(chunks, Target(|data|, parts))
  {
    if parts <= 1 || |data| < 2 * MIN_CHUNK { return [(0, |data|)]; }
    var target := if |data| / parts > MIN_CHUNK then |data| / parts else MIN_CHUNK;
    var offs := PsbOffsets(data);
    var cuts := CutAt(|data|, target, offs);
    cuts := cuts + [|data|];
    CutPointsTile(data, parts);
    hide Tiles, LongEnough, Cuts, Offsets, Complete;
    chunks := Windows(cuts);
  }

  method CutAt(len: nat, target: nat, offs: seq<nat>) returns (cuts: seq<nat>)
    ensures cuts == [0] + Cuts(len, target, offs, 0)
  {
    cuts := [0];
    assert offs[0..] == offs;
    for i := 0 to |offs|
      invariant |cuts| >= 1
      invariant cuts + Cuts(len, target, offs[i..], cuts[|cuts| - 1]) == [0] + Cuts(len, target, offs, 0)
    {
      assert offs[i..][1..] == offs[i + 1..];
      if offs[i] - cuts[|cuts| - 1] >= target && len - offs[i] >= MIN_CHUNK / 2 {
        cuts := cuts + [offs[i]];
      }
    }
    assert offs[|offs|..] == [];
  }

  ghost function Chunks(data: seq<Byte>, parts: nat): seq<(nat, nat)> {
    if Whole(|data|, parts) then [(0, |data|)]
    else
      CutPointsTile(data, parts);
      Windows(CutPoints(data, parts))
  }

  // ----- how many chunks -----

  /** Whether a buffer of this length can be cut into more chunks than asked for. */
  predicate CanExceed(len: nat, parts: nat) {
    !Whole(len, parts) && len / parts >= MIN_CHUNK && len % parts >= MIN_CHUNK / 2
  }

  lemma {:induction false} CutsReach(cuts: seq<nat>, target: nat, j: nat)
    requires j < |cuts| && Spaced(cuts, 0, target)
    ensures (j + 1) * target <= cuts[j]
  {
    if j > 0 {
      CutsReach(cuts, target, j - 1);
      assert (j + 1) * target == j * target + target;
    }
  }

  /** So many targets leave too little of the buffer. */
  lemma TooManyParts(len: nat, parts: nat, n: nat)
    requires !Whole(len, parts) && !CanExceed(len, parts) && n >= parts
    ensures n * Target(len, parts) + MIN_CHUNK / 2 > len
  {
    var q, t := len / parts, Target(len, parts);
    assert len == q * parts + len % parts;
    Scale(parts, n, t);
    if q < MIN_CHUNK {
      Scale(q + 1, t, parts);
      assert (q + 1) * parts == q * parts + parts;
    }
  }

  lemma Scale(a: nat, b: nat, t: nat)
    requires a <= b
    ensures a * t <= b * t && t * a <= t * b
  {}

  lemma Below(a: nat, b: nat, t: nat)
    requires a < b
    ensures a * t + t <= b * t
  {
    Scale(a + 1, b, t);
  }

  /** At most `parts` chunks, unless the length allows an exception. */
  lemma AtMostParts(data: seq<Byte>, parts: nat)
    requires parts >= 1 && !CanExceed(|data|, parts)
    ensures |Chunks(data, parts)| <= parts
  {
    if !Whole(|data|, parts) {
      hide PsbAt, Offsets, Cuts, Target, CanExceed, InsideOne, NearCut, Spaced;
      var len, target, offs := |data|, Target(|data|, parts), Offsets(data, 0);
      OffsetsComplete(data, 0);
      CutsWellCut(len, target, offs, 0);
      var inner := Cuts(len, target, offs, 0);
      hide Complete;
      if |inner| >= parts {
        CutsReach(inner, target, |inner| - 1);
        assert inner[|inner| - 1] in inner;
        TooManyParts(len, parts, |inner|);
        assert false;
      }
    }
  }

  /** A buffer with a boundary at every multiple of `step`. */
  ghost function Comb(len: nat, step: nat): (data: seq<Byte>)
    requires step >= MIN_CHUNK
    ensures |data| == len
  {
    seq(len, i requires 0 <= i < len => if i % step < 16 then PSB[i % step] else 0)
  }

  lemma CombByte(len: nat, step: nat, k: nat, d: int)
    requires step >= MIN_CHUNK && (d < 0 ==> k >= 1) && 0 - step <= d < step && 0 <= k * step + d < len
    ensures Comb(len, step)[k * step + d] == if 0 <= d < 16 then PSB[d] else if 16 - step <= d then 0 else PSB[d + step]
  {
    if d >= 0 {
      ModOf(k, step, d);
    } else {
      assert k * step + d == (k - 1) * step + (d + step);
      ModOf(k - 1, step, d + step);
    }
  }

  lemma ModOf(k: nat, step: nat, d: nat)
    requires d < step
    ensures (k * step + d) % step == d
  {
    var q, r := (k * step + d) / step, (k * step + d) % step;
    assert q * step + r == k * step + d;
    if q > k { Below(k, q, step); }
    if q < k { Below(q, k, step); }
  }

  lemma CombPsb(len: nat, step: nat, k: nat)
    requires step >= MIN_CHUNK && k * step + 16 <= len
    ensures PsbAt(Comb(len, step), k * step)
  {
    hide Comb;
    var data, p := Comb(len, step), k * step;
    forall d | 0 <= d < 16 ensures data[p + d] == PSB[d] {
      CombByte(len, step, k, d);
    }
    assert data[p..p + 16] == PSB;
  }

  /** A byte that is not part of the pattern lies in no match. */
  lemma NoMatchOver(data: seq<Byte>, o: nat, p: nat)
    requires PsbAt(data, o) && o <= p < o + 16
    ensures data[p] != 0
  {
    assert data[p] == data[o..o + 16][p - o];
  }

  lemma CombOffset(len: nat, step: nat, k: nat)
    requires step >= MIN_CHUNK && k >= 1 && k * step + 16 <= len
    ensures k * step in Offsets(Comb(len, step), 0)
  {
    hide Offsets, PsbAt, InsideOne;
    var data := Comb(len, step);
    var p := k * step;
    Scale(1, k, step);
    CombByte(len, step, k, -1);
    hide Comb;
    CombPsb(len, step, k);
    OffsetsComplete(data, 0);
    var offs := Offsets(data, 0);
    var j := Locate(offs, p);
    if offs[j] < p {
      NoMatchOver(data, offs[j], p - 1);
      assert false;
    }
  }

  /** Greedy cutting takes every multiple of the target that is on offer. */
  lemma {:induction false} CombCut(len: nat, target: nat, offs: seq<nat>, cuts: seq<nat>, k: nat)
    requires target >= 1 && WellCut(len, target, offs, 0, cuts) && 1 <= k
    requires forall i :: 1 <= i <= k ==> i * target in offs && i * target + MIN_CHUNK / 2 <= len
    ensures k <= |cuts| && cuts[k - 1] == k * target
  {
    hide NearCut;
    var o := k * target;
    assert k * target in offs;
    if k > 1 {
      CombCut(len, target, offs, cuts, k - 1);
      assert (k - 1) * target + target == o;
    }
    assert o >= target;
    var j := LocateCut(cuts, target, o);
    CutsReach(cuts, target, j);
    if j >= k {
      Below(k, j + 1, target);
      assert false;
    }
    if j < k - 1 {
      assert false;
    }
  }

  /** The documented bound holds of all buffers of a length exactly when the length allows no exception. */
  lemma AtMostPartsIff(len: nat, parts: nat)
    requires parts >= 1
    ensures (forall data: seq<Byte> :: |data| == len ==> |Chunks(data, parts)| <= parts) <==> !CanExceed(len, parts)
    ensures parts <= MIN_CHUNK / 2 ==> !CanExceed(len, parts)
  {
    if CanExceed(len, parts) {
      Exceeding(len, parts);
    } else {
      forall data: seq<Byte> | |data| == len ensures |Chunks(data, parts)| <= parts {
        AtMostParts(data, parts);
      }
    }
  }

  lemma Exceeding(len: nat, parts: nat)
    requires CanExceed(len, parts)
    ensures |Chunks(Comb(len, len / parts), parts)| > parts
  {
    var target := Target(len, parts);
    assert target == len / parts;
    var data := Comb(len, target);
    assert len == parts * target + len % parts;
    hide Comb, Offsets, Cuts, Target, CanExceed;
    forall i | 1 <= i <= parts ensures i * target in Offsets(data, 0) && i * target + MIN_CHUNK / 2 <= len {
      Scale(i, parts, target);
      CombOffset(len, target, i);
    }
    OffsetsComplete(data, 0);
    CutsWellCut(len, target, Offsets(data, 0), 0);
    CombCut(len, target, Offsets(data, 0), Cuts(len, target, Offsets(data, 0), 0), parts);
  }
}
