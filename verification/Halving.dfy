/** One shortening of a row halves one field, the largest that may be cut, and leaves every other field as it is. */
module Halving {
  import opened TraceTypes
  import opened Lines
  import opened Page

  /** UTF-8: no character has more than three bytes behind its first. */
  predicate Characters(s: Text) {
    forall k: nat :: k + 3 < |s| && Inside(s, k) ==> !(Inside(s, k + 1) && Inside(s, k + 2) && Inside(s, k + 3))
  }

  /** The byte continues a character. */
  predicate Inside(s: Text, k: nat)
    requires k < |s|
  {
    128 <= s[k] < 192
  }

  /** The first half of the items, or of the bytes up to a character, followed by dots. */
  ghost predicate Halved(v: Json, w: Json) {
    match v
    case Arr(items) => w.Arr? && w.items <= items && (2 * |w.items| == |items| || 2 * |w.items| + 1 == |items|)
    case Str(s) =>
      && w.Str? && exists c :: CutIn(s, w.str, c)
    case _ => false
  }

  predicate CutIn(s: Text, t: Text, c: nat) {
    && 2 * c <= |s| && CharBoundary(s, c) && t == s[..c] + DOTS
    && (Characters(s) ==> 2 * c + 8 > |s|)
  }

  lemma ShortenedIsHalf(v: Json)
    requires (v.Arr? && |v.items| > 1) || (v.Str? && |v.str| > 256)
    ensures Halved(v, Shortened(v))
  {
    if v.Str? {
      var s := v.str;
      var c := CutBefore(s, |s| / 2);
      if Characters(s) { BoundaryIsNear(s, |s| / 2); }
      assert CutIn(s, Shortened(v).str, c);
    }
  }

  lemma BoundaryIsNear(s: Text, n: nat)
    requires Characters(s) && 3 <= n < |s|
    ensures n <= CutBefore(s, n) + 3
  {
    var c, k: nat := CutBefore(s, n), n - 3;
    if c < k {
      assert !CharBoundary(s, k) && !CharBoundary(s, k + 1) && !CharBoundary(s, k + 2) && !CharBoundary(s, k + 3);
      assert Inside(s, k) && Inside(s, k + 1) && Inside(s, k + 2) && Inside(s, k + 3);
    }
  }

  predicate Apart(p: Path, q: Path) { !(p <= q) && !(q <= p) }

  lemma {:induction false} PutThere(v: Json, p: Path, w: Json)
    requires Reaches(v, p)
    ensures Reaches(Put(v, p, w), p) && At(Put(v, p, w), p) == w
    decreases |p|
  {
    if p != [] { PutThere(v.fields[p[0]].value, p[1..], w); }
  }

  lemma {:induction false} PutElsewhere(v: Json, p: Path, w: Json, q: Path)
    requires Reaches(v, p) && Reaches(v, q) && Apart(p, q)
    ensures Reaches(Put(v, p, w), q) && At(Put(v, p, w), q) == At(v, q)
    decreases |p|
  {
    if p != [] && q != [] && p[0] == q[0] {
      assert p == [p[0]] + p[1..] && q == [q[0]] + q[1..];
      PutElsewhere(v.fields[p[0]].value, p[1..], w, q[1..]);
    }
  }

  /** Marking touches only the list of cut fields. */
  lemma MarkElsewhere(row: Json, name: Text, q: Path)
    requires q != [] && Reaches(row, q) && row.fields[q[0]].key != TRUNCATED_FIELDS
    ensures Reaches(Mark(row, name), q) && At(Mark(row, name), q) == At(row, q)
  {
    hide TRUNCATED_FIELDS;
    var i := Find(row.fields, TRUNCATED_FIELDS);
    assert i != q[0];
    assert Mark(row, name).fields[q[0]] == row.fields[q[0]];
  }

  /** The p-th field is the one that the step from `row` to `r` has halved. */
  ghost predicate HalvesAt(size: Sizes, row: Json, r: Json, p: Path) {
    && Candidate(size, row, p) && Reaches(row, p) && Reaches(r, p) && Halved(At(row, p), At(r, p))
    && (forall q :: Candidate(size, row, q) && Reaches(row, q) ==> Saving(size, At(row, q)) <= Saving(size, At(row, p)))
    && forall q :: Reaches(row, q) && Apart(p, q) && row.fields[q[0]].key != TRUNCATED_FIELDS ==>
         Reaches(r, q) && At(r, q) == At(row, q)
  }

  lemma OneFieldHalved(size: Sizes, row: Json)
    requires ShrinkRow(size, row).Some?
    ensures exists p :: HalvesAt(size, row, ShrinkRow(size, row).value, p)
  {
    hide Largest, Mark, Halved, Shortened, TRUNCATED_FIELDS, Put, At, Name;
    LargestIsBest(size, row);
    var p := Largest(size, row, [], None).value.path;
    CandidateReaches(size, row, p);
    var put, r := Put(row, p, Shortened(At(row, p))), ShrinkRow(size, row).value;
    CutKind(size, At(row, p));
    ShortenedIsHalf(At(row, p));
    PutThere(row, p, Shortened(At(row, p)));
    PutKeys(row, p, Shortened(At(row, p)));
    MarkElsewhere(put, Name(row, p), p);
    forall q | Reaches(row, q) && Apart(p, q) && row.fields[q[0]].key != TRUNCATED_FIELDS
      ensures Reaches(r, q) && At(r, q) == At(row, q)
    {
      PutElsewhere(row, p, Shortened(At(row, p)), q);
      MarkElsewhere(put, Name(row, p), q);
    }
    forall q | Candidate(size, row, q) && Reaches(row, q) ensures Saving(size, At(row, q)) <= Saving(size, At(row, p)) {
      assert Beats(size, row, Largest(size, row, [], None), q);
    }
    assert HalvesAt(size, row, r, p);
  }

  lemma CutKind(size: Sizes, v: Json)
    requires Saving(size, v) > 0
    ensures (v.Arr? && |v.items| > 1) || (v.Str? && |v.str| > 256)
  {}

  lemma PutKeys(row: Json, p: Path, w: Json)
    requires p != [] && Reaches(row, p)
    ensures var r := Put(row, p, w);
            r.Obj? && |r.fields| == |row.fields| && forall i :: 0 <= i < |row.fields| ==>
              r.fields[i].key == row.fields[i].key
  {}
}
