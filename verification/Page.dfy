/**
 * Result pages under a size budget. Rows that do not fit are left for the next
 * page, and a single row that does not fit is shortened field by field.
 */
module Page {
  import opened TraceTypes
  import opened Lines

  type Text = seq<Byte>

  datatype Json =
    | Scalar(text: Text)
    | Str(str: Text)
    | Arr(items: seq<Json>)
    | Obj(fields: seq<Field>)

  /** A member of an object; keys are distinct, and stand in the order in which they are visited. */
  datatype Field = Field(key: Text, value: Json)

  function Ascii(s: string): (t: Text)
    ensures |t| == |s|
  {
    seq(|s|, i requires 0 <= i < |s| => s[i] as int % 256)
  }

  const TRUNCATED_FIELDS: Text := Ascii("truncated_fields")
  const DOTS: Text := [46, 46, 46]
  const DOT: Text := [46]

  // ----- the field to shorten -----

  /** The serialized size of a value; nothing here depends on how it is computed. */
  type Sizes = Json -> nat

  /** What a field would save; 0 if it is not to be touched. */
  function Saving(size: Sizes, v: Json): nat {
    match v
    case Arr(items) => if |items| > 1 then size(v) else 0
    case Str(str) => if |str| > 256 then |str| else 0
    case _ => 0
  }

  /** A field by its position in each object on the way. */
  type Path = seq<nat>

  datatype Best = Best(path: Path, size: nat)

  function Largest(size: Sizes, v: Json, path: Path, best: Option<Best>): Option<Best>
    decreases v, if v.Obj? then |v.fields| + 1 else 0
  {
    if v.Obj? then LargestOf(size, v, |v.fields|, path, best) else best
  }

  /** The best after the first `n` fields have been visited, each before its own fields. */
  function LargestOf(size: Sizes, v: Json, n: nat, path: Path, best: Option<Best>): Option<Best>
    requires v.Obj? && n <= |v.fields|
    decreases v, n
  {
    if n == 0 then best
    else
      var b := LargestOf(size, v, n - 1, path, best);
      var f := v.fields[n - 1];
      if f.key == TRUNCATED_FIELDS then b
      else
        var s := Saving(size, f.value);
        Largest(size, f.value, path + [n - 1],
                if s > 0 && (b.None? || s > b.value.size) then Some(Best(path + [n - 1], s)) else b)
  }

  /** A field that may be shortened: reached through objects only, never inside the list of cut fields. */
  predicate Candidate(size: Sizes, v: Json, p: Path) {
    && p != [] && v.Obj? && p[0] < |v.fields| && v.fields[p[0]].key != TRUNCATED_FIELDS
    && if |p| == 1 then Saving(size, v.fields[p[0]].value) > 0 else Candidate(size, v.fields[p[0]].value, p[1..])
  }

  function At(v: Json, p: Path): Json
    requires Reaches(v, p)
  {
    if p == [] then v else At(v.fields[p[0]].value, p[1..])
  }

  predicate Reaches(v: Json, p: Path) {
    p == [] || (v.Obj? && p[0] < |v.fields| && Reaches(v.fields[p[0]].value, p[1..]))
  }

  lemma {:induction false} CandidateReaches(size: Sizes, v: Json, p: Path)
    requires Candidate(size, v, p)
    ensures Reaches(v, p) && Saving(size, At(v, p)) > 0
    decreases |p|
  {
    if |p| > 1 {
      CandidateReaches(size, v.fields[p[0]].value, p[1..]);
    }
  }

  /** `r` improves on `best` by a candidate, and no candidate of the tested kind beats it. */
  ghost predicate Improves(size: Sizes, v: Json, path: Path, best: Option<Best>, r: Option<Best>, n: nat) {
    && (r == best || exists q :: IsChoice(size, v, path, r, q))
    && (best.Some? ==> r.Some? && r.value.size >= best.value.size)
    && (forall q :: Candidate(size, v, q) && q[0] < n ==> Beats(size, v, r, q))
  }

  ghost predicate IsChoice(size: Sizes, v: Json, path: Path, r: Option<Best>, q: Path) {
    Candidate(size, v, q) && Reaches(v, q) && r == Some(Best(path + q, Saving(size, At(v, q))))
  }

  ghost predicate Beats(size: Sizes, v: Json, r: Option<Best>, q: Path) {
    Reaches(v, q) && r.Some? && r.value.size >= Saving(size, At(v, q))
  }

  lemma {:induction false} LargestImproves(size: Sizes, v: Json, path: Path, best: Option<Best>)
    ensures Improves(size, v, path, best, Largest(size, v, path, best), if v.Obj? then |v.fields| else 0)
    decreases v, if v.Obj? then |v.fields| + 1 else 0
  {
    if v.Obj? { LargestOfImproves(size, v, |v.fields|, path, best); }
  }

  lemma {:induction false} LargestOfImproves(size: Sizes, v: Json, n: nat, path: Path, best: Option<Best>)
    requires v.Obj? && n <= |v.fields|
    ensures Improves(size, v, path, best, LargestOf(size, v, n, path, best), n)
    decreases v, n
  {
    if n > 0 {
      LargestOfImproves(size, v, n - 1, path, best);
      var b := LargestOf(size, v, n - 1, path, best);
      var f := v.fields[n - 1];
      if f.key == TRUNCATED_FIELDS {
        SkippedField(size, v, n, path, best, b);
      } else {
        var s := Saving(size, f.value);
        var b2 := if s > 0 && (b.None? || s > b.value.size) then Some(Best(path + [n - 1], s)) else b;
        LargestImproves(size, f.value, path + [n - 1], b2);
        VisitedField(size, v, n, path, best, b, b2, Largest(size, f.value, path + [n - 1], b2));
      }
    }
  }

  lemma SkippedField(size: Sizes, v: Json, n: nat, path: Path, best: Option<Best>, b: Option<Best>)
    requires v.Obj? && 0 < n <= |v.fields| && v.fields[n - 1].key == TRUNCATED_FIELDS
    requires Improves(size, v, path, best, b, n - 1)
    ensures Improves(size, v, path, best, b, n)
  {}

  lemma VisitedField(size: Sizes, v: Json, n: nat, path: Path, best: Option<Best>,
                     b: Option<Best>, b2: Option<Best>, r: Option<Best>)
    requires v.Obj? && 0 < n <= |v.fields| && v.fields[n - 1].key != TRUNCATED_FIELDS
    requires Improves(size, v, path, best, b, n - 1)
    requires var s := Saving(size, v.fields[n - 1].value);
             b2 == if s > 0 && (b.None? || s > b.value.size) then Some(Best(path + [n - 1], s)) else b
    requires var w := v.fields[n - 1].value;
             Improves(size, w, path + [n - 1], b2, r, if w.Obj? then |w.fields| else 0)
    ensures Improves(size, v, path, best, r, n)
  {
    hide IsChoice, Beats;
    ChoiceKept(size, v, n, path, path + [n - 1], v.fields[n - 1].value, best, b, b2, r);
    forall q | Candidate(size, v, q) && q[0] < n ensures Beats(size, v, r, q) {
      if q[0] < n - 1 {
        StillBeats(size, v, b, r, q);
      } else {
        FieldBeaten(size, v, n, path, b, b2, r, q);
      }
    }
  }

  lemma StillBeats(size: Sizes, v: Json, b: Option<Best>, r: Option<Best>, q: Path)
    requires Beats(size, v, b, q) && (b.Some? ==> r.Some? && r.value.size >= b.value.size)
    ensures Beats(size, v, r, q)
  {}

  lemma FieldBeaten(size: Sizes, v: Json, n: nat, path: Path, b: Option<Best>, b2: Option<Best>, r: Option<Best>,
                    q: Path)
    requires v.Obj? && 0 < n <= |v.fields| && Candidate(size, v, q) && q[0] == n - 1
    requires var s := Saving(size, v.fields[n - 1].value);
             b2 == if s > 0 && (b.None? || s > b.value.size) then Some(Best(path + [n - 1], s)) else b
    requires var w := v.fields[n - 1].value;
             Improves(size, w, path + [n - 1], b2, r, if w.Obj? then |w.fields| else 0)
    ensures Beats(size, v, r, q)
  {}

  lemma ChoiceKept(size: Sizes, v: Json, n: nat, path: Path, below: Path, w: Json, best: Option<Best>,
                   b: Option<Best>, b2: Option<Best>, r: Option<Best>)
    requires v.Obj? && 0 < n <= |v.fields| && v.fields[n - 1].key != TRUNCATED_FIELDS
    requires w == v.fields[n - 1].value && below == path + [n - 1]
    requires b == best || exists q :: IsChoice(size, v, path, b, q)
    requires var s := Saving(size, w);
             b2 == if s > 0 && (b.None? || s > b.value.size) then Some(Best(below, s)) else b
    requires r == b2 || exists q :: IsChoice(size, w, below, r, q)
    ensures r == best || exists q :: IsChoice(size, v, path, r, q)
  {
    if r == b2 {
      if b2 != b {
        var q := [n - 1];
        assert q[1..] == [] && At(v, q) == At(w, []) && At(w, []) == w;
        assert path + q == below;
        assert IsChoice(size, v, path, r, q);
      }
    } else {
      var q :| IsChoice(size, w, below, r, q);
      var q' := [n - 1] + q;
      assert q'[1..] == q;
      assert path + q' == path + [n - 1] + q;
      assert IsChoice(size, v, path, r, q');
    }
  }

  /** Nothing is chosen exactly when there is no candidate; otherwise a candidate of the greatest saving. */
  lemma LargestIsBest(size: Sizes, row: Json)
    ensures var r := Largest(size, row, [], None);
            && (r.None? <==> !HasCandidate(size, row))
            && (r.Some? ==>
                  && Candidate(size, row, r.value.path) && Reaches(row, r.value.path)
                  && r.value.size == Saving(size, At(row, r.value.path))
                  && forall q :: Candidate(size, row, q) ==> Beats(size, row, r, q))
  {
    hide Largest, Beats, IsChoice;
    LargestImproves(size, row, [], None);
    var r := Largest(size, row, [], None);
    forall q | Candidate(size, row, q) ensures Beats(size, row, r, q) {
      assert row.Obj? && q[0] < |row.fields|;
    }
    if r.Some? { ChosenPath(size, row, r); } else { NothingChosen(size, row, r); }
  }

  lemma ChosenPath(size: Sizes, row: Json, r: Option<Best>)
    requires r.Some? && exists q :: IsChoice(size, row, [], r, q)
    ensures Candidate(size, row, r.value.path) && Reaches(row, r.value.path)
    ensures r.value.size == Saving(size, At(row, r.value.path)) && HasCandidate(size, row)
  {
    var q :| IsChoice(size, row, [], r, q);
    assert [] + q == q;
  }

  lemma NothingChosen(size: Sizes, row: Json, r: Option<Best>)
    requires r.None? && forall q :: Candidate(size, row, q) ==> Beats(size, row, r, q)
    ensures !HasCandidate(size, row)
  {}

  ghost predicate HasCandidate(size: Sizes, row: Json) {
    exists q :: Candidate(size, row, q)
  }

  // ----- shortening it -----

  /** Whether a string may be cut before byte `n`: not inside a character. */
  predicate CharBoundary(s: Text, n: nat) {
    n <= |s| && (n == 0 || n == |s| || !(128 <= s[n] < 192))
  }

  function CutBefore(s: Text, n: nat): (c: nat)
    requires n <= |s|
    ensures c <= n && CharBoundary(s, c) && forall k :: c < k <= n ==> !CharBoundary(s, k)
  {
    if CharBoundary(s, n) then n else CutBefore(s, n - 1)
  }

  function Shortened(v: Json): Json {
    match v
    case Arr(items) => Arr(items[..|items| / 2])
    case Str(str) => Str(str[..CutBefore(str, |str| / 2)] + DOTS)
    case _ => v
  }

  function Put(v: Json, p: Path, w: Json): Json
    requires Reaches(v, p)
  {
    if p == [] then w
    else v.(fields := v.fields[p[0] := v.fields[p[0]].(value := Put(v.fields[p[0]].value, p[1..], w))])
  }

  /** The keys on the way, joined with dots. */
  function Name(v: Json, p: Path): Text
    requires Reaches(v, p)
  {
    if p == [] then []
    else if |p| == 1 then v.fields[p[0]].key
    else v.fields[p[0]].key + DOT + Name(v.fields[p[0]].value, p[1..])
  }

  /** The position of the field with this key, or the number of fields. */
  function Find(fields: seq<Field>, key: Text): (i: nat)
    ensures i <= |fields| && (i < |fields| ==> fields[i].key == key)
    ensures forall k :: 0 <= k < i ==> fields[k].key != key
  {
    if fields == [] || fields[0].key == key then 0 else 1 + Find(fields[1..], key)
  }

  /** Note a cut field in the row, unless the row uses that key for something else. */
  function Mark(row: Json, name: Text): Json {
    if !row.Obj? then row
    else
      var i := Find(row.fields, TRUNCATED_FIELDS);
      if i == |row.fields| then row.(fields := row.fields + [Field(TRUNCATED_FIELDS, Arr([Str(name)]))])
      else
        match row.fields[i].value
        case Arr(list) =>
          if Str(name) in list then row
          else row.(fields := row.fields[i := Field(TRUNCATED_FIELDS, Arr(list + [Str(name)]))])
        case _ => row
  }

  function ShrinkRow(size: Sizes, row: Json): Option<Json> {
    match Largest(size, row, [], None)
    case None => None
    case Some(best) =>
      LargestIsBest(size, row);
      Some(Mark(Put(row, best.path, Shortened(At(row, best.path))), Name(row, best.path)))
  }

  // ----- why it ends -----

  /** The lengths of all strings and arrays that can still be cut. */
  function Weight(v: Json): nat
    decreases v, if v.Obj? then |v.fields| + 1 else 0
  {
    match v
    case Arr(items) => |items|
    case Str(str) => |str|
    case Scalar(_) => 0
    case Obj(fields) => WeightOf(v, |fields|)
  }

  function FieldWeight(f: Field): nat
    decreases f, 0
  {
    if f.key == TRUNCATED_FIELDS then 0 else Weight(f.value)
  }

  function WeightOf(v: Json, n: nat): nat
    requires v.Obj? && n <= |v.fields|
    decreases v, n
  {
    if n == 0 then 0 else WeightOf(v, n - 1) + FieldWeight(v.fields[n - 1])
  }

  lemma {:induction false} WeightOfSame(v: Json, w: Json, n: nat)
    requires v.Obj? && w.Obj? && n <= |v.fields| && n <= |w.fields|
    requires forall k :: 0 <= k < n ==> FieldWeight(v.fields[k]) == FieldWeight(w.fields[k])
    ensures WeightOf(v, n) == WeightOf(w, n)
    decreases n
  {
    if n > 0 { WeightOfSame(v, w, n - 1); }
  }

  lemma {:induction false} WeightOfUpdate(v: Json, i: nat, f: Field, n: nat)
    requires v.Obj? && i < n <= |v.fields|
    ensures WeightOf(v.(fields := v.fields[i := f]), n) + FieldWeight(v.fields[i]) == WeightOf(v, n) + FieldWeight(f)
    decreases n
  {
    var w := v.(fields := v.fields[i := f]);
    if i < n - 1 {
      WeightOfUpdate(v, i, f, n - 1);
    } else {
      WeightOfSame(v, w, n - 1);
    }
  }

  lemma ShortenedIsLighter(size: Sizes, v: Json)
    requires Saving(size, v) > 0
    ensures Weight(Shortened(v)) < Weight(v)
  {}

  lemma {:induction false} PutIsLighter(size: Sizes, v: Json, p: Path, w: Json)
    requires Candidate(size, v, p) && Reaches(v, p) && Weight(w) < Weight(At(v, p))
    ensures Weight(Put(v, p, w)) < Weight(v)
    decreases |p|
  {
    var f := v.fields[p[0]];
    if |p| == 1 {
      assert Put(f.value, p[1..], w) == w && At(f.value, p[1..]) == f.value;
    } else {
      PutIsLighter(size, f.value, p[1..], w);
    }
    WeightOfUpdate(v, p[0], f.(value := Put(f.value, p[1..], w)), |v.fields|);
  }

  lemma MarkWeighsNothing(row: Json, name: Text)
    ensures Weight(Mark(row, name)) == Weight(row)
  {
    if row.Obj? {
      var i := Find(row.fields, TRUNCATED_FIELDS);
      var marked := Mark(row, name);
      if i == |row.fields| {
        WeightOfSame(row, marked, i);
        assert FieldWeight(marked.fields[i]) == 0;
        assert WeightOf(marked, i + 1) == WeightOf(marked, i) + FieldWeight(marked.fields[i]);
        assert Weight(marked) == WeightOf(marked, |marked.fields|);
      } else {
        WeightOfSame(row, marked, |row.fields|);
      }
    }
  }

  /** Each shortening removes some of the row's weight. */
  lemma ShrinkIsLighter(size: Sizes, row: Json)
    requires ShrinkRow(size, row).Some?
    ensures Weight(ShrinkRow(size, row).value) < Weight(row)
  {
    hide Largest, Weight, Mark, Shortened, Saving;
    var best := Largest(size, row, [], None).value;
    LargestIsBest(size, row);
    CandidateReaches(size, row, best.path);
    ShortenedIsLighter(size, At(row, best.path));
    PutIsLighter(size, row, best.path, Shortened(At(row, best.path)));
    MarkWeighsNothing(Put(row, best.path, Shortened(At(row, best.path))), Name(row, best.path));
  }
}
