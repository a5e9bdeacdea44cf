/**
 * Fitting a page into the budget: what a shortened row still says, and what a
 * client gets that follows the cursors from page to page.
 */
module Fitting {
  import opened TraceTypes
  import opened Lines
  import opened Page

  // ----- what shortening keeps -----

  /** The same text, or a beginning of it that ends between characters, followed by dots. */
  ghost predicate Abridged(s: Text, t: Text) {
    t == s || exists c :: CutAt(s, t, c)
  }

  predicate CutAt(s: Text, t: Text, c: nat) {
    c < |s| && CharBoundary(s, c) && t == s[..c] + DOTS
  }

  /** Scalars and keys are kept, arrays and strings are beginnings of what they were. */
  ghost predicate Abbreviates(a: Json, b: Json)
    decreases a
  {
    match a
    case Scalar(_) => b == a
    case Str(s) => b.Str? && Abridged(s, b.str)
    case Arr(items) => b.Arr? && |b.items| <= |items| && b.items == items[..|b.items|]
    case Obj(fields) =>
      && b.Obj? && |b.fields| == |fields|
      && forall i :: 0 <= i < |fields| ==>
           b.fields[i].key == fields[i].key && Abbreviates(fields[i].value, b.fields[i].value)
  }

  /** A row may in addition gain entries in its list of cut fields. */
  ghost predicate AbbreviatesRow(a: Json, b: Json) {
    if !a.Obj? then b == a
    else
      && b.Obj? && |a.fields| <= |b.fields|
      && (forall i :: 0 <= i < |a.fields| ==>
            b.fields[i].key == a.fields[i].key
            && (a.fields[i].key != TRUNCATED_FIELDS ==> Abbreviates(a.fields[i].value, b.fields[i].value)))
      && (forall i :: |a.fields| <= i < |b.fields| ==> b.fields[i].key == TRUNCATED_FIELDS)
  }

  lemma {:induction false} AbbreviatesItself(a: Json)
    ensures Abbreviates(a, a)
    decreases a
  {
    if a.Obj? {
      forall i | 0 <= i < |a.fields| ensures Abbreviates(a.fields[i].value, a.fields[i].value) {
        AbbreviatesItself(a.fields[i].value);
      }
    }
  }

  /** Cutting an abridged text again gives a shorter beginning of the original. */
  lemma AbridgeAgain(s: Text, t: Text)
    requires Abridged(s, t) && |t| > 256
    ensures Abridged(s, t[..CutBefore(t, |t| / 2)] + DOTS)
  {
    var c' := CutBefore(t, |t| / 2);
    if t == s {
      assert CutAt(s, t[..c'] + DOTS, c');
    } else {
      var c :| CutAt(s, t, c);
      assert c' < c;
      assert t[c'] == s[c'] && t[..c'] == s[..c'];
      assert CutAt(s, t[..c'] + DOTS, c');
    }
  }

  lemma {:induction false} PutAbbreviates(size: Sizes, a: Json, b: Json, p: Path)
    requires Abbreviates(a, b) && Reaches(b, p) && Saving(size, At(b, p)) > 0
    ensures Abbreviates(a, Put(b, p, Shortened(At(b, p))))
    decreases |p|
  {
    if p == [] {
      if b.Str? { AbridgeAgain(a.str, b.str); }
    } else {
      var i := p[0];
      PutAbbreviates(size, a.fields[i].value, b.fields[i].value, p[1..]);
    }
  }

  lemma ShortenAbbreviates(size: Sizes, a: Json, b: Json, p: Path)
    requires AbbreviatesRow(a, b) && Candidate(size, b, p) && Reaches(b, p)
    ensures AbbreviatesRow(a, Put(b, p, Shortened(At(b, p))))
  {
    CandidateReaches(size, b, p);
    var i := p[0];
    if a.Obj? {
      assert i < |a.fields|;
      PutAbbreviates(size, a.fields[i].value, b.fields[i].value, p[1..]);
    }
  }

  lemma MarkAbbreviates(a: Json, b: Json, name: Text)
    requires AbbreviatesRow(a, b) && a.Obj?
    ensures AbbreviatesRow(a, Mark(b, name))
  {}

  lemma ShrinkAbbreviates(size: Sizes, a: Json, b: Json)
    requires AbbreviatesRow(a, b) && ShrinkRow(size, b).Some?
    ensures AbbreviatesRow(a, ShrinkRow(size, b).value)
  {
    hide AbbreviatesRow, Largest, Mark, Shortened;
    LargestIsBest(size, b);
    var p := Largest(size, b, [], None).value.path;
    ShortenAbbreviates(size, a, b, p);
    SameKind(a, b);
    MarkAbbreviates(a, Put(b, p, Shortened(At(b, p))), Name(b, p));
  }

  lemma SameKind(a: Json, b: Json)
    requires AbbreviatesRow(a, b)
    ensures a.Obj? <==> b.Obj?
  {}

  // ----- what shortening records -----

  /** An entry of the list speaks of a field, or of something inside it. */
  predicate Names(t: Text, key: Text) {
    t == key || (|t| > |key| && t[..|key| + 1] == key + DOT)
  }

  /** The list of cut fields is free to be used. */
  predicate CanMark(row: Json) {
    row.Obj? && var i := Find(row.fields, TRUNCATED_FIELDS); i == |row.fields| || row.fields[i].value.Arr?
  }

  function Marks(row: Json): seq<Json>
    requires CanMark(row)
  {
    var i := Find(row.fields, TRUNCATED_FIELDS);
    if i == |row.fields| then [] else row.fields[i].value.items
  }

  ghost predicate Marked(row: Json, key: Text)
    requires CanMark(row)
  {
    exists t :: Str(t) in Marks(row) && Names(t, key)
  }

  /** Every field that is no longer what it was is listed as cut. */
  ghost predicate Recorded(a: Json, b: Json) {
    && a.Obj? && CanMark(b) && |a.fields| <= |b.fields|
    && forall i :: 0 <= i < |a.fields| ==>
         a.fields[i].key != TRUNCATED_FIELDS && b.fields[i].value != a.fields[i].value ==> Marked(b, a.fields[i].key)
  }

  lemma NameNames(v: Json, p: Path)
    requires Reaches(v, p) && p != []
    ensures Names(Name(v, p), v.fields[p[0]].key)
  {}

  lemma FindIs(fields: seq<Field>, key: Text, i: nat)
    requires i <= |fields| && (i < |fields| ==> fields[i].key == key)
    requires forall k :: 0 <= k < i ==> fields[k].key != key
    ensures Find(fields, key) == i
  {}

  /** Marking adds the name and keeps what was there. */
  lemma MarkAdds(row: Json, name: Text)
    requires CanMark(row)
    ensures CanMark(Mark(row, name)) && Str(name) in Marks(Mark(row, name))
    ensures forall j :: j in Marks(row) ==> j in Marks(Mark(row, name))
    ensures Mark(row, name).Obj? && |row.fields| <= |Mark(row, name).fields|
    ensures forall i :: 0 <= i < |row.fields| && row.fields[i].key != TRUNCATED_FIELDS ==>
              Mark(row, name).fields[i] == row.fields[i]
  {
    hide Find;
    var i := Find(row.fields, TRUNCATED_FIELDS);
    var m := Mark(row, name);
    FindIs(m.fields, TRUNCATED_FIELDS, i);
  }

  /** Replacing a field outside the list leaves the list alone. */
  lemma PutKeepsMarks(row: Json, p: Path, w: Json)
    requires CanMark(row) && p != [] && Reaches(row, p) && row.fields[p[0]].key != TRUNCATED_FIELDS
    ensures CanMark(Put(row, p, w)) && Marks(Put(row, p, w)) == Marks(row)
    ensures Put(row, p, w).Obj? && |Put(row, p, w).fields| == |row.fields|
    ensures forall i :: 0 <= i < |row.fields| && i != p[0] ==> Put(row, p, w).fields[i] == row.fields[i]
    ensures Put(row, p, w).fields[p[0]].key == row.fields[p[0]].key
  {
    hide Find;
    FindIs(Put(row, p, w).fields, TRUNCATED_FIELDS, Find(row.fields, TRUNCATED_FIELDS));
  }

  lemma ShrinkRecords(size: Sizes, a: Json, b: Json)
    requires AbbreviatesRow(a, b) && Recorded(a, b) && ShrinkRow(size, b).Some?
    ensures Recorded(a, ShrinkRow(size, b).value)
  {
    hide Largest, Mark, Shortened, Find, Put, Marks, CanMark, Abbreviates, Name, Names;
    LargestIsBest(size, b);
    var p := Largest(size, b, [], None).value.path;
    var put := Put(b, p, Shortened(At(b, p)));
    var name := Name(b, p);
    PutKeepsMarks(b, p, Shortened(At(b, p)));
    MarkAdds(put, name);
    NameNames(b, p);
    var r := Mark(put, name);
    forall i | 0 <= i < |a.fields| && a.fields[i].key != TRUNCATED_FIELDS && r.fields[i].value != a.fields[i].value
      ensures Marked(r, a.fields[i].key)
    {
      if i == p[0] {
        assert Str(name) in Marks(r) && Names(name, a.fields[i].key);
      } else {
        assert r.fields[i] == b.fields[i];
        StaysMarked(b, r, a.fields[i].key);
      }
    }
  }

  lemma StaysMarked(b: Json, r: Json, key: Text)
    requires CanMark(b) && CanMark(r) && Marked(b, key) && forall j :: j in Marks(b) ==> j in Marks(r)
    ensures Marked(r, key)
  {}

  // ----- fitting -----

  /** The members of a response that fitting touches. */
  datatype Envelope = Envelope(data: Json, next: Option<nat>, truncated: bool)

  /** Whether the serialized response exceeds the budget. */
  type Budget = Envelope -> bool

  const OMITTED: Json :=
    Obj([Field(Ascii("omitted"), Str(Ascii("row exceeded MCP result budget; full data remains in the store")))])

  /** The response, and whether its only row had to be left out. */
  datatype Fitted = Fitted(env: Envelope, omitted: bool)

  function Fit(size: Sizes, over: Budget, env: Envelope, offset: nat): Fitted {
    if over(env) then Squeeze(size, over, env.(truncated := true), offset) else Fitted(env, false)
  }

  function RowCount(data: Json): nat { if data.Arr? then |data.items| else 0 }

  function FirstWeight(data: Json): nat {
    if data.Arr? && |data.items| >= 1 then Weight(data.items[0]) else 0
  }

  function Squeeze(size: Sizes, over: Budget, env: Envelope, offset: nat): Fitted
    decreases RowCount(env.data), FirstWeight(env.data)
  {
    if !over(env) || RowCount(env.data) == 0 then Fitted(env, false)
    else
      var rows := env.data.items;
      if |rows| > 1 then
        Squeeze(size, over, env.(data := Arr(rows[..|rows| - 1]), next := Some(offset + |rows| - 1)), offset)
      else
        match ShrinkRow(size, rows[0])
        case Some(row) =>
          ShrinkIsLighter(size, rows[0]);
          Squeeze(size, over, env.(data := Arr([row])), offset)
        case None => Fitted(env.(data := Arr([OMITTED]), next := Some(offset)), true)
  }

  method FitJson(size: Sizes, over: Budget, env: Envelope, offset: nat) returns (r: Envelope)
    ensures r == Fit(size, over, env, offset).env
  {
    if !over(env) { return env; }
    r := env.(truncated := true);
    while over(r) && RowCount(r.data) > 0
      invariant Squeeze(size, over, r, offset).env == Fit(size, over, env, offset).env
      decreases RowCount(r.data), FirstWeight(r.data)
    {
      var rows := r.data.items;
      if |rows| > 1 {
        r := r.(data := Arr(rows[..|rows| - 1]), next := Some(offset + |rows| - 1));
      } else {
        var shorter := ShrinkRow(size, rows[0]);
        if shorter.None? {
          r := r.(data := Arr([OMITTED]), next := Some(offset));
          return;
        }
        ShrinkIsLighter(size, rows[0]);
        r := r.(data := Arr([shorter.value]));
      }
    }
  }

  /** `r` shows the first rows of a page, shortened if there is just one, and resumes behind them. */
  ghost predicate ShowsRows(rows: seq<Json>, next: Option<nat>, offset: nat, r: Envelope) {
    && r.data.Arr? && |r.data.items| <= |rows| && (rows != [] ==> r.data.items != [])
    && r.next == (if |r.data.items| < |rows| then Some(offset + |r.data.items|) else next)
    && (|r.data.items| != 1 ==> r.data.items == rows[..|r.data.items|])
    && (|r.data.items| == 1 ==> AbbreviatesRow(rows[0], r.data.items[0]))
    && (|r.data.items| == 1 && CanMark(rows[0]) ==> Recorded(rows[0], r.data.items[0]))
  }

  lemma RowItself(a: Json)
    ensures AbbreviatesRow(a, a) && (CanMark(a) ==> Recorded(a, a))
  {
    if a.Obj? {
      forall i | 0 <= i < |a.fields| ensures Abbreviates(a.fields[i].value, a.fields[i].value) {
        AbbreviatesItself(a.fields[i].value);
      }
    }
  }

  lemma {:induction false} SqueezeShows(size: Sizes, over: Budget, rows: seq<Json>, next: Option<nat>, offset: nat,
                                        env: Envelope)
    requires ShowsRows(rows, next, offset, env)
    ensures var f := Squeeze(size, over, env, offset);
            && (!f.omitted ==> ShowsRows(rows, next, offset, f.env) && (!over(f.env) || rows == []))
            && (f.omitted ==> rows != [] && f.env.data == Arr([OMITTED]) && f.env.next == Some(offset))
            && f.env.truncated == env.truncated
    decreases RowCount(env.data), FirstWeight(env.data)
  {
    hide AbbreviatesRow, Recorded, CanMark, ShrinkRow, Weight;
    if over(env) && RowCount(env.data) > 0 {
      var items := env.data.items;
      if |items| > 1 {
        var e := env.(data := Arr(items[..|items| - 1]), next := Some(offset + |items| - 1));
        assert e.data.items == rows[..|items| - 1];
        RowItself(rows[0]);
        SqueezeShows(size, over, rows, next, offset, e);
      } else {
        assert items == [items[0]];
        var shorter := ShrinkRow(size, items[0]);
        if shorter.Some? {
          ShrinkIsLighter(size, items[0]);
          ShrinkAbbreviates(size, rows[0], items[0]);
          if CanMark(rows[0]) { ShrinkRecords(size, rows[0], items[0]); }
          SqueezeShows(size, over, rows, next, offset, env.(data := Arr([shorter.value])));
        }
      }
    }
  }

  lemma FitShows(size: Sizes, over: Budget, rows: seq<Json>, next: Option<nat>, truncated: bool, offset: nat)
    ensures var f := Fit(size, over, Envelope(Arr(rows), next, truncated), offset);
            && (!f.omitted ==> ShowsRows(rows, next, offset, f.env) && (!over(f.env) || rows == []))
            && (f.omitted ==> rows != [] && f.env.data == Arr([OMITTED]) && f.env.next == Some(offset))
            && (f.env.data != Arr(rows) ==> f.env.truncated)
  {
    hide AbbreviatesRow, Recorded, CanMark, Squeeze;
    var env := Envelope(Arr(rows), next, truncated);
    assert rows[..|rows|] == rows;
    if rows != [] { RowItself(rows[0]); }
    assert ShowsRows(rows, next, offset, env);
    if over(env) { SqueezeShows(size, over, rows, next, offset, env.(truncated := true)); }
  }

  // ----- when a row is left out -----

  /** All the forms a row takes while it is shortened. */
  function Stages(size: Sizes, row: Json): seq<Json>
    decreases Weight(row)
  {
    match ShrinkRow(size, row)
    case None => [row]
    case Some(shorter) => ShrinkIsLighter(size, row); [row] + Stages(size, shorter)
  }

  /** A lone row is left out exactly when none of its forms fits. */
  lemma {:induction false} LoneRowOmittedIff(size: Sizes, over: Budget, row: Json, env: Envelope, offset: nat)
    requires env.data == Arr([row])
    ensures Squeeze(size, over, env, offset).omitted <==>
            forall s :: s in Stages(size, row) ==> over(env.(data := Arr([s])))
    decreases Weight(row)
  {
    hide ShrinkRow, Weight;
    assert env == env.(data := Arr([row]));
    if over(env) && ShrinkRow(size, row).Some? {
      var shorter := ShrinkRow(size, row).value;
      ShrinkIsLighter(size, row);
      LoneRowOmittedIff(size, over, shorter, env.(data := Arr([shorter])), offset);
    }
  }

  /** A page cut down to its first rows, as it is tried. */
  function Prefix(rows: seq<Json>, next: Option<nat>, offset: nat, k: nat): Envelope
    requires k <= |rows|
  {
    Envelope(Arr(rows[..k]), if k < |rows| then Some(offset + k) else next, true)
  }

  /** Nothing of the page fits: not the page, none of its beginnings, and no form of its first row. */
  ghost predicate NoRoom(size: Sizes, over: Budget, rows: seq<Json>, next: Option<nat>, truncated: bool, offset: nat) {
    && rows != [] && over(Envelope(Arr(rows), next, truncated))
    && NoPrefixFits(over, rows, next, offset, |rows|)
    && forall s :: s in Stages(size, rows[0]) ==> over(Prefix(rows, next, offset, 1).(data := Arr([s])))
  }

  ghost predicate NoPrefixFits(over: Budget, rows: seq<Json>, next: Option<nat>, offset: nat, n: nat)
    requires n <= |rows|
  {
    forall k :: 1 <= k <= n ==> over(Prefix(rows, next, offset, k))
  }

  lemma {:induction false} SqueezeOmittedIff(size: Sizes, over: Budget, rows: seq<Json>, next: Option<nat>, offset: nat,
                                             n: nat)
    requires 1 <= n <= |rows|
    ensures Squeeze(size, over, Prefix(rows, next, offset, n), offset).omitted <==>
            NoPrefixFits(over, rows, next, offset, n)
            && forall s :: s in Stages(size, rows[0]) ==> over(Prefix(rows, next, offset, 1).(data := Arr([s])))
    decreases n
  {
    hide Stages, ShrinkRow, Weight;
    var env := Prefix(rows, next, offset, n);
    if n == 1 {
      assert rows[..1] == [rows[0]];
      LoneRowOmittedIff(size, over, rows[0], env, offset);
      RowIsStage(size, rows[0]);
    } else {
      assert rows[..n][..n - 1] == rows[..n - 1];
      SqueezeOmittedIff(size, over, rows, next, offset, n - 1);
    }
  }

  lemma RowIsStage(size: Sizes, row: Json)
    ensures row in Stages(size, row)
  {
    hide ShrinkRow, Weight;
  }

  /** The row of a page is left out if and only if nothing of the page fits. */
  lemma OmittedIff(size: Sizes, over: Budget, rows: seq<Json>, next: Option<nat>, truncated: bool, offset: nat)
    ensures Fit(size, over, Envelope(Arr(rows), next, truncated), offset).omitted <==>
            NoRoom(size, over, rows, next, truncated, offset)
  {
    hide Stages, Squeeze;
    if rows == [] {
      NothingToOmit(size, over, Envelope(Arr(rows), next, true), offset);
    } else {
      assert rows[..|rows|] == rows;
      SqueezeOmittedIff(size, over, rows, next, offset, |rows|);
    }
  }

  lemma NothingToOmit(size: Sizes, over: Budget, env: Envelope, offset: nat)
    requires RowCount(env.data) == 0
    ensures !Squeeze(size, over, env, offset).omitted
  {}

  // ----- following the cursors -----

  function Paginate(items: seq<Json>, offset: nat, limit: nat): (r: (seq<Json>, Option<nat>))
    ensures r.1.Some? ==> r.1.value == offset + |r.0| < |items|
  {
    var from := if offset < |items| then offset else |items|;
    var n := if limit < |items| - from then limit else |items| - from;
    (items[from..from + n], if offset + n < |items| then Some(offset + n) else None)
  }

  function Fetch(size: Sizes, over: Budget, items: seq<Json>, limit: nat, offset: nat): Fitted {
    var (page, next) := Paginate(items, offset, limit);
    Fit(size, over, Envelope(Arr(page), next, next.Some?), offset)
  }

  /** A page shows rows from its offset on, and its cursor is the row behind them. */
  lemma FetchShows(size: Sizes, over: Budget, items: seq<Json>, limit: nat, offset: nat)
    requires limit >= 1 && offset <= |items| && !Fetch(size, over, items, limit, offset).omitted
    ensures var e := Fetch(size, over, items, limit, offset).env;
            && e.data.Arr? && offset + |e.data.items| <= |items| && (offset < |items| ==> e.data.items != [])
            && e.next == (if offset + |e.data.items| < |items| then Some(offset + |e.data.items|) else None)
            && forall i :: 0 <= i < |e.data.items| ==> AbbreviatesRow(items[offset + i], e.data.items[i])
  {
    hide Fit, AbbreviatesRow, Recorded, CanMark;
    var (page, next) := Paginate(items, offset, limit);
    FitShows(size, over, page, next, next.Some?, offset);
    var e := Fetch(size, over, items, limit, offset).env;
    forall i | 0 <= i < |e.data.items| ensures AbbreviatesRow(items[offset + i], e.data.items[i]) {
      assert page[i] == items[offset + i];
      RowItself(page[i]);
    }
  }

  /** All rows a client collects from `offset` on; nothing if it meets a page with its row left out. */
  function Collect(size: Sizes, over: Budget, items: seq<Json>, limit: nat, offset: nat): Option<seq<Json>>
    requires limit >= 1 && offset <= |items|
    decreases |items| - offset
  {
    var f := Fetch(size, over, items, limit, offset);
    if f.omitted then None
    else
      FetchShows(size, over, items, limit, offset);
      if f.env.next.None? then Some(f.env.data.items)
      else
        match Collect(size, over, items, limit, f.env.next.value)
        case None => None
        case Some(rest) => Some(f.env.data.items + rest)
  }

  /** Nothing of the page at `offset` fits. */
  ghost predicate Blocked(size: Sizes, over: Budget, items: seq<Json>, limit: nat, offset: nat) {
    var (page, next) := Paginate(items, offset, limit);
    NoRoom(size, over, page, next, next.Some?, offset)
  }

  lemma FetchOmitsIff(size: Sizes, over: Budget, items: seq<Json>, limit: nat, offset: nat)
    ensures Fetch(size, over, items, limit, offset).omitted <==> Blocked(size, over, items, limit, offset)
  {
    hide Fit, NoRoom;
    var (page, next) := Paginate(items, offset, limit);
    OmittedIff(size, over, page, next, next.Some?, offset);
  }

  /** The offsets that a client asks for, from `offset` until there is no cursor or no progress. */
  function Visited(size: Sizes, over: Budget, items: seq<Json>, limit: nat, offset: nat): seq<nat>
    requires limit >= 1 && offset <= |items|
    decreases |items| - offset
  {
    var f := Fetch(size, over, items, limit, offset);
    if f.omitted then [offset]
    else
      FetchShows(size, over, items, limit, offset);
      if f.env.next.None? then [offset]
      else [offset] + Visited(size, over, items, limit, f.env.next.value)
  }

  /** `rows` are all the items from `offset` on, once and in order, at most shortened. */
  ghost predicate AllDelivered(items: seq<Json>, offset: nat, rows: seq<Json>) {
    offset + |rows| == |items| && forall i :: 0 <= i < |rows| ==> AbbreviatesRow(items[offset + i], rows[i])
  }

  /**
   * Following the cursors delivers all rows if and only if no page on the way is blocked; and nothing else
   * stops it.
   */
  lemma {:induction false} CollectsAllIff(size: Sizes, over: Budget, items: seq<Json>, limit: nat, offset: nat)
    requires limit >= 1 && offset <= |items|
    ensures var c := Collect(size, over, items, limit, offset);
            && (c.Some? <==> forall o :: o in Visited(size, over, items, limit, offset) ==>
                  !Blocked(size, over, items, limit, o))
            && (c.Some? ==> AllDelivered(items, offset, c.value))
    decreases |items| - offset
  {
    hide Fetch, AbbreviatesRow, Blocked;
    FetchOmitsIff(size, over, items, limit, offset);
    var f := Fetch(size, over, items, limit, offset);
    if !f.omitted {
      FetchShows(size, over, items, limit, offset);
      var e := f.env;
      if e.next.Some? {
        var o := e.next.value;
        CollectsAllIff(size, over, items, limit, o);
        VisitedFirst(size, over, items, limit, offset);
        if Collect(size, over, items, limit, o).Some? {
          var n, rest := |e.data.items|, Collect(size, over, items, limit, o).value;
          forall i | 0 <= i < n + |rest| ensures AbbreviatesRow(items[offset + i], (e.data.items + rest)[i]) {
            if i >= n { assert items[offset + i] == items[o + (i - n)]; }
          }
        }
      }
    }
  }

  lemma VisitedFirst(size: Sizes, over: Budget, items: seq<Json>, limit: nat, offset: nat)
    requires limit >= 1 && offset <= |items|
    ensures offset in Visited(size, over, items, limit, offset)
  {
    hide Fetch;
  }

  /** A blocked page points back at itself: the cursor never gets past its row. */
  lemma BlockedPageRepeats(size: Sizes, over: Budget, items: seq<Json>, limit: nat, offset: nat)
    requires Blocked(size, over, items, limit, offset)
    ensures var e := Fetch(size, over, items, limit, offset).env;
            e.data == Arr([OMITTED]) && e.next == Some(offset) && Fetch(size, over, items, limit, e.next.value).env == e
  {
    hide Fit, Blocked;
    FetchOmitsIff(size, over, items, limit, offset);
    var (page, next) := Paginate(items, offset, limit);
    FitShows(size, over, page, next, next.Some?, offset);
  }

  // ----- fitting twice -----

  lemma OmittedIsSmall(size: Sizes)
    ensures ShrinkRow(size, OMITTED).None?
  {}

  /**
   * A second fitting at offset 0, as the tool wrapper does, changes nothing that fits; an omitted row it
   * sends back to 0.
   */
  lemma RefitKeepsOrResets(size: Sizes, over: Budget, rows: seq<Json>, next: Option<nat>, truncated: bool, offset: nat)
    ensures var f := Fit(size, over, Envelope(Arr(rows), next, truncated), offset);
            var g := Fit(size, over, f.env, 0);
            && (!over(f.env) ==> g.env == f.env)
            && (over(f.env) && rows != [] ==> f.omitted && g.env == f.env.(next := Some(0), truncated := true))
  {
    hide ShrinkRow;
    FitShows(size, over, rows, next, truncated, offset);
    OmittedIsSmall(size);
  }
}
