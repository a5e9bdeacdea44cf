/** Budgets as the wrapper has them, in bytes of JSON text, and a row that no such budget can page past. */
module PageLengths {
  import opened TraceTypes
  import opened Lines
  import opened Page
  import opened Fitting

  // ----- the length of JSON text -----

  function ByteLength(b: Byte): (n: nat)
    ensures 1 <= n <= 6
  {
    if b == 34 || b == 92 || b == 8 || b == 9 || b == 10 || b == 12 || b == 13 then 2
    else if b < 32 then 6
    else 1
  }

  /** The length of a text with quotes, backslashes and control bytes escaped. */
  function Escaped(s: Text): nat {
    if s == [] then 0 else Escaped(s[..|s| - 1]) + ByteLength(s[|s| - 1])
  }

  function Commas(n: nat): nat { if n == 0 then 0 else n - 1 }

  function Length(v: Json): nat
    decreases v
  {
    match v
    case Scalar(text) => |text|
    case Str(str) => 2 + Escaped(str)
    case Arr(items) => 2 + Commas(|items|) + ItemsLength(items)
    case Obj(fields) => 2 + Commas(|fields|) + FieldsLength(fields)
  }

  function ItemsLength(items: seq<Json>): nat
    decreases items
  {
    if items == [] then 0 else Length(items[0]) + ItemsLength(items[1..])
  }

  function FieldsLength(fields: seq<Field>): nat
    decreases fields
  {
    if fields == [] then 0 else 3 + Escaped(fields[0].key) + Length(fields[0].value) + FieldsLength(fields[1..])
  }

  function Digits(n: nat): nat { if n < 10 then 1 else 1 + Digits(n / 10) }

  /** The length of a response; its other members, which fitting does not touch, have the length `others`. */
  function ResponseLength(e: Envelope, others: nat): nat {
    var next := if e.next.None? then 0 else |",\"next_cursor\":\"\""| + Digits(e.next.value);
    others + |"{\"data\":}"| + Length(e.data) + next + |",\"truncated\":"| + if e.truncated then 4 else 5
  }

  function InBytes(budget: nat, others: nat): Budget {
    (e: Envelope) => ResponseLength(e, others) > budget
  }

  lemma {:induction false} EscapedBounds(s: Text)
    ensures |s| <= Escaped(s) <= 6 * |s|
  {
    if s != [] { EscapedBounds(s[..|s| - 1]); }
  }

  // ----- a row that cannot be paged past -----

  /** One field that is an array of one string: an array of one item is not shortened, nor anything inside an array. */
  function LongRow(key: Text, str: Text): Json {
    Obj([Field(key, Arr([Str(str)]))])
  }

  lemma LongRowKeeps(size: Sizes, key: Text, str: Text)
    requires key != TRUNCATED_FIELDS
    ensures ShrinkRow(size, LongRow(key, str)).None?
  {
    var row := LongRow(key, str);
    forall q ensures !Candidate(size, row, q) {
      if q != [] && |q| > 1 && q[0] == 0 { assert !Candidate(size, row.fields[0].value, q[1..]); }
    }
    hide Candidate, Largest;
    LargestIsBest(size, row);
  }

  lemma LongRowLength(key: Text, str: Text)
    ensures Length(Arr([LongRow(key, str)])) > |str|
  {
    var row := LongRow(key, str);
    EscapedBounds(str);
    OneItem(Str(str));
    OneField(Field(key, Arr([Str(str)])));
    OneItem(row);
  }

  lemma OneItem(v: Json)
    ensures Length(Arr([v])) == 2 + Length(v)
  {
    assert [v][1..] == [];
    assert ItemsLength([]) == 0;
    assert ItemsLength([v]) == Length(v) + ItemsLength([v][1..]);
  }

  lemma OneField(f: Field)
    ensures Length(Obj([f])) == 5 + Escaped(f.key) + Length(f.value)
  {
    assert [f][1..] == [];
    assert FieldsLength([]) == 0;
    assert FieldsLength([f]) == 3 + Escaped(f.key) + Length(f.value) + FieldsLength([f][1..]);
  }

  const NOTICE: Envelope := Envelope(Arr([OMITTED]), Some(0), true)

  lemma NoticeIsShort(others: nat)
    ensures ResponseLength(NOTICE, others) <= others + 600
  {
    var text := Ascii("row exceeded MCP result budget; full data remains in the store");
    EscapedBounds(text);
    EscapedBounds(Ascii("omitted"));
    OneField(Field(Ascii("omitted"), Str(text)));
    OneItem(OMITTED);
  }

  /** For every budget: a longer string in an array of one is left out for ever, its page naming itself as the next. */
  lemma LongRowRepeats(size: Sizes, budget: nat, others: nat, key: Text, str: Text)
    requires key != TRUNCATED_FIELDS && |str| > budget
    ensures var f := Fetch(size, InBytes(budget, others), [LongRow(key, str)], 1, 0);
            f.omitted && f.env == NOTICE
  {
    hide Length, ShrinkRow, OMITTED;
    var items := [LongRow(key, str)];
    LongRowKeeps(size, key, str);
    LongRowLength(key, str);
    assert items[0..1] == items;
    assert Paginate(items, 0, 1) == (items, None);
    assert InBytes(budget, others)(Envelope(Arr(items), None, true));
  }

  const DEFAULT_BUDGET := 0x8000

  /** Under the default budget, beside other members of up to 32000 bytes: 40000 letters, and the notice fits. */
  lemma DefaultBudgetRepeats(size: Sizes, others: nat)
    requires others <= 32000
    ensures var over := InBytes(DEFAULT_BUDGET, others);
            var f := Fetch(size, over, [LongRow([107], seq(40000, _ => 97))], 1, 0);
            f.omitted && !over(f.env) && f.env.next == Some(0)
  {
    hide Fetch, LongRow;
    LongRowRepeats(size, DEFAULT_BUDGET, others, [107], seq(40000, _ => 97));
    NoticeIsShort(others);
  }
}
