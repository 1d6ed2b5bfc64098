/**
 Canonical JSON text of the two contract packages: `sortJson` followed by `JSON.stringify`.

 A value is what reaches `sortJson`: an object is the sequence of its own entries in
 enumeration order, and a field holding `undefined` is kept apart from one that is absent.
 A number is the token JavaScript prints for it. The key comparator is a parameter that
 stands for `localeCompare`; like it, the comparator may call two distinct keys equal.
 */
module CanonicalJson {
  import opened Numerals

  datatype Json =
    | Null
    | Bool(b: bool)
    | Num(token: Number)
    | Str(text: string)
    | Arr(items: seq<Json>)
    | Obj(fields: seq<Field>)

  datatype Field = Live(key: string, value: Json) | Undefined(key: string)

  type Comparator = (string, string) -> int

  const NUMBER_CHARS: set<char> := {'-', '+', '.', 'e', 'E', '0', '1', '2', '3', '4', '5', '6', '7', '8', '9'}

  predicate IsNumber(s: string) {
    |s| > 0 && (s[0] == '-' || s[0] in DIGITS) && forall c | c in s :: c in NUMBER_CHARS
  }

  type Number = s: string | IsNumber(s) witness "0"

  // ---------------------------------------------------------------------------------------
  // sortJson
  // ---------------------------------------------------------------------------------------

  /** `.filter(([, child]) => child !== undefined)` */
  function LiveFields(fs: seq<Field>): (r: seq<Field>)
    ensures forall f :: f in r <==> f in fs && f.Live?
  {
    if fs == [] then []
    else if fs[0].Live? then [fs[0]] + LiveFields(fs[1..])
    else LiveFields(fs[1..])
  }

  function Insert(f: Field, fs: seq<Field>, cmp: Comparator): (r: seq<Field>)
    ensures multiset(r) == multiset{f} + multiset(fs)
  {
    if fs == [] then [f]
    else if cmp(f.key, fs[0].key) <= 0 then [f] + fs
    else
      assert fs == [fs[0]] + fs[1..];
      [fs[0]] + Insert(f, fs[1..], cmp)
  }

  /** `.sort(([left], [right]) => cmp(left, right))`: a stable sort. */
  function Sort(fs: seq<Field>, cmp: Comparator): (r: seq<Field>)
    ensures multiset(r) == multiset(fs)
  {
    if fs == [] then [] else
      assert fs == [fs[0]] + fs[1..];
      Insert(fs[0], Sort(fs[1..], cmp), cmp)
  }

  /** The keys JavaScript enumerates first, in numeric order: canonical array indices. */
  predicate IsIndex(k: string) {
    && IsDecimal(k)
    && DecimalValue(k) <= 4294967294
  }

  function IndexValue(k: string): nat {
    if IsIndex(k) then DecimalValue(k) else 0
  }

  function CompareIndex(a: string, b: string): int {
    IndexValue(a) - IndexValue(b)
  }

  function Pick(fs: seq<Field>, index: bool): (r: seq<Field>)
    ensures forall f :: f in r <==> f in fs && IsIndex(f.key) == index
  {
    if fs == [] then []
    else if IsIndex(fs[0].key) == index then [fs[0]] + Pick(fs[1..], index)
    else Pick(fs[1..], index)
  }

  /** `Object.fromEntries`, seen through the enumeration order of the object it builds. */
  function FromEntries(fs: seq<Field>): (r: seq<Field>) {
    Sort(Pick(fs, true), CompareIndex) + Pick(fs, false)
  }

  lemma FromEntriesMembers(fs: seq<Field>)
    ensures forall f :: f in FromEntries(fs) <==> f in fs
  {
    SortMembers(Pick(fs, true), CompareIndex);
  }

  lemma SortMembers(fs: seq<Field>, cmp: Comparator)
    ensures forall f :: f in Sort(fs, cmp) <==> f in fs
  {
    forall f
      ensures f in Sort(fs, cmp) <==> f in fs
    {
      assert f in Sort(fs, cmp) <==> f in multiset(Sort(fs, cmp));
      assert f in fs <==> f in multiset(fs);
    }
  }

  function SortJson(v: Json, cmp: Comparator): Json
    decreases v
  {
    match v
    case Arr(items) => Arr(seq(|items|, i requires 0 <= i < |items| => SortJson(items[i], cmp)))
    case Obj(fields) =>
      var sorted := Sort(LiveFields(fields), cmp);
      SortMembers(LiveFields(fields), cmp);
      Obj(FromEntries(seq(|sorted|, i requires 0 <= i < |sorted| =>
        assert sorted[i] in fields;
        Live(sorted[i].key, SortJson(sorted[i].value, cmp)))))
    case _ => v
  }

  // ---------------------------------------------------------------------------------------
  // JSON.stringify
  // ---------------------------------------------------------------------------------------

  function HexDigit(n: nat): char
    requires n < 16
  {
    "0123456789abcdef"[n]
  }

  function EscapeChar(c: char): string {
    if c == '\"' then "\\\""
    else if c == '\\' then "\\\\"
    else if c == '\n' then "\\n"
    else if c == '\r' then "\\r"
    else if c == '\t' then "\\t"
    else if c == '\U{8}' then "\\b"
    else if c == '\U{c}' then "\\f"
    else if c < ' ' then "\\u00" + [HexDigit(c as nat / 16), HexDigit(c as nat % 16)]
    else [c]
  }

  function Escape(s: string): string {
    if s == "" then "" else EscapeChar(s[0]) + Escape(s[1..])
  }

  function Quote(s: string): string {
    "\"" + Escape(s) + "\""
  }

  function Print(v: Json): string
    decreases v, 1
  {
    match v
    case Null => "null"
    case Bool(b) => if b then "true" else "false"
    case Num(token) => token
    case Str(text) => Quote(text)
    case Arr(items) =>
      if items == [] then "[]" else "[" + Print(items[0]) + PrintItems(items[1..]) + "]"
    case Obj(fields) =>
      if LiveFields(fields) == [] then "{}"
      else "{" + PrintFields(fields, true) + "}"
  }

  function PrintItems(items: seq<Json>): string
    decreases items, 0
  {
    if items == [] then "" else "," + Print(items[0]) + PrintItems(items[1..])
  }

  function PrintFields(fields: seq<Field>, first: bool): string
    decreases fields, 0
  {
    if fields == [] then ""
    else if fields[0].Undefined? then PrintFields(fields[1..], first)
    else
      (if first then "" else ",") + Quote(fields[0].key) + ":" +
      Print(fields[0].value) + PrintFields(fields[1..], false)
  }

  /** `canonicalizeLifecycleDateFactInboxPayload`, `canonicalizePostDepartureLifecycleCommand` */
  function Canonical(v: Json, cmp: Comparator): string {
    Print(SortJson(v, cmp))
  }

  // ---------------------------------------------------------------------------------------
  // What the text should decide
  // ---------------------------------------------------------------------------------------

  /** Equal up to the order of object keys and to `undefined` fields, at every depth. */
  ghost predicate Equivalent(x: Json, y: Json)
    decreases x
  {
    match x
    case Arr(xs) =>
      y.Arr? && |xs| == |y.items| && forall i | 0 <= i < |xs| :: Equivalent(xs[i], y.items[i])
    case Obj(xs) =>
      && y.Obj?
      && (forall i | 0 <= i < |xs| && xs[i].Live? ::
            exists j ::
              0 <= j < |y.fields| && Matches(xs[i], y.fields[j]) && Equivalent(xs[i].value, y.fields[j].value))
      && (forall j | 0 <= j < |y.fields| && y.fields[j].Live? ::
            exists i :: 0 <= i < |xs| && Matches(xs[i], y.fields[j]) && Equivalent(xs[i].value, y.fields[j].value))
    case _ => x == y
  }

  predicate Matches(f: Field, g: Field) {
    f.Live? && g.Live? && f.key == g.key
  }

  /** Every object, at every depth, has distinct keys, all of them in `keys`. */
  ghost predicate WellFormed(v: Json, keys: iset<string>)
    decreases v
  {
    match v
    case Arr(items) => forall i | 0 <= i < |items| :: WellFormed(items[i], keys)
    case Obj(fields) =>
      && DistinctKeys(fields)
      && (forall i | 0 <= i < |fields| :: fields[i].key in keys)
      && (forall i | 0 <= i < |fields| && fields[i].Live? :: WellFormed(fields[i].value, keys))
    case _ => true
  }

  ghost predicate DistinctKeys(fs: seq<Field>) {
    forall i, j | 0 <= i < j < |fs| :: fs[i].key != fs[j].key
  }

  /** A consistent comparator: a total preorder, as `localeCompare` is. */
  ghost predicate Consistent(cmp: Comparator) {
    && (forall a, b :: cmp(a, b) <= 0 || cmp(b, a) <= 0)
    && (forall a, b, c :: cmp(a, b) <= 0 && cmp(b, c) <= 0 ==> cmp(a, c) <= 0)
  }

  ghost predicate Tie(cmp: Comparator, a: string, b: string) {
    a != b && !IsIndex(a) && !IsIndex(b) && cmp(a, b) <= 0 && cmp(b, a) <= 0
  }

  ghost predicate NoTies(cmp: Comparator, keys: iset<string>) {
    forall a, b | a in keys && b in keys :: !Tie(cmp, a, b)
  }
}
