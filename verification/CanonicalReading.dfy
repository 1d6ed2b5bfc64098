/**
 A reader of JSON text (RFC 8259) without white space between its tokens, as `JSON.parse` reads it,
 and that it reads back what `JSON.stringify` prints. The entries of an object are kept in the order
 of the text.
 */
module CanonicalReading {
  import opened Wrappers
  import opened Numerals
  import opened CanonicalJson
  import opened CanonicalPrinting
  import opened CanonicalText

  // ---------------------------------------------------------------------------------------
  // Strings (section 7)
  // ---------------------------------------------------------------------------------------

  function HexValue(c: char): Option<nat> {
    if '0' <= c <= '9' then Some(c as nat - 48)
    else if 'a' <= c <= 'f' then Some(c as nat - 87)
    else if 'A' <= c <= 'F' then Some(c as nat - 55)
    else None
  }

  /** The number four hexadecimal digits stand for. */
  function CodePoint(t: string): Option<nat> {
    if |t| < 4 then None
    else
      var a, b, c, d := HexValue(t[0]), HexValue(t[1]), HexValue(t[2]), HexValue(t[3]);
      if a.None? || b.None? || c.None? || d.None? then None
      else Some(4096 * a.value + 256 * b.value + 16 * c.value + d.value)
  }

  /** What follows a backslash. A text here holds no surrogates, so none may be escaped. */
  function ReadEscape(t: string): (r: Option<(char, string)>)
    ensures r.Some? ==> |r.value.1| < |t|
  {
    if t == "" then None
    else
      match t[0]
      case '\"' => Some(('\"', t[1..]))
      case '\\' => Some(('\\', t[1..]))
      case '/' => Some(('/', t[1..]))
      case 'b' => Some(('\U{8}', t[1..]))
      case 'f' => Some(('\U{c}', t[1..]))
      case 'n' => Some(('\U{a}', t[1..]))
      case 'r' => Some(('\U{d}', t[1..]))
      case 't' => Some(('\U{9}', t[1..]))
      case 'u' =>
        var n := CodePoint(t[1..]);
        if n.None? || 0xd800 <= n.value < 0xe000 || n.value > 0xffff then None else Some((n.value as char, t[5..]))
      case _ => None
  }

  function Before(c: char, read: Option<(string, string)>): Option<(string, string)> {
    if read.None? then None else Some(([c] + read.value.0, read.value.1))
  }

  /** The rest of a string, behind its opening mark. */
  function ReadText(t: string): (r: Option<(string, string)>)
    ensures r.Some? ==> |r.value.1| < |t|
  {
    if t == "" || t[0] < ' ' then None
    else if t[0] == '\"' then Some(("", t[1..]))
    else if t[0] == '\\' then
      var escaped := ReadEscape(t[1..]);
      if escaped.None? then None else Before(escaped.value.0, ReadText(escaped.value.1))
    else Before(t[0], ReadText(t[1..]))
  }

  // ---------------------------------------------------------------------------------------
  // Values (sections 3 to 6)
  // ---------------------------------------------------------------------------------------

  predicate Starts(t: string, mark: char) {
    t != "" && t[0] == mark
  }

  function ReadWord(t: string, word: string, v: Json): Option<(Json, string)> {
    if |t| >= |word| && t[..|word|] == word then Some((v, t[|word|..])) else None
  }

  /** How far the characters of a number reach. */
  function NumberEnd(t: string): (n: nat)
    ensures n <= |t|
  {
    if t == "" || t[0] !in NUMBER_CHARS then 0 else 1 + NumberEnd(t[1..])
  }

  function ReadNumber(t: string): (r: Option<(Json, string)>)
    ensures r.Some? ==> |r.value.1| < |t|
  {
    var token := t[..NumberEnd(t)];
    if IsNumber(token) then Some((Num(token), t[|token|..])) else None
  }

  function ReadValue(t: string): (r: Option<(Json, string)>)
    ensures r.Some? ==> |r.value.1| < |t|
    decreases |t|, 0
  {
    if t == "" then None
    else
      match t[0]
      case 'n' => ReadWord(t, "null", Null)
      case 't' => ReadWord(t, "true", Bool(true))
      case 'f' => ReadWord(t, "false", Bool(false))
      case '\"' =>
        var text := ReadText(t[1..]);
        if text.None? then None else Some((Str(text.value.0), text.value.1))
      case '[' =>
        if Starts(t[1..], ']') then Some((Arr([]), t[2..]))
        else
          var items := ReadItems(t[1..]);
          if items.None? then None else Some((Arr(items.value.0), items.value.1))
      case '{' =>
        if Starts(t[1..], '}') then Some((Obj([]), t[2..]))
        else
          var fields := ReadFields(t[1..]);
          if fields.None? then None else Some((Obj(fields.value.0), fields.value.1))
      case _ => ReadNumber(t)
  }

  /** One item or more, up to the closing bracket. */
  function ReadItems(t: string): (r: Option<(seq<Json>, string)>)
    ensures r.Some? ==> |r.value.1| < |t|
    decreases |t|, 1
  {
    var item := ReadValue(t);
    if item.None? then None
    else if Starts(item.value.1, ']') then Some(([item.value.0], item.value.1[1..]))
    else if Starts(item.value.1, ',') then
      var others := ReadItems(item.value.1[1..]);
      if others.None? then None else Some(([item.value.0] + others.value.0, others.value.1))
    else None
  }

  /** A name in its marks and a colon. */
  function ReadName(t: string): (r: Option<(string, string)>)
    ensures r.Some? ==> |r.value.1| < |t|
  {
    if !Starts(t, '\"') then None
    else
      var text := ReadText(t[1..]);
      if text.None? || !Starts(text.value.1, ':') then None else Some((text.value.0, text.value.1[1..]))
  }

  /** One field or more, up to the closing brace. */
  function ReadFields(t: string): (r: Option<(seq<Field>, string)>)
    ensures r.Some? ==> |r.value.1| < |t|
    decreases |t|, 1
  {
    var name := ReadName(t);
    if name.None? then None
    else
      var value := ReadValue(name.value.1);
      if value.None? then None
      else
        var field := Live(name.value.0, value.value.0);
        if Starts(value.value.1, '}') then Some(([field], value.value.1[1..]))
        else if Starts(value.value.1, ',') then
          var others := ReadFields(value.value.1[1..]);
          if others.None? then None else Some(([field] + others.value.0, others.value.1))
        else None
  }

  // ---------------------------------------------------------------------------------------
  // What can be read back
  // ---------------------------------------------------------------------------------------

  /** A value without its `undefined` fields. */
  function Visible(v: Json): Json
    decreases v
  {
    match v
    case Arr(items) => Arr(VisibleItems(items))
    case Obj(fields) => Obj(VisibleFields(fields))
    case _ => v
  }

  function VisibleItems(items: seq<Json>): seq<Json>
    decreases items
  {
    if items == [] then [] else [Visible(items[0])] + VisibleItems(items[1..])
  }

  function VisibleFields(fields: seq<Field>): seq<Field>
    decreases fields
  {
    if fields == [] then []
    else if fields[0].Undefined? then VisibleFields(fields[1..])
    else [Live(fields[0].key, Visible(fields[0].value))] + VisibleFields(fields[1..])
  }

  // ---------------------------------------------------------------------------------------
  // Reading strings back
  // ---------------------------------------------------------------------------------------

  lemma HexDigitRead(n: nat)
    requires n < 16
    ensures HexValue(HexDigit(n)) == Some(n)
  {
  }

  lemma ControlRead(c: char, rest: string)
    requires c < ' '
    ensures ReadEscape("u00" + [HexDigit(c as nat / 16), HexDigit(c as nat % 16)] + rest) == Some((c, rest))
  {
    var t := "u00" + [HexDigit(c as nat / 16), HexDigit(c as nat % 16)] + rest;
    HexDigitRead(c as nat / 16);
    HexDigitRead(c as nat % 16);
    var u := t[1..];
    assert u[0] == '0' && u[1] == '0' && u[2] == HexDigit(c as nat / 16) && u[3] == HexDigit(c as nat % 16);
    assert CodePoint(u) == Some(c as nat);
    assert t[5..] == rest;
  }

  lemma PlainRead(c: char, rest: string)
    requires c >= ' ' && c != '\"' && c != '\\'
    ensures ReadText([c] + rest) == Before(c, ReadText(rest))
  {
    assert ([c] + rest)[1..] == rest;
  }

  lemma BackslashRead(c: char, escape: string, rest: string)
    requires ReadEscape(escape + rest) == Some((c, rest))
    ensures ReadText("\\" + escape + rest) == Before(c, ReadText(rest))
  {
    var t := "\\" + escape + rest;
    assert t[0] == '\\' && t[1..] == escape + rest;
  }

  /** The marks that follow a backslash, and what they stand for. */
  lemma MarkRead(mark: char, c: char, rest: string)
    requires (mark, c) in {('\"', '\"'), ('\\', '\\'), ('n', '\n'), ('r', '\r'), ('t', '\t'), ('b', '\U{8}'),
      ('f', '\U{c}')}
    ensures ReadEscape([mark] + rest) == Some((c, rest))
  {
    assert ([mark] + rest)[1..] == rest;
  }

  lemma EscapedCharRead(c: char, rest: string)
    ensures ReadText(EscapeChar(c) + rest) == Before(c, ReadText(rest))
  {
    var e := EscapeChar(c);
    if e == [c] {
      PlainRead(c, rest);
    } else if |e| == 2 {
      MarkRead(e[1], c, rest);
      BackslashRead(c, [e[1]], rest);
      assert e == "\\" + [e[1]];
    } else {
      var escape := "u00" + [HexDigit(c as nat / 16), HexDigit(c as nat % 16)];
      ControlRead(c, rest);
      BackslashRead(c, escape, rest);
      assert e == "\\" + escape;
    }
  }

  lemma {:induction false} EscapeRead(s: string, rest: string)
    ensures ReadText(Escape(s) + "\"" + rest) == Some((s, rest))
  {
    if s == "" {
      assert Escape(s) + "\"" + rest == "\"" + rest;
    } else {
      EscapeStep(s, rest);
      EscapedCharRead(s[0], Escape(s[1..]) + "\"" + rest);
      EscapeRead(s[1..], rest);
      assert [s[0]] + s[1..] == s;
    }
  }

  lemma QuoteRead(s: string, rest: string)
    ensures Starts(Quote(s) + rest, '\"') && ReadText((Quote(s) + rest)[1..]) == Some((s, rest))
  {
    assert (Quote(s) + rest)[1..] == Escape(s) + "\"" + rest;
    EscapeRead(s, rest);
  }

  // ---------------------------------------------------------------------------------------
  // Reading values back
  // ---------------------------------------------------------------------------------------

  lemma {:induction false} NumberStops(token: string, rest: string)
    requires (forall c | c in token :: c in NUMBER_CHARS) && Stops(rest)
    ensures NumberEnd(token + rest) == |token|
  {
    if token == "" {
      assert token + rest == rest;
    } else {
      assert (token + rest)[0] == token[0] && (token + rest)[1..] == token[1..] + rest;
      NumberStops(token[1..], rest);
    }
  }

  lemma NumberRead(token: Number, rest: string)
    requires Stops(rest)
    ensures ReadValue(token + rest) == Some((Num(token), rest))
  {
    var t := token + rest;
    NumberStops(token, rest);
    assert t[..|token|] == token && t[|token|..] == rest;
    assert t[0] == token[0];
  }

  lemma {:induction false} ValueRead(v: Json, rest: string)
    requires Stops(rest)
    ensures ReadValue(Print(v) + rest) == Some((Visible(v), rest))
    decreases v, 1
  {
    var t := Print(v) + rest;
    match v
    case Null => assert t[..4] == "null" && t[4..] == rest;
    case Bool(b) => assert if b then t[..4] == "true" && t[4..] == rest else t[..5] == "false" && t[5..] == rest;
    case Num(token) => NumberRead(token, rest);
    case Str(text) => QuoteRead(text, rest);
    case Arr(items) => ArrayRead(items, rest);
    case Obj(fields) => ObjectRead(fields, rest);
  }

  lemma {:induction false} ArrayRead(items: seq<Json>, rest: string)
    ensures ReadValue(Print(Arr(items)) + rest) == Some((Arr(VisibleItems(items)), rest))
    decreases items, 1
  {
    var t := Print(Arr(items)) + rest;
    if items == [] {
      assert t[..2] == "[]" && t[2..] == rest;
    } else {
      ArrayStep(items, rest);
      ItemsRead(items, rest);
      assert t[1..] == Print(items[0]) + (PrintItems(items[1..]) + "]" + rest);
      assert t[0] == '[' && t[1] != ']';
    }
  }

  lemma {:induction false} ItemsRead(items: seq<Json>, rest: string)
    requires items != []
    ensures ReadItems(Print(items[0]) + (PrintItems(items[1..]) + "]" + rest)) == Some((VisibleItems(items), rest))
    decreases items, 0
  {
    var tail := PrintItems(items[1..]) + "]" + rest;
    ItemsStep(items[1..], rest);
    assert Stops(tail);
    ValueRead(items[0], tail);
    if items[1..] == [] {
      assert tail == "]" + rest && tail[1..] == rest;
      assert VisibleItems(items) == [Visible(items[0])];
    } else {
      ItemsRead(items[1..], rest);
      assert tail[1..] == Print(items[1..][0]) + (PrintItems(items[1..][1..]) + "]" + rest);
    }
  }

  lemma BracedRead(inner: string, fields: seq<Field>, rest: string)
    requires ReadFields(inner) == Some((fields, rest)) && inner[0] == '\"'
    ensures ReadValue("{" + inner) == Some((Obj(fields), rest))
  {
    assert ("{" + inner)[1..] == inner;
  }

  lemma BracedText(fields: seq<Field>, rest: string)
    requires LiveFields(fields) != []
    ensures Print(Obj(fields)) + rest == "{" + (PrintFields(fields, true) + "}" + rest)
  {
    Braced(PrintFields(fields, true), rest);
  }

  lemma Braced(inner: string, rest: string)
    ensures "{" + inner + "}" + rest == "{" + (inner + "}" + rest)
  {
  }

  lemma {:induction false} ObjectRead(fields: seq<Field>, rest: string)
    ensures ReadValue(Print(Obj(fields)) + rest) == Some((Obj(VisibleFields(fields)), rest))
    decreases fields, 2
  {
    if LiveFields(fields) == [] {
      NothingVisible(fields);
      assert ("{}" + rest)[2..] == rest;
    } else {
      FieldsRead(fields, rest);
      NameFirst(fields, rest);
      BracedText(fields, rest);
      BracedRead(PrintFields(fields, true) + "}" + rest, VisibleFields(fields), rest);
    }
  }

  lemma {:induction false} NothingVisible(fields: seq<Field>)
    requires LiveFields(fields) == []
    ensures VisibleFields(fields) == [] && PrintFields(fields, false) == ""
  {
    if fields != [] {
      NothingVisible(fields[1..]);
    }
  }

  lemma LiveNameFirst(fields: seq<Field>, rest: string)
    requires fields != [] && fields[0].Live?
    ensures (PrintFields(fields, true) + "}" + rest)[0] == '\"'
    ensures PrintFields(fields, false) == "," + PrintFields(fields, true)
  {
    var name := Quote(fields[0].key);
    var others := ":" + (Print(fields[0].value) + PrintFields(fields[1..], false));
    assert PrintFields(fields, true) == name + others;
    assert PrintFields(fields, false) == "," + (name + others);
    assert (name + others)[0] == name[0];
  }

  lemma {:induction false} NameFirst(fields: seq<Field>, rest: string)
    requires LiveFields(fields) != []
    ensures (PrintFields(fields, true) + "}" + rest)[0] == '\"'
    ensures PrintFields(fields, false) == "," + PrintFields(fields, true)
  {
    if fields[0].Undefined? {
      NameFirst(fields[1..], rest);
    } else {
      LiveNameFirst(fields, rest);
    }
  }

  lemma NameRead(key: string, rest: string)
    ensures ReadName(Quote(key) + (":" + rest)) == Some((key, rest))
  {
    QuoteRead(key, ":" + rest);
    assert (":" + rest)[1..] == rest;
  }

  lemma {:induction false} FieldsRead(fields: seq<Field>, rest: string)
    requires LiveFields(fields) != []
    ensures ReadFields(PrintFields(fields, true) + "}" + rest) == Some((VisibleFields(fields), rest))
    decreases fields, 1
  {
    if fields[0].Undefined? {
      FieldsRead(fields[1..], rest);
    } else {
      LiveFieldRead(fields, rest);
    }
  }

  lemma LastFieldRead(key: string, value: Json, printed: string, rest: string)
    requires ReadValue(printed + ("}" + rest)) == Some((value, "}" + rest))
    ensures ReadFields(Quote(key) + (":" + (printed + ("}" + rest)))) == Some(([Live(key, value)], rest))
  {
    NameRead(key, printed + ("}" + rest));
    assert ("}" + rest)[1..] == rest;
  }

  lemma NextFieldRead(key: string, value: Json, printed: string, rest: string)
    requires ReadValue(printed + ("," + rest)) == Some((value, "," + rest)) && ReadFields(rest).Some?
    ensures ReadFields(Quote(key) + (":" + (printed + ("," + rest)))) ==
        Some(([Live(key, value)] + ReadFields(rest).value.0, ReadFields(rest).value.1))
  {
    NameRead(key, printed + ("," + rest));
    assert ("," + rest)[1..] == rest;
  }

  lemma FieldTextIs(f: Field, others: seq<Field>, rest: string)
    requires f.Live?
    ensures PrintFields([f] + others, true) + "}" + rest ==
        Quote(f.key) + (":" + (Print(f.value) + (PrintFields(others, false) + "}" + rest)))
  {
    assert ([f] + others)[1..] == others;
    Regroup("", Quote(f.key), Print(f.value), PrintFields(others, false), rest);
  }

  lemma {:induction false} LiveFieldRead(fields: seq<Field>, rest: string)
    requires fields != [] && fields[0].Live?
    ensures ReadFields(PrintFields(fields, true) + "}" + rest) == Some((VisibleFields(fields), rest))
    decreases fields, 0
  {
    var f, others := fields[0], fields[1..];
    assert fields == [f] + others;
    FieldTextIs(f, others, rest);
    if LiveFields(others) == [] {
      NothingVisible(others);
      assert VisibleFields(fields) == [Live(f.key, Visible(f.value))];
      assert PrintFields(others, false) + "}" + rest == "}" + rest;
      ValueRead(f.value, "}" + rest);
      LastFieldRead(f.key, Visible(f.value), Print(f.value), rest);
    } else {
      var next := PrintFields(others, true) + "}" + rest;
      NameFirst(others, rest);
      assert PrintFields(others, false) + "}" + rest == "," + next;
      ValueRead(f.value, "," + next);
      FieldsRead(others, rest);
      NextFieldRead(f.key, Visible(f.value), Print(f.value), next);
    }
  }

  // ---------------------------------------------------------------------------------------
  // The canonical text
  // ---------------------------------------------------------------------------------------

  /** Printed text reads back as the value that was printed, without its `undefined` fields. */
  lemma PrintedReadsBack(v: Json)
    ensures ReadValue(Print(v)) == Some((Visible(v), ""))
  {
    assert Print(v) + "" == Print(v);
    ValueRead(v, "");
  }

  lemma {:induction false} DefinedIsVisible(v: Json)
    requires Defined(v)
    ensures Visible(v) == v
    decreases v, 1
  {
    match v
    case Arr(items) => DefinedItemsVisible(items);
    case Obj(fields) => DefinedFieldsVisible(fields);
    case _ =>
  }

  lemma {:induction false} DefinedItemsVisible(items: seq<Json>)
    requires forall i | 0 <= i < |items| :: Defined(items[i])
    ensures VisibleItems(items) == items
    decreases items, 0
  {
    if items != [] {
      DefinedIsVisible(items[0]);
      DefinedItemsVisible(items[1..]);
      assert [items[0]] + items[1..] == items;
    }
  }

  lemma {:induction false} DefinedFieldsVisible(fields: seq<Field>)
    requires forall i | 0 <= i < |fields| :: fields[i].Live? && Defined(fields[i].value)
    ensures VisibleFields(fields) == fields
    decreases fields, 0
  {
    if fields != [] {
      DefinedIsVisible(fields[0].value);
      DefinedFieldsVisible(fields[1..]);
      assert [fields[0]] + fields[1..] == fields;
    }
  }

  /** Array indices come first, in numeric order; the other keys follow in the order of the comparator. */
  predicate KeyPrecedes(a: string, b: string, cmp: Comparator) {
    var indexA, indexB := ArrayIndex(a), ArrayIndex(b);
    if indexA.Some? then indexB.Some? ==> indexA.value < indexB.value
    else indexB.None? && cmp(a, b) <= 0
  }

  /** The index a key is the numeral of; indices are less than the largest length of an array. */
  function ArrayIndex(k: string): Option<nat> {
    if IsDecimal(k) && DecimalValue(k) < 0xffff_ffff then Some(DecimalValue(k)) else None
  }

  ghost predicate KeysInOrder(fields: seq<Field>, cmp: Comparator) {
    forall i, j | 0 <= i < j < |fields| :: KeyPrecedes(fields[i].key, fields[j].key, cmp)
  }

  /** The keys are in order in every object, at every depth. */
  ghost predicate InOrder(v: Json, cmp: Comparator)
    decreases v
  {
    match v
    case Arr(items) => forall i | 0 <= i < |items| :: InOrder(items[i], cmp)
    case Obj(fields) =>
      && KeysInOrder(fields, cmp)
      && forall i | 0 <= i < |fields| && fields[i].Live? :: InOrder(fields[i].value, cmp)
    case _ => true
  }

  lemma ArrayIndexIs(k: string)
    ensures ArrayIndex(k) == if IsIndex(k) then Some(IndexValue(k)) else None
  {
  }

  lemma PrecedesExactly(a: string, b: string, cmp: Comparator)
    ensures IsIndex(a) && IsIndex(b) ==> (KeyPrecedes(a, b, cmp) <==> CompareIndex(a, b) < 0)
    ensures IsIndex(a) && !IsIndex(b) ==> KeyPrecedes(a, b, cmp)
    ensures !IsIndex(a) && !IsIndex(b) ==> (KeyPrecedes(a, b, cmp) <==> cmp(a, b) <= 0)
  {
    ArrayIndexIs(a);
    ArrayIndexIs(b);
  }

  lemma IndexesOrdered(es: seq<Field>, cmp: Comparator)
    requires DistinctKeys(es)
    ensures KeysInOrder(Sort(Pick(es, true), CompareIndex), cmp)
  {
    var x := Sort(Pick(es, true), CompareIndex);
    IndexKeysSorted(es);
    forall i, j | 0 <= i < j < |x| ensures KeyPrecedes(x[i].key, x[j].key, cmp) {
      assert x[i] in x && x[j] in x;
      assert CompareIndex(x[i].key, x[j].key) < 0;
      PrecedesExactly(x[i].key, x[j].key, cmp);
    }
  }

  lemma NamesOrdered(es: seq<Field>, cmp: Comparator)
    requires Sorted(es, cmp)
    ensures KeysInOrder(Pick(es, false), cmp)
  {
    var y := Pick(es, false);
    PickSorted(es, false, cmp);
    forall i, j | 0 <= i < j < |y| ensures KeyPrecedes(y[i].key, y[j].key, cmp) {
      assert y[i] in y && y[j] in y;
      PrecedesExactly(y[i].key, y[j].key, cmp);
    }
  }

  lemma IndexesBeforeNames(x: seq<Field>, y: seq<Field>, cmp: Comparator)
    requires KeysInOrder(x, cmp) && KeysInOrder(y, cmp)
    requires (forall f | f in x :: IsIndex(f.key)) && forall f | f in y :: !IsIndex(f.key)
    ensures KeysInOrder(x + y, cmp)
  {
    forall i, j | 0 <= i < |x| && 0 <= j < |y| ensures KeyPrecedes(x[i].key, y[j].key, cmp) {
      assert x[i] in x && y[j] in y;
      PrecedesExactly(x[i].key, y[j].key, cmp);
    }
    JoinedInOrder(x, y, cmp);
  }

  lemma JoinedInOrder(x: seq<Field>, y: seq<Field>, cmp: Comparator)
    requires KeysInOrder(x, cmp) && KeysInOrder(y, cmp)
    requires forall i, j | 0 <= i < |x| && 0 <= j < |y| :: KeyPrecedes(x[i].key, y[j].key, cmp)
    ensures KeysInOrder(x + y, cmp)
  {
    forall i, j | 0 <= i < j < |x + y| ensures KeyPrecedes((x + y)[i].key, (x + y)[j].key, cmp) {
      if i < |x| <= j {
        assert KeyPrecedes(x[i].key, y[j - |x|].key, cmp);
      }
    }
  }

  lemma ObjectOrdered(fields: seq<Field>, cmp: Comparator)
    requires Consistent(cmp) && DistinctKeys(fields)
    ensures KeysInOrder(SortJson(Obj(fields), cmp).fields, cmp)
  {
    var es := Entries(fields, cmp);
    SortJsonObject(fields, cmp);
    EntriesShape(fields, cmp);
    IndexesOrdered(es, cmp);
    NamesOrdered(es, cmp);
    SortMembers(Pick(es, true), CompareIndex);
    IndexesBeforeNames(Sort(Pick(es, true), CompareIndex), Pick(es, false), cmp);
  }

  lemma {:induction false} NormalFormOrdered(v: Json, cmp: Comparator, keys: iset<string>)
    requires Consistent(cmp) && WellFormed(v, keys)
    ensures InOrder(SortJson(v, cmp), cmp)
    decreases v
  {
    match v
    case Arr(items) =>
      forall i | 0 <= i < |items| ensures InOrder(SortJson(items[i], cmp), cmp) {
        NormalFormOrdered(items[i], cmp, keys);
      }
    case Obj(fields) =>
      var ns := SortJson(v, cmp).fields;
      ObjectOrdered(fields, cmp);
      forall k | 0 <= k < |ns| && ns[k].Live? ensures InOrder(ns[k].value, cmp) {
        var i := NormalOf(fields, k, cmp);
        NormalFormOrdered(fields[i].value, cmp, keys);
      }
    case _ =>
  }

  /**
   The canonical text of a payload is JSON. It reads as a value that differs from the payload only in
   the order of keys and in `undefined` fields, and whose keys are in order at every depth.
   */
  lemma CanonicalTextReadsBack(v: Json, cmp: Comparator, keys: iset<string>) returns (w: Json)
    requires Consistent(cmp) && WellFormed(v, keys)
    ensures ReadValue(Canonical(v, cmp)) == Some((w, ""))
    ensures Equivalent(w, v) && InOrder(w, cmp)
  {
    w := SortJson(v, cmp);
    NormalFormDefined(v, cmp);
    DefinedIsVisible(w);
    PrintedReadsBack(w);
    NormalFormEquivalent(v, cmp, keys);
    NormalFormOrdered(v, cmp, keys);
  }
}
