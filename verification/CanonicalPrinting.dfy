/** `JSON.stringify` loses nothing: the text of a value determines the value. */
module CanonicalPrinting {
  import opened CanonicalJson
  import opened Numerals

  /** No object holds an `undefined` field, at any depth. */
  ghost predicate Defined(v: Json)
    decreases v
  {
    match v
    case Arr(items) => forall i | 0 <= i < |items| :: Defined(items[i])
    case Obj(fields) => forall i | 0 <= i < |fields| :: fields[i].Live? && Defined(fields[i].value)
    case _ => true
  }

  /** What may follow a value inside a text: nothing, or one of the three closing marks. */
  predicate Stops(rest: string) {
    rest == "" || rest[0] in {',', ']', '}'}
  }

  lemma Cancel(p: string, a: string, b: string)
    requires p + a == p + b
    ensures a == b
  {
    assert a == (p + a)[|p|..] && b == (p + b)[|p|..];
  }

  /** The constructors start with different characters. */
  lemma FirstChar(v: Json)
    ensures Print(v) != ""
    ensures var c := Print(v)[0];
            match v
            case Null => c == 'n'
            case Bool(b) => c == if b then 't' else 'f'
            case Num(_) => c == '-' || c in DIGITS
            case Str(_) => c == '\"'
            case Arr(_) => c == '['
            case Obj(_) => c == '{'
  {
  }

  lemma {:induction false} TokenEnds(s: string, a: string, t: string, b: string)
    requires s + a == t + b && Stops(a) && Stops(b)
    requires forall c | c in s :: c in NUMBER_CHARS
    requires forall c | c in t :: c in NUMBER_CHARS
    ensures s == t && a == b
  {
    var u := s + a;
    assert a != "" ==> u[|s|] !in NUMBER_CHARS;
    assert b != "" ==> u[|t|] !in NUMBER_CHARS by {
      assert b != "" ==> (t + b)[|t|] == b[0];
    }
    assert forall k | 0 <= k < |s| :: u[k] == s[k] && u[k] in NUMBER_CHARS;
    assert forall k | 0 <= k < |t| :: (t + b)[k] == t[k] && u[k] in NUMBER_CHARS;
    assert s == (s + a)[..|s|] && t == (t + b)[..|t|];
    Cancel(s, a, b);
  }

  lemma EscapedCharEnds(c: char, a: string, d: char, b: string)
    requires EscapeChar(c) + a == EscapeChar(d) + b
    ensures c == d && a == b
  {
    var u := EscapeChar(c) + a;
    assert u[0] == EscapeChar(c)[0] == EscapeChar(d)[0];
    if u[0] == '\\' {
      assert u[1] == EscapeChar(c)[1] == EscapeChar(d)[1];
      if u[1] == 'u' {
        assert u[4] == HexDigit(c as nat / 16) == HexDigit(d as nat / 16);
        assert u[5] == HexDigit(c as nat % 16) == HexDigit(d as nat % 16);
        HexDigitInjective(c as nat / 16, d as nat / 16);
        HexDigitInjective(c as nat % 16, d as nat % 16);
        assert c as nat == d as nat;
      }
    }
    assert c == d;
    Cancel(EscapeChar(c), a, b);
  }

  lemma HexDigitInjective(m: nat, n: nat)
    requires m < 16 && n < 16 && HexDigit(m) == HexDigit(n)
    ensures m == n
  {
  }

  lemma EscapeFirst(s: string, a: string)
    ensures (Escape(s) + "\"" + a)[0] == '\"' <==> s == ""
  {
    if s != "" {
      assert (Escape(s) + "\"" + a)[0] == EscapeChar(s[0])[0];
    }
  }

  lemma {:induction false} EscapeEnds(s: string, a: string, t: string, b: string)
    requires Escape(s) + "\"" + a == Escape(t) + "\"" + b
    ensures s == t && a == b
    decreases |s| + |t|
  {
    EscapeFirst(s, a);
    EscapeFirst(t, b);
    if s == "" {
      assert Escape(s) + "\"" + a == "\"" + a && Escape(t) + "\"" + b == "\"" + b;
      Cancel("\"", a, b);
    } else {
      var u, w := Escape(s[1..]) + "\"" + a, Escape(t[1..]) + "\"" + b;
      EscapeStep(s, a);
      EscapeStep(t, b);
      EscapedCharEnds(s[0], u, t[0], w);
      EscapeEnds(s[1..], a, t[1..], b);
      assert s == [s[0]] + s[1..] && t == [t[0]] + t[1..];
    }
  }

  lemma EscapeStep(s: string, a: string)
    requires s != ""
    ensures Escape(s) + "\"" + a == EscapeChar(s[0]) + (Escape(s[1..]) + "\"" + a)
  {
  }

  lemma QuoteEnds(s: string, a: string, t: string, b: string)
    requires Quote(s) + a == Quote(t) + b
    ensures s == t && a == b
  {
    assert Quote(s) + a == "\"" + (Escape(s) + "\"" + a);
    assert Quote(t) + b == "\"" + (Escape(t) + "\"" + b);
    Cancel("\"", Escape(s) + "\"" + a, Escape(t) + "\"" + b);
    EscapeEnds(s, a, t, b);
  }

  /** A printed value ends where it must: it can be read back in front of any closing mark. */
  lemma {:induction false} PrintEnds(x: Json, a: string, y: Json, b: string)
    requires Print(x) + a == Print(y) + b && Stops(a) && Stops(b)
    requires Defined(x) && Defined(y)
    ensures x == y && a == b
    decreases x, 1
  {
    FirstChar(x);
    FirstChar(y);
    assert (Print(x) + a)[0] == Print(x)[0] == (Print(y) + b)[0] == Print(y)[0];
    match x
    case Null => Cancel("null", a, b);
    case Bool(v) => Cancel(Print(x), a, b);
    case Num(token) => TokenEnds(token, a, y.token, b);
    case Str(text) => QuoteEnds(text, a, y.text, b);
    case Arr(xs) => ArrayEnds(x, a, y, b);
    case Obj(xs) => ObjectEnds(x, a, y, b);
  }

  lemma ArrayStep(xs: seq<Json>, a: string)
    ensures xs == [] ==> Print(Arr(xs)) == "[]"
    ensures xs != [] ==> Print(Arr(xs)) + a == "[" + (Print(xs[0]) + (PrintItems(xs[1..]) + "]" + a))
    ensures (Print(Arr(xs)) + a)[1] == ']' <==> xs == []
  {
    if xs != [] {
      FirstChar(xs[0]);
      assert Print(Arr(xs)) + a == "[" + (Print(xs[0]) + (PrintItems(xs[1..]) + "]" + a));
      assert (Print(Arr(xs)) + a)[1] == Print(xs[0])[0];
    }
  }

  lemma {:induction false} ArrayEnds(x: Json, a: string, y: Json, b: string)
    requires x.Arr? && y.Arr? && Print(x) + a == Print(y) + b
    requires Defined(x) && Defined(y)
    ensures x == y && a == b
    decreases x, 0
  {
    var xs, ys := x.items, y.items;
    ArrayStep(xs, a);
    ArrayStep(ys, b);
    if xs == [] {
      Cancel("[]", a, b);
    } else {
      var u, w := PrintItems(xs[1..]) + "]" + a, PrintItems(ys[1..]) + "]" + b;
      Cancel("[", Print(xs[0]) + u, Print(ys[0]) + w);
      PrintEnds(xs[0], u, ys[0], w);
      ItemsEnd(xs[1..], a, ys[1..], b);
      assert xs == [xs[0]] + xs[1..] && ys == [ys[0]] + ys[1..];
    }
  }

  lemma RegroupItem(head: string, rest: string, a: string)
    ensures "," + head + rest + "]" + a == "," + (head + (rest + "]" + a))
  {
    assert head + rest + "]" + a == head + (rest + "]" + a);
    assert "," + head + rest == "," + (head + rest);
    assert "," + (head + rest) + "]" + a == "," + (head + rest + "]" + a);
  }

  lemma ItemsStep(xs: seq<Json>, a: string)
    ensures xs != [] ==> PrintItems(xs) + "]" + a == "," + (Print(xs[0]) + (PrintItems(xs[1..]) + "]" + a))
    ensures xs == [] ==> PrintItems(xs) + "]" + a == "]" + a
    ensures (PrintItems(xs) + "]" + a)[0] == ']' <==> xs == []
  {
    if xs != [] {
      RegroupItem(Print(xs[0]), PrintItems(xs[1..]), a);
      assert PrintItems(xs) == "," + Print(xs[0]) + PrintItems(xs[1..]);
    }
  }

  lemma {:induction false} ItemsEnd(xs: seq<Json>, a: string, ys: seq<Json>, b: string)
    requires PrintItems(xs) + "]" + a == PrintItems(ys) + "]" + b
    requires forall i | 0 <= i < |xs| :: Defined(xs[i])
    requires forall i | 0 <= i < |ys| :: Defined(ys[i])
    ensures xs == ys && a == b
    decreases xs, 0
  {
    ItemsStep(xs, a);
    ItemsStep(ys, b);
    if xs == [] {
      Cancel("]", a, b);
    } else {
      var u, w := PrintItems(xs[1..]) + "]" + a, PrintItems(ys[1..]) + "]" + b;
      Cancel(",", Print(xs[0]) + u, Print(ys[0]) + w);
      PrintEnds(xs[0], u, ys[0], w);
      ItemsEnd(xs[1..], a, ys[1..], b);
      assert xs == [xs[0]] + xs[1..] && ys == [ys[0]] + ys[1..];
    }
  }

  lemma ObjectStep(xs: seq<Field>, a: string)
    requires forall i | 0 <= i < |xs| :: xs[i].Live?
    ensures xs == [] ==> Print(Obj(xs)) == "{}"
    ensures xs != [] ==> Print(Obj(xs)) + a == "{" + FieldText(xs, a)
    ensures (Print(Obj(xs)) + a)[1] == '}' <==> xs == []
  {
    if xs != [] {
      assert xs[0] in LiveFields(xs);
      Regroup("{", Quote(xs[0].key), Print(xs[0].value), PrintFields(xs[1..], false), a);
      assert Print(Obj(xs)) ==
          "{" + ("" + Quote(xs[0].key) + ":" + Print(xs[0].value) + PrintFields(xs[1..], false)) + "}";
    }
  }

  lemma Regroup(mark: string, key: string, value: string, rest: string, a: string)
    ensures mark + ("" + key + ":" + value + rest) + "}" + a == mark + (key + (":" + (value + (rest + "}" + a))))
    ensures mark + key + ":" + value + rest + "}" + a == mark + (key + (":" + (value + (rest + "}" + a))))
  {
    var tail := rest + "}" + a;
    assert key + ":" + value + rest + "}" + a == key + ":" + value + tail;
    assert key + ":" + value + tail == key + (":" + (value + tail));
    assert "" + key + ":" + value + rest == key + ":" + value + rest;
    assert mark + (key + ":" + value + rest) + "}" + a == mark + (key + ":" + value + rest + "}" + a);
    assert mark + key + ":" + value + rest == mark + (key + ":" + value + rest);
  }

  /** The text of the first field of `xs`, of the fields behind it, and of what follows the object. */
  function FieldText(xs: seq<Field>, a: string): (r: string)
    requires xs != [] && xs[0].Live?
  {
    Quote(xs[0].key) + (":" + (Print(xs[0].value) + (PrintFields(xs[1..], false) + "}" + a)))
  }

  lemma FieldEnds(xs: seq<Field>, a: string, ys: seq<Field>, b: string)
    requires xs != [] && xs[0].Live? && ys != [] && ys[0].Live?
    requires FieldText(xs, a) == FieldText(ys, b)
    ensures xs[0].key == ys[0].key
    ensures Print(xs[0].value) + (PrintFields(xs[1..], false) + "}" + a) ==
            Print(ys[0].value) + (PrintFields(ys[1..], false) + "}" + b)
  {
    var u := Print(xs[0].value) + (PrintFields(xs[1..], false) + "}" + a);
    var w := Print(ys[0].value) + (PrintFields(ys[1..], false) + "}" + b);
    QuoteEnds(xs[0].key, ":" + u, ys[0].key, ":" + w);
    Cancel(":", u, w);
  }

  lemma FieldsStart(xs: seq<Field>, a: string)
    requires forall i | 0 <= i < |xs| :: xs[i].Live?
    ensures Stops(PrintFields(xs, false) + "}" + a)
  {
  }

  lemma {:induction false} ObjectEnds(x: Json, a: string, y: Json, b: string)
    requires x.Obj? && y.Obj? && Print(x) + a == Print(y) + b
    requires Defined(x) && Defined(y)
    ensures x == y && a == b
    decreases x, 0, 2
  {
    var xs, ys := x.fields, y.fields;
    ObjectStep(xs, a);
    ObjectStep(ys, b);
    if xs == [] {
      Cancel("{}", a, b);
    } else {
      Cancel("{", FieldText(xs, a), FieldText(ys, b));
      NonEmptyFieldsEnd(xs, a, ys, b);
    }
  }

  lemma FieldsStep(xs: seq<Field>, a: string)
    requires forall i | 0 <= i < |xs| :: xs[i].Live?
    ensures xs != [] ==> PrintFields(xs, false) + "}" + a == "," + FieldText(xs, a)
    ensures xs == [] ==> PrintFields(xs, false) + "}" + a == "}" + a
    ensures (PrintFields(xs, false) + "}" + a)[0] == '}' <==> xs == []
  {
    if xs != [] {
      Regroup(",", Quote(xs[0].key), Print(xs[0].value), PrintFields(xs[1..], false), a);
      assert PrintFields(xs, false) == "," + Quote(xs[0].key) + ":" + Print(xs[0].value) + PrintFields(xs[1..], false);
    }
  }

  lemma {:induction false} FieldsEnd(xs: seq<Field>, a: string, ys: seq<Field>, b: string)
    requires PrintFields(xs, false) + "}" + a == PrintFields(ys, false) + "}" + b
    requires forall i | 0 <= i < |xs| :: xs[i].Live? && Defined(xs[i].value)
    requires forall i | 0 <= i < |ys| :: ys[i].Live? && Defined(ys[i].value)
    ensures xs == ys && a == b
    decreases xs, 0, 1
  {
    FieldsStep(xs, a);
    FieldsStep(ys, b);
    if xs == [] {
      Cancel("}", a, b);
    } else {
      Cancel(",", FieldText(xs, a), FieldText(ys, b));
      NonEmptyFieldsEnd(xs, a, ys, b);
    }
  }

  lemma {:induction false} NonEmptyFieldsEnd(xs: seq<Field>, a: string, ys: seq<Field>, b: string)
    requires xs != [] && ys != []
    requires forall i | 0 <= i < |xs| :: xs[i].Live? && Defined(xs[i].value)
    requires forall i | 0 <= i < |ys| :: ys[i].Live? && Defined(ys[i].value)
    requires FieldText(xs, a) == FieldText(ys, b)
    ensures xs == ys && a == b
    decreases xs, 0, 0
  {
    FieldEnds(xs, a, ys, b);
    FieldsStart(xs[1..], a);
    FieldsStart(ys[1..], b);
    PrintEnds(xs[0].value, PrintFields(xs[1..], false) + "}" + a, ys[0].value, PrintFields(ys[1..], false) + "}" + b);
    FieldsEnd(xs[1..], a, ys[1..], b);
    assert xs == [xs[0]] + xs[1..] && ys == [ys[0]] + ys[1..];
  }

  /** Distinct values without `undefined` fields print to distinct texts. */
  lemma PrintInjective(x: Json, y: Json)
    requires Defined(x) && Defined(y)
    ensures Print(x) == Print(y) <==> x == y
  {
    if Print(x) == Print(y) {
      assert Print(x) + "" == Print(y) + "";
      PrintEnds(x, "", y, "");
    }
  }
}
