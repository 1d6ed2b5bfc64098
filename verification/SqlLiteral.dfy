/** `sql_literal` of the demo generator, and a reader of character literals (SQL-92, section 5.3). */
module SqlLiteral {
  import opened Wrappers

  /** `value.replace("'", "''")` */
  function Doubled(v: string): string {
    if v == "" then "" else (if v[0] == '\'' then "''" else [v[0]]) + Doubled(v[1..])
  }

  function Literal(v: string): string {
    "'" + Doubled(v) + "'"
  }

  /** Reads the rest of a literal: two quotes are one, a single one ends it. */
  function ReadBody(text: string): Option<(string, string)> {
    if text == "" then None
    else if text[0] != '\'' then Prepend(text[0], ReadBody(text[1..]))
    else if |text| > 1 && text[1] == '\'' then Prepend('\'', ReadBody(text[2..]))
    else Some(("", text[1..]))
  }

  function Prepend(c: char, read: Option<(string, string)>): Option<(string, string)> {
    if read.None? then None else Some(([c] + read.value.0, read.value.1))
  }

  /** The value of the literal a text starts with, and what follows it. */
  function Read(text: string): Option<(string, string)> {
    if text == "" || text[0] != '\'' then None else ReadBody(text[1..])
  }

  predicate StartsWithQuote(text: string) {
    text != "" && text[0] == '\''
  }

  lemma {:induction false} BodyRead(v: string, rest: string)
    ensures !StartsWithQuote(rest) ==> ReadBody(Doubled(v) + "'" + rest) == Some((v, rest))
    ensures StartsWithQuote(rest)
        ==> ReadBody(Doubled(v) + "'" + rest).None? || |ReadBody(Doubled(v) + "'" + rest).value.0| > |v|
  {
    var text := Doubled(v) + "'" + rest;
    if v == "" {
      assert text == "'" + rest;
      assert text[1..] == rest;
    } else {
      BodyRead(v[1..], rest);
      var tail := Doubled(v[1..]) + "'" + rest;
      if v[0] == '\'' {
        assert text == "''" + tail;
        assert text[2..] == tail;
      } else {
        assert text == [v[0]] + tail;
        assert text[1..] == tail;
      }
      assert [v[0]] + v[1..] == v;
    }
  }

  /** A literal is read back as its value, up to its end, exactly when no further quote follows. */
  lemma LiteralReadBack(v: string, rest: string)
    ensures Read(Literal(v) + rest) == Some((v, rest)) <==> !StartsWithQuote(rest)
  {
    assert (Literal(v) + rest)[1..] == Doubled(v) + "'" + rest;
    BodyRead(v, rest);
  }

  /** So a literal stands for one value, and none is the beginning of another. */
  lemma LiteralsDelimitThemselves(v: string, rest: string, w: string, after: string)
    requires Literal(v) + rest == Literal(w) + after && !StartsWithQuote(rest) && !StartsWithQuote(after)
    ensures v == w && rest == after
  {
    LiteralReadBack(v, rest);
    LiteralReadBack(w, after);
  }
}
