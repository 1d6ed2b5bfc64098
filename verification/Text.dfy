/** JavaScript text operations the models share. */
module Text {

  /** White space and line terminators, the characters `String.prototype.trim` removes. */
  predicate IsSpace(c: char) {
    || c in " \t\n\r\U{b}\U{c}\U{a0}\U{1680}\U{2028}\U{2029}\U{202f}\U{205f}\U{3000}\U{feff}"
    || '\U{2000}' <= c <= '\U{200a}'
  }

  function TrimStart(s: string): (r: string)
    ensures |r| <= |s|
    ensures r != "" ==> !IsSpace(r[0]) && r[|r| - 1] == s[|s| - 1]
  {
    if s != "" && IsSpace(s[0]) then TrimStart(s[1..]) else s
  }

  function TrimEnd(s: string): (r: string)
    ensures |r| <= |s|
    ensures r != "" ==> !IsSpace(r[|r| - 1]) && r[0] == s[0]
  {
    if s != "" && IsSpace(s[|s| - 1]) then TrimEnd(s[..|s| - 1]) else s
  }

  function Trim(s: string): string {
    TrimEnd(TrimStart(s))
  }

  /** `toUpperCase` on the letters A to Z. */
  function ToUpper(s: string): string {
    seq(|s|, i requires 0 <= i < |s| => if 'a' <= s[i] <= 'z' then s[i] - 'a' + 'A' else s[i])
  }

  /** `[...new Set(ids)]`: the first occurrence of each. */
  function Unique(ids: seq<string>): (r: seq<string>)
    ensures forall id :: id in r <==> id in ids
    ensures forall i, j | 0 <= i < j < |r| :: r[i] != r[j]
  {
    if ids == [] then []
    else
      var before, id := Unique(ids[..|ids| - 1]), ids[|ids| - 1];
      if id in before then before else before + [id]
  }

  lemma TrimIdempotent(s: string)
    ensures Trim(Trim(s)) == Trim(s)
  {
  }

  // ---------------------------------------------------------------------------------------
  // What these operations give
  // ---------------------------------------------------------------------------------------

  predicate Blank(s: string) {
    forall c | c in s :: IsSpace(c)
  }

  /** `r` is `s` without the blanks around it. */
  ghost predicate TrimmedTo(s: string, r: string) {
    && (r != "" ==> !IsSpace(r[0]) && !IsSpace(r[|r| - 1]))
    && exists a, b :: Blank(a) && Blank(b) && s == a + r + b
  }

  lemma {:induction false} TrimStartSkips(a: string, t: string)
    requires Blank(a) && (t != "" ==> !IsSpace(t[0]))
    ensures TrimStart(a + t) == t
  {
    if a == "" {
      assert a + t == t;
    } else {
      assert (a + t)[0] == a[0] && (a + t)[1..] == a[1..] + t;
      TrimStartSkips(a[1..], t);
    }
  }

  lemma {:induction false} TrimEndSkips(t: string, b: string)
    requires Blank(b) && (t != "" ==> !IsSpace(t[|t| - 1]))
    ensures TrimEnd(t + b) == t
  {
    if b == "" {
      assert t + b == t;
    } else {
      var n := |b| - 1;
      assert (t + b)[|t + b| - 1] == b[n] && (t + b)[..|t + b| - 1] == t + b[..n];
      TrimEndSkips(t, b[..n]);
    }
  }

  lemma {:induction false} TrimStartSplits(s: string) returns (a: string)
    ensures Blank(a) && s == a + TrimStart(s)
  {
    if s != "" && IsSpace(s[0]) {
      var rest := TrimStartSplits(s[1..]);
      a := [s[0]] + rest;
      assert s == [s[0]] + s[1..];
    } else {
      a := "";
    }
  }

  lemma {:induction false} TrimEndSplits(s: string) returns (b: string)
    ensures Blank(b) && s == TrimEnd(s) + b
  {
    if s != "" && IsSpace(s[|s| - 1]) {
      var rest := TrimEndSplits(s[..|s| - 1]);
      b := rest + [s[|s| - 1]];
      assert s == s[..|s| - 1] + [s[|s| - 1]];
    } else {
      b := "";
    }
  }

  lemma TrimmedToTrim(s: string)
    ensures TrimmedTo(s, Trim(s))
  {
    var a := TrimStartSplits(s);
    var b := TrimEndSplits(TrimStart(s));
    Surrounded(s, a, Trim(s), b);
    TrimmedEnds(s);
  }

  lemma Surrounded(s: string, a: string, r: string, b: string)
    requires Blank(a) && Blank(b) && s == a + (r + b)
    ensures exists a, b :: Blank(a) && Blank(b) && s == a + r + b
  {
    assert a + (r + b) == a + r + b;
  }

  lemma TrimmedEnds(s: string)
    ensures Trim(s) != "" ==> !IsSpace(Trim(s)[0]) && !IsSpace(Trim(s)[|Trim(s)| - 1])
  {
  }

  /** Trimming takes off exactly the blanks around a text. */
  lemma TrimIs(s: string, r: string)
    ensures Trim(s) == r <==> TrimmedTo(s, r)
  {
    TrimmedToTrim(s);
    if TrimmedTo(s, r) {
      var a, b :| Blank(a) && Blank(b) && s == a + r + b;
      if r == "" {
        assert a + r + b == (a + b) + "";
        TrimStartSkips(a + b, "");
      } else {
        assert a + r + b == a + (r + b);
        TrimStartSkips(a, r + b);
        TrimEndSkips(r, b);
      }
    }
  }

  lemma TrimmedAwayExactly(s: string)
    ensures Trim(s) == "" <==> Blank(s)
  {
    TrimIs(s, "");
    if Blank(s) {
      assert Blank("") && s == s + "" + "";
    }
  }

  /** `t` is `s` with every letter of a to z in upper case, and nothing else changed. */
  predicate UpperOf(s: string, t: string) {
    |t| == |s| && forall i | 0 <= i < |s| ::
      if 'a' <= s[i] <= 'z' then t[i] as int == s[i] as int - 32 else t[i] == s[i]
  }

  /** `x` occurs before the first `y`. */
  ghost predicate OccursBefore(ids: seq<string>, x: string, y: string) {
    exists m | 0 <= m < |ids| :: ids[m] == x && y !in ids[..m + 1]
  }

  /** Every element of `ids` once, in the order of their first occurrences. */
  ghost predicate OnceEach(ids: seq<string>, r: seq<string>) {
    && (forall id :: id in r <==> id in ids)
    && (forall i, j | 0 <= i < j < |r| :: r[i] != r[j])
    && (forall i, j | 0 <= i < j < |r| :: OccursBefore(ids, r[i], r[j]))
  }

  lemma StillBefore(ids: seq<string>, id: string, x: string, y: string)
    requires OccursBefore(ids, x, y)
    ensures OccursBefore(ids + [id], x, y)
  {
    var m :| 0 <= m < |ids| && ids[m] == x && y !in ids[..m + 1];
    assert (ids + [id])[m] == x && (ids + [id])[..m + 1] == ids[..m + 1];
  }

  lemma NewIsLast(ids: seq<string>, id: string, x: string)
    requires x in ids && id !in ids
    ensures OccursBefore(ids + [id], x, id)
  {
    var m :| 0 <= m < |ids| && ids[m] == x;
    assert (ids + [id])[m] == x && (ids + [id])[..m + 1] == ids[..m + 1];
  }

  lemma {:induction false} UniqueIsOnceEach(ids: seq<string>)
    ensures OnceEach(ids, Unique(ids))
  {
    if ids != [] {
      var front, id := ids[..|ids| - 1], ids[|ids| - 1];
      var before := Unique(front);
      UniqueIsOnceEach(front);
      assert ids == front + [id];
      forall i, j | 0 <= i < j < |Unique(ids)| ensures OccursBefore(ids, Unique(ids)[i], Unique(ids)[j]) {
        if j < |before| {
          StillBefore(front, id, before[i], before[j]);
        } else {
          NewIsLast(front, id, before[i]);
        }
      }
    }
  }
}
