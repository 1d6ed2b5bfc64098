/**
 What canonical text decides: equal text exactly for payloads that are equal up to key order
 and `undefined` fields, provided the key comparator separates the keys in use.
 */
module CanonicalText {
  import opened CanonicalJson
  import opened Numerals
  import opened CanonicalPrinting

  // ---------------------------------------------------------------------------------------
  // Sorting
  // ---------------------------------------------------------------------------------------

  ghost predicate Sorted(fs: seq<Field>, cmp: Comparator) {
    forall i, j | 0 <= i < j < |fs| :: cmp(fs[i].key, fs[j].key) <= 0
  }

  lemma {:induction false} InsertSorted(f: Field, fs: seq<Field>, cmp: Comparator)
    requires Consistent(cmp) && Sorted(fs, cmp)
    ensures Sorted(Insert(f, fs, cmp), cmp)
  {
    if fs == [] {
    } else if cmp(f.key, fs[0].key) <= 0 {
      FirstBelowAll(f, fs, cmp);
    } else {
      InsertSorted(f, fs[1..], cmp);
      InsertBehindFirst(f, fs, Insert(f, fs[1..], cmp), cmp);
    }
  }

  lemma FirstBelowAll(f: Field, fs: seq<Field>, cmp: Comparator)
    requires Consistent(cmp) && Sorted(fs, cmp) && fs != [] && cmp(f.key, fs[0].key) <= 0
    ensures Sorted([f] + fs, cmp)
  {
    forall j | 0 <= j < |fs|
      ensures cmp(f.key, fs[j].key) <= 0
    {
      assert j > 0 ==> cmp(fs[0].key, fs[j].key) <= 0;
    }
  }

  lemma InsertBehindFirst(f: Field, fs: seq<Field>, r: seq<Field>, cmp: Comparator)
    requires fs != [] && Sorted(fs, cmp) && Sorted(r, cmp) && multiset(r) == multiset{f} + multiset(fs[1..])
    requires cmp(fs[0].key, f.key) <= 0
    ensures Sorted([fs[0]] + r, cmp)
  {
    forall j | 0 <= j < |r|
      ensures cmp(fs[0].key, r[j].key) <= 0
    {
      assert r[j] in multiset(r);
      assert r[j] == f || r[j] in fs[1..];
    }
  }

  lemma {:induction false} SortSorted(fs: seq<Field>, cmp: Comparator)
    requires Consistent(cmp)
    ensures Sorted(Sort(fs, cmp), cmp)
  {
    if fs != [] {
      SortSorted(fs[1..], cmp);
      InsertSorted(fs[0], Sort(fs[1..], cmp), cmp);
    }
  }

  lemma {:induction false} InsertDistinct(f: Field, fs: seq<Field>, cmp: Comparator)
    requires DistinctKeys(fs) && forall g | g in fs :: g.key != f.key
    ensures DistinctKeys(Insert(f, fs, cmp))
  {
    if fs != [] && cmp(f.key, fs[0].key) > 0 {
      InsertDistinct(f, fs[1..], cmp);
      var r := Insert(f, fs[1..], cmp);
      forall g | g in r
        ensures fs[0].key != g.key
      {
        assert g in multiset(r);
        assert g == f || g in fs[1..];
      }
    }
  }

  lemma {:induction false} SortDistinct(fs: seq<Field>, cmp: Comparator)
    requires DistinctKeys(fs)
    ensures DistinctKeys(Sort(fs, cmp))
  {
    if fs != [] {
      SortDistinct(fs[1..], cmp);
      SortMembers(fs[1..], cmp);
      InsertDistinct(fs[0], Sort(fs[1..], cmp), cmp);
    }
  }

  lemma {:induction false} LiveFieldsDistinct(fs: seq<Field>)
    requires DistinctKeys(fs)
    ensures DistinctKeys(LiveFields(fs))
  {
    if fs != [] {
      LiveFieldsDistinct(fs[1..]);
    }
  }

  lemma {:induction false} PickDistinct(fs: seq<Field>, index: bool)
    requires DistinctKeys(fs)
    ensures DistinctKeys(Pick(fs, index))
  {
    if fs != [] {
      PickDistinct(fs[1..], index);
    }
  }

  lemma {:induction false} PickSorted(fs: seq<Field>, index: bool, cmp: Comparator)
    requires Sorted(fs, cmp)
    ensures Sorted(Pick(fs, index), cmp)
  {
    if fs != [] {
      var rest := Pick(fs[1..], index);
      PickSorted(fs[1..], index, cmp);
      forall j | 0 <= j < |rest|
        ensures cmp(fs[0].key, rest[j].key) <= 0
      {
        assert rest[j] in fs[1..];
        var k :| 0 < k < |fs| && fs[k] == rest[j];
      }
    }
  }

  /** Two canonical decimals of the same value are the same text. */
  lemma {:induction false} DecimalUnique(a: string, b: string)
    requires IsDecimal(a) && IsDecimal(b) && DecimalValue(a) == DecimalValue(b)
    ensures a == b
    decreases |a| + |b|
  {
    DecimalSize(a);
    DecimalSize(b);
    var p, q := a[..|a| - 1], b[..|b| - 1];
    assert a == p + [a[|a| - 1]] && b == q + [b[|b| - 1]];
    var x, y := (a[|a| - 1] - '0') as nat, (b[|b| - 1] - '0') as nat;
    LastDigit(DecimalValue(p), x, DecimalValue(q), y);
    if |a| > 1 && |b| > 1 {
      DecimalUnique(p, q);
    }
  }

  lemma LastDigit(m: nat, x: nat, n: nat, y: nat)
    requires m * 10 + x == n * 10 + y && x < 10 && y < 10
    ensures m == n && x == y
  {
  }

  lemma {:induction false} DecimalSize(a: string)
    requires IsDecimal(a)
    ensures |a| > 1 ==> DecimalValue(a[..|a| - 1]) >= 1
    ensures |a| == 1 ==> DecimalValue(a[..|a| - 1]) == 0
  {
    if |a| > 1 {
      var p := a[..|a| - 1];
      if |p| > 1 {
        DecimalSize(p);
      } else {
        assert p == [a[0]];
        assert DecimalValue(p) == DecimalValue(p[..0]) * 10 + (p[0] - '0') as nat;
      }
    }
  }

  /** No two keys of `fs` compare equal, so a sorted arrangement of `fs` is the only one. */
  ghost predicate Separated(fs: seq<Field>, cmp: Comparator) {
    forall i, j | 0 <= i < j < |fs| :: cmp(fs[i].key, fs[j].key) > 0 || cmp(fs[j].key, fs[i].key) > 0
  }

  ghost predicate SameMembers(a: seq<Field>, b: seq<Field>) {
    forall f :: f in a <==> f in b
  }

  lemma SameHead(a: seq<Field>, b: seq<Field>, cmp: Comparator)
    requires a != [] && b != [] && Sorted(a, cmp) && Sorted(b, cmp) && DistinctKeys(a)
    requires Separated(a, cmp) && SameMembers(a, b)
    ensures a[0] == b[0]
  {
    assert a[0] in a && a[0] in b && b[0] in b && b[0] in a;
    var j :| 0 <= j < |b| && b[j] == a[0];
    var i :| 0 <= i < |a| && a[i] == b[0];
  }

  lemma SameTail(a: seq<Field>, b: seq<Field>)
    requires a != [] && b != [] && a[0] == b[0] && DistinctKeys(a) && DistinctKeys(b) && SameMembers(a, b)
    ensures SameMembers(a[1..], b[1..])
  {
    assert a == [a[0]] + a[1..] && b == [b[0]] + b[1..];
    forall f
      ensures f in a[1..] <==> f in b[1..]
    {
      assert f in a[1..] ==> f in a && f != a[0];
      assert f in b[1..] ==> f in b && f != b[0];
    }
  }

  lemma TailShape(a: seq<Field>, cmp: Comparator)
    requires a != [] && Sorted(a, cmp) && DistinctKeys(a)
    ensures Sorted(a[1..], cmp) && DistinctKeys(a[1..])
    ensures Separated(a, cmp) ==> Separated(a[1..], cmp)
  {
  }

  lemma {:induction false} SortedUnique(a: seq<Field>, b: seq<Field>, cmp: Comparator)
    requires Sorted(a, cmp) && Sorted(b, cmp) && DistinctKeys(a) && DistinctKeys(b)
    requires Separated(a, cmp) && SameMembers(a, b)
    ensures a == b
    decreases |a|
  {
    assert (a == [] || a[0] in a) && (b == [] || b[0] in b);
    if a != [] {
      SameHead(a, b, cmp);
      SameTail(a, b);
      TailShape(a, cmp);
      TailShape(b, cmp);
      SortedUnique(a[1..], b[1..], cmp);
      assert a == [a[0]] + a[1..] && b == [b[0]] + b[1..];
    }
  }

  // ---------------------------------------------------------------------------------------
  // Normal forms
  // ---------------------------------------------------------------------------------------

  /** The entries `Object.fromEntries` receives for `fields`. */
  function Entries(fields: seq<Field>, cmp: Comparator): (r: seq<Field>) {
    var sorted := Sort(LiveFields(fields), cmp);
    seq(|sorted|, i requires 0 <= i < |sorted| => Normal(sorted[i], cmp))
  }

  function Normal(f: Field, cmp: Comparator): Field {
    if f.Live? then Live(f.key, SortJson(f.value, cmp)) else f
  }

  lemma SortJsonObject(fields: seq<Field>, cmp: Comparator)
    ensures SortJson(Obj(fields), cmp) == Obj(FromEntries(Entries(fields, cmp)))
  {
    var sorted := Sort(LiveFields(fields), cmp);
    SortMembers(LiveFields(fields), cmp);
    assert forall i | 0 <= i < |sorted| :: sorted[i] in fields && sorted[i].Live?;
    assert SortJson(Obj(fields), cmp).fields == FromEntries(seq(|sorted|, i requires 0 <= i < |sorted| =>
        Live(sorted[i].key, SortJson(sorted[i].value, cmp))));
    assert Entries(fields, cmp) == seq(|sorted|, i requires 0 <= i < |sorted| =>
        Live(sorted[i].key, SortJson(sorted[i].value, cmp)));
  }

  ghost predicate IsEntry(g: Field, fields: seq<Field>, cmp: Comparator) {
    exists i :: 0 <= i < |fields| && fields[i].Live? && g == Normal(fields[i], cmp)
  }

  /** The entries are the live fields with normalised values. */
  lemma EntriesMembers(fields: seq<Field>, cmp: Comparator)
    ensures forall g :: g in Entries(fields, cmp) <==> IsEntry(g, fields, cmp)
  {
    var sorted := Sort(LiveFields(fields), cmp);
    var es := Entries(fields, cmp);
    SortMembers(LiveFields(fields), cmp);
    forall g
      ensures g in es <==> IsEntry(g, fields, cmp)
    {
      if g in es {
        var k :| 0 <= k < |es| && es[k] == g;
        assert sorted[k] in fields && sorted[k].Live?;
        var i :| 0 <= i < |fields| && fields[i] == sorted[k];
        assert g == Normal(fields[i], cmp);
      }
      if i :| 0 <= i < |fields| && fields[i].Live? && g == Normal(fields[i], cmp) {
        assert fields[i] in sorted;
        var k :| 0 <= k < |sorted| && sorted[k] == fields[i];
        assert es[k] == g;
      }
    }
  }

  lemma EntriesShape(fields: seq<Field>, cmp: Comparator)
    requires DistinctKeys(fields) && Consistent(cmp)
    ensures DistinctKeys(Entries(fields, cmp)) && Sorted(Entries(fields, cmp), cmp)
  {
    LiveFieldsDistinct(fields);
    SortDistinct(LiveFields(fields), cmp);
    SortSorted(LiveFields(fields), cmp);
  }

  lemma NamedKeysUnique(a: seq<Field>, b: seq<Field>, cmp: Comparator, keys: iset<string>)
    requires Sorted(a, cmp) && Sorted(b, cmp) && DistinctKeys(a) && DistinctKeys(b) && SameMembers(a, b)
    requires NoTies(cmp, keys) && forall i | 0 <= i < |a| :: a[i].key in keys
    ensures Pick(a, false) == Pick(b, false)
  {
    var p := Pick(a, false);
    PickDistinct(a, false);
    PickDistinct(b, false);
    PickSorted(a, false, cmp);
    PickSorted(b, false, cmp);
    forall i, j | 0 <= i < j < |p|
      ensures cmp(p[i].key, p[j].key) > 0 || cmp(p[j].key, p[i].key) > 0
    {
      assert p[i] in p && p[j] in p;
      assert !Tie(cmp, p[i].key, p[j].key);
    }
    SortedUnique(p, Pick(b, false), cmp);
  }

  lemma IndexKeysUnique(a: seq<Field>, b: seq<Field>)
    requires DistinctKeys(a) && DistinctKeys(b) && SameMembers(a, b)
    ensures Sort(Pick(a, true), CompareIndex) == Sort(Pick(b, true), CompareIndex)
  {
    var x, y := Sort(Pick(a, true), CompareIndex), Sort(Pick(b, true), CompareIndex);
    IndexKeysSorted(a);
    IndexKeysSorted(b);
    assert SameMembers(x, y);
    SortedUnique(x, y, CompareIndex);
  }

  lemma IndexKeysSorted(a: seq<Field>)
    requires DistinctKeys(a)
    ensures var x := Sort(Pick(a, true), CompareIndex);
            && Sorted(x, CompareIndex) && DistinctKeys(x) && Separated(x, CompareIndex)
            && forall f :: f in x <==> f in a && IsIndex(f.key)
  {
    var x := Sort(Pick(a, true), CompareIndex);
    PickDistinct(a, true);
    SortMembers(Pick(a, true), CompareIndex);
    SortSorted(Pick(a, true), CompareIndex);
    SortDistinct(Pick(a, true), CompareIndex);
    forall i, j | 0 <= i < j < |x|
      ensures CompareIndex(x[i].key, x[j].key) > 0 || CompareIndex(x[j].key, x[i].key) > 0
    {
      assert x[i] in x && x[j] in x;
      if DecimalValue(x[i].key) == DecimalValue(x[j].key) {
        DecimalUnique(x[i].key, x[j].key);
      }
    }
  }

  /** With no ties, the object built from sorted entries depends only on which entries there are. */
  lemma FromEntriesUnique(a: seq<Field>, b: seq<Field>, cmp: Comparator, keys: iset<string>)
    requires Sorted(a, cmp) && Sorted(b, cmp) && DistinctKeys(a) && DistinctKeys(b) && SameMembers(a, b)
    requires NoTies(cmp, keys) && forall i | 0 <= i < |a| :: a[i].key in keys
    ensures FromEntries(a) == FromEntries(b)
  {
    NamedKeysUnique(a, b, cmp, keys);
    IndexKeysUnique(a, b);
  }

  /** Equal normal forms are exactly equivalent payloads. */
  lemma {:induction false} NormalFormsDecideEquivalence(x: Json, y: Json, cmp: Comparator, keys: iset<string>)
    requires Consistent(cmp) && NoTies(cmp, keys) && WellFormed(x, keys) && WellFormed(y, keys)
    ensures SortJson(x, cmp) == SortJson(y, cmp) <==> Equivalent(x, y)
    decreases x
  {
    match x
    case Arr(xs) =>
      if y.Arr? && |xs| == |y.items| {
        forall i | 0 <= i < |xs|
          ensures SortJson(xs[i], cmp) == SortJson(y.items[i], cmp) <==> Equivalent(xs[i], y.items[i])
        {
          NormalFormsDecideEquivalence(xs[i], y.items[i], cmp, keys);
        }
      }
      if y.Arr? {
        ArraysDecideEquivalence(xs, y.items, cmp);
      }
    case Obj(xs) =>
      if y.Obj? {
        forall i, j | 0 <= i < |xs| && 0 <= j < |y.fields| && Matches(xs[i], y.fields[j])
          ensures Normal(xs[i], cmp) == Normal(y.fields[j], cmp) <==> Equivalent(xs[i].value, y.fields[j].value)
        {
          NormalFormsDecideEquivalence(xs[i].value, y.fields[j].value, cmp, keys);
        }
        ObjectsDecideEquivalence(xs, y.fields, cmp, keys);
      }
    case _ =>
  }

  lemma ObjectsDecideEquivalence(xs: seq<Field>, ys: seq<Field>, cmp: Comparator, keys: iset<string>)
    requires Consistent(cmp) && NoTies(cmp, keys) && WellFormed(Obj(xs), keys) && WellFormed(Obj(ys), keys)
    requires AgreeOnMatches(xs, ys, cmp)
    ensures SortJson(Obj(xs), cmp) == SortJson(Obj(ys), cmp) <==> Equivalent(Obj(xs), Obj(ys))
  {
    var a, b := Entries(xs, cmp), Entries(ys, cmp);
    SortJsonObject(xs, cmp);
    SortJsonObject(ys, cmp);
    EntriesShape(xs, cmp);
    EntriesShape(ys, cmp);
    SameEntries(xs, ys, cmp);
    if SameMembers(a, b) {
      EntriesMembers(xs, cmp);
      forall i | 0 <= i < |a|
        ensures a[i].key in keys
      {
        assert a[i] in a && IsEntry(a[i], xs, cmp);
      }
      FromEntriesUnique(a, b, cmp, keys);
    } else {
      FromEntriesMembers(a);
      FromEntriesMembers(b);
    }
  }

  ghost predicate AgreeOnMatches(xs: seq<Field>, ys: seq<Field>, cmp: Comparator) {
    forall i, j | 0 <= i < |xs| && 0 <= j < |ys| && Matches(xs[i], ys[j]) ::
      Normal(xs[i], cmp) == Normal(ys[j], cmp) <==> Equivalent(xs[i].value, ys[j].value)
  }

  lemma SameEntries(xs: seq<Field>, ys: seq<Field>, cmp: Comparator)
    requires AgreeOnMatches(xs, ys, cmp)
    ensures SameMembers(Entries(xs, cmp), Entries(ys, cmp)) <==> Equivalent(Obj(xs), Obj(ys))
  {
    if SameMembers(Entries(xs, cmp), Entries(ys, cmp)) {
      SameEntriesEquivalent(xs, ys, cmp);
    }
    if Equivalent(Obj(xs), Obj(ys)) {
      EquivalentSameEntries(xs, ys, cmp);
    }
  }

  lemma SameEntriesEquivalent(xs: seq<Field>, ys: seq<Field>, cmp: Comparator)
    requires AgreeOnMatches(xs, ys, cmp) && SameMembers(Entries(xs, cmp), Entries(ys, cmp))
    ensures Equivalent(Obj(xs), Obj(ys))
  {
    EntriesMembers(xs, cmp);
    EntriesMembers(ys, cmp);
    forall i | 0 <= i < |xs| && xs[i].Live?
      ensures exists j :: 0 <= j < |ys| && Matches(xs[i], ys[j]) && Equivalent(xs[i].value, ys[j].value)
    {
      assert IsEntry(Normal(xs[i], cmp), xs, cmp);
      assert IsEntry(Normal(xs[i], cmp), ys, cmp);
      var j :| 0 <= j < |ys| && ys[j].Live? && Normal(xs[i], cmp) == Normal(ys[j], cmp);
      assert Matches(xs[i], ys[j]);
    }
    forall j | 0 <= j < |ys| && ys[j].Live?
      ensures exists i :: 0 <= i < |xs| && Matches(xs[i], ys[j]) && Equivalent(xs[i].value, ys[j].value)
    {
      assert IsEntry(Normal(ys[j], cmp), ys, cmp);
      assert IsEntry(Normal(ys[j], cmp), xs, cmp);
      var i :| 0 <= i < |xs| && xs[i].Live? && Normal(ys[j], cmp) == Normal(xs[i], cmp);
      assert Matches(xs[i], ys[j]);
    }
  }

  lemma EquivalentSameEntries(xs: seq<Field>, ys: seq<Field>, cmp: Comparator)
    requires AgreeOnMatches(xs, ys, cmp) && Equivalent(Obj(xs), Obj(ys))
    ensures SameMembers(Entries(xs, cmp), Entries(ys, cmp))
  {
    EntriesMembers(xs, cmp);
    EntriesMembers(ys, cmp);
    forall g
      ensures IsEntry(g, xs, cmp) <==> IsEntry(g, ys, cmp)
    {
      if IsEntry(g, xs, cmp) {
        var i :| 0 <= i < |xs| && xs[i].Live? && g == Normal(xs[i], cmp);
        var j := PartnerRight(xs, ys, i);
        assert g == Normal(ys[j], cmp);
      }
      if IsEntry(g, ys, cmp) {
        var j :| 0 <= j < |ys| && ys[j].Live? && g == Normal(ys[j], cmp);
        var i := PartnerLeft(xs, ys, j);
        assert g == Normal(xs[i], cmp);
      }
    }
  }

  lemma PartnerRight(xs: seq<Field>, ys: seq<Field>, i: nat) returns (j: nat)
    requires Equivalent(Obj(xs), Obj(ys)) && i < |xs| && xs[i].Live?
    ensures j < |ys| && Matches(xs[i], ys[j]) && Equivalent(xs[i].value, ys[j].value)
  {
    j :| 0 <= j < |ys| && Matches(xs[i], ys[j]) && Equivalent(xs[i].value, ys[j].value);
  }

  lemma PartnerLeft(xs: seq<Field>, ys: seq<Field>, j: nat) returns (i: nat)
    requires Equivalent(Obj(xs), Obj(ys)) && j < |ys| && ys[j].Live?
    ensures i < |xs| && Matches(xs[i], ys[j]) && Equivalent(xs[i].value, ys[j].value)
  {
    i :| 0 <= i < |xs| && Matches(xs[i], ys[j]) && Equivalent(xs[i].value, ys[j].value);
  }

  lemma ArraysDecideEquivalence(xs: seq<Json>, ys: seq<Json>, cmp: Comparator)
    requires |xs| == |ys| ==> forall i | 0 <= i < |xs| ::
               SortJson(xs[i], cmp) == SortJson(ys[i], cmp) <==> Equivalent(xs[i], ys[i])
    ensures SortJson(Arr(xs), cmp) == SortJson(Arr(ys), cmp) <==> Equivalent(Arr(xs), Arr(ys))
  {
    var a, b := SortJson(Arr(xs), cmp).items, SortJson(Arr(ys), cmp).items;
    assert |a| == |xs| && |b| == |ys|;
    assert forall i | 0 <= i < |xs| :: a[i] == SortJson(xs[i], cmp);
    assert forall i | 0 <= i < |ys| :: b[i] == SortJson(ys[i], cmp);
    if |xs| == |ys| && Equivalent(Arr(xs), Arr(ys)) {
      assert forall i | 0 <= i < |xs| :: a[i] == b[i];
      assert a == b;
    }
  }

  // ---------------------------------------------------------------------------------------
  // Canonical text
  // ---------------------------------------------------------------------------------------

  lemma NormalFields(fields: seq<Field>, cmp: Comparator)
    ensures forall g :: g in SortJson(Obj(fields), cmp).fields <==> IsEntry(g, fields, cmp)
  {
    SortJsonObject(fields, cmp);
    FromEntriesMembers(Entries(fields, cmp));
    EntriesMembers(fields, cmp);
  }

  lemma {:induction false} NormalFormDefined(v: Json, cmp: Comparator)
    ensures Defined(SortJson(v, cmp))
    decreases v
  {
    match v
    case Arr(items) =>
      forall i | 0 <= i < |items|
        ensures Defined(SortJson(items[i], cmp))
      {
        NormalFormDefined(items[i], cmp);
      }
    case Obj(fields) =>
      var ns := SortJson(v, cmp).fields;
      forall k | 0 <= k < |ns|
        ensures ns[k].Live? && Defined(ns[k].value)
      {
        var i := NormalOf(fields, k, cmp);
        NormalFormDefined(fields[i].value, cmp);
      }
    case _ =>
  }

  lemma NormalKeysDistinct(fields: seq<Field>, cmp: Comparator)
    requires DistinctKeys(fields) && Consistent(cmp)
    ensures DistinctKeys(SortJson(Obj(fields), cmp).fields)
  {
    var es := Entries(fields, cmp);
    SortJsonObject(fields, cmp);
    EntriesShape(fields, cmp);
    IndexKeysSorted(es);
    PickDistinct(es, false);
    var x, y := Sort(Pick(es, true), CompareIndex), Pick(es, false);
    var xy: seq<Field> := x + y;
    forall i, j | 0 <= i < j < |xy|
      ensures xy[i].key != xy[j].key
    {
      if i < |x| <= j {
        assert x[i] in x && y[j - |x|] in y;
      }
    }
  }

  /** `sortJson` changes nothing but key order and `undefined` fields. */
  lemma {:induction false} NormalFormEquivalent(v: Json, cmp: Comparator, keys: iset<string>)
    requires Consistent(cmp) && WellFormed(v, keys)
    ensures Equivalent(SortJson(v, cmp), v) && WellFormed(SortJson(v, cmp), keys)
    decreases v
  {
    match v
    case Arr(items) =>
      forall i | 0 <= i < |items|
        ensures Equivalent(SortJson(items[i], cmp), items[i]) && WellFormed(SortJson(items[i], cmp), keys)
      {
        NormalFormEquivalent(items[i], cmp, keys);
      }
    case Obj(fields) =>
      forall i | 0 <= i < |fields| && fields[i].Live?
        ensures var n := Normal(fields[i], cmp).value; Equivalent(n, fields[i].value) && WellFormed(n, keys)
      {
        NormalFormEquivalent(fields[i].value, cmp, keys);
      }
      NormalObjectEquivalent(fields, cmp, keys);
    case _ =>
  }

  lemma NormalObjectEquivalent(fields: seq<Field>, cmp: Comparator, keys: iset<string>)
    requires Consistent(cmp) && WellFormed(Obj(fields), keys)
    requires forall i | 0 <= i < |fields| && fields[i].Live? ::
               var n := Normal(fields[i], cmp).value; Equivalent(n, fields[i].value) && WellFormed(n, keys)
    ensures var n := SortJson(Obj(fields), cmp); Equivalent(n, Obj(fields)) && WellFormed(n, keys)
  {
    NormalKeysDistinct(fields, cmp);
    var ns := SortJson(Obj(fields), cmp).fields;
    forall k | 0 <= k < |ns|
      ensures ns[k].Live? && ns[k].key in keys && WellFormed(ns[k].value, keys)
      ensures exists i :: 0 <= i < |fields| && Matches(ns[k], fields[i]) && Equivalent(ns[k].value, fields[i].value)
    {
      var i := NormalOf(fields, k, cmp);
      assert Matches(ns[k], fields[i]);
    }
    forall i | 0 <= i < |fields| && fields[i].Live?
      ensures exists k :: 0 <= k < |ns| && Matches(ns[k], fields[i]) && Equivalent(ns[k].value, fields[i].value)
    {
      NormalFields(fields, cmp);
      assert IsEntry(Normal(fields[i], cmp), fields, cmp);
      var k :| 0 <= k < |ns| && ns[k] == Normal(fields[i], cmp);
      assert Matches(ns[k], fields[i]);
    }
  }

  lemma NormalOf(fields: seq<Field>, k: nat, cmp: Comparator) returns (i: nat)
    requires k < |SortJson(Obj(fields), cmp).fields|
    ensures i < |fields| && fields[i].Live? && SortJson(Obj(fields), cmp).fields[k] == Normal(fields[i], cmp)
  {
    NormalFields(fields, cmp);
    var n := SortJson(Obj(fields), cmp).fields[k];
    assert IsEntry(n, fields, cmp);
    i :| 0 <= i < |fields| && fields[i].Live? && n == Normal(fields[i], cmp);
  }

  /** Canonicalising a canonical form changes nothing. */
  lemma SortJsonIdempotent(v: Json, cmp: Comparator, keys: iset<string>)
    requires Consistent(cmp) && NoTies(cmp, keys) && WellFormed(v, keys)
    ensures SortJson(SortJson(v, cmp), cmp) == SortJson(v, cmp)
    ensures Canonical(SortJson(v, cmp), cmp) == Canonical(v, cmp) == Print(SortJson(v, cmp))
  {
    NormalFormEquivalent(v, cmp, keys);
    NormalFormsDecideEquivalence(SortJson(v, cmp), v, cmp, keys);
  }

  /** Two payloads have the same canonical text exactly when they are equal up to key order and `undefined`. */
  lemma CanonicalTextDecidesEquivalence(x: Json, y: Json, cmp: Comparator, keys: iset<string>)
    requires Consistent(cmp) && NoTies(cmp, keys) && WellFormed(x, keys) && WellFormed(y, keys)
    ensures Canonical(x, cmp) == Canonical(y, cmp) <==> Equivalent(x, y)
  {
    NormalFormDefined(x, cmp);
    NormalFormDefined(y, cmp);
    PrintInjective(SortJson(x, cmp), SortJson(y, cmp));
    NormalFormsDecideEquivalence(x, y, cmp, keys);
  }

  // ---------------------------------------------------------------------------------------
  // When the comparator ties two keys
  // ---------------------------------------------------------------------------------------

  function Pair(a: string, b: string): Json {
    Obj([Live(a, Null), Live(b, Null)])
  }

  lemma TwoFields(f: Field, g: Field, cmp: Comparator)
    requires f.Live? && g.Live? && cmp(f.key, g.key) <= 0
    ensures Sort(LiveFields([f, g]), cmp) == [f, g]
  {
    var fs, gs := [f, g], [g];
    assert fs[1..] == gs && gs[1..] == [];
    assert LiveFields(gs) == gs;
    assert LiveFields(fs) == [fs[0]] + LiveFields(fs[1..]) == fs;
    assert Sort(gs, cmp) == Insert(g, Sort(gs[1..], cmp), cmp) == gs;
    assert Sort(fs, cmp) == Insert(f, Sort(fs[1..], cmp), cmp);
  }

  lemma TwoNamedKeys(f: Field, g: Field)
    requires !IsIndex(f.key) && !IsIndex(g.key)
    ensures FromEntries([f, g]) == [f, g]
  {
    var fs, gs := [f, g], [g];
    assert fs[1..] == gs && gs[1..] == [];
    assert Pick(gs, false) == gs && Pick(gs, true) == [];
    assert Pick(fs, false) == [fs[0]] + Pick(fs[1..], false) == fs;
    assert Pick(fs, true) == Pick(fs[1..], true) == [];
  }

  lemma TiedPair(a: string, b: string, cmp: Comparator)
    requires Tie(cmp, a, b)
    ensures SortJson(Pair(a, b), cmp) == Pair(a, b)
  {
    var f, g := Live(a, Null), Live(b, Null);
    SortJsonObject([f, g], cmp);
    TwoFields(f, g, cmp);
    assert Normal(f, cmp) == f && Normal(g, cmp) == g;
    assert Entries([f, g], cmp) == [f, g];
    TwoNamedKeys(f, g);
  }

  lemma PairsEquivalent(a: string, b: string)
    requires a != b
    ensures Equivalent(Pair(a, b), Pair(b, a)) && Pair(a, b) != Pair(b, a)
  {
    var xs, ys := Pair(a, b).fields, Pair(b, a).fields;
    assert Pair(a, b) == Obj(xs) && Pair(b, a) == Obj(ys) && xs[0].key != ys[0].key;
    assert Matches(xs[0], ys[1]) && Matches(xs[1], ys[0]);
    assert Equivalent(xs[0].value, ys[1].value) && Equivalent(xs[1].value, ys[0].value);
  }

  lemma PairDefined(a: string, b: string)
    ensures Defined(Pair(a, b))
  {
    assert Defined(Null);
  }

  /** The stable sort leaves two tied keys in the order they arrived in, so the text keeps that order. */
  lemma TieKeepsArrivalOrder(a: string, b: string, cmp: Comparator)
    requires Tie(cmp, a, b)
    ensures Equivalent(Pair(a, b), Pair(b, a)) && Canonical(Pair(a, b), cmp) != Canonical(Pair(b, a), cmp)
  {
    TiedPair(a, b, cmp);
    TiedPair(b, a, cmp);
    PairsEquivalent(a, b);
    PairDefined(a, b);
    PairDefined(b, a);
    PrintInjective(Pair(a, b), Pair(b, a));
  }

  lemma PairWellFormed(a: string, b: string, keys: iset<string>)
    requires a != b && a in keys && b in keys
    ensures WellFormed(Pair(a, b), keys)
  {
    assert WellFormed(Null, keys);
  }

  ghost predicate OrderInsensitive(cmp: Comparator, keys: iset<string>) {
    forall x, y | WellFormed(x, keys) && WellFormed(y, keys) && Equivalent(x, y) ::
      Canonical(x, cmp) == Canonical(y, cmp)
  }

  /** Key order never shows in the text exactly when the comparator ties no two of the (non-index) keys in use. */
  lemma OrderInsensitiveExactlyWithoutTies(cmp: Comparator, keys: iset<string>)
    requires Consistent(cmp)
    ensures OrderInsensitive(cmp, keys) <==> NoTies(cmp, keys)
  {
    if NoTies(cmp, keys) {
      forall x, y | WellFormed(x, keys) && WellFormed(y, keys) && Equivalent(x, y)
        ensures Canonical(x, cmp) == Canonical(y, cmp)
      {
        CanonicalTextDecidesEquivalence(x, y, cmp, keys);
      }
    } else {
      var a, b :| a in keys && b in keys && Tie(cmp, a, b);
      TieKeepsArrivalOrder(a, b, cmp);
      PairWellFormed(a, b, keys);
      PairWellFormed(b, a, keys);
    }
  }
}
