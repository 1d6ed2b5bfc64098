/**
 Tables of reference rows: a primary key, and a code that is unique within its release. Rows are
 only ever added, by `createMany` with `skipDuplicates`.
 */
module ReferenceTables {

  datatype Row<C> = Row(id: string, releaseId: string, code: string, content: C)
  type Table<C> = map<string, Row<C>>

  /** The constraints of the table. */
  ghost predicate Keyed<C>(t: Table<C>) {
    && (forall id | id in t :: t[id].id == id)
    && (forall a, b | a in t && b in t && SameCode(t[a], t[b]) :: a == b)
  }

  predicate SameCode<C>(q: Row<C>, r: Row<C>) {
    q.releaseId == r.releaseId && q.code == r.code
  }

  predicate Taken<C>(t: Table<C>, r: Row<C>) {
    r.id in t || exists id | id in t :: SameCode(t[id], r)
  }

  function Insert<C>(t: Table<C>, r: Row<C>): Table<C> {
    if Taken(t, r) then t else t[r.id := r]
  }

  /** `createMany({ data, skipDuplicates: true })` */
  function InsertAll<C>(t: Table<C>, rows: seq<Row<C>>): Table<C> {
    if rows == [] then t else Insert(InsertAll(t, rows[..|rows| - 1]), rows[|rows| - 1])
  }

  function OfRelease<C>(t: Table<C>, releaseId: string): set<string> {
    set id | id in t && t[id].releaseId == releaseId
  }

  // ---------------------------------------------------------------------------------------
  // Chunks
  // ---------------------------------------------------------------------------------------

  const CHUNK_SIZE := 400

  lemma {:induction false} InsertAllSplit<C>(t: Table<C>, a: seq<Row<C>>, b: seq<Row<C>>)
    ensures InsertAll(t, a + b) == InsertAll(InsertAll(t, a), b)
  {
    if b == [] {
      assert a + b == a;
    } else {
      assert (a + b)[..|a + b| - 1] == a + b[..|b| - 1];
      InsertAllSplit(t, a, b[..|b| - 1]);
    }
  }

  /** `createManyInChunks`: in chunks of any size, the rows are inserted as they would be in one statement. */
  method CreateManyInChunks<C>(t: Table<C>, records: seq<Row<C>>, size: nat) returns (u: Table<C>)
    requires size > 0
    ensures u == InsertAll(t, records)
  {
    u := t;
    var index := 0;
    while index < |records|
      invariant u == InsertAll(t, records[..if index < |records| then index else |records|])
      decreases |records| - index
    {
      var end := if index + size < |records| then index + size else |records|;
      InsertAllSplit(t, records[..index], records[index..end]);
      assert records[..end] == records[..index] + records[index..end];
      u := InsertAll(u, records[index..end]);
      index := index + size;
    }
    assert records[..|records|] == records;
  }

  // ---------------------------------------------------------------------------------------
  // Expected rows
  // ---------------------------------------------------------------------------------------

  /** The rows a fixture gives for its release: ids and codes are distinct. */
  ghost predicate Fixture<C>(rows: seq<Row<C>>, releaseId: string) {
    && (forall i | 0 <= i < |rows| :: rows[i].releaseId == releaseId)
    && (forall i, j | 0 <= i < j < |rows| :: rows[i].id != rows[j].id && rows[i].code != rows[j].code)
  }

  function Ids<C>(rows: seq<Row<C>>): set<string> {
    set i | 0 <= i < |rows| :: rows[i].id
  }

  predicate SameRow<C>(same: (C, C) -> bool, actual: Row<C>, expected: Row<C>) {
    actual.id == expected.id && actual.releaseId == expected.releaseId && actual.code == expected.code
    && same(actual.content, expected.content)
  }

  /** The row found among those of the release has the expected content. */
  predicate Holds<C>(same: (C, C) -> bool, t: Table<C>, releaseId: string, expected: Row<C>) {
    expected.id in OfRelease(t, releaseId) && SameRow(same, t[expected.id], expected)
  }

  predicate HoldsAll<C>(same: (C, C) -> bool, t: Table<C>, releaseId: string, rows: seq<Row<C>>) {
    forall i | 0 <= i < |rows| :: Holds(same, t, releaseId, rows[i])
  }

  predicate CountMatches<C>(t: Table<C>, releaseId: string, rows: seq<Row<C>>) {
    |OfRelease(t, releaseId)| == |rows|
  }

  lemma {:induction false} DistinctCount<C>(rows: seq<Row<C>>, releaseId: string)
    requires Fixture(rows, releaseId)
    ensures |Ids(rows)| == |rows|
  {
    if rows != [] {
      var last := |rows| - 1;
      DistinctCount(rows[..last], releaseId);
      forall i | 0 <= i < last ensures rows[..last][i].id == rows[i].id && rows[i].id != rows[last].id {
      }
      assert Ids(rows) == Ids(rows[..last]) + {rows[last].id};
    }
  }

  lemma SameSize(a: set<string>, b: set<string>)
    requires a <= b && |a| == |b|
    ensures a == b
  {
    assert |b - a| == |b| - |a|;
    assert b - a == {};
  }

  /** As many rows as expected, and each expected one found: then these are exactly the rows. */
  lemma CountedAndFound<C>(same: (C, C) -> bool, t: Table<C>, releaseId: string, rows: seq<Row<C>>)
    requires Fixture(rows, releaseId) && CountMatches(t, releaseId, rows) && HoldsAll(same, t, releaseId, rows)
    ensures OfRelease(t, releaseId) == Ids(rows)
  {
    DistinctCount(rows, releaseId);
    forall id | id in Ids(rows) ensures id in OfRelease(t, releaseId) {
      var i :| 0 <= i < |rows| && rows[i].id == id;
      assert Holds(same, t, releaseId, rows[i]);
    }
    SameSize(Ids(rows), OfRelease(t, releaseId));
  }

  // ---------------------------------------------------------------------------------------
  // What inserting a fixture gives
  // ---------------------------------------------------------------------------------------

  /** Nothing is overwritten or lost, and only rows of the fixture are added. */
  lemma {:induction false} InsertAllGrows<C>(t: Table<C>, rows: seq<Row<C>>)
    ensures forall id | id in t :: id in InsertAll(t, rows) && InsertAll(t, rows)[id] == t[id]
    ensures forall id | id in InsertAll(t, rows) && id !in t ::
      exists i | 0 <= i < |rows| :: rows[i].id == id && InsertAll(t, rows)[id] == rows[i]
  {
    if rows != [] {
      var last := |rows| - 1;
      var before, after := InsertAll(t, rows[..last]), InsertAll(t, rows);
      InsertAllGrows(t, rows[..last]);
      forall id | id in after && id !in t
        ensures exists i | 0 <= i < |rows| :: rows[i].id == id && after[id] == rows[i]
      {
        if id in before {
          var i :| 0 <= i < last && rows[..last][i].id == id && before[id] == rows[..last][i];
          assert rows[i].id == id && after[id] == rows[i];
        } else {
          assert rows[last].id == id;
        }
      }
    }
  }

  lemma {:induction false} InsertAllKeyed<C>(t: Table<C>, rows: seq<Row<C>>)
    requires Keyed(t)
    ensures Keyed(InsertAll(t, rows))
  {
    if rows != [] {
      InsertAllKeyed(t, rows[..|rows| - 1]);
    }
  }

  /** A row of the fixture whose id and code were free is there afterwards. */
  lemma {:induction false} FreeRowInserted<C>(t: Table<C>, rows: seq<Row<C>>, releaseId: string, k: nat)
    requires Fixture(rows, releaseId) && k < |rows| && !Taken(t, rows[k])
    ensures rows[k].id in InsertAll(t, rows) && InsertAll(t, rows)[rows[k].id] == rows[k]
  {
    var last := |rows| - 1;
    var before := InsertAll(t, rows[..last]);
    if k < last {
      FreeRowInserted(t, rows[..last], releaseId, k);
    } else {
      InsertAllGrows(t, rows[..last]);
      forall id | id in before ensures id != rows[k].id && !SameCode(before[id], rows[k]) {
        if id !in t {
          var i :| 0 <= i < last && rows[..last][i].id == id && before[id] == rows[..last][i];
          assert rows[i].id != rows[k].id && rows[i].code != rows[k].code;
        }
      }
    }
  }

  /** Every row the release already has is an expected one. */
  ghost predicate NothingForeign<C>(same: (C, C) -> bool, t: Table<C>, releaseId: string, rows: seq<Row<C>>) {
    forall id | id in OfRelease(t, releaseId) :: exists i | 0 <= i < |rows| ::
      rows[i].id == id && SameRow(same, t[id], rows[i])
  }

  /** No other release uses an id of the fixture. */
  ghost predicate IdsAreOurs<C>(t: Table<C>, releaseId: string, rows: seq<Row<C>>) {
    forall i | 0 <= i < |rows| && rows[i].id in t :: t[rows[i].id].releaseId == releaseId
  }

  ghost predicate Reflexive<C(!new)>(same: (C, C) -> bool) {
    forall c: C :: same(c, c)
  }

  lemma OnlyExpectedBefore<C>(same: (C, C) -> bool, t: Table<C>, releaseId: string, rows: seq<Row<C>>)
    requires Keyed(t) && Fixture(rows, releaseId)
    requires CountMatches(InsertAll(t, rows), releaseId, rows) && HoldsAll(same, InsertAll(t, rows), releaseId, rows)
    ensures NothingForeign(same, t, releaseId, rows) && IdsAreOurs(t, releaseId, rows)
  {
    var after := InsertAll(t, rows);
    CountedAndFound(same, after, releaseId, rows);
    InsertAllGrows(t, rows);
    forall id | id in OfRelease(t, releaseId)
      ensures exists i | 0 <= i < |rows| :: rows[i].id == id && SameRow(same, t[id], rows[i])
    {
      assert id in OfRelease(after, releaseId);
      var i :| 0 <= i < |rows| && rows[i].id == id;
      assert Holds(same, after, releaseId, rows[i]);
    }
    forall i | 0 <= i < |rows| && rows[i].id in t ensures t[rows[i].id].releaseId == releaseId {
      assert Holds(same, after, releaseId, rows[i]);
    }
  }

  lemma ExpectedRowHeld<C(!new)>(same: (C, C) -> bool, t: Table<C>, releaseId: string, rows: seq<Row<C>>, k: nat)
    requires Keyed(t) && Fixture(rows, releaseId) && Reflexive(same) && k < |rows|
    requires NothingForeign(same, t, releaseId, rows) && IdsAreOurs(t, releaseId, rows)
    ensures Holds(same, InsertAll(t, rows), releaseId, rows[k])
  {
    InsertAllGrows(t, rows);
    if rows[k].id in t {
      assert rows[k].id in OfRelease(t, releaseId);
      var i :| 0 <= i < |rows| && rows[i].id == rows[k].id && SameRow(same, t[rows[k].id], rows[i]);
      assert i == k;
    } else {
      forall id | id in t ensures !SameCode(t[id], rows[k]) {
        if t[id].releaseId == releaseId {
          assert id in OfRelease(t, releaseId);
          var i :| 0 <= i < |rows| && rows[i].id == id && SameRow(same, t[id], rows[i]);
          assert i != k;
        }
      }
      FreeRowInserted(t, rows, releaseId, k);
    }
  }

  lemma OnlyExpectedAfter<C(!new)>(same: (C, C) -> bool, t: Table<C>, releaseId: string, rows: seq<Row<C>>)
    requires Keyed(t) && Fixture(rows, releaseId) && Reflexive(same)
    requires NothingForeign(same, t, releaseId, rows) && IdsAreOurs(t, releaseId, rows)
    ensures CountMatches(InsertAll(t, rows), releaseId, rows) && HoldsAll(same, InsertAll(t, rows), releaseId, rows)
  {
    var after := InsertAll(t, rows);
    forall k | 0 <= k < |rows| ensures Holds(same, after, releaseId, rows[k]) {
      ExpectedRowHeld(same, t, releaseId, rows, k);
    }
    InsertAllGrows(t, rows);
    forall id | id in OfRelease(after, releaseId) ensures id in Ids(rows) {
      if id in t {
        assert id in OfRelease(t, releaseId);
        var i :| 0 <= i < |rows| && rows[i].id == id && SameRow(same, t[id], rows[i]);
      } else {
        var i :| 0 <= i < |rows| && rows[i].id == id && after[id] == rows[i];
      }
    }
    forall id | id in Ids(rows) ensures id in OfRelease(after, releaseId) {
      var i :| 0 <= i < |rows| && rows[i].id == id;
      assert Holds(same, after, releaseId, rows[i]);
    }
    assert OfRelease(after, releaseId) == Ids(rows);
    DistinctCount(rows, releaseId);
  }

  /**
   The checks after the insert pass exactly if the release held nothing but expected rows before,
   and no other release uses their ids.
   */
  lemma ChecksPassExactly<C(!new)>(same: (C, C) -> bool, t: Table<C>, releaseId: string, rows: seq<Row<C>>)
    requires Keyed(t) && Fixture(rows, releaseId) && Reflexive(same)
    ensures CountMatches(InsertAll(t, rows), releaseId, rows) && HoldsAll(same, InsertAll(t, rows), releaseId, rows)
       <==> NothingForeign(same, t, releaseId, rows) && IdsAreOurs(t, releaseId, rows)
  {
    var after := InsertAll(t, rows);
    if CountMatches(after, releaseId, rows) && HoldsAll(same, after, releaseId, rows) {
      OnlyExpectedBefore(same, t, releaseId, rows);
    }
    if NothingForeign(same, t, releaseId, rows) && IdsAreOurs(t, releaseId, rows) {
      OnlyExpectedAfter(same, t, releaseId, rows);
    }
  }
}
