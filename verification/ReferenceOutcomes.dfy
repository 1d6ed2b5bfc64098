/**
 How each ocean seed ends, for every database: when it commits, what it then leaves, and which of its
 errors it throws otherwise.
 */
module ReferenceOutcomes {
  import opened Wrappers
  import opened CanonicalJson
  import opened CanonicalText
  import opened ReferenceTables
  import opened ReferenceReleases
  import opened ReferenceSeed

  // ---------------------------------------------------------------------------------------
  // The rows once they were inserted
  // ---------------------------------------------------------------------------------------

  function CarriersAfter(db: Database, p: Publication): Table<Carrier> {
    InsertAll(db.carriers, p.carriers)
  }

  function TypesAfter(db: Database, p: Publication): Table<ContainerType> {
    InsertAll(db.types, p.types)
  }

  /** The release has as many carriers and container types as it should. */
  ghost predicate CountsFit(db: Database, p: Publication) {
    var carriers, types := CarriersAfter(db, p), TypesAfter(db, p);
    && |set id | id in carriers && carriers[id].releaseId == p.release.id| == |p.carriers|
    && |set id | id in types && types[id].releaseId == p.release.id| == |p.types|
  }

  ghost predicate CarriersStand(db: Database, p: Publication) {
    forall i | 0 <= i < |p.carriers| :: p.carriers[i] in CarriersAfter(db, p).Values
  }

  /** Each expected container type is there, its standard basis up to the order of keys. */
  ghost predicate TypesStand(db: Database, p: Publication) {
    forall i | 0 <= i < |p.types| :: TypeStands(TypesAfter(db, p), p.types[i])
  }

  ghost predicate TypeStands(types: Table<ContainerType>, expected: Row<ContainerType>) {
    expected.id in types && SameButForOrder(types[expected.id], expected)
  }

  lemma CarrierStands(t: Table<Carrier>, releaseId: string, expected: Row<Carrier>)
    requires Keyed(t) && expected.releaseId == releaseId
    ensures Holds(SameCarrier(), t, releaseId, expected) <==> expected in t.Values
  {
    if expected in t.Values {
      var id :| id in t && t[id] == expected;
      assert id == expected.id;
    }
    if Holds(SameCarrier(), t, releaseId, expected) {
      assert t[expected.id] == expected;
    }
  }

  lemma TypeHeldExactly(t: Table<ContainerType>, expected: Row<ContainerType>, cmp: Comparator, keys: iset<string>)
    requires expected.id in t && Consistent(cmp) && NoTies(cmp, keys)
    requires WellFormed(t[expected.id].content.basis, keys) && WellFormed(expected.content.basis, keys)
    ensures Holds(SameType(cmp), t, expected.releaseId, expected) <==> SameButForOrder(t[expected.id], expected)
  {
    CanonicalTextDecidesEquivalence(t[expected.id].content.basis, expected.content.basis, cmp, keys);
  }

  lemma CountsFitExactly(db: Database, releases: seq<Release>, p: Publication)
    ensures Counted(WithRows(db, releases, p), p) <==> CountsFit(db, p)
  {
  }

  lemma CarriersStandExactly(db: Database, p: Publication)
    requires Keyed(db.carriers) && ValidPublication(p)
    ensures HoldsAll(SameCarrier(), CarriersAfter(db, p), p.release.id, p.carriers) <==> CarriersStand(db, p)
  {
    InsertAllKeyed(db.carriers, p.carriers);
    forall i | 0 <= i < |p.carriers|
      ensures Holds(SameCarrier(), CarriersAfter(db, p), p.release.id, p.carriers[i])
          <==> p.carriers[i] in CarriersAfter(db, p).Values
    {
      CarrierStands(CarriersAfter(db, p), p.release.id, p.carriers[i]);
    }
  }

  lemma TypesStandExactly(db: Database, p: Publication, cmp: Comparator, keys: iset<string>)
    requires ValidPublication(p) && Consistent(cmp) && NoTies(cmp, keys) && BasesIn(db, p, keys)
    ensures HoldsAll(SameType(cmp), TypesAfter(db, p), p.release.id, p.types) <==> TypesStand(db, p)
  {
    InsertedBases(db, p, keys);
    forall i | 0 <= i < |p.types|
      ensures Holds(SameType(cmp), TypesAfter(db, p), p.release.id, p.types[i])
          <==> TypeStands(TypesAfter(db, p), p.types[i])
    {
      if p.types[i].id in TypesAfter(db, p) {
        TypeHeldExactly(TypesAfter(db, p), p.types[i], cmp, keys);
      }
    }
  }

  // ---------------------------------------------------------------------------------------
  // The 1.1.0 seed
  // ---------------------------------------------------------------------------------------

  /** The id is there with another header. */
  ghost predicate WithAnotherHeader(rs: seq<Release>, own: Release) {
    exists x :: x in rs && x.id == own.id && !HeaderMatches(x, own)
  }

  lemma OceanHeader(rs: seq<Release>, own: Release)
    requires Sound(rs)
    ensures EnsureOcean(rs, own) == Err(ReleaseConflict) <==> WithAnotherHeader(rs, own)
    ensures EnsureOcean(rs, own) == Err(UniqueViolation) <==> !WithAnotherHeader(rs, own) && UnderAnotherId(rs, own)
    ensures EnsureOcean(rs, own).Err? ==> EnsureOcean(rs, own).error in {ReleaseConflict, UniqueViolation}
  {
    HeaderFitsExactly(rs, own);
    var existing := FindId(rs, own.id);
    if existing.Some? {
      var i :| 0 <= i < |rs| && rs[i] == existing.value;
      forall x | x in rs && x.id == own.id ensures x == existing.value {
        var j :| 0 <= j < |rs| && rs[j] == x;
        ClashOnlyWithItself(rs, i, j);
      }
    }
  }

  lemma OceanContent(db: Database, p: Publication, cmp: Comparator, keys: iset<string>, releases: seq<Release>)
    requires Valid(db) && ValidPublication(p) && Consistent(cmp) && NoTies(cmp, keys) && BasesIn(db, p, keys)
    ensures CheckContent(WithRows(db, releases, p), p, cmp) ==
      if !CountsFit(db, p) then Some(CountMismatch)
      else if !CarriersStand(db, p) then Some(CarrierConflict)
      else if !TypesStand(db, p) then Some(ContainerConflict)
      else None
  {
    CountsFitExactly(db, releases, p);
    CarriersStandExactly(db, p);
    TypesStandExactly(db, p, cmp, keys);
  }

  /** The 1.1.0 seed commits exactly when none of its five checks fails, and else throws the error of the first. */
  lemma OceanOutcome(db: Database, p: Publication, cmp: Comparator, keys: iset<string>)
    requires Valid(db) && ValidPublication(p) && Consistent(cmp) && NoTies(cmp, keys) && BasesIn(db, p, keys)
    ensures
      var outcome := SeedOcean(db, p, cmp);
      if WithAnotherHeader(db.releases, p.release) then outcome == Err(ReleaseConflict)
      else if UnderAnotherId(db.releases, p.release) then outcome == Err(UniqueViolation)
      else if !CountsFit(db, p) then outcome == Err(CountMismatch)
      else if !CarriersStand(db, p) then outcome == Err(CarrierConflict)
      else if !TypesStand(db, p) then outcome == Err(ContainerConflict)
      else outcome.Ok?
  {
    OceanHeader(db.releases, p.release);
    if EnsureOcean(db.releases, p.release).Ok? {
      OceanContent(db, p, cmp, keys, EnsureOcean(db.releases, p.release).value);
    }
  }

  // ---------------------------------------------------------------------------------------
  // The 1.0.0 seed
  // ---------------------------------------------------------------------------------------

  /** The 1.0.0 seed compares no contents. */
  lemma InternalOutcome(db: Database, p: Publication)
    requires Valid(db)
    ensures
      var outcome := SeedInternal(db, p);
      if UnderAnotherId(db.releases, p.release) then outcome == Err(ReleaseConflict)
      else if CannotBeAdded(db.releases, p.release) then outcome == Err(UniqueViolation)
      else if !CountsFit(db, p) then outcome == Err(CountMismatch)
      else outcome.Ok?
  {
    InternalFailsExactly(db.releases, p.release);
    CountsFitExactly(db, db.releases, p);
    if EnsureInternal(db.releases, p.release).Ok? {
      CountsFitExactly(db, EnsureInternal(db.releases, p.release).value, p);
    }
  }

  // ---------------------------------------------------------------------------------------
  // What a commit leaves
  // ---------------------------------------------------------------------------------------

  /** No row is lost or changed, and every row that is new is an expected one. */
  ghost predicate RowsOnlyAdded<C>(before: Table<C>, after: Table<C>, expected: seq<Row<C>>) {
    && (forall id | id in before :: id in after && after[id] == before[id])
    && (forall id | id in after && id !in before :: after[id].id == id && after[id] in expected)
  }

  lemma InsertedOnlyAdds<C>(t: Table<C>, rows: seq<Row<C>>)
    ensures RowsOnlyAdded(t, InsertAll(t, rows), rows)
  {
    InsertAllGrows(t, rows);
  }

  /** Every release of another dataset is as before. */
  ghost predicate OtherDatasetsKept(before: seq<Release>, after: seq<Release>, own: Release) {
    && |before| <= |after|
    && forall i | 0 <= i < |before| ::
      if before[i].authority == own.authority && before[i].datasetCode == own.datasetCode
      then after[i] == before[i].(status := after[i].status)
      else after[i] == before[i]
  }

  /** A commit of either seed only adds rows, and the second leaves the releases of other datasets alone. */
  lemma CommitsOnlyAdd(db: Database, internal: Publication, ocean: Publication, cmp: Comparator)
    requires Valid(db)
    ensures SeedInternal(db, internal).Ok? ==>
      var after := SeedInternal(db, internal).value;
      && RowsOnlyAdded(db.carriers, after.carriers, internal.carriers)
      && RowsOnlyAdded(db.types, after.types, internal.types)
    ensures SeedOcean(db, ocean, cmp).Ok? ==>
      var after := SeedOcean(db, ocean, cmp).value;
      && RowsOnlyAdded(db.carriers, after.carriers, ocean.carriers)
      && RowsOnlyAdded(db.types, after.types, ocean.types)
      && OtherDatasetsKept(db.releases, after.releases, ocean.release)
  {
    InsertedOnlyAdds(db.carriers, internal.carriers);
    InsertedOnlyAdds(db.types, internal.types);
    InsertedOnlyAdds(db.carriers, ocean.carriers);
    InsertedOnlyAdds(db.types, ocean.types);
    if SeedOcean(db, ocean, cmp).Ok? && FindId(db.releases, ocean.release.id).None? {
      CreateKeepsSound(db.releases, ocean.release.(status := Staged));
      CreatedPresent(db.releases, ocean.release, Staged);
      ActivateSelectsOnlyItself(EnsureOcean(db.releases, ocean.release).value, ocean.release);
    }
  }
}
