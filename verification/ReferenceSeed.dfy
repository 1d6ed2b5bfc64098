/**
 The ocean reference seeds as transactions on the release, carrier and container type tables, and
 the order `database/seed.ts` runs them in. `cmp` stands for `localeCompare`. The standard basis
 of a container type is compared by its text with sorted keys, everything else as it is.
 */
module ReferenceSeed {
  import opened Wrappers
  import opened CanonicalJson
  import opened CanonicalText
  import opened ReferenceTables
  import opened ReferenceReleases

  type Carrier = seq<string>
  datatype ContainerType = ContainerType(values: seq<string>, basis: Json)

  datatype Database = Database(releases: seq<Release>, carriers: Table<Carrier>, types: Table<ContainerType>)

  /** What a seed publishes. */
  datatype Publication = Publication(release: Release, carriers: seq<Row<Carrier>>, types: seq<Row<ContainerType>>)

  ghost predicate Valid(db: Database) {
    Sound(db.releases) && Keyed(db.carriers) && Keyed(db.types)
  }

  ghost predicate ValidPublication(p: Publication) {
    Fixture(p.carriers, p.release.id) && Fixture(p.types, p.release.id)
  }

  function SameCarrier(): (Carrier, Carrier) -> bool {
    (a: Carrier, b: Carrier) => a == b
  }

  function SameType(cmp: Comparator): (ContainerType, ContainerType) -> bool {
    (a: ContainerType, b: ContainerType) => a.values == b.values && Canonical(a.basis, cmp) == Canonical(b.basis, cmp)
  }

  // ---------------------------------------------------------------------------------------
  // The transactions
  // ---------------------------------------------------------------------------------------

  function WithRows(db: Database, releases: seq<Release>, p: Publication): Database {
    Database(releases, InsertAll(db.carriers, p.carriers), InsertAll(db.types, p.types))
  }

  predicate Counted(db: Database, p: Publication) {
    CountMatches(db.carriers, p.release.id, p.carriers) && CountMatches(db.types, p.release.id, p.types)
  }

  /** `seedInternalOceanReferenceData` */
  function SeedInternal(db: Database, p: Publication): Result<Database, Error> {
    match EnsureInternal(db.releases, p.release)
    case Err(e) => Err(e)
    case Ok(releases) =>
      var next := WithRows(db, releases, p);
      if !Counted(next, p) then Err(CountMismatch) else Ok(next)
  }

  function CheckContent(db: Database, p: Publication, cmp: Comparator): Option<Error> {
    if !Counted(db, p) then Some(CountMismatch)
    else if !HoldsAll(SameCarrier(), db.carriers, p.release.id, p.carriers) then Some(CarrierConflict)
    else if !HoldsAll(SameType(cmp), db.types, p.release.id, p.types) then Some(ContainerConflict)
    else None
  }

  /** `seedOceanReferenceV11`: the release is selected by its first publication only. */
  function SeedOcean(db: Database, p: Publication, cmp: Comparator): Result<Database, Error> {
    match EnsureOcean(db.releases, p.release)
    case Err(e) => Err(e)
    case Ok(releases) =>
      var next := WithRows(db, releases, p);
      var wrong := CheckContent(next, p, cmp);
      if wrong.Some? then Err(wrong.value)
      else if FindId(db.releases, p.release.id).None? then Ok(next.(releases := Activate(releases, p.release)))
      else Ok(next)
  }

  /** One after the other, each in its own transaction. */
  function SeedBoth(db: Database, internal: Publication, ocean: Publication, cmp: Comparator): Result<Database, Error> {
    match SeedInternal(db, internal)
    case Err(e) => Err(e)
    case Ok(mid) => SeedOcean(mid, ocean, cmp)
  }

  class Store {
    var releases: seq<Release>
    var carriers: Table<Carrier>
    var types: Table<ContainerType>

    constructor (db: Database)
      ensures View() == db
    {
      releases, carriers, types := db.releases, db.carriers, db.types;
    }

    function View(): Database
      reads this
    {
      Database(releases, carriers, types)
    }

    method Rollback(db: Database)
      modifies this
      ensures View() == db
    {
      releases, carriers, types := db.releases, db.carriers, db.types;
    }

    method InsertRows(p: Publication)
      modifies this`carriers, this`types
      ensures View() == WithRows(old(View()), releases, p)
    {
      carriers := InsertAll(carriers, p.carriers);
      types := InsertAll(types, p.types);
    }

    method RunInternal(p: Publication) returns (error: Option<Error>)
      modifies this
      ensures match SeedInternal(old(View()), p)
              case Ok(db) => error.None? && View() == db
              case Err(e) => error == Some(e) && View() == old(View())
    {
      var before := View();
      var existing := FindIdentity(releases, p.release);
      if existing.Some? {
        if existing.value.id != p.release.id { return Some(ReleaseConflict); }
      } else {
        var created := Create(releases, p.release.(status := Active));
        if created.Err? { return Some(created.error); }
        releases := created.value;
      }
      InsertRows(p);
      if !Counted(View(), p) {
        Rollback(before);
        return Some(CountMismatch);
      }
      error := None;
    }

    method CheckCarriers(p: Publication) returns (ok: bool)
      ensures ok == HoldsAll(SameCarrier(), carriers, p.release.id, p.carriers)
    {
      for k := 0 to |p.carriers|
        invariant forall i | 0 <= i < k :: Holds(SameCarrier(), carriers, p.release.id, p.carriers[i])
      {
        if !Holds(SameCarrier(), carriers, p.release.id, p.carriers[k]) { return false; }
      }
      ok := true;
    }

    method CheckTypes(p: Publication, cmp: Comparator) returns (ok: bool)
      ensures ok == HoldsAll(SameType(cmp), types, p.release.id, p.types)
    {
      for k := 0 to |p.types|
        invariant forall i | 0 <= i < k :: Holds(SameType(cmp), types, p.release.id, p.types[i])
      {
        if !Holds(SameType(cmp), types, p.release.id, p.types[k]) { return false; }
      }
      ok := true;
    }

    method Check(p: Publication, cmp: Comparator) returns (wrong: Option<Error>)
      ensures wrong == CheckContent(View(), p, cmp)
    {
      if !Counted(View(), p) { return Some(CountMismatch); }
      var carriersOk := CheckCarriers(p);
      if !carriersOk { return Some(CarrierConflict); }
      var typesOk := CheckTypes(p, cmp);
      wrong := if typesOk then None else Some(ContainerConflict);
    }

    method RunOcean(p: Publication, cmp: Comparator) returns (error: Option<Error>)
      modifies this
      ensures match SeedOcean(old(View()), p, cmp)
              case Ok(db) => error.None? && View() == db
              case Err(e) => error == Some(e) && View() == old(View())
    {
      var before := View();
      var existing := FindId(releases, p.release.id);
      if existing.Some? && !SameHeader(existing.value, p.release) { return Some(ReleaseConflict); }
      if existing.None? {
        var created := Create(releases, p.release.(status := Staged));
        if created.Err? { return Some(created.error); }
        releases := created.value;
      }
      InsertRows(p);
      error := Check(p, cmp);
      if error.Some? {
        Rollback(before);
      } else if existing.None? {
        releases := SupersedeOthers(releases, p.release);
        releases := SetActive(releases, p.release.id);
      }
    }
  }

  // ---------------------------------------------------------------------------------------
  // What a commit means
  // ---------------------------------------------------------------------------------------

  /** The rows of the release are the expected ones, in the sense of the content check. */
  ghost predicate Published(db: Database, p: Publication) {
    && OfRelease(db.carriers, p.release.id) == Ids(p.carriers)
    && OfRelease(db.types, p.release.id) == Ids(p.types)
    && (forall i | 0 <= i < |p.carriers| ::
          p.carriers[i].id in db.carriers && db.carriers[p.carriers[i].id] == p.carriers[i])
    && (forall i | 0 <= i < |p.types| ::
          p.types[i].id in db.types && SameButForOrder(db.types[p.types[i].id], p.types[i]))
  }

  /** Equal but for the order of keys in the stored standard basis. */
  ghost predicate SameButForOrder(actual: Row<ContainerType>, expected: Row<ContainerType>) {
    && actual == expected.(content := actual.content) && actual.content.values == expected.content.values
    && Equivalent(actual.content.basis, expected.content.basis)
  }

  /** JSON keys the comparator tells apart: what holds of the keys of every stored and expected basis. */
  ghost predicate BasesIn(db: Database, p: Publication, keys: iset<string>) {
    && (forall id | id in db.types :: WellFormed(db.types[id].content.basis, keys))
    && (forall i | 0 <= i < |p.types| :: WellFormed(p.types[i].content.basis, keys))
  }

  lemma InsertedBases(db: Database, p: Publication, keys: iset<string>)
    requires BasesIn(db, p, keys)
    ensures forall id | id in InsertAll(db.types, p.types) ::
        WellFormed(InsertAll(db.types, p.types)[id].content.basis, keys)
  {
    InsertAllGrows(db.types, p.types);
    var after := InsertAll(db.types, p.types);
    forall id | id in after ensures WellFormed(after[id].content.basis, keys) {
      if id !in db.types {
        var i :| 0 <= i < |p.types| && p.types[i].id == id && after[id] == p.types[i];
      }
    }
  }

  lemma ChecksMeanPublished(db: Database, p: Publication, cmp: Comparator, keys: iset<string>)
    requires ValidPublication(p) && CheckContent(db, p, cmp).None?
    requires Consistent(cmp) && NoTies(cmp, keys) && BasesIn(db, p, keys)
    ensures Published(db, p)
  {
    CountedAndFound(SameCarrier(), db.carriers, p.release.id, p.carriers);
    CountedAndFound(SameType(cmp), db.types, p.release.id, p.types);
    forall i | 0 <= i < |p.carriers|
      ensures p.carriers[i].id in db.carriers && db.carriers[p.carriers[i].id] == p.carriers[i]
    {
      assert Holds(SameCarrier(), db.carriers, p.release.id, p.carriers[i]);
    }
    forall i | 0 <= i < |p.types|
      ensures p.types[i].id in db.types && SameButForOrder(db.types[p.types[i].id], p.types[i])
    {
      assert Holds(SameType(cmp), db.types, p.release.id, p.types[i]);
      CanonicalTextDecidesEquivalence(db.types[p.types[i].id].content.basis, p.types[i].content.basis, cmp, keys);
    }
  }

  /** When the 1.1.0 seed commits, the rows of its release are exactly the expected ones, contents and all. */
  lemma CommitMeansPublished(db: Database, p: Publication, cmp: Comparator, keys: iset<string>)
    requires ValidPublication(p) && SeedOcean(db, p, cmp).Ok?
    requires Consistent(cmp) && NoTies(cmp, keys) && BasesIn(db, p, keys)
    ensures Published(SeedOcean(db, p, cmp).value, p)
  {
    var next := WithRows(db, EnsureOcean(db.releases, p.release).value, p);
    InsertedBases(db, p, keys);
    ChecksMeanPublished(next, p, cmp, keys);
  }

  /** What the release holds already is expected, and its ids are not used elsewhere. */
  ghost predicate RowsFit(db: Database, p: Publication, cmp: Comparator) {
    && NothingForeign(SameCarrier(), db.carriers, p.release.id, p.carriers)
          && IdsAreOurs(db.carriers, p.release.id, p.carriers)
    && NothingForeign(SameType(cmp), db.types, p.release.id, p.types) && IdsAreOurs(db.types, p.release.id, p.types)
  }

  lemma RowsFitExactly(db: Database, releases: seq<Release>, p: Publication, cmp: Comparator)
    requires Keyed(db.carriers) && Keyed(db.types) && ValidPublication(p)
    ensures CheckContent(WithRows(db, releases, p), p, cmp).None? <==> RowsFit(db, p, cmp)
  {
    ChecksPassExactly(SameCarrier(), db.carriers, p.release.id, p.carriers);
    ChecksPassExactly(SameType(cmp), db.types, p.release.id, p.types);
  }

  predicate HeaderMatches(x: Release, own: Release) {
    && x.authority == own.authority && x.datasetCode == own.datasetCode && x.version == own.version
    && x.recordsHash == own.recordsHash
  }

  /** The release row is there with the expected header, or can be created. */
  ghost predicate HeaderFits(rs: seq<Release>, own: Release) {
    && (forall x | x in rs && x.id == own.id :: HeaderMatches(x, own))
    && !UnderAnotherId(rs, own)
  }

  lemma HeaderFitsExactly(rs: seq<Release>, own: Release)
    requires Sound(rs)
    ensures EnsureOcean(rs, own).Ok? <==> HeaderFits(rs, own)
  {
    var existing := FindId(rs, own.id);
    if existing.Some? {
      var i :| 0 <= i < |rs| && rs[i] == existing.value;
      forall x | x in rs && (x.id == own.id || SameIdentity(x, existing.value)) ensures x == existing.value {
        var j :| 0 <= j < |rs| && rs[j] == x;
        ClashOnlyWithItself(rs, i, j);
      }
    }
  }

  /** The 1.1.0 seed commits exactly if its header fits and so do the rows. Otherwise nothing changes. */
  lemma OceanCommitsExactly(db: Database, p: Publication, cmp: Comparator)
    requires Valid(db) && ValidPublication(p)
    ensures SeedOcean(db, p, cmp).Ok? <==> HeaderFits(db.releases, p.release) && RowsFit(db, p, cmp)
  {
    HeaderFitsExactly(db.releases, p.release);
    if EnsureOcean(db.releases, p.release).Ok? {
      RowsFitExactly(db, EnsureOcean(db.releases, p.release).value, p, cmp);
    }
  }

  // ---------------------------------------------------------------------------------------
  // Which release is selected
  // ---------------------------------------------------------------------------------------

  ghost predicate Has(db: Database, p: Publication) {
    exists x :: x in db.releases && x.id == p.release.id
  }

  lemma CreatedPresent(rs: seq<Release>, own: Release, status: Status)
    requires Create(rs, own.(status := status)).Ok?
    ensures Present(Create(rs, own.(status := status)).value, own)
  {
    var ts := Create(rs, own.(status := status)).value;
    assert ts[|rs|] in ts;
  }

  /** A first publication selects 1.1.0 alone; a later one changes no release. */
  lemma OceanSelects(db: Database, p: Publication, cmp: Comparator)
    requires Valid(db) && SeedOcean(db, p, cmp).Ok?
    ensures Valid(SeedOcean(db, p, cmp).value)
    ensures Has(db, p) ==> SeedOcean(db, p, cmp).value.releases == db.releases
    ensures !Has(db, p) ==> OnlyActive(SeedOcean(db, p, cmp).value.releases, p.release)
  {
    InsertAllKeyed(db.carriers, p.carriers);
    InsertAllKeyed(db.types, p.types);
    if FindId(db.releases, p.release.id).None? {
      CreateKeepsSound(db.releases, p.release.(status := Staged));
      CreatedPresent(db.releases, p.release, Staged);
      ActivateSelectsOnlyItself(EnsureOcean(db.releases, p.release).value, p.release);
    }
  }

  ghost predicate HasIdentity(db: Database, p: Publication) {
    exists x :: x in db.releases && SameIdentity(x, p.release)
  }

  /** The 1.0.0 seed changes no release unless it is missing; then it adds it active, to a dataset with none active. */
  lemma InternalAddsOrKeeps(db: Database, p: Publication)
    requires Valid(db) && SeedInternal(db, p).Ok?
    ensures Valid(SeedInternal(db, p).value)
    ensures HasIdentity(db, p) ==> SeedInternal(db, p).value.releases == db.releases
    ensures !HasIdentity(db, p) ==>
      && SeedInternal(db, p).value.releases == db.releases + [p.release.(status := Active)]
      && forall x | x in db.releases && SameDataset(x, p.release) :: !x.status.Active?
  {
    InsertAllKeyed(db.carriers, p.carriers);
    InsertAllKeyed(db.types, p.types);
    if FindIdentity(db.releases, p.release).None? {
      CreateKeepsSound(db.releases, p.release.(status := Active));
    }
  }

  /** Two releases of one dataset, of different version and id. */
  ghost predicate TwoVersions(internal: Publication, ocean: Publication) {
    SameDataset(internal.release, ocean.release) && internal.release.version != ocean.release.version
    && internal.release.id != ocean.release.id
  }

  /**
   A run of both seeds over a table without 1.1.0 leaves 1.1.0 the only active release. One over a
   table that has both changes no release at all, whichever was selected in between.
   */
  lemma SeedingSelectsOnce(db: Database, internal: Publication, ocean: Publication, cmp: Comparator)
    requires Valid(db) && TwoVersions(internal, ocean) && SeedBoth(db, internal, ocean, cmp).Ok?
    ensures Valid(SeedBoth(db, internal, ocean, cmp).value)
    ensures !Has(db, ocean) ==> OnlyActive(SeedBoth(db, internal, ocean, cmp).value.releases, ocean.release)
    ensures Has(db, ocean) && HasIdentity(db, internal)
        ==> SeedBoth(db, internal, ocean, cmp).value.releases == db.releases
  {
    InternalAddsOrKeeps(db, internal);
    OceanSelects(SeedInternal(db, internal).value, ocean, cmp);
  }

  /** While 1.0.0 is missing and another release is active, the seeding stops before 1.1.0 is looked at. */
  lemma MissingInternalBlocks(db: Database, internal: Publication, ocean: Publication, cmp: Comparator, x: Release)
    requires Valid(db) && !HasIdentity(db, internal) && x in db.releases && SameDataset(x, internal.release)
        && x.status.Active?
    ensures SeedBoth(db, internal, ocean, cmp) == Err(UniqueViolation)
  {
    assert Clash(x, internal.release.(status := Active));
  }

  // ---------------------------------------------------------------------------------------
  // From empty tables, and again
  // ---------------------------------------------------------------------------------------

  const EMPTY := Database([], map[], map[])

  lemma FittingRowsCounted(db: Database, releases: seq<Release>, p: Publication, cmp: Comparator)
    requires Keyed(db.carriers) && Keyed(db.types) && ValidPublication(p) && RowsFit(db, p, cmp)
    ensures Counted(WithRows(db, releases, p), p) && CheckContent(WithRows(db, releases, p), p, cmp).None?
  {
    RowsFitExactly(db, releases, p, cmp);
  }

  /** No id is used by both publications. */
  ghost predicate Apart(internal: Publication, ocean: Publication) {
    && (forall i, j | 0 <= i < |internal.carriers| && 0 <= j < |ocean.carriers| ::
          internal.carriers[i].id != ocean.carriers[j].id)
    && (forall i, j | 0 <= i < |internal.types| && 0 <= j < |ocean.types| :: internal.types[i].id != ocean.types[j].id)
  }

  lemma RowsFitAfter(internal: Publication, ocean: Publication, releases: seq<Release>, cmp: Comparator)
    requires ValidPublication(internal) && ValidPublication(ocean) && Apart(internal, ocean)
        && TwoVersions(internal, ocean)
    ensures RowsFit(WithRows(EMPTY, releases, internal), ocean, cmp)
  {
    InsertAllGrows(EMPTY.carriers, internal.carriers);
    InsertAllGrows(EMPTY.types, internal.types);
  }

  lemma FirstSeedFromEmpty(internal: Publication, cmp: Comparator)
    requires ValidPublication(internal)
    ensures SeedInternal(EMPTY, internal) == Ok(WithRows(EMPTY, [internal.release.(status := Active)], internal))
  {
    FittingRowsCounted(EMPTY, [internal.release.(status := Active)], internal, cmp);
    assert [] + [internal.release.(status := Active)] == [internal.release.(status := Active)];
  }

  lemma OceanAfterInternal(internal: Release, ocean: Release)
    requires SameDataset(internal, ocean) && internal.version != ocean.version && internal.id != ocean.id
    ensures EnsureOcean([internal.(status := Active)], ocean) ==
        Ok([internal.(status := Active), ocean.(status := Staged)])
    ensures Activate([internal.(status := Active), ocean.(status := Staged)], ocean) ==
      [internal.(status := Superseded), ocean.(status := Active)]
  {
    var first, staged := internal.(status := Active), ocean.(status := Staged);
    assert [first] + [staged] == [first, staged];
    assert Create([first], staged) == Ok([first] + [staged]);
    assert FindId([first], ocean.id).None?;
  }

  /** From empty tables both seeds commit, and exactly 1.1.0 is active. */
  lemma SeedingFromEmpty(internal: Publication, ocean: Publication, cmp: Comparator)
    requires ValidPublication(internal) && ValidPublication(ocean) && Apart(internal, ocean)
        && TwoVersions(internal, ocean)
    ensures SeedBoth(EMPTY, internal, ocean, cmp).Ok?
    ensures SeedBoth(EMPTY, internal, ocean, cmp).value.releases ==
      [internal.release.(status := Superseded), ocean.release.(status := Active)]
  {
    FirstSeedFromEmpty(internal, cmp);
    OceanAfterInternal(internal.release, ocean.release);
    var releases := [internal.release.(status := Active)];
    RowsFitAfter(internal, ocean, releases, cmp);
    InsertAllKeyed(EMPTY.carriers, internal.carriers);
    InsertAllKeyed(EMPTY.types, internal.types);
    RowsFitExactly(WithRows(EMPTY, releases, internal), releases + [ocean.release.(status := Staged)], ocean, cmp);
    assert releases + [ocean.release.(status := Staged)] ==
        [internal.release.(status := Active), ocean.release.(status := Staged)];
  }
}
