/**
 The release table: its constraints, `ensureRelease` of the three seeds, and `activateRelease`.
 The table is the sequence of its rows, in the order they were created.
 */
module ReferenceReleases {
  import opened Wrappers

  datatype Status = Staged | Active | Superseded
  datatype Release = Release(
    id: string, authority: string, datasetCode: string, version: string, sourceHash: string, recordsHash: string,
    status: Status)

  datatype Error = ReleaseConflict | UniqueViolation | CountMismatch | CarrierConflict | ContainerConflict

  predicate SameDataset(a: Release, b: Release) {
    a.authority == b.authority && a.datasetCode == b.datasetCode
  }

  predicate SameIdentity(a: Release, b: Release) {
    SameDataset(a, b) && a.version == b.version
  }

  /** Two rows that may not both be there: the keys of the table, and the one active release of a dataset. */
  predicate Clash(a: Release, b: Release) {
    a.id == b.id || SameIdentity(a, b) || (SameDataset(a, b) && a.status.Active? && b.status.Active?)
  }

  ghost predicate Sound(rs: seq<Release>) {
    forall i, j | 0 <= i < j < |rs| :: !Clash(rs[i], rs[j])
  }

  predicate ClashesWith(rs: seq<Release>, r: Release) {
    exists x | x in rs :: Clash(x, r)
  }

  function Create(rs: seq<Release>, r: Release): Result<seq<Release>, Error> {
    if ClashesWith(rs, r) then Err(UniqueViolation) else Ok(rs + [r])
  }

  function FindId(rs: seq<Release>, id: string): (r: Option<Release>)
    ensures r.Some? ==> r.value in rs && r.value.id == id
    ensures r.None? ==> forall x | x in rs :: x.id != id
  {
    if rs == [] then None else if rs[0].id == id then Some(rs[0]) else FindId(rs[1..], id)
  }

  function FindIdentity(rs: seq<Release>, key: Release): (r: Option<Release>)
    ensures r.Some? ==> r.value in rs && SameIdentity(r.value, key)
    ensures r.None? ==> forall x | x in rs :: !SameIdentity(x, key)
  {
    if rs == [] then None else if SameIdentity(rs[0], key) then Some(rs[0]) else FindIdentity(rs[1..], key)
  }

  // ---------------------------------------------------------------------------------------
  // ensureRelease
  // ---------------------------------------------------------------------------------------

  /** The 1.0.0 seed creates its release active. */
  function EnsureInternal(rs: seq<Release>, own: Release): Result<seq<Release>, Error> {
    var existing := FindIdentity(rs, own);
    if existing.None? then Create(rs, own.(status := Active))
    else if existing.value.id != own.id then Err(ReleaseConflict)
    else Ok(rs)
  }

  predicate SameHeader(a: Release, b: Release) {
    SameIdentity(a, b) && a.recordsHash == b.recordsHash
  }

  /** The 1.1.0 seed looks its release up by id, and creates it staged. */
  function EnsureOcean(rs: seq<Release>, own: Release): Result<seq<Release>, Error> {
    var existing := FindId(rs, own.id);
    if existing.None? then Create(rs, own.(status := Staged))
    else if !SameHeader(existing.value, own) then Err(ReleaseConflict)
    else Ok(rs)
  }

  /** So does the location seed, by its identity. */
  function EnsureLocation(rs: seq<Release>, own: Release): Result<seq<Release>, Error> {
    var existing := FindIdentity(rs, own);
    if existing.None? then Create(rs, own.(status := Staged))
    else if existing.value.id != own.id || existing.value.sourceHash != own.sourceHash
      || existing.value.recordsHash != own.recordsHash
      then Err(ReleaseConflict)
    else Ok(rs)
  }

  // ---------------------------------------------------------------------------------------
  // activateRelease
  // ---------------------------------------------------------------------------------------

  function Superseding(x: Release, own: Release): Release {
    if SameDataset(x, own) && x.status.Active? && x.id != own.id then x.(status := Superseded) else x
  }

  function SupersedeOthers(rs: seq<Release>, own: Release): seq<Release> {
    seq(|rs|, i requires 0 <= i < |rs| => Superseding(rs[i], own))
  }

  function SetActive(rs: seq<Release>, id: string): seq<Release> {
    seq(|rs|, i requires 0 <= i < |rs| => if rs[i].id == id then rs[i].(status := Active) else rs[i])
  }

  /** `updateMany` and `update` */
  function Activate(rs: seq<Release>, own: Release): seq<Release> {
    SetActive(SupersedeOthers(rs, own), own.id)
  }

  /** The release of `own` is there, in its dataset. */
  ghost predicate Present(rs: seq<Release>, own: Release) {
    exists x :: x in rs && x.id == own.id && SameIdentity(x, own)
  }

  ghost predicate OnlyActive(rs: seq<Release>, own: Release) {
    && Present(rs, own)
    && forall x | x in rs && x.authority == own.authority && x.datasetCode == own.datasetCode ::
      x.status.Active? <==> x.id == own.id
  }

  ghost predicate OthersUntouched(rs: seq<Release>, ts: seq<Release>, own: Release) {
    |ts| == |rs| && forall i | 0 <= i < |rs| ::
      var x := rs[i];
      var sameDataset := x.authority == own.authority && x.datasetCode == own.datasetCode;
      ts[i] == if sameDataset then x.(status := ts[i].status) else x
  }

  lemma ClashOnlyWithItself(rs: seq<Release>, i: nat, j: nat)
    requires Sound(rs) && i < |rs| && j < |rs| && Clash(rs[i], rs[j])
    ensures i == j
  {
  }

  lemma ActivatedRow(rs: seq<Release>, own: Release, i: nat)
    requires Sound(rs) && Present(rs, own) && i < |rs|
    ensures var x, y := rs[i], Activate(rs, own)[i];
      y == if x.id == own.id then x.(status := Active) else Superseding(x, own)
    ensures rs[i].id == own.id ==> SameIdentity(rs[i], own)
  {
    var x :| x in rs && x.id == own.id && SameIdentity(x, own);
    var k :| 0 <= k < |rs| && rs[k] == x;
    if rs[i].id == own.id {
      ClashOnlyWithItself(rs, i, k);
    }
  }

  /** The rest of the dataset steps back, its own release is active, and the constraints still hold. */
  lemma ActivateSelectsOnlyItself(rs: seq<Release>, own: Release)
    requires Sound(rs) && Present(rs, own)
    ensures Sound(Activate(rs, own)) && OnlyActive(Activate(rs, own), own)
        && OthersUntouched(rs, Activate(rs, own), own)
  {
    var ts := Activate(rs, own);
    forall i | 0 <= i < |rs|
      ensures ts[i] == if rs[i].id == own.id then rs[i].(status := Active) else Superseding(rs[i], own)
      ensures rs[i].id == own.id ==> SameIdentity(rs[i], own)
    {
      ActivatedRow(rs, own, i);
    }
    ActivatedPresent(rs, own);
    ActivatedSound(rs, ts, own);
  }

  lemma ActivatedPresent(rs: seq<Release>, own: Release)
    requires Sound(rs) && Present(rs, own)
    ensures Present(Activate(rs, own), own)
  {
    var x :| x in rs && x.id == own.id && SameIdentity(x, own);
    var k :| 0 <= k < |rs| && rs[k] == x;
    ActivatedRow(rs, own, k);
    assert Activate(rs, own)[k] in Activate(rs, own);
  }

  lemma ActivatedSound(rs: seq<Release>, ts: seq<Release>, own: Release)
    requires Sound(rs) && |ts| == |rs|
    requires forall i | 0 <= i < |rs| ::
        ts[i] == if rs[i].id == own.id then rs[i].(status := Active) else Superseding(rs[i], own)
    requires forall i | 0 <= i < |rs| && rs[i].id == own.id :: SameIdentity(rs[i], own)
    ensures Sound(ts)
  {
    forall i, j | 0 <= i < j < |ts| ensures !Clash(ts[i], ts[j]) {
      assert !Clash(rs[i], rs[j]);
    }
  }

  lemma CreateKeepsSound(rs: seq<Release>, r: Release)
    requires Sound(rs) && Create(rs, r).Ok?
    ensures Sound(Create(rs, r).value)
  {
  }

  /** The location seed ends with its own release the only active one, whatever was selected before. */
  lemma LocationAlwaysSelectsItself(rs: seq<Release>, own: Release)
    requires Sound(rs) && EnsureLocation(rs, own).Ok?
    ensures var ts := Activate(EnsureLocation(rs, own).value, own);
      Sound(ts) && OnlyActive(ts, own)
  {
    var created := EnsureLocation(rs, own).value;
    if FindIdentity(rs, own).None? {
      CreateKeepsSound(rs, own.(status := Staged));
      assert created[|rs|] in created;
    }
    ActivateSelectsOnlyItself(created, own);
  }

  // ---------------------------------------------------------------------------------------
  // When the 1.0.0 release can be ensured
  // ---------------------------------------------------------------------------------------

  /** The version is there. */
  ghost predicate HasVersion(rs: seq<Release>, own: Release) {
    exists x :: x in rs && x.authority == own.authority && x.datasetCode == own.datasetCode && x.version == own.version
  }

  /** The version is there under another id. */
  ghost predicate UnderAnotherId(rs: seq<Release>, own: Release) {
    exists x :: x in rs && x.authority == own.authority && x.datasetCode == own.datasetCode && x.version == own.version
      && x.id != own.id
  }

  predicate InTheWay(x: Release, own: Release) {
    x.id == own.id || (x.authority == own.authority && x.datasetCode == own.datasetCode && x.status.Active?)
  }

  /** The version is missing, while its id is in use or another release of the dataset is active. */
  ghost predicate CannotBeAdded(rs: seq<Release>, own: Release) {
    !HasVersion(rs, own) && exists x :: x in rs && InTheWay(x, own)
  }

  lemma VersionFound(rs: seq<Release>, own: Release)
    ensures FindIdentity(rs, own).Some? <==> HasVersion(rs, own)
  {
  }

  /** The 1.0.0 release cannot be ensured exactly in these two cases, each with its own error. */
  lemma InternalFailsExactly(rs: seq<Release>, own: Release)
    requires Sound(rs)
    ensures EnsureInternal(rs, own) == Err(ReleaseConflict) <==> UnderAnotherId(rs, own)
    ensures EnsureInternal(rs, own) == Err(UniqueViolation) <==> CannotBeAdded(rs, own)
    ensures EnsureInternal(rs, own).Err? ==> EnsureInternal(rs, own).error in {ReleaseConflict, UniqueViolation}
  {
    var existing := FindIdentity(rs, own);
    VersionFound(rs, own);
    if existing.Some? {
      var i :| 0 <= i < |rs| && rs[i] == existing.value;
      forall x | x in rs && SameIdentity(x, own) ensures x == existing.value {
        var j :| 0 <= j < |rs| && rs[j] == x;
        ClashOnlyWithItself(rs, i, j);
      }
    } else {
      assert forall x | x in rs :: Clash(x, own.(status := Active)) <==> InTheWay(x, own);
    }
  }
}
