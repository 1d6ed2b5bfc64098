/**
 `serializeUnitEconomicsDraft` and `unitEconomicsDraftFrom`: the unit-economics form, and the
 draft that is saved for it, which leaves out whatever is blank.
 */
module UnitEconomics {
  import opened Wrappers
  import opened Text

  type ScenarioCode = string
  type FieldCode = string
  datatype Basis = Assumption | FromEvidence

  const SCENARIOS: seq<ScenarioCode> := ["baseline", "conservative"]
  const FIELDS: seq<FieldCode> := 
    ["salePrice", "landedCost", "platformFee", "fulfillmentFee", "advertisingCost", "returnCost"]

  /** A basis of None is the empty choice of the form. */
  datatype Range = Range(min: string, max: string, basis: Option<Basis>, evidenceRefs: seq<string>)
  datatype Form = Form(currencyCode: string, scenarios: map<ScenarioCode, map<FieldCode, Range>>)

  datatype SavedRange = SavedRange(min: Option<string>, max: Option<string>, basis: Option<Basis>,
      evidenceRefs: Option<seq<string>>)
  type SavedScenarios = map<ScenarioCode, map<FieldCode, SavedRange>>
  datatype SavedDraft = SavedDraft(channelCode: Option<string>, currencyCode: Option<string>,
      scenarios: Option<SavedScenarios>)

  const EMPTY_RANGE := Range("", "", None, [])

  /** A form has a range for each of its scenarios and fields, and for no others. */
  ghost predicate HasFields(ranges: map<FieldCode, Range>, fields: seq<FieldCode>) {
    forall f :: f in ranges <==> f in fields
  }

  ghost predicate HasScenarios(form: Form, scenarios: seq<ScenarioCode>, fields: seq<FieldCode>) {
    && (forall s :: s in form.scenarios <==> s in scenarios)
    && (forall s | s in form.scenarios :: HasFields(form.scenarios[s], fields))
  }

  // ---------------------------------------------------------------------------------------
  // Saving
  // ---------------------------------------------------------------------------------------

  predicate Blank(r: Range) {
    Trim(r.min) == "" && Trim(r.max) == "" && r.basis.None? && r.evidenceRefs == []
  }

  /** `text ? text : nothing` */
  function Filled(text: string): Option<string> {
    if text == "" then None else Some(text)
  }

  function SaveRange(r: Range): SavedRange {
    SavedRange(Filled(Trim(r.min)), Filled(Trim(r.max)), r.basis,
               if r.basis.Some? || r.evidenceRefs != [] then Some(r.evidenceRefs) else None)
  }

  function SaveField(r: Range): Option<SavedRange> {
    if Blank(r) then None else Some(SaveRange(r))
  }

  /** The entries that are there, for the keys listed. */
  function Collect<K(==), V>(keys: seq<K>, entries: map<K, Option<V>>): map<K, V>
    requires forall k | k in keys :: k in entries
  {
    if keys == [] then map[]
    else
      var last, before := keys[|keys| - 1], Collect(keys[..|keys| - 1], entries);
      if entries[last].None? then before else before[last := entries[last].value]
  }

  lemma {:induction false} Collected<K, V>(keys: seq<K>, entries: map<K, Option<V>>, k: K)
    requires forall l | l in keys :: l in entries
    ensures k in Collect(keys, entries) <==> k in keys && entries[k].Some?
    ensures k in Collect(keys, entries) ==> Some(Collect(keys, entries)[k]) == entries[k]
  {
    if keys != [] {
      Collected(keys[..|keys| - 1], entries, k);
    }
  }

  function FieldEntries(ranges: map<FieldCode, Range>): map<FieldCode, Option<SavedRange>> {
    map f | f in ranges :: SaveField(ranges[f])
  }

  /** A scenario is saved if any of its fields is. */
  function SaveScenario(ranges: map<FieldCode, Range>, fields: seq<FieldCode>): Option<map<FieldCode, SavedRange>>
    requires forall f | f in fields :: f in ranges
  {
    var saved := Collect(fields, FieldEntries(ranges));
    if saved == map[] then None else Some(saved)
  }

  function ScenarioEntries(form: Form, fields: seq<FieldCode>): map<ScenarioCode, Option<map<FieldCode, SavedRange>>>
    requires forall s, f | s in form.scenarios && f in fields :: f in form.scenarios[s]
  {
    map s | s in form.scenarios :: SaveScenario(form.scenarios[s], fields)
  }

  function Serialized(form: Form, channelCode: string, scenarios: seq<ScenarioCode>, fields: seq<FieldCode>): SavedDraft
    requires HasScenarios(form, scenarios, fields)
  {
    var saved := Collect(scenarios, ScenarioEntries(form, fields));
    SavedDraft(Filled(channelCode), Filled(form.currencyCode), if saved == map[] then None else Some(saved))
  }

  method SerializeScenario(ranges: map<FieldCode, Range>, fields: seq<FieldCode>)
          returns (scenarioDraft: map<FieldCode, SavedRange>)
    requires forall f | f in fields :: f in ranges
    ensures scenarioDraft == Collect(fields, FieldEntries(ranges))
  {
    scenarioDraft := map[];
    for k := 0 to |fields|
      invariant scenarioDraft == Collect(fields[..k], FieldEntries(ranges))
    {
      assert fields[..k + 1][..k] == fields[..k];
      var range := ranges[fields[k]];
      if Blank(range) { continue; }
      scenarioDraft := scenarioDraft[fields[k] := SaveRange(range)];
    }
    assert fields[..|fields|] == fields;
  }

  method SerializeUnitEconomicsDraft(state: Form, channelCode: string, codes: seq<ScenarioCode>, fields: seq<FieldCode>)
    returns (draft: SavedDraft)
    requires HasScenarios(state, codes, fields)
    ensures draft == Serialized(state, channelCode, codes, fields)
  {
    var scenarios: SavedScenarios := map[];
    for k := 0 to |codes|
      invariant scenarios == Collect(codes[..k], ScenarioEntries(state, fields))
    {
      assert codes[..k + 1][..k] == codes[..k];
      var scenarioDraft := SerializeScenario(state.scenarios[codes[k]], fields);
      if scenarioDraft != map[] {
        scenarios := scenarios[codes[k] := scenarioDraft];
      }
    }
    assert codes[..|codes|] == codes;
    draft := SavedDraft(Filled(channelCode), Filled(state.currencyCode), if scenarios == map[] then None
        else Some(scenarios));
  }

  // ---------------------------------------------------------------------------------------
  // Loading
  // ---------------------------------------------------------------------------------------

  function LoadRange(saved: Option<SavedRange>): Range {
    if saved.None? then EMPTY_RANGE
    else Range(saved.value.min.GetOr(""), saved.value.max.GetOr(""), saved.value.basis,
      saved.value.evidenceRefs.GetOr([]))
  }

  /** `source?.scenarios?.[s]?.[f]` */
  function SavedAt(source: Option<SavedDraft>, s: ScenarioCode, f: FieldCode): Option<SavedRange> {
    if source.None? || source.value.scenarios.None? then None
    else
      var scenarios := source.value.scenarios.value;
      if s in scenarios && f in scenarios[s] then Some(scenarios[s][f]) else None
  }

  function LoadScenario(source: Option<SavedDraft>, s: ScenarioCode, fields: seq<FieldCode>): map<FieldCode, Range> {
    map f | f in fields :: LoadRange(SavedAt(source, s, f))
  }

  function Loaded(source: Option<SavedDraft>, scenarios: seq<ScenarioCode>, fields: seq<FieldCode>): Form {
    Form(if source.None? then "" else source.value.currencyCode.GetOr(""),
         map s | s in scenarios :: LoadScenario(source, s, fields))
  }

  method LoadFields(source: Option<SavedDraft>, s: ScenarioCode, fields: seq<FieldCode>)
          returns (ranges: map<FieldCode, Range>)
    ensures ranges == LoadScenario(source, s, fields)
  {
    ranges := map[];
    for k := 0 to |fields|
      invariant ranges == LoadScenario(source, s, fields[..k])
    {
      ranges := ranges[fields[k] := LoadRange(SavedAt(source, s, fields[k]))];
    }
    assert fields[..|fields|] == fields;
  }

  method UnitEconomicsDraftFrom(source: Option<SavedDraft>, codes: seq<ScenarioCode>, fields: seq<FieldCode>)
          returns (draft: Form)
    ensures draft == Loaded(source, codes, fields)
  {
    draft := Form(if source.None? then "" else source.value.currencyCode.GetOr(""), map[]);
    for k := 0 to |codes|
      invariant draft == Loaded(source, codes[..k], fields)
    {
      var ranges := LoadFields(source, codes[k], fields);
      draft := draft.(scenarios := draft.scenarios[codes[k] := ranges]);
    }
    assert codes[..|codes|] == codes;
  }

  // ---------------------------------------------------------------------------------------
  // The round trip
  // ---------------------------------------------------------------------------------------

  function TrimmedRange(r: Range): Range {
    r.(min := Trim(r.min), max := Trim(r.max))
  }

  function TrimmedRanges(ranges: map<FieldCode, Range>): map<FieldCode, Range> {
    map f | f in ranges :: TrimmedRange(ranges[f])
  }

  function Trimmed(form: Form): Form {
    form.(scenarios := map s | s in form.scenarios :: TrimmedRanges(form.scenarios[s]))
  }

  lemma SavedAtSerialized(form: Form, channelCode: string, scenarios: seq<ScenarioCode>, fields: seq<FieldCode>,
          s: ScenarioCode, f: FieldCode)
    requires HasScenarios(form, scenarios, fields) && s in scenarios && f in fields
    ensures SavedAt(Some(Serialized(form, channelCode, scenarios, fields)), s, f) == SaveField(form.scenarios[s][f])
  {
    Collected(scenarios, ScenarioEntries(form, fields), s);
    Collected(fields, FieldEntries(form.scenarios[s]), f);
  }

  lemma RangeRestored(r: Range)
    ensures LoadRange(SaveField(r)) == TrimmedRange(r)
  {
  }

  lemma RangesRestored(source: Option<SavedDraft>, ranges: map<FieldCode, Range>, s: ScenarioCode,
          fields: seq<FieldCode>)
    requires HasFields(ranges, fields) && forall f | f in fields :: SavedAt(source, s, f) == SaveField(ranges[f])
    ensures LoadScenario(source, s, fields) == TrimmedRanges(ranges)
  {
    forall f | f in fields ensures LoadRange(SavedAt(source, s, f)) == TrimmedRange(ranges[f]) {
      RangeRestored(ranges[f]);
    }
  }

  lemma ScenarioRestored(form: Form, channelCode: string, scenarios: seq<ScenarioCode>, fields: seq<FieldCode>,
          s: ScenarioCode)
    requires HasScenarios(form, scenarios, fields) && s in scenarios
    ensures LoadScenario(Some(Serialized(form, channelCode, scenarios, fields)), s, fields) ==
        TrimmedRanges(form.scenarios[s])
  {
    var source := Some(Serialized(form, channelCode, scenarios, fields));
    forall f | f in fields ensures SavedAt(source, s, f) == SaveField(form.scenarios[s][f]) {
      SavedAtSerialized(form, channelCode, scenarios, fields, s, f);
    }
    RangesRestored(source, form.scenarios[s], s, fields);
  }

  /** What was saved restores exactly the form, trimmed. */
  lemma SavedFormRestored(form: Form, channelCode: string, scenarios: seq<ScenarioCode>, fields: seq<FieldCode>)
    requires HasScenarios(form, scenarios, fields)
    ensures Loaded(Some(Serialized(form, channelCode, scenarios, fields)), scenarios, fields) == Trimmed(form)
  {
    forall s | s in scenarios
      ensures LoadScenario(Some(Serialized(form, channelCode, scenarios, fields)), s, fields) ==
          TrimmedRanges(form.scenarios[s])
    {
      ScenarioRestored(form, channelCode, scenarios, fields, s);
    }
  }

  lemma TrimmedRangeSavesTheSame(r: Range)
    ensures SaveField(TrimmedRange(r)) == SaveField(r)
  {
    TrimIdempotent(r.min);
    TrimIdempotent(r.max);
  }

  lemma TrimmedFieldSavesTheSame(ranges: map<FieldCode, Range>, f: FieldCode)
    requires f in ranges
    ensures FieldEntries(TrimmedRanges(ranges))[f] == FieldEntries(ranges)[f]
  {
    TrimmedRangeSavesTheSame(ranges[f]);
  }

  lemma SameMaps<V>(a: map<FieldCode, V>, b: map<FieldCode, V>)
    requires a.Keys == b.Keys && forall k | k in a :: a[k] == b[k]
    ensures a == b
  {
  }

  lemma EntriesKeys(ranges: map<FieldCode, Range>)
    ensures FieldEntries(ranges).Keys == ranges.Keys && TrimmedRanges(ranges).Keys == ranges.Keys
  {
  }

  lemma TrimmedScenarioSavesTheSame(ranges: map<FieldCode, Range>)
    ensures FieldEntries(TrimmedRanges(ranges)) == FieldEntries(ranges)
  {
    var before, after := FieldEntries(ranges), FieldEntries(TrimmedRanges(ranges));
    EntriesKeys(ranges);
    EntriesKeys(TrimmedRanges(ranges));
    forall f | f in after ensures after[f] == before[f] {
      TrimmedFieldSavesTheSame(ranges, f);
    }
    SameMaps(after, before);
  }

  lemma TrimmedEntries(form: Form, scenarios: seq<ScenarioCode>, fields: seq<FieldCode>)
    requires HasScenarios(form, scenarios, fields)
    ensures HasScenarios(Trimmed(form), scenarios, fields)
    ensures ScenarioEntries(Trimmed(form), fields) == ScenarioEntries(form, fields)
  {
    TrimmedIsShaped(form, scenarios, fields);
    forall s | s in form.scenarios ensures FieldEntries(Trimmed(form).scenarios[s]) == FieldEntries(form.scenarios[s]) {
      TrimmedScenarioSavesTheSame(form.scenarios[s]);
    }
  }

  lemma TrimmedIsShaped(form: Form, scenarios: seq<ScenarioCode>, fields: seq<FieldCode>)
    requires HasScenarios(form, scenarios, fields)
    ensures HasScenarios(Trimmed(form), scenarios, fields)
  {
  }

  /** And trimming changes nothing that is saved: saving a restored form saves the same draft. */
  lemma TrimmedFormSavesTheSame(form: Form, channelCode: string, scenarios: seq<ScenarioCode>, fields: seq<FieldCode>)
    requires HasScenarios(form, scenarios, fields)
    ensures HasScenarios(Trimmed(form), scenarios, fields)
    ensures Serialized(Trimmed(form), channelCode, scenarios, fields) ==
        Serialized(form, channelCode, scenarios, fields)
  {
    TrimmedEntries(form, scenarios, fields);
  }
}
