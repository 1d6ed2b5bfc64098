/** What a saved draft holds and what a load shows, field by field, for every form and every saved draft. */
module InitiativeDraftContents {
  import opened Wrappers
  import opened Text
  import opened UnitEconomics
  import opened InitiativeDraft
  import opened InitiativeDraftRuns

  // ---------------------------------------------------------------------------------------
  // Saving
  // ---------------------------------------------------------------------------------------

  /** A text is saved without the blanks around it, and a blank one as nothing. */
  ghost predicate SavesText(text: string, saved: Option<string>) {
    if Text.Blank(text) then saved.None? else saved.Some? && TrimmedTo(text, saved.value)
  }

  /** A choice is saved as it is, and none as nothing. */
  predicate SavesChoice(choice: string, saved: Option<string>) {
    if choice == "" then saved.None? else saved == Some(choice)
  }

  lemma TextSaved(text: string)
    ensures SavesText(text, Filled(Trim(text)))
  {
    TrimmedAwayExactly(text);
    TrimIs(text, Trim(text));
  }

  ghost predicate SavesPoint(code: string, p: Point, q: SavedPoint) {
    q.code == code && q.evidenceRefs == p.evidenceRefs && SavesText(p.conclusion, q.conclusion)
  }

  ghost predicate SavesDimension(code: string, d: Dimension, q: SavedDimension) {
    && q.code == code && SavesChoice(d.decision, q.decision) && SavesText(d.conclusion, q.conclusion)
    && q.evidenceRefs == d.evidenceRefs && SavesText(d.criticalUnknown, q.criticalUnknown)
  }

  /** A risk is saved as it is, with each of the fields that may be absent. */
  predicate SavesRisk(r: Risk, q: SavedRisk) {
    && q.riskCode == r.riskCode && q.applicability == r.applicability && q.evidenceRefs == r.evidenceRefs
    && q.applicabilityReason == Some(r.applicabilityReason) && q.investmentDecision == Some(r.investmentDecision)
    && q.conclusion == Some(r.conclusion) && q.criticalUnknown == Some(r.criticalUnknown)
  }

  /** One for each code, in their order. */
  ghost predicate SavesPoints(codes: seq<string>, points: map<string, Point>, saved: seq<SavedPoint>)
    requires forall code | code in codes :: code in points
  {
    |saved| == |codes| && forall k | 0 <= k < |codes| :: SavesPoint(codes[k], points[codes[k]], saved[k])
  }

  ghost predicate SavesDimensions(codes: seq<string>, dimensions: map<string, Dimension>, saved: seq<SavedDimension>)
    requires forall code | code in codes :: code in dimensions
  {
    |saved| == |codes| && forall k | 0 <= k < |codes| :: SavesDimension(codes[k], dimensions[codes[k]], saved[k])
  }

  /** How many of the first `k` codes are chosen. */
  function Rank(codes: seq<string>, chosen: set<string>, k: nat): nat
    requires k <= |codes|
  {
    if k == 0 then 0 else Rank(codes, chosen, k - 1) + if codes[k - 1] in chosen then 1 else 0
  }

  /** One for each touched code, in the order of the codes. */
  ghost predicate SavesRisks(codes: seq<string>, touched: set<string>, risks: map<string, Risk>, saved: seq<SavedRisk>)
    requires forall code | code in codes :: code in risks
  {
    && |saved| == Rank(codes, touched, |codes|)
    && forall k | 0 <= k < |codes| && codes[k] in touched ::
      var i := Rank(codes, touched, k);
      i < |saved| && SavesRisk(risks[codes[k]], saved[i])
  }

  /** Nothing was entered. */
  predicate Untouched(r: Range) {
    Text.Blank(r.min) && Text.Blank(r.max) && r.basis.None? && r.evidenceRefs == []
  }

  ghost predicate SavesRange(r: Range, saved: SavedRange) {
    && SavesText(r.min, saved.min) && SavesText(r.max, saved.max) && saved.basis == r.basis
    && saved.evidenceRefs == if r.basis.None? && r.evidenceRefs == [] then None else Some(r.evidenceRefs)
  }

  /** A field is saved exactly if something was entered for it. */
  ghost predicate SavesFields(fields: seq<FieldCode>, ranges: map<FieldCode, Range>, saved: map<FieldCode, SavedRange>)
    requires forall f | f in fields :: f in ranges
  {
    && (forall f :: f in saved <==> f in fields && !Untouched(ranges[f]))
    && forall f | f in saved :: SavesRange(ranges[f], saved[f])
  }

  /** Something was entered in the scenario. */
  ghost predicate Entered(fields: seq<FieldCode>, ranges: map<FieldCode, Range>)
    requires forall f | f in fields :: f in ranges
  {
    exists f :: f in fields && !Untouched(ranges[f])
  }

  ghost predicate SavesUnitEconomics(c: Codes, form: Form, channelCode: string, saved: SavedDraft)
    requires HasScenarios(form, c.scenarios, c.fields)
  {
    && SavesChoice(channelCode, saved.channelCode) && SavesChoice(form.currencyCode, saved.currencyCode)
    && (saved.scenarios.Some? <==> exists s :: s in c.scenarios && Entered(c.fields, form.scenarios[s]))
    && (saved.scenarios.Some? ==>
      && (forall s :: s in saved.scenarios.value <==> s in c.scenarios && Entered(c.fields, form.scenarios[s]))
      && forall s | s in saved.scenarios.value ::
        SavesFields(c.fields, form.scenarios[s], saved.scenarios.value[s]))
  }

  lemma {:induction false} Mapped<T>(codes: seq<string>, f: string -> T, k: nat)
    requires k < |codes|
    ensures |Map(codes, f)| == |codes| && Map(codes, f)[k] == f(codes[k])
  {
    MappedLength(codes, f);
    if k > 0 {
      Mapped(codes[1..], f, k - 1);
    }
  }

  lemma {:induction false} MappedLength<T>(codes: seq<string>, f: string -> T)
    ensures |Map(codes, f)| == |codes|
  {
    if codes != [] {
      MappedLength(codes[1..], f);
    }
  }

  lemma {:induction false} RankOfRest(codes: seq<string>, chosen: set<string>, k: nat)
    requires 0 < k <= |codes|
    ensures Rank(codes, chosen, k) == Rank(codes[1..], chosen, k - 1) + if codes[0] in chosen then 1 else 0
  {
    if k > 1 {
      RankOfRest(codes, chosen, k - 1);
    }
  }

  lemma {:induction false} FilteredLength(codes: seq<string>, chosen: set<string>)
    ensures |Filter(codes, chosen)| == Rank(codes, chosen, |codes|)
  {
    if codes != [] {
      FilteredLength(codes[1..], chosen);
      RankOfRest(codes, chosen, |codes|);
    }
  }

  lemma {:induction false} Filtered(codes: seq<string>, chosen: set<string>, k: nat)
    requires k < |codes| && codes[k] in chosen
    ensures var i := Rank(codes, chosen, k); i < |Filter(codes, chosen)| && Filter(codes, chosen)[i] == codes[k]
  {
    if k > 0 {
      Filtered(codes[1..], chosen, k - 1);
      RankOfRest(codes, chosen, k);
    }
  }

  lemma PointsSaved(c: Codes, s: Draft)
    requires Shaped(c, s)
    ensures SavesPoints(c.points, s.points, PointsPayload(c, s))
  {
    MappedLength(c.points, PointSaver(s));
    forall k | 0 <= k < |c.points| ensures SavesPoint(c.points[k], s.points[c.points[k]], PointsPayload(c, s)[k]) {
      Mapped(c.points, PointSaver(s), k);
      TextSaved(s.points[c.points[k]].conclusion);
    }
  }

  lemma DimensionSaved(code: string, d: Dimension)
    ensures SavesDimension(code, d, SaveDimension(code, d))
  {
    TextSaved(d.conclusion);
    TextSaved(d.criticalUnknown);
  }

  lemma DimensionsSaved(c: Codes, s: Draft)
    requires Shaped(c, s)
    ensures SavesDimensions(c.dimensions, s.businessCase, DimensionsPayload(c, s))
  {
    MappedLength(c.dimensions, DimensionSaver(s));
    forall k | 0 <= k < |c.dimensions|
      ensures SavesDimension(c.dimensions[k], s.businessCase[c.dimensions[k]], DimensionsPayload(c, s)[k])
    {
      Mapped(c.dimensions, DimensionSaver(s), k);
      DimensionSaved(c.dimensions[k], s.businessCase[c.dimensions[k]]);
    }
  }

  lemma RisksSaved(c: Codes, s: Draft)
    requires Shaped(c, s)
    ensures SavesRisks(c.risks, s.touched, s.risks, RisksPayload(c, s))
  {
    var chosen := Filter(c.risks, s.touched);
    FilteredLength(c.risks, s.touched);
    MappedLength(chosen, RiskSaver(s));
    forall k | 0 <= k < |c.risks| && c.risks[k] in s.touched
      ensures
        var i := Rank(c.risks, s.touched, k);
        i < |chosen| && SavesRisk(s.risks[c.risks[k]], RisksPayload(c, s)[i])
    {
      Filtered(c.risks, s.touched, k);
      Mapped(chosen, RiskSaver(s), Rank(c.risks, s.touched, k));
    }
  }

  lemma RangeSaved(r: Range)
    ensures SaveField(r).None? <==> Untouched(r)
    ensures SaveField(r).Some? ==> SavesRange(r, SaveField(r).value)
  {
    TrimmedAwayExactly(r.min);
    TrimmedAwayExactly(r.max);
    TextSaved(r.min);
    TextSaved(r.max);
  }

  lemma FieldsSaved(fields: seq<FieldCode>, ranges: map<FieldCode, Range>)
    requires forall f | f in fields :: f in ranges
    ensures SavesFields(fields, ranges, Collect(fields, FieldEntries(ranges)))
    ensures Collect(fields, FieldEntries(ranges)) == map[] <==> !Entered(fields, ranges)
  {
    var saved := Collect(fields, FieldEntries(ranges));
    forall f
      ensures f in saved <==> f in fields && !Untouched(ranges[f])
      ensures f in saved ==> SavesRange(ranges[f], saved[f])
    {
      Collected(fields, FieldEntries(ranges), f);
      if f in fields {
        RangeSaved(ranges[f]);
      }
    }
    if saved == map[] {
      assert forall f | f in fields :: f !in saved;
    }
  }

  lemma ScenariosSaved(c: Codes, form: Form, s: ScenarioCode)
    requires HasScenarios(form, c.scenarios, c.fields)
    ensures
      var saved := Collect(c.scenarios, ScenarioEntries(form, c.fields));
      && (s in saved <==> s in c.scenarios && Entered(c.fields, form.scenarios[s]))
      && (s in saved ==> SavesFields(c.fields, form.scenarios[s], saved[s]))
  {
    Collected(c.scenarios, ScenarioEntries(form, c.fields), s);
    if s in c.scenarios {
      FieldsSaved(c.fields, form.scenarios[s]);
    }
  }

  lemma UnitEconomicsSaved(c: Codes, form: Form, channelCode: string)
    requires HasScenarios(form, c.scenarios, c.fields)
    ensures SavesUnitEconomics(c, form, channelCode, Serialized(form, channelCode, c.scenarios, c.fields))
  {
    var saved := Collect(c.scenarios, ScenarioEntries(form, c.fields));
    forall s
      ensures s in saved <==> s in c.scenarios && Entered(c.fields, form.scenarios[s])
      ensures s in saved ==> SavesFields(c.fields, form.scenarios[s], saved[s])
    {
      ScenariosSaved(c, form, s);
    }
    assert saved == map[] <==> forall s :: s !in saved;
  }

  /**
   After any run, the payload holds exactly what was entered: each text trimmed, each list in the
   order of its codes.
   */
  lemma PayloadSaysTheForm(c: Codes, start: Draft, es: seq<Event>, s: Draft, channelCode: string)
    requires Inv(c, start) && Run(c, start, es, s)
    ensures Shaped(c, s)
    ensures
      var p := Payload(c, s, channelCode);
      && SavesText(s.objective, p.objective) && SavesText(s.negativeReason, p.negativeReason)
      && SavesPoints(c.points, s.points, p.points)
      && p.businessCase.Some? && SavesDimensions(c.dimensions, s.businessCase, p.businessCase.value)
      && p.risks.Some? && SavesRisks(c.risks, s.touched, s.risks, p.risks.value)
      && p.unitEconomics.Some? && SavesUnitEconomics(c, s.unitEconomics, channelCode, p.unitEconomics.value)
  {
    RunKeepsInv(c, start, es, s);
    TextSaved(s.objective);
    TextSaved(s.negativeReason);
    PointsSaved(c, s);
    DimensionsSaved(c, s);
    RisksSaved(c, s);
    UnitEconomicsSaved(c, s.unitEconomics, channelCode);
  }

  // ---------------------------------------------------------------------------------------
  // Loading
  // ---------------------------------------------------------------------------------------

  /** A field that was not saved shows as an empty text. */
  predicate ShowsText(saved: Option<string>, text: string) {
    if saved.None? then text == "" else text == saved.value
  }

  /** The first saved point of a code is shown, or an empty one. */
  ghost predicate ShowsPoint(saved: seq<SavedPoint>, code: string, p: Point) {
    if exists i: nat :: FirstPoint(saved, code, i) then
      exists i: nat :: FirstPoint(saved, code, i)
        && p.evidenceRefs == saved[i].evidenceRefs && ShowsText(saved[i].conclusion, p.conclusion)
    else p.evidenceRefs == [] && p.conclusion == ""
  }

  predicate FirstPoint(saved: seq<SavedPoint>, code: string, i: nat) {
    i < |saved| && saved[i].code == code && forall j | 0 <= j < i :: saved[j].code != code
  }

  ghost predicate ShowsDimension(saved: seq<SavedDimension>, code: string, d: Dimension) {
    if exists i: nat :: FirstDimension(saved, code, i) then
      exists i: nat :: FirstDimension(saved, code, i)
        && ShowsText(saved[i].decision, d.decision) && ShowsText(saved[i].conclusion, d.conclusion)
        && d.evidenceRefs == saved[i].evidenceRefs && ShowsText(saved[i].criticalUnknown, d.criticalUnknown)
    else d.decision == "" && d.conclusion == "" && d.evidenceRefs == [] && d.criticalUnknown == ""
  }

  predicate FirstDimension(saved: seq<SavedDimension>, code: string, i: nat) {
    i < |saved| && saved[i].code == code && forall j | 0 <= j < i :: saved[j].code != code
  }

  /** A field the saved risk lacks stays what it was. */
  predicate ShowsSavedRisk(before: Risk, saved: SavedRisk, after: Risk) {
    && after.riskCode == saved.riskCode && after.applicability == saved.applicability
    && after.evidenceRefs == saved.evidenceRefs
    && Keeps(before.applicabilityReason, saved.applicabilityReason, after.applicabilityReason)
    && Keeps(before.investmentDecision, saved.investmentDecision, after.investmentDecision)
    && Keeps(before.conclusion, saved.conclusion, after.conclusion)
    && Keeps(before.criticalUnknown, saved.criticalUnknown, after.criticalUnknown)
  }

  predicate IsBlankRisk(r: Risk, code: string) {
    && r.riskCode == code && r.applicability == "undetermined" && r.evidenceRefs == []
    && r.applicabilityReason.None? && r.investmentDecision.None? && r.conclusion.None? && r.criticalUnknown == Some("")
  }

  predicate FirstRisk(saved: seq<SavedRisk>, code: string, i: nat) {
    i < |saved| && saved[i].riskCode == code && forall j | 0 <= j < i :: saved[j].riskCode != code
  }

  /** The first saved risk of a code is merged into the one of the form, which counts as touched exactly then. */
  ghost predicate ShowsRisk(before: Risk, saved: seq<SavedRisk>, code: string, after: Risk, touched: bool) {
    if exists i: nat :: FirstRisk(saved, code, i) then
      touched && exists i: nat :: FirstRisk(saved, code, i) && ShowsSavedRisk(before, saved[i], after)
    else !touched && IsBlankRisk(after, code)
  }

  predicate ShowsRange(saved: Option<SavedRange>, r: Range) {
    if saved.None? then r.min == "" && r.max == "" && r.basis.None? && r.evidenceRefs == []
    else
      && ShowsText(saved.value.min, r.min) && ShowsText(saved.value.max, r.max) && r.basis == saved.value.basis
      && r.evidenceRefs == if saved.value.evidenceRefs.None? then [] else saved.value.evidenceRefs.value
  }

  /** The saved range of a field of a scenario. */
  function SavedRangeOf(saved: Option<SavedDraft>, s: ScenarioCode, f: FieldCode): Option<SavedRange> {
    if saved.Some? && saved.value.scenarios.Some? && s in saved.value.scenarios.value
      && f in saved.value.scenarios.value[s]
    then Some(saved.value.scenarios.value[s][f])
    else None
  }

  ghost predicate ShowsUnitEconomics(c: Codes, saved: Option<SavedDraft>, form: Form) {
    && ShowsText(if saved.None? then None else saved.value.currencyCode, form.currencyCode)
    && HasScenarios(form, c.scenarios, c.fields)
    && forall s, f | s in c.scenarios && f in c.fields :: ShowsRange(SavedRangeOf(saved, s, f), form.scenarios[s][f])
  }

  lemma {:induction false} FoundFirst<T>(xs: seq<T>, key: T -> string, code: string) returns (i: nat)
    ensures Find(xs, key, code).None? ==> forall j | 0 <= j < |xs| :: key(xs[j]) != code
    ensures Find(xs, key, code).Some? ==>
      && i < |xs| && Find(xs, key, code).value == xs[i] && key(xs[i]) == code
      && forall j | 0 <= j < i :: key(xs[j]) != code
  {
    i := 0;
    if xs != [] && key(xs[0]) != code {
      var k := FoundFirst(xs[1..], key, code);
      i := k + 1;
      assert forall j | 0 < j < |xs| :: xs[j] == xs[1..][j - 1];
    }
  }

  lemma PointShown(saved: seq<SavedPoint>, code: string)
    ensures ShowsPoint(saved, code, LoadPoint(Find(saved, PointKey(), code)))
  {
    var i := FoundFirst(saved, PointKey(), code);
    if Find(saved, PointKey(), code).Some? {
      assert FirstPoint(saved, code, i);
    }
  }

  lemma DimensionShown(saved: seq<SavedDimension>, code: string)
    ensures ShowsDimension(saved, code, LoadDimension(Find(saved, DimensionKey(), code)))
  {
    var i := FoundFirst(saved, DimensionKey(), code);
    if Find(saved, DimensionKey(), code).Some? {
      assert FirstDimension(saved, code, i);
    }
  }

  lemma RiskShown(before: Risk, saved: seq<SavedRisk>, code: string)
    ensures var found := Find(saved, RiskKey(), code);
      ShowsRisk(before, saved, code, LoadRisk(before, found, code), found.Some?)
  {
    var i := FoundFirst(saved, RiskKey(), code);
    if Find(saved, RiskKey(), code).Some? {
      assert FirstRisk(saved, code, i);
    }
  }

  function PointsOf(saved: Option<Saved>): seq<SavedPoint> {
    if saved.None? then [] else saved.value.points
  }

  function DimensionsOf(saved: Option<Saved>): seq<SavedDimension> {
    if saved.None? || saved.value.businessCase.None? then [] else saved.value.businessCase.value
  }

  function RisksOf(saved: Option<Saved>): seq<SavedRisk> {
    if saved.None? || saved.value.risks.None? then [] else saved.value.risks.value
  }

  ghost predicate ShowsRisks(c: Codes, s: Draft, saved: seq<SavedRisk>, t: Draft)
    requires Shaped(c, s) && Shaped(c, t)
  {
    forall code | code in c.risks :: ShowsRisk(s.risks[code], saved, code, t.risks[code], code in t.touched)
  }

  lemma PointsShown(c: Codes, s: Draft, saved: Option<Saved>, code: string)
    requires code in c.points
    ensures ShowsPoint(PointsOf(saved), code, Hydrated(c, s, saved).points[code])
  {
    PointShown(PointsOf(saved), code);
    assert PointIn(saved, code) == Find(PointsOf(saved), PointKey(), code);
  }

  lemma DimensionsShown(c: Codes, s: Draft, saved: Option<Saved>, code: string)
    requires code in c.dimensions
    ensures ShowsDimension(DimensionsOf(saved), code, Hydrated(c, s, saved).businessCase[code])
  {
    DimensionShown(DimensionsOf(saved), code);
    assert DimensionIn(saved, code) == Find(DimensionsOf(saved), DimensionKey(), code);
  }

  lemma RisksShown(c: Codes, s: Draft, saved: Option<Saved>, code: string)
    requires code in c.risks && code in s.risks
    ensures var t := Hydrated(c, s, saved);
      ShowsRisk(s.risks[code], RisksOf(saved), code, t.risks[code], code in t.touched)
  {
    RiskShown(s.risks[code], RisksOf(saved), code);
    assert RiskIn(saved, code) == Find(RisksOf(saved), RiskKey(), code);
  }

  lemma UnitEconomicsShown(c: Codes, saved: Option<SavedDraft>)
    ensures ShowsUnitEconomics(c, saved, Loaded(saved, c.scenarios, c.fields))
  {
    LoadedIsComplete(c, saved);
  }

  /** A load shows, over any form, exactly what was saved, and what was not saved as empty; risks are merged. */
  lemma LoadShowsTheSaved(c: Codes, s: Draft, saved: Option<Saved>)
    requires Inv(c, s)
    ensures Shaped(c, Hydrated(c, s, saved))
    ensures
      var t := Hydrated(c, s, saved);
      && ShowsText(if saved.None? then None else saved.value.objective, t.objective)
      && ShowsText(if saved.None? then None else saved.value.negativeReason, t.negativeReason)
      && (forall code | code in c.points :: ShowsPoint(PointsOf(saved), code, t.points[code]))
      && (forall code | code in c.dimensions :: ShowsDimension(DimensionsOf(saved), code, t.businessCase[code]))
      && ShowsRisks(c, s, RisksOf(saved), t)
      && ShowsUnitEconomics(c, if saved.None? then None else saved.value.unitEconomics, t.unitEconomics)
  {
    HydratedKeepsInv(c, s, saved);
    forall code | code in c.points ensures ShowsPoint(PointsOf(saved), code, Hydrated(c, s, saved).points[code]) {
      PointsShown(c, s, saved, code);
    }
    forall code | code in c.dimensions
      ensures ShowsDimension(DimensionsOf(saved), code, Hydrated(c, s, saved).businessCase[code])
    {
      DimensionsShown(c, s, saved, code);
    }
    forall code | code in c.risks
      ensures var t := Hydrated(c, s, saved);
        ShowsRisk(s.risks[code], RisksOf(saved), code, t.risks[code], code in t.touched)
    {
      RisksShown(c, s, saved, code);
    }
    UnitEconomicsShown(c, if saved.None? then None else saved.value.unitEconomics);
  }
}
