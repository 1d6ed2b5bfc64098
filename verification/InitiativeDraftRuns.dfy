/** Any sequence of edits, loads and resets of the form, and what saving it and loading it again gives. */
module InitiativeDraftRuns {
  import opened Wrappers
  import opened Text
  import opened UnitEconomics
  import opened InitiativeDraft

  datatype Event =
    | EditTexts(objective: string, negativeReason: string)
    | EditPoint(pointCode: string, point: Point)
    | EditDimension(dimensionCode: string, dimension: Dimension)
    | EditUnitEconomics(form: Form)
    | EditRisk(riskCode: string, patch: Patch)
    | Load(saved: Option<Saved>)
    | Clear

  ghost predicate Enabled(c: Codes, e: Event) {
    match e
    case EditPoint(code, _) => code in c.points
    case EditDimension(code, _) => code in c.dimensions
    case EditRisk(code, _) => code in c.risks
    case EditUnitEconomics(form) => HasScenarios(form, c.scenarios, c.fields)
    case _ => true
  }

  ghost predicate Shaped(c: Codes, s: Draft) {
    && s.points.Keys == Named(c.points) && s.businessCase.Keys == Named(c.dimensions) && s.risks.Keys == Named(c.risks)
    && HasScenarios(s.unitEconomics, c.scenarios, c.fields)
  }

  function Step(c: Codes, s: Draft, e: Event): Draft
    requires e.EditRisk? ==> e.riskCode in s.risks
  {
    match e
    case EditTexts(objective, negativeReason) => s.(objective := objective, negativeReason := negativeReason)
    case EditPoint(code, point) => s.(points := s.points[code := point])
    case EditDimension(code, dimension) => s.(businessCase := s.businessCase[code := dimension])
    case EditUnitEconomics(form) => s.(unitEconomics := form)
    case EditRisk(code, patch) => UpdateRisk(s, code, patch)
    case Load(saved) => Hydrated(c, s, saved)
    case Clear => Reset(c, s)
  }

  /** Each risk is filed under its own code, and one that was not touched is empty. */
  ghost predicate RisksInv(c: Codes, s: Draft) {
    && s.touched <= Named(c.risks)
    && (forall code | code in s.risks :: s.risks[code].riskCode == code)
    && (forall code | code in s.risks && code !in s.touched :: s.risks[code] == EmptyRisk(code))
  }

  ghost predicate Inv(c: Codes, s: Draft) {
    Shaped(c, s) && RisksInv(c, s)
  }

  ghost predicate Run(c: Codes, s: Draft, es: seq<Event>, t: Draft)
    requires Shaped(c, s)
    decreases |es|
  {
    if es == [] then s == t
    else Enabled(c, es[0]) && (StepShaped(c, s, es[0]); Run(c, Step(c, s, es[0]), es[1..], t))
  }

  lemma LoadedIsComplete(c: Codes, source: Option<SavedDraft>)
    ensures HasScenarios(Loaded(source, c.scenarios, c.fields), c.scenarios, c.fields)
  {
  }

  lemma StepShaped(c: Codes, s: Draft, e: Event)
    requires Shaped(c, s) && Enabled(c, e)
    ensures Shaped(c, Step(c, s, e))
  {
    if e.Load? {
      LoadedIsComplete(c, if e.saved.None? then None else e.saved.value.unitEconomics);
    }
    LoadedIsComplete(c, None);
  }

  lemma HydratedKeepsInv(c: Codes, s: Draft, saved: Option<Saved>)
    requires s.touched <= Named(c.risks)
    ensures Inv(c, Hydrated(c, s, saved))
  {
    LoadedIsComplete(c, if saved.None? then None else saved.value.unitEconomics);
  }

  lemma StepKeepsInv(c: Codes, s: Draft, e: Event)
    requires Inv(c, s) && Enabled(c, e)
    ensures Inv(c, Step(c, s, e))
  {
    match e
    case Load(saved) => HydratedKeepsInv(c, s, saved);
    case Clear => HydratedKeepsInv(c, s, None);
    case _ => StepShaped(c, s, e);
  }

  lemma {:induction false} RunKeepsInv(c: Codes, s: Draft, es: seq<Event>, t: Draft)
    requires Inv(c, s) && Run(c, s, es, t)
    ensures Inv(c, t)
    decreases |es|
  {
    if es != [] {
      StepKeepsInv(c, s, es[0]);
      RunKeepsInv(c, Step(c, s, es[0]), es[1..], t);
    }
  }

  // ---------------------------------------------------------------------------------------
  // Saving and loading again
  // ---------------------------------------------------------------------------------------

  function TrimmedPoint(p: Point): Point {
    p.(conclusion := Trim(p.conclusion))
  }

  function TrimmedDimension(d: Dimension): Dimension {
    d.(conclusion := Trim(d.conclusion), criticalUnknown := Trim(d.criticalUnknown))
  }

  function TrimmedDraft(s: Draft): Draft {
    s.(objective := Trim(s.objective), negativeReason := Trim(s.negativeReason),
       points := map code | code in s.points :: TrimmedPoint(s.points[code]),
       businessCase := map code | code in s.businessCase :: TrimmedDimension(s.businessCase[code]),
       unitEconomics := Trimmed(s.unitEconomics))
  }

  lemma PointRestored(c: Codes, s: Draft, saved: Saved, code: string)
    requires Shaped(c, s) && code in c.points && saved.points == PointsPayload(c, s)
    ensures LoadPoint(PointIn(Some(saved), code)) == TrimmedPoint(s.points[code])
  {
    FindMapped(c.points, PointSaver(s), PointKey(), code);
  }

  lemma DimensionRestored(c: Codes, s: Draft, saved: Saved, code: string)
    requires Shaped(c, s) && code in c.dimensions && saved.businessCase == Some(DimensionsPayload(c, s))
    ensures LoadDimension(DimensionIn(Some(saved), code)) == TrimmedDimension(s.businessCase[code])
  {
    FindMapped(c.dimensions, DimensionSaver(s), DimensionKey(), code);
  }

  lemma RiskRestored(c: Codes, s: Draft, saved: Saved, code: string)
    requires Inv(c, s) && code in c.risks && saved.risks == Some(RisksPayload(c, s))
    ensures RiskIn(Some(saved), code) == if code in s.touched then Some(SaveRisk(s.risks[code])) else None
  {
    var chosen := Filter(c.risks, s.touched);
    forall k | k in chosen ensures RiskKey()(RiskSaver(s)(k)) == k {
      FilterMembers(c.risks, s.touched, k);
    }
    FindMapped(chosen, RiskSaver(s), RiskKey(), code);
    FilterMembers(c.risks, s.touched, code);
  }

  lemma PointsRestored(c: Codes, s: Draft, t: Draft, saved: Saved)
    requires Shaped(c, s) && saved.points == PointsPayload(c, s)
    ensures Hydrated(c, t, Some(saved)).points == TrimmedDraft(s).points
  {
    forall code | code in c.points ensures LoadPoint(PointIn(Some(saved), code)) == TrimmedPoint(s.points[code]) {
      PointRestored(c, s, saved, code);
    }
  }

  lemma DimensionsRestored(c: Codes, s: Draft, t: Draft, saved: Saved)
    requires Shaped(c, s) && saved.businessCase == Some(DimensionsPayload(c, s))
    ensures Hydrated(c, t, Some(saved)).businessCase == TrimmedDraft(s).businessCase
  {
    forall code | code in c.dimensions
      ensures LoadDimension(DimensionIn(Some(saved), code)) == TrimmedDimension(s.businessCase[code])
    {
      DimensionRestored(c, s, saved, code);
    }
  }

  lemma MarksRestored(c: Codes, s: Draft, touched: set<string>, saved: Saved)
    requires Inv(c, s) && touched <= Named(c.risks) && saved.risks == Some(RisksPayload(c, s))
    ensures Marked(c.risks, touched, Some(saved)) == s.touched
  {
    forall code | code in c.risks ensures RiskIn(Some(saved), code).Some? <==> code in s.touched {
      RiskRestored(c, s, saved, code);
    }
  }

  lemma RisksRestored(c: Codes, s: Draft, t: Draft, saved: Saved)
    requires Inv(c, s) && saved.risks == Some(RisksPayload(c, s))
    ensures Hydrated(c, t, Some(saved)).risks == s.risks
  {
    forall code | code in c.risks
      ensures LoadRisk(At(t.risks, code, EmptyRisk(code)), RiskIn(Some(saved), code), code) == s.risks[code]
    {
      RiskRestored(c, s, saved, code);
    }
  }

  /** Loading a saved draft, over whatever the form holds, restores exactly the form that was saved, trimmed. */
  lemma SavedDraftRestored(c: Codes, s: Draft, t: Draft, channelCode: string)
    requires Inv(c, s) && t.touched <= Named(c.risks)
    ensures Hydrated(c, t, Some(Payload(c, s, channelCode))) == TrimmedDraft(s)
  {
    var saved := Payload(c, s, channelCode);
    PointsRestored(c, s, t, saved);
    DimensionsRestored(c, s, t, saved);
    RisksRestored(c, s, t, saved);
    MarksRestored(c, s, t.touched, saved);
    SavedFormRestored(s.unitEconomics, channelCode, c.scenarios, c.fields);
  }

  lemma TrimmedSavesTheSame(c: Codes, s: Draft, channelCode: string)
    requires Shaped(c, s)
    ensures HasScenarios(TrimmedDraft(s).unitEconomics, c.scenarios, c.fields)
    ensures Payload(c, TrimmedDraft(s), channelCode) == Payload(c, s, channelCode)
  {
    var t := TrimmedDraft(s);
    forall code | code in c.points ensures PointSaver(t)(code) == PointSaver(s)(code) {
      TrimIdempotent(s.points[code].conclusion);
    }
    MapAgrees(c.points, PointSaver(t), PointSaver(s));
    forall code | code in c.dimensions ensures DimensionSaver(t)(code) == DimensionSaver(s)(code) {
      TrimIdempotent(s.businessCase[code].conclusion);
      TrimIdempotent(s.businessCase[code].criticalUnknown);
    }
    MapAgrees(c.dimensions, DimensionSaver(t), DimensionSaver(s));
    MapAgrees(Filter(c.risks, s.touched), RiskSaver(t), RiskSaver(s));
    TrimIdempotent(s.objective);
    TrimIdempotent(s.negativeReason);
    TrimmedFormSavesTheSame(s.unitEconomics, channelCode, c.scenarios, c.fields);
  }

  /** So what is saved after any run, loaded and saved again, is the same payload. */
  lemma PayloadRoundTrip(c: Codes, start: Draft, es: seq<Event>, s: Draft, t: Draft, channelCode: string)
    requires Inv(c, start) && Run(c, start, es, s) && t.touched <= Named(c.risks)
    ensures HasScenarios(s.unitEconomics, c.scenarios, c.fields)
    ensures var p := Payload(c, s, channelCode);
      && HasScenarios(Hydrated(c, t, Some(p)).unitEconomics, c.scenarios, c.fields)
      && Hydrated(c, t, Some(p)) == TrimmedDraft(s)
      && Payload(c, Hydrated(c, t, Some(p)), channelCode) == p
  {
    RunKeepsInv(c, start, es, s);
    SavedDraftRestored(c, s, t, channelCode);
    TrimmedSavesTheSame(c, s, channelCode);
  }

  // ---------------------------------------------------------------------------------------
  // When a load forgets the form
  // ---------------------------------------------------------------------------------------

  predicate Complete(r: SavedRisk) {
    r.applicabilityReason.Some? && r.investmentDecision.Some? && r.conclusion.Some? && r.criticalUnknown.Some?
  }

  /** The risk that is loaded for each code carries all four fields that may be absent. */
  ghost predicate RisksComplete(c: Codes, saved: Option<Saved>) {
    forall code | code in c.risks :: RiskIn(saved, code).Some? ==> Complete(RiskIn(saved, code).value)
  }

  /** Whatever the form held, loading gives the same. */
  ghost predicate LoadForgets(c: Codes, saved: Option<Saved>) {
    forall s, t | Inv(c, s) && Inv(c, t) :: Hydrated(c, s, saved) == Hydrated(c, t, saved)
  }

  /** The edit that fills all four fields in with `text`. */
  function Filling(text: string): Patch {
    Patch(None, Some(Some(text)), Some(Some(text)), Some(Some(text)), None, Some(Some(text)))
  }

  function EmptyForm(c: Codes): Draft {
    Reset(c, Draft("", map[], map[], map[], {}, Loaded(None, c.scenarios, c.fields), ""))
  }

  /** The empty form with one risk filled in. */
  function FilledForm(c: Codes, code: string, text: string): Draft
    requires code in c.risks
  {
    UpdateRisk(EmptyForm(c), code, Filling(text))
  }

  lemma FilledFormInv(c: Codes, code: string, text: string)
    requires code in c.risks
    ensures Inv(c, FilledForm(c, code, text))
  {
    HydratedKeepsInv(c, Draft("", map[], map[], map[], {}, Loaded(None, c.scenarios, c.fields), ""), None);
    StepKeepsInv(c, EmptyForm(c), EditRisk(code, Filling(text)));
  }

  lemma MergedShows(code: string, a: string, b: string, saved: SavedRisk)
    requires a != b && !Complete(saved)
    ensures Merged(Patched(EmptyRisk(code), Filling(a)), saved) != Merged(Patched(EmptyRisk(code), Filling(b)), saved)
  {
  }

  lemma LoadedRisk(c: Codes, s: Draft, saved: Option<Saved>, code: string)
    requires code in c.risks && code in s.risks && RiskIn(saved, code).Some?
    ensures Hydrated(c, s, saved).risks[code] == Merged(s.risks[code], RiskIn(saved, code).value)
  {
  }

  lemma IncompleteShows(c: Codes, saved: Option<Saved>, code: string)
    requires code in c.risks && RiskIn(saved, code).Some? && !Complete(RiskIn(saved, code).value)
    ensures !LoadForgets(c, saved)
  {
    var s, t := FilledForm(c, code, "a"), FilledForm(c, code, "b");
    FilledFormInv(c, code, "a");
    FilledFormInv(c, code, "b");
    assert "a"[0] != "b"[0];
    MergedShows(code, "a", "b", RiskIn(saved, code).value);
    LoadedRisk(c, s, saved, code);
    LoadedRisk(c, t, saved, code);
  }

  lemma CompleteForgets(c: Codes, saved: Option<Saved>, s: Draft, t: Draft)
    requires RisksComplete(c, saved) && Inv(c, s) && Inv(c, t)
    ensures Hydrated(c, s, saved) == Hydrated(c, t, saved)
  {
    assert Marked(c.risks, s.touched, saved) == Marked(c.risks, t.touched, saved);
    assert LoadRisks(c.risks, s.risks, saved) == LoadRisks(c.risks, t.risks, saved);
  }

  /** A load is independent of what the form held exactly if each risk it loads carries every field. */
  lemma LoadForgetsExactly(c: Codes, saved: Option<Saved>)
    ensures LoadForgets(c, saved) <==> RisksComplete(c, saved)
  {
    if RisksComplete(c, saved) {
      forall s, t | Inv(c, s) && Inv(c, t) ensures Hydrated(c, s, saved) == Hydrated(c, t, saved) {
        CompleteForgets(c, saved, s, t);
      }
    } else {
      var code :| code in c.risks && RiskIn(saved, code).Some? && !Complete(RiskIn(saved, code).value);
      IncompleteShows(c, saved, code);
    }
  }

  /** What the form itself has saved carries every field. */
  lemma PayloadIsComplete(c: Codes, s: Draft, channelCode: string)
    requires Inv(c, s)
    ensures RisksComplete(c, Some(Payload(c, s, channelCode)))
  {
    forall code | code in c.risks && RiskIn(Some(Payload(c, s, channelCode)), code).Some?
      ensures Complete(RiskIn(Some(Payload(c, s, channelCode)), code).value)
    {
      RiskRestored(c, s, Payload(c, s, channelCode), code);
    }
  }

  /** One saved risk without a conclusion: the conclusion of the form that was open before stays. */
  lemma OldConclusionStays(c: Codes, code: string)
    requires code in c.risks
    ensures
      var risk := SavedRisk(code, "undetermined", None, None, None, [], Some(Some("x")));
      var saved := Some(Saved(None, [], None, Some([risk]), None, None));
      && Hydrated(c, FilledForm(c, code, "A"), saved).risks[code].conclusion == Some("A")
      && Hydrated(c, EmptyForm(c), saved).risks[code].conclusion == None
  {
    var risk := SavedRisk(code, "undetermined", None, None, None, [], Some(Some("x")));
    var saved := Some(Saved(None, [], None, Some([risk]), None, None));
    assert RiskIn(saved, code) == Some(risk);
    LoadedRisk(c, FilledForm(c, code, "A"), saved, code);
    LoadedRisk(c, EmptyForm(c), saved, code);
  }
}
