/**
 The decision draft of `useProductInitiativeDecision`: the form, the payload it is saved as, and
 `hydrate`, `reset` and `updateRisk`. What `hydrate` takes from a formal decision besides the
 draft (the outcome, its reasons and its commitments) is left out. `Codes` holds the constant lists the
 source loops over.
 */
module InitiativeDraft {
  import opened Wrappers
  import opened Text
  import opened UnitEconomics

  datatype Codes = Codes(
    points: seq<string>, dimensions: seq<string>, risks: seq<string>, scenarios: seq<ScenarioCode>,
    fields: seq<FieldCode>)

  const CODES := Codes(
    ["target_user_and_market", "competitive_supply", "price_band_and_margin", "compliance_risk", "customer_feedback"],
    ["customer_need", "value_differentiation", "commercial_viability", "supply_technical_feasibility",
    "strategy_portfolio"],
    ["compliance", "intellectual_property", "packaging_logistics", "returns", "platform_restrictions"],
    SCENARIOS, FIELDS)

  datatype Point = Point(evidenceRefs: seq<string>, conclusion: string)
  datatype Dimension = Dimension(decision: string, conclusion: string, evidenceRefs: seq<string>,
      criticalUnknown: string)
  datatype Risk = Risk(
    riskCode: string, applicability: string, applicabilityReason: Option<string>, investmentDecision: Option<string>,
    conclusion: Option<string>, evidenceRefs: seq<string>, criticalUnknown: Option<string>)

  /** A saved risk may lack four of its fields, which is not the same as holding null there. */
  datatype SavedRisk = SavedRisk(
    riskCode: string, applicability: string, applicabilityReason: Option<Option<string>>,
    investmentDecision: Option<Option<string>>, conclusion: Option<Option<string>>, evidenceRefs: seq<string>,
    criticalUnknown: Option<Option<string>>)

  datatype SavedPoint = SavedPoint(code: string, evidenceRefs: seq<string>, conclusion: Option<string>)
  datatype SavedDimension = SavedDimension(
    code: string, decision: Option<string>, conclusion: Option<string>, evidenceRefs: seq<string>,
    criticalUnknown: Option<string>)

  /** What is saved. A formal decision may lack the later parts. */
  datatype Saved = Saved(
    objective: Option<string>, points: seq<SavedPoint>, businessCase: Option<seq<SavedDimension>>,
    risks: Option<seq<SavedRisk>>, unitEconomics: Option<SavedDraft>, negativeReason: Option<string>)

  datatype Draft = Draft(
    objective: string, points: map<string, Point>, businessCase: map<string, Dimension>, risks: map<string, Risk>,
    touched: set<string>, unitEconomics: Form, negativeReason: string)

  /** A patch of `updateRisk`; the panel never changes the code. */
  datatype Patch = Patch(
    applicability: Option<string>, applicabilityReason: Option<Option<string>>,
    investmentDecision: Option<Option<string>>,
    conclusion: Option<Option<string>>, evidenceRefs: Option<seq<string>>, criticalUnknown: Option<Option<string>>)

  const EMPTY_POINT := Point([], "")
  const EMPTY_DIMENSION := Dimension("", "", [], "")

  function EmptyRisk(code: string): Risk {
    Risk(code, "undetermined", None, None, None, [], Some(""))
  }

  // ---------------------------------------------------------------------------------------
  // Lists by code
  // ---------------------------------------------------------------------------------------

  function Map<T>(codes: seq<string>, f: string -> T): seq<T> {
    if codes == [] then [] else [f(codes[0])] + Map(codes[1..], f)
  }

  function Filter(codes: seq<string>, chosen: set<string>): seq<string> {
    if codes == [] then [] else (if codes[0] in chosen then [codes[0]] else []) + Filter(codes[1..], chosen)
  }

  /** `xs.find(x => key(x) === code)` */
  function Find<T>(xs: seq<T>, key: T -> string, code: string): (r: Option<T>)
    ensures r.Some? ==> key(r.value) == code
  {
    if xs == [] then None else if key(xs[0]) == code then Some(xs[0]) else Find(xs[1..], key, code)
  }

  lemma {:induction false} FindMapped<T>(codes: seq<string>, f: string -> T, key: T -> string, code: string)
    requires forall c | c in codes :: key(f(c)) == c
    ensures Find(Map(codes, f), key, code) == if code in codes then Some(f(code)) else None
  {
    if codes != [] {
      var xs := Map(codes, f);
      assert xs[0] == f(codes[0]) && xs[1..] == Map(codes[1..], f);
      if codes[0] != code {
        FindMapped(codes[1..], f, key, code);
        assert code in codes <==> code in codes[1..];
      }
    }
  }

  lemma {:induction false} MapAgrees<T>(codes: seq<string>, f: string -> T, g: string -> T)
    requires forall c | c in codes :: f(c) == g(c)
    ensures Map(codes, f) == Map(codes, g)
  {
    if codes != [] {
      MapAgrees(codes[1..], f, g);
    }
  }

  lemma {:induction false} FilterMembers(codes: seq<string>, chosen: set<string>, code: string)
    ensures code in Filter(codes, chosen) <==> code in codes && code in chosen
  {
    if codes != [] {
      FilterMembers(codes[1..], chosen, code);
      assert codes == [codes[0]] + codes[1..];
    }
  }

  function At<T>(m: map<string, T>, code: string, default: T): T {
    if code in m then m[code] else default
  }

  // ---------------------------------------------------------------------------------------
  // draftPayload
  // ---------------------------------------------------------------------------------------

  function SavePoint(code: string, p: Point): SavedPoint {
    SavedPoint(code, p.evidenceRefs, Filled(Trim(p.conclusion)))
  }

  function SaveDimension(code: string, d: Dimension): SavedDimension {
    SavedDimension(code, Filled(d.decision), Filled(Trim(d.conclusion)), d.evidenceRefs,
        Filled(Trim(d.criticalUnknown)))
  }

  function PointSaver(s: Draft): string -> SavedPoint {
    code => SavePoint(code, At(s.points, code, EMPTY_POINT))
  }

  function DimensionSaver(s: Draft): string -> SavedDimension {
    code => SaveDimension(code, At(s.businessCase, code, EMPTY_DIMENSION))
  }

  /** `{ ...risk }`: every field of the form is sent. */
  function SaveRisk(r: Risk): SavedRisk {
    SavedRisk(r.riskCode, r.applicability, Some(r.applicabilityReason), Some(r.investmentDecision), Some(r.conclusion),
              r.evidenceRefs, Some(r.criticalUnknown))
  }

  function RiskSaver(s: Draft): string -> SavedRisk {
    code => SaveRisk(At(s.risks, code, EmptyRisk(code)))
  }

  function PointsPayload(c: Codes, s: Draft): seq<SavedPoint> {
    Map(c.points, PointSaver(s))
  }

  function DimensionsPayload(c: Codes, s: Draft): seq<SavedDimension> {
    Map(c.dimensions, DimensionSaver(s))
  }

  /** Only the risks that were touched. */
  function RisksPayload(c: Codes, s: Draft): seq<SavedRisk> {
    Map(Filter(c.risks, s.touched), RiskSaver(s))
  }

  function Payload(c: Codes, s: Draft, channelCode: string): Saved
    requires HasScenarios(s.unitEconomics, c.scenarios, c.fields)
  {
    Saved(Filled(Trim(s.objective)), PointsPayload(c, s), Some(DimensionsPayload(c, s)), Some(RisksPayload(c, s)),
          Some(Serialized(s.unitEconomics, channelCode, c.scenarios, c.fields)), Filled(Trim(s.negativeReason)))
  }

  // ---------------------------------------------------------------------------------------
  // hydrate, reset, updateRisk
  // ---------------------------------------------------------------------------------------

  function LoadPoint(saved: Option<SavedPoint>): Point {
    if saved.None? then EMPTY_POINT else Point(saved.value.evidenceRefs, saved.value.conclusion.GetOr(""))
  }

  function LoadDimension(saved: Option<SavedDimension>): Dimension {
    if saved.None? then EMPTY_DIMENSION
    else Dimension(saved.value.decision.GetOr(""), saved.value.conclusion.GetOr(""), saved.value.evidenceRefs,
                   saved.value.criticalUnknown.GetOr(""))
  }

  function PointKey(): SavedPoint -> string {
    (p: SavedPoint) => p.code
  }

  function DimensionKey(): SavedDimension -> string {
    (d: SavedDimension) => d.code
  }

  function RiskKey(): SavedRisk -> string {
    (r: SavedRisk) => r.riskCode
  }

  function PointIn(saved: Option<Saved>, code: string): Option<SavedPoint> {
    if saved.None? then None else Find(saved.value.points, PointKey(), code)
  }

  function DimensionIn(saved: Option<Saved>, code: string): Option<SavedDimension> {
    if saved.None? || saved.value.businessCase.None? then None
    else Find(saved.value.businessCase.value, DimensionKey(), code)
  }

  function RiskIn(saved: Option<Saved>, code: string): (r: Option<SavedRisk>)
    ensures r.Some? ==> r.value.riskCode == code
  {
    if saved.None? || saved.value.risks.None? then None
    else Find(saved.value.risks.value, RiskKey(), code)
  }

  /** `Object.assign(risk, saved)`: a field the saved risk lacks stays what the form holds. */
  function Merged(r: Risk, saved: SavedRisk): Risk {
    Risk(saved.riskCode, saved.applicability, saved.applicabilityReason.GetOr(r.applicabilityReason),
         saved.investmentDecision.GetOr(r.investmentDecision), saved.conclusion.GetOr(r.conclusion), saved.evidenceRefs,
         saved.criticalUnknown.GetOr(r.criticalUnknown))
  }

  function LoadRisk(r: Risk, saved: Option<SavedRisk>, code: string): Risk {
    if saved.None? then EmptyRisk(code) else Merged(r, saved.value)
  }

  function LoadRisks(codes: seq<string>, risks: map<string, Risk>, saved: Option<Saved>): map<string, Risk> {
    map code | code in codes :: LoadRisk(At(risks, code, EmptyRisk(code)), RiskIn(saved, code), code)
  }

  /** `saved` is the saved draft, or else the formal decision, or nothing. */
  function Hydrated(c: Codes, s: Draft, saved: Option<Saved>): Draft {
    Draft(if saved.None? then "" else saved.value.objective.GetOr(""),
          map code | code in c.points :: LoadPoint(PointIn(saved, code)),
          map code | code in c.dimensions :: LoadDimension(DimensionIn(saved, code)),
          LoadRisks(c.risks, s.risks, saved),
          Marked(c.risks, s.touched, saved),
          Loaded(if saved.None? then None else saved.value.unitEconomics, c.scenarios, c.fields),
          if saved.None? then "" else saved.value.negativeReason.GetOr(""))
  }

  /** The touched risks: of those listed, the ones that were saved. */
  function Marked(codes: seq<string>, touched: set<string>, saved: Option<Saved>): set<string> {
    set code | code in touched + Named(codes) && (code in codes ==> RiskIn(saved, code).Some?)
  }

  function Named(codes: seq<string>): set<string> {
    set code | code in codes
  }

  /** An empty form; `hydrate` with nothing to load, as `reset` does. */
  function Reset(c: Codes, s: Draft): Draft {
    Hydrated(c, s, None)
  }

  function Patched(r: Risk, p: Patch): Risk {
    Risk(r.riskCode, p.applicability.GetOr(r.applicability), p.applicabilityReason.GetOr(r.applicabilityReason),
         p.investmentDecision.GetOr(r.investmentDecision), p.conclusion.GetOr(r.conclusion),
         p.evidenceRefs.GetOr(r.evidenceRefs),
         p.criticalUnknown.GetOr(r.criticalUnknown))
  }

  /** What is not given stays as it was. */
  predicate Keeps<T(==)>(before: T, given: Option<T>, after: T) {
    if given.None? then after == before else after == given.value
  }

  predicate KeepsRisk(r: Risk, p: Patch, q: Risk) {
    && q.riskCode == r.riskCode && Keeps(r.applicability, p.applicability, q.applicability)
    && Keeps(r.applicabilityReason, p.applicabilityReason, q.applicabilityReason)
    && Keeps(r.investmentDecision, p.investmentDecision, q.investmentDecision)
    && Keeps(r.conclusion, p.conclusion, q.conclusion) && Keeps(r.evidenceRefs, p.evidenceRefs, q.evidenceRefs)
    && Keeps(r.criticalUnknown, p.criticalUnknown, q.criticalUnknown)
  }

  function UpdateRisk(s: Draft, code: string, p: Patch): Draft
    requires code in s.risks
  {
    s.(touched := s.touched + {code}, risks := s.risks[code := Patched(s.risks[code], p)])
  }

  /** The risks when those of `done` have been loaded. */
  function RisksAfter(done: seq<string>, risks: map<string, Risk>, saved: Option<Saved>): map<string, Risk> {
    map code | code in risks :: if code in done then LoadRisk(risks[code], RiskIn(saved, code), code) else risks[code]
  }

  /** A code that comes a second time is loaded to the same. */
  lemma OneMoreRisk(done: seq<string>, risks: map<string, Risk>, saved: Option<Saved>, code: string)
    requires code in risks
    ensures
      var before := RisksAfter(done, risks, saved);
      RisksAfter(done + [code], risks, saved) == before[code := LoadRisk(before[code], RiskIn(saved, code), code)]
  {
    assert forall c :: c in done + [code] <==> c in done || c == code;
  }

  lemma OneMoreMark(done: seq<string>, touched: set<string>, saved: Option<Saved>, code: string)
    ensures
      var before := Marked(done, touched, saved);
      Marked(done + [code], touched, saved) == if RiskIn(saved, code).Some? then before + {code} else before - {code}
  {
    assert forall c :: c in done + [code] <==> c in done || c == code;
  }

  lemma AllRisks(codes: seq<string>, risks: map<string, Risk>, saved: Option<Saved>)
    requires risks.Keys == Named(codes)
    ensures RisksAfter(codes, risks, saved) == LoadRisks(codes, risks, saved)
  {
  }

  // ---------------------------------------------------------------------------------------
  // The composable
  // ---------------------------------------------------------------------------------------

  class DraftForm {
    const codes: Codes
    var objective: string
    var points: map<string, Point>
    var businessCase: map<string, Dimension>
    var riskAssessment: map<string, Risk>
    var touchedRiskCodes: set<string>
    var unitEconomicsDraft: Form
    var negativeConservativeReason: string

    constructor (c: Codes)
      ensures Valid() && codes == c
      ensures View() == Reset(c, Draft("", map[], map[], map[], {}, Loaded(None, c.scenarios, c.fields), ""))
    {
      codes := c;
      objective, negativeConservativeReason := "", "";
      points, businessCase, touchedRiskCodes := map[], map[], {};
      riskAssessment := map code | code in c.risks :: EmptyRisk(code);
      unitEconomicsDraft := Loaded(None, c.scenarios, c.fields);
      new;
      Hydrate(None);
    }

    /** There is a risk to merge into for every code. */
    ghost predicate Valid()
      reads this
    {
      riskAssessment.Keys == Named(codes.risks)
    }

    function View(): Draft
      reads this
    {
      Draft(objective, points, businessCase, riskAssessment, touchedRiskCodes, unitEconomicsDraft,
          negativeConservativeReason)
    }

    method HydratePoints(saved: Option<Saved>)
      modifies this`points
      ensures points == map code | code in codes.points :: LoadPoint(PointIn(saved, code))
    {
      points := map[];
      for k := 0 to |codes.points|
        invariant points == map code | code in codes.points[..k] :: LoadPoint(PointIn(saved, code))
      {
        points := points[codes.points[k] := LoadPoint(PointIn(saved, codes.points[k]))];
      }
      assert codes.points[..|codes.points|] == codes.points;
    }

    method HydrateDimensions(saved: Option<Saved>)
      modifies this`businessCase
      ensures businessCase == map code | code in codes.dimensions :: LoadDimension(DimensionIn(saved, code))
    {
      businessCase := map[];
      for k := 0 to |codes.dimensions|
        invariant businessCase == map code | code in codes.dimensions[..k] :: LoadDimension(DimensionIn(saved, code))
      {
        businessCase := businessCase[codes.dimensions[k] := LoadDimension(DimensionIn(saved, codes.dimensions[k]))];
      }
      assert codes.dimensions[..|codes.dimensions|] == codes.dimensions;
    }

    method HydrateRisk(code: string, savedRisk: Option<SavedRisk>)
      requires code in riskAssessment
      modifies this`riskAssessment, this`touchedRiskCodes
      ensures riskAssessment == old(riskAssessment)[code := LoadRisk(old(riskAssessment)[code], savedRisk, code)]
      ensures touchedRiskCodes ==
        if savedRisk.Some? then old(touchedRiskCodes) + {code} else old(touchedRiskCodes) - {code}
    {
      riskAssessment := riskAssessment[code := LoadRisk(riskAssessment[code], savedRisk, code)];
      if savedRisk.Some? {
        touchedRiskCodes := touchedRiskCodes + {code};
      } else {
        touchedRiskCodes := touchedRiskCodes - {code};
      }
    }

    method HydrateRisks(saved: Option<Saved>)
      requires Valid()
      modifies this`riskAssessment, this`touchedRiskCodes
      ensures riskAssessment == LoadRisks(codes.risks, old(riskAssessment), saved)
      ensures touchedRiskCodes == Marked(codes.risks, old(touchedRiskCodes), saved)
    {
      for k := 0 to |codes.risks|
        invariant riskAssessment == RisksAfter(codes.risks[..k], old(riskAssessment), saved)
        invariant touchedRiskCodes == Marked(codes.risks[..k], old(touchedRiskCodes), saved)
      {
        var code := codes.risks[k];
        OneMoreRisk(codes.risks[..k], old(riskAssessment), saved, code);
        OneMoreMark(codes.risks[..k], old(touchedRiskCodes), saved, code);
        assert codes.risks[..k + 1] == codes.risks[..k] + [code];
        HydrateRisk(code, RiskIn(saved, code));
      }
      assert codes.risks[..|codes.risks|] == codes.risks;
      AllRisks(codes.risks, old(riskAssessment), saved);
    }

    method Hydrate(saved: Option<Saved>)
      requires Valid()
      modifies this
      ensures Valid() && View() == Hydrated(codes, old(View()), saved)
    {
      objective := if saved.None? then "" else saved.value.objective.GetOr("");
      var savedUnitEconomics := if saved.None? then None else saved.value.unitEconomics;
      unitEconomicsDraft := UnitEconomicsDraftFrom(savedUnitEconomics, codes.scenarios, codes.fields);
      negativeConservativeReason := if saved.None? then "" else saved.value.negativeReason.GetOr("");
      HydratePoints(saved);
      HydrateDimensions(saved);
      HydrateRisks(saved);
    }

    method Update(code: string, patch: Patch)
      requires Valid() && code in riskAssessment
      modifies this`riskAssessment, this`touchedRiskCodes
      ensures Valid() && View() == UpdateRisk(old(View()), code, patch)
      ensures riskAssessment == old(riskAssessment)[code := riskAssessment[code]]
      ensures KeepsRisk(old(riskAssessment)[code], patch, riskAssessment[code])
      ensures touchedRiskCodes == old(touchedRiskCodes) + {code}
    {
      touchedRiskCodes := touchedRiskCodes + {code};
      riskAssessment := riskAssessment[code := Patched(riskAssessment[code], patch)];
    }

    method DraftPayload(channelCode: string) returns (payload: Saved)
      requires HasScenarios(unitEconomicsDraft, codes.scenarios, codes.fields)
      ensures payload == Payload(codes, View(), channelCode)
    {
      var unitEconomics := SerializeUnitEconomicsDraft(unitEconomicsDraft, channelCode, codes.scenarios, codes.fields);
      payload := Saved(Filled(Trim(objective)), PointsPayload(codes, View()), Some(DimensionsPayload(codes, View())),
                       Some(RisksPayload(codes, View())), Some(unitEconomics),
                       Filled(Trim(negativeConservativeReason)));
    }
  }
}
