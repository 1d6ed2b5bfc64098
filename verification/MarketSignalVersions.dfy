/**
 Exactly when a signal is listed, and from which version on. Each step drops some ids and brings
 some signals; what is listed after a run is decided by what was brought since the last drop.
 */
module MarketSignalVersions {
  import opened Wrappers
  import opened MarketSignals
  import opened MarketSignalRuns

  /** `id` is listed in version `v` or a later one; with version 0, it is listed. */
  predicate AtLeast(ss: seq<Scenario>, id: string, v: nat) {
    Listed(ss, id) && Version(ss, id) >= v
  }

  ghost predicate Has(xs: seq<Scenario>, id: string, v: nat) {
    exists x | x in xs :: x.id == id && x.version >= v
  }

  /** A reply carries `id` in version `v` or a later one. */
  predicate Carries(items: seq<Signal>, id: string, v: nat) {
    exists s | s in items :: s.id == id && s.version >= v
  }

  // ---------------------------------------------------------------------------------------
  // What a reply carries
  // ---------------------------------------------------------------------------------------

  function Items(results: seq<ListResult>): seq<Signal> {
    if results == [] then []
    else
      var last := results[|results| - 1];
      Items(results[..|results| - 1]) + (if last.Fulfilled? then last.page.items else [])
  }

  /** The signals that a page of opportunities stands for: those of the details that were read, else its own. */
  function HandedOverSignals(os: seq<Opportunity>, details: map<string, Detail>): seq<Signal> {
    seq(|os|, i requires 0 <= i < |os| => HandedOverSignal(os[i], os[i].signalId, details))
  }

  function HandedOverSignal(o: Opportunity, id: string, details: map<string, Detail>): Signal {
    if id in details then details[id].signal else SignalFromOpportunity(o)
  }

  function ProjectedSignals(projected: Option<OpportunityPage>, details: map<string, Detail>): seq<Signal> {
    if projected.Some? then HandedOverSignals(projected.value.opportunities, details) else []
  }

  /** The responsibility group is still the one the reload asked about. */
  predicate ProjectionFits(q: Queue, responsibilityGeneration: nat) {
    PageOf(q.pages, AwaitingSelectionAcceptance).generation == responsibilityGeneration
  }

  function ReloadedSignals(q: Queue, generation: nat, results: seq<ListResult>,
          projected: Option<OpportunityPage>): seq<Signal>
  {
    (if LegacyPage(results).Some? then LegacyPage(results).value.items else Items(results)) +
    (if ProjectionFits(q, generation) then ProjectedSignals(projected, q.details) else [])
  }

  function PageItems(page: Option<ListPage>): seq<Signal> {
    if page.Some? then page.value.items else []
  }

  predicate GroupApplied(q: Queue, r: Request, page: Option<ListPage>) {
    r.Group? && page.Some? && PageOf(q.pages, r.destination).generation == r.generation
  }

  predicate MoreApplied(q: Queue, r: Request) {
    r.More? && PageOf(q.pages, r.destination).generation == r.generation
  }

  /** A detail is shown as the signal unless a later version is listed. */
  predicate DetailApplied(q: Queue, r: Request, detail: Option<Detail>) {
    && r.DetailRead? && Token(q, r.id) == r.token && detail.Some?
    && !(Listed(q.signals, r.id) && Version(q.signals, r.id) > detail.value.signal.version)
  }

  /** The signals that the step puts on the list, unless they are there in a later version. */
  function Brought(s: System, e: Event): seq<Signal> {
    var q := s.q;
    match e
    case ListsReply(r, results) =>
      if AppliesReload(s, e) then ReloadedSignals(q, r.responsibilityGeneration, results, None) else []
    case ResponsibilitiesReply(r, projected) =>
      if !AppliesReload(s, e) then []
      else if r.legacy then
        (if |r.results| > 0 && r.results[0].Fulfilled? then r.results[0].page.items else [])
        + ProjectedSignals(projected, q.details)
      else ReloadedSignals(q, r.responsibilityGeneration, r.results, projected)
    case GroupReply(r, page) => if GroupApplied(q, r, page) then page.value.items else []
    case MoreReply(r, page) => if MoreApplied(q, r) then PageItems(page) else []
    case MoreOpportunitiesReply(r, projected) =>
      if MoreApplied(q, r) then ProjectedSignals(projected, q.details) else []
    case LegacyMoreReply(_, page) => PageItems(page)
    case DetailReply(r, detail, _) => if DetailApplied(q, r, detail) then [detail.value.signal] else []
    case DecisionReply(signal, _) => [signal]
    case RefreshReply(r, o) => if r.Refresh? && o.Some? then [HandedOverSignal(o.value, r.id, q.details)] else []
    case SupplementReply(signal) => [signal]
    case RegisterReply(signal) => [signal]
    case _ => []
  }

  /** The reply to a retry of the group that shows `id`, without `id` on it. */
  predicate DroppedByGroup(q: Queue, r: Request, page: Option<ListPage>, id: string) {
    && GroupApplied(q, r, page) && Listed(q.signals, id)
    && Find(q.signals, id).value.state == r.destination && !Incoming(page.value.items, id)
  }

  /** The step takes `id` off the list: a whole reload, or the retry of a group that no longer has it. */
  predicate Drops(s: System, e: Event, id: string) {
    AppliesReload(s, e) || (e.GroupReply? && DroppedByGroup(s.q, e.request, e.page, id))
  }

  predicate Brings(s: System, e: Event, id: string, v: nat) {
    Carries(Brought(s, e), id, v)
  }

  // ---------------------------------------------------------------------------------------
  // Upserts
  // ---------------------------------------------------------------------------------------

  lemma UpsertAtLeast(ss: seq<Scenario>, x: Scenario, id: string, v: nat)
    ensures AtLeast(Upsert(ss, x), id, v) <==> AtLeast(ss, id, v) || (x.id == id && x.version >= v)
  {
    FindUpserted(ss, x, id);
  }

  lemma HasAppended(xs: seq<Scenario>, x: Scenario, id: string, v: nat)
    ensures Has(xs + [x], id, v) <==> Has(xs, id, v) || (x.id == id && x.version >= v)
  {
    assert x in xs + [x];
    assert forall y :: y in xs ==> y in xs + [x];
  }

  lemma {:induction false} UpsertAllAtLeast(ss: seq<Scenario>, xs: seq<Scenario>, id: string, v: nat)
    ensures AtLeast(UpsertAll(ss, xs), id, v) <==> AtLeast(ss, id, v) || Has(xs, id, v)
  {
    if xs != [] {
      var front, last := xs[..|xs| - 1], xs[|xs| - 1];
      UpsertAllAtLeast(ss, front, id, v);
      UpsertAtLeast(UpsertAll(ss, front), last, id, v);
      HasAppended(front, last, id, v);
      assert xs == front + [last];
    }
  }

  /** Scenarios that show the signals, whatever details and responsibilities add. */
  ghost predicate Show(xs: seq<Scenario>, items: seq<Signal>) {
    |xs| == |items| && forall i | 0 <= i < |xs| :: xs[i].id == items[i].id && xs[i].version == items[i].version
  }

  lemma ShownHas(xs: seq<Scenario>, items: seq<Signal>, id: string, v: nat)
    requires Show(xs, items)
    ensures Has(xs, id, v) <==> Carries(items, id, v)
  {
    if Has(xs, id, v) {
      var x :| x in xs && x.id == id && x.version >= v;
      var i :| 0 <= i < |xs| && xs[i] == x;
      assert items[i] in items;
    }
    if Carries(items, id, v) {
      var s :| s in items && s.id == id && s.version >= v;
      var i :| 0 <= i < |items| && items[i] == s;
      assert xs[i] in xs;
    }
  }

  lemma UpsertAllBrings(ss: seq<Scenario>, xs: seq<Scenario>, items: seq<Signal>, id: string, v: nat)
    requires Show(xs, items)
    ensures AtLeast(UpsertAll(ss, xs), id, v) <==> AtLeast(ss, id, v) || Carries(items, id, v)
  {
    UpsertAllAtLeast(ss, xs, id, v);
    ShownHas(xs, items, id, v);
  }

  lemma UpsertBrings(ss: seq<Scenario>, x: Scenario, signal: Signal, id: string, v: nat)
    requires Show([x], [signal])
    ensures AtLeast(Upsert(ss, x), id, v) <==> AtLeast(ss, id, v) || Carries([signal], id, v)
  {
    UpsertAllBrings(ss, [x], [signal], id, v);
    assert UpsertAll(ss, [x]) == Upsert(UpsertAll(ss, []), x);
  }

  lemma SignalsBring(q: Queue, items: seq<Signal>, id: string, v: nat)
    ensures AtLeast(UpsertSignals(q, items).signals, id, v) <==> AtLeast(q.signals, id, v) || Carries(items, id, v)
  {
    UpsertAllBrings(q.signals, Scenarios(items, q.details, q.responsibilities), items, id, v);
  }

  lemma ProjectionBrings(q: Queue, p: OpportunityPage, replace: bool, id: string, v: nat)
    ensures AtLeast(ApplyResponsibilityPage(q, p, replace).signals, id, v) <==>
      AtLeast(q.signals, id, v) || Carries(ProjectedSignals(Some(p), q.details), id, v)
  {
    var os := p.opportunities;
    UpsertAllBrings(q.signals, Projected(os, q.details), HandedOverSignals(os, q.details), id, v);
  }

  lemma CarriesAppended(xs: seq<Signal>, ys: seq<Signal>, id: string, v: nat)
    ensures Carries(xs + ys, id, v) <==> Carries(xs, id, v) || Carries(ys, id, v)
  {
  }

  // ---------------------------------------------------------------------------------------
  // Reloads
  // ---------------------------------------------------------------------------------------

  lemma {:induction false} ListsBring(q: Queue, results: seq<ListResult>, id: string, v: nat)
    requires |results| <= |MARKET_DESTINATIONS|
    ensures AtLeast(ApplyLists(q, results).signals, id, v)
        <==> AtLeast(q.signals, id, v) || Carries(Items(results), id, v)
  {
    if results != [] {
      var front, last := results[..|results| - 1], results[|results| - 1];
      ListsBring(q, front, id, v);
      CarriesAppended(Items(front), PageItems(if last.Fulfilled? then Some(last.page) else None), id, v);
      if last.Fulfilled? {
        SignalsBring(ApplyLists(q, front), last.page.items, id, v);
      }
    }
  }

  lemma {:induction false} ListsKeepDetails(q: Queue, results: seq<ListResult>)
    requires |results| <= |MARKET_DESTINATIONS|
    ensures ApplyLists(q, results).details == q.details
    ensures PageOf(ApplyLists(q, results).pages, AwaitingSelectionAcceptance) ==
        PageOf(q.pages, AwaitingSelectionAcceptance)
  {
    if results != [] {
      ListsKeepDetails(q, results[..|results| - 1]);
    }
  }

  lemma {:induction false} RenewalKeeps(pages: map<State, Page>, ds: seq<State>, d: State)
    requires d !in ds
    ensures PageOf(RenewAll(pages, ds), d) == PageOf(pages, d)
  {
    if ds != [] {
      assert d !in ds[..|ds| - 1];
      RenewalKeeps(pages, ds[..|ds| - 1], d);
    }
  }

  function Adopted(q: Queue, results: seq<ListResult>): Queue
    requires |results| <= |MARKET_DESTINATIONS|
  {
    if LegacyPage(results).Some? then AdoptLegacy(q, LegacyPage(results).value) else AdoptGroups(q, results)
  }

  lemma AdoptedKeeps(q: Queue, results: seq<ListResult>)
    requires |results| <= |MARKET_DESTINATIONS|
    ensures Adopted(q, results).details == q.details
    ensures forall generation :: ProjectionFits(Adopted(q, results), generation) <==> ProjectionFits(q, generation)
  {
    ListsKeepDetails(q.(legacyActive := false, legacyCursor := None, signals := []), results);
    RenewalKeeps(q.pages, MARKET_DESTINATIONS, AwaitingSelectionAcceptance);
  }

  lemma AdoptedBrings(q: Queue, results: seq<ListResult>, id: string, v: nat)
    requires |results| <= |MARKET_DESTINATIONS|
    ensures AtLeast(Adopted(q, results).signals, id, v) <==>
      Carries(if LegacyPage(results).Some? then LegacyPage(results).value.items else Items(results), id, v)
  {
    if LegacyPage(results).Some? {
      UpsertAllBrings([], Scenarios(LegacyPage(results).value.items, q.details, q.responsibilities),
                      LegacyPage(results).value.items, id, v);
    } else {
      ListsBring(q.(legacyActive := false, legacyCursor := None, signals := []), results, id, v);
    }
  }

  lemma ReloadBrings(q: Queue, generation: nat, results: seq<ListResult>, projected: Option<OpportunityPage>,
          id: string, v: nat)
    requires |results| <= |MARKET_DESTINATIONS|
    ensures AtLeast(ApplyReload(q, generation, results, projected).signals, id, v) <==>
      Carries(ReloadedSignals(q, generation, results, projected), id, v)
  {
    AdoptedKeeps(q, results);
    AdoptedBrings(q, results, id, v);
    CarriesAppended(if LegacyPage(results).Some? then LegacyPage(results).value.items else Items(results),
                    if ProjectionFits(q, generation) then ProjectedSignals(projected, q.details) else [], id, v);
    if projected.Some? {
      ProjectionBrings(Adopted(q, results), projected.value, true, id, v);
    }
  }

  // ---------------------------------------------------------------------------------------
  // One step
  // ---------------------------------------------------------------------------------------

  ghost predicate Decides(s: System, e: Event, id: string, v: nat)
    requires Enabled(s, e)
  {
    AtLeast(Step(s, e).q.signals, id, v) <==> Brings(s, e, id, v) || (AtLeast(s.q.signals, id, v) && !Drops(s, e, id))
  }

  lemma ListsReplyDecides(s: System, e: Event, id: string, v: nat)
    requires Enabled(s, e) && e.ListsReply?
    ensures Decides(s, e, id, v)
  {
    ReloadBrings(s.q, e.request.responsibilityGeneration, e.results, None, id, v);
  }

  lemma LegacyReloadBrings(q: Queue, page: ListPage, p: OpportunityPage, id: string, v: nat)
    ensures
      var emptied := q.(legacyCursor := page.nextCursor, signals := []);
      AtLeast(ApplyResponsibilityPage(UpsertSignals(emptied, page.items), p, true).signals, id, v) <==>
      Carries(page.items + ProjectedSignals(Some(p), q.details), id, v)
  {
    var emptied := q.(legacyCursor := page.nextCursor, signals := []);
    SignalsBring(emptied, page.items, id, v);
    ProjectionBrings(UpsertSignals(emptied, page.items), p, true, id, v);
    CarriesAppended(page.items, ProjectedSignals(Some(p), q.details), id, v);
  }

  lemma ResponsibilitiesReplyDecides(s: System, e: Event, id: string, v: nat)
    requires Enabled(s, e) && e.ResponsibilitiesReply?
    ensures Decides(s, e, id, v)
  {
    var r := e.request;
    if AppliesReload(s, e) {
      if r.legacy {
        LegacyReloadBrings(s.q, r.results[0].page, e.projected.value, id, v);
      } else {
        ReloadBrings(s.q, r.responsibilityGeneration, r.results, e.projected, id, v);
      }
    }
  }

  lemma KeptDecides(ss: seq<Scenario>, d: State, items: seq<Signal>, id: string)
    requires DistinctIds(ss)
    ensures Find(Kept(ss, d, items), id) ==
      if Listed(ss, id) && Find(ss, id).value.state == d && !Incoming(items, id) then None else Find(ss, id)
  {
    KeptFromDistinct(ss, d, items);
    if Listed(ss, id) {
      assert Find(ss, id).value in Kept(ss, d, items) <==> Find(ss, id).value.state != d || Incoming(items, id);
    }
  }

  lemma ReplacedDecides(q: Queue, d: State, items: seq<Signal>, id: string, v: nat)
    requires DistinctIds(q.signals)
    ensures AtLeast(ReplaceDestination(q, d, items).signals, id, v) <==>
      || Carries(items, id, v)
      || (AtLeast(q.signals, id, v) && !(Find(q.signals, id).value.state == d && !Incoming(items, id)))
  {
    SignalsBring(q.(signals := Kept(q.signals, d, items)), items, id, v);
    KeptDecides(q.signals, d, items, id);
  }

  lemma GroupReplyDecides(s: System, e: Event, id: string, v: nat)
    requires Enabled(s, e) && e.GroupReply? && DistinctIds(s.q.signals)
    ensures Decides(s, e, id, v)
  {
    var r := e.request;
    if GroupApplied(s.q, r, e.page) {
      var p, page := PageOf(s.q.pages, r.destination), e.page.value;
      var written := s.q.(pages := WritePage(s.q.pages, r.destination, r.identity, page.nextCursor, p.loadingMore));
      ReplacedDecides(written, r.destination, page.items, id, v);
    }
  }

  lemma PageDecides(s: System, e: Event, id: string, v: nat)
    requires Enabled(s, e) && (e.MoreReply? || e.LegacyMoreReply?)
    ensures Decides(s, e, id, v)
  {
    if e.page.Some? {
      SignalsBring(s.q, e.page.value.items, id, v);
    }
  }

  lemma OpportunitiesDecide(s: System, e: Event, id: string, v: nat)
    requires Enabled(s, e) && e.MoreOpportunitiesReply?
    ensures Decides(s, e, id, v)
  {
    if e.projected.Some? {
      ProjectionBrings(s.q, e.projected.value, false, id, v);
    }
  }

  lemma DetailDecides(s: System, e: Event, id: string, v: nat)
    requires Enabled(s, e) && e.DetailReply?
    ensures Decides(s, e, id, v)
  {
    var r := e.request;
    if Token(s.q, r.id) == r.token && e.detail.Some? {
      var detail, current := e.detail.value, Find(s.q.signals, r.id);
      var opportunity := Get(Answerable(s.q.responsibilities, r.id, e.found), r.id);
      if DetailApplied(s.q, r, e.detail) {
        UpsertBrings(s.q.signals, ToScenario(detail.signal, Some(detail), opportunity), detail.signal, id, v);
      } else {
        FindUpserted(s.q.signals, Enrich(current.value, detail, opportunity), id);
      }
    }
  }

  lemma SavedDecides(s: System, e: Event, id: string, v: nat)
    requires Enabled(s, e) && (e.DecisionReply? || e.SupplementReply?)
    ensures Decides(s, e, id, v)
  {
    var next := ToScenario(e.signal, Get(s.q.details, e.signal.id), Get(s.q.responsibilities, e.signal.id));
    UpsertBrings(s.q.signals, next, e.signal, id, v);
  }

  lemma RefreshDecides(s: System, e: Event, id: string, v: nat)
    requires Enabled(s, e) && e.RefreshReply?
    ensures Decides(s, e, id, v)
  {
    if e.opportunity.Some? {
      var o, detail := e.opportunity.value, Get(s.q.details, e.request.id);
      var signal := HandedOverSignal(o, e.request.id, s.q.details);
      UpsertBrings(s.q.signals, ToScenario(signal, detail, Some(o)), signal, id, v);
    }
  }

  lemma RegisterDecides(s: System, e: Event, id: string, v: nat)
    requires Enabled(s, e) && e.RegisterReply? && !ListsTwice(s, e)
    ensures Decides(s, e, id, v)
  {
    var after := Step(s, e).q.signals;
    assert after[1..] == s.q.signals;
    assert after[0].id == e.signal.id && after[0].version == e.signal.version;
  }

  /**
   After any step an id is listed in version `v` or a later one exactly if the applied reply brings it
   so, or it was listed so before and is not dropped.
   */
  lemma StepDecides(s: System, e: Event, id: string, v: nat)
    requires Enabled(s, e) && DistinctIds(s.q.signals) && !ListsTwice(s, e)
    ensures AtLeast(Step(s, e).q.signals, id, v) <==>
      Brings(s, e, id, v) || (AtLeast(s.q.signals, id, v) && !Drops(s, e, id))
  {
    match e
    case ListsReply(_, _) => ListsReplyDecides(s, e, id, v);
    case ResponsibilitiesReply(_, _) => ResponsibilitiesReplyDecides(s, e, id, v);
    case GroupReply(_, _) => GroupReplyDecides(s, e, id, v);
    case MoreReply(_, _) => PageDecides(s, e, id, v);
    case MoreOpportunitiesReply(_, _) => OpportunitiesDecide(s, e, id, v);
    case LegacyMoreReply(_, _) => PageDecides(s, e, id, v);
    case DetailReply(_, _, _) => DetailDecides(s, e, id, v);
    case DecisionReply(_, _) => SavedDecides(s, e, id, v);
    case SupplementReply(_) => SavedDecides(s, e, id, v);
    case RefreshReply(_, _) => RefreshDecides(s, e, id, v);
    case RegisterReply(_) => RegisterDecides(s, e, id, v);
    case _ => StartLeavesSignals(s, e);
  }

  /**
   A step shows an id below version `v` exactly if it brings the id or leaves it listed, but neither
   in version `v` nor in a later one.
   */
  lemma StepShowsBelowExactly(s: System, e: Event, id: string, v: nat)
    requires Enabled(s, e) && DistinctIds(s.q.signals) && !ListsTwice(s, e)
    ensures Listed(Step(s, e).q.signals, id) && Version(Step(s, e).q.signals, id) < v <==>
      && !Brings(s, e, id, v) && !(AtLeast(s.q.signals, id, v) && !Drops(s, e, id))
      && (Brings(s, e, id, 0) || (Listed(s.q.signals, id) && !Drops(s, e, id)))
  {
    StepDecides(s, e, id, v);
    StepDecides(s, e, id, 0);
  }

  // ---------------------------------------------------------------------------------------
  // Whole runs
  // ---------------------------------------------------------------------------------------

  ghost predicate NeverDropped(s: System, es: seq<Event>, t: System, id: string)
    requires Run(s, es, t)
    decreases |es|
  {
    es != [] ==> !Drops(s, es[0], id) && NeverDropped(Step(s, es[0]), es[1..], t, id)
  }

  /** Some step brings `id` in version `v` or a later one, and no step after it drops `id`. */
  ghost predicate BroughtSince(s: System, es: seq<Event>, t: System, id: string, v: nat)
    requires Run(s, es, t)
    decreases |es|
  {
    && es != []
    && var s' := Step(s, es[0]);
       (Brings(s, es[0], id, v) && NeverDropped(s', es[1..], t, id)) || BroughtSince(s', es[1..], t, id, v)
  }

  /** After any run an id is listed from version `v` on exactly if it was so brought since it was last dropped. */
  lemma {:induction false} RunDecides(s: System, es: seq<Event>, t: System, id: string, v: nat)
    requires CleanRun(s, es, t) && DistinctIds(s.q.signals)
    ensures Run(s, es, t)
    ensures AtLeast(t.q.signals, id, v) <==>
      BroughtSince(s, es, t, id, v) || (AtLeast(s.q.signals, id, v) && NeverDropped(s, es, t, id))
    decreases |es|
  {
    if es != [] {
      NoStepFallsBehind(s, es[0]);
      StepDecides(s, es[0], id, v);
      RunDecides(Step(s, es[0]), es[1..], t, id, v);
    }
  }
}
