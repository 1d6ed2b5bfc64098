/** What the listed scenarios show, and of which signal, detail and opportunity. */
module MarketSignalScenes {
  import opened Wrappers
  import opened Text
  import opened MarketSignals
  import opened MarketSignalPages
  import opened MarketSignalRuns
  import opened MarketSignalVersions

  /** A signal together with what was known of it when it was put on the list. */
  datatype Source = Source(signal: Signal, detail: Option<Detail>, opportunity: Option<Opportunity>)

  // ---------------------------------------------------------------------------------------
  // What a scenario shows
  // ---------------------------------------------------------------------------------------

  /** Handed off, with an opportunity for which the market still answers. */
  predicate AwaitsAcceptance(src: Source) {
    src.signal.destination == HandedOff && src.opportunity.Some? && src.opportunity.value.retainedByMarket
  }

  predicate HasBlankSource(evidence: seq<Evidence>) {
    exists e | e in evidence :: Blank(e.sourceName)
  }

  /** The pending codes, then the source name exactly if some evidence has none. */
  predicate GapsOf(pending: seq<string>, evidence: seq<Evidence>, gaps: seq<Gap>) {
    && |gaps| == |pending| + (if HasBlankSource(evidence) then 1 else 0)
    && (forall i | 0 <= i < |pending| :: gaps[i] == PendingField(pending[i]))
    && (HasBlankSource(evidence) ==> gaps[|pending|] == SourceName)
  }

  predicate ReasonOf(src: Source, returned: string, reason: Reason) {
    if returned != "" then reason == SentBack(returned)
    else if AwaitsAcceptance(src) then
      reason == if src.opportunity.value.assignedActor == "" then HandedOver
                else Claimed(src.opportunity.value.assignedActor)
    else reason == ByDestination(src.signal.destination)
  }

  /** The scenario shows the signal in its state, with the evidence and, if there is one, the reason it was returned. */
  predicate Shows(x: Scenario, src: Source, evidence: seq<Evidence>, returned: string) {
    && x.id == src.signal.id && x.version == src.signal.version && x.facts == src.signal.facts
    && x.responsibility == src.opportunity && x.evidence == evidence
    && x.state == (if AwaitsAcceptance(src) then AwaitingSelectionAcceptance else src.signal.destination)
    && GapsOf(src.signal.pending, evidence, x.gaps) && ReasonOf(src, returned, x.reason)
  }

  /** It shows all that was known. */
  predicate ShowsAll(x: Scenario, src: Source) {
    if src.detail.None? then Shows(x, src, [], "")
    else Shows(x, src, src.detail.value.evidence, src.detail.value.returnReason)
  }

  lemma BlankSources(evidence: seq<Evidence>)
    ensures LacksSourceName(evidence) <==> HasBlankSource(evidence)
  {
    forall e | e in evidence ensures Trim(e.sourceName) == "" <==> Blank(e.sourceName) {
      TrimmedAwayExactly(e.sourceName);
    }
  }

  lemma BuiltShows(s: Signal, detail: Option<Detail>, opportunity: Option<Opportunity>)
    ensures ShowsAll(ToScenario(s, detail, opportunity), Source(s, detail, opportunity))
  {
    BlankSources(if detail.Some? then detail.value.evidence else []);
  }

  // ---------------------------------------------------------------------------------------
  // Where a step takes scenarios from
  // ---------------------------------------------------------------------------------------

  predicate KnownTo(q: Queue, src: Source) {
    src.detail == Get(q.details, src.signal.id) && src.opportunity == Get(q.responsibilities, src.signal.id)
  }

  predicate FromItems(q: Queue, items: seq<Signal>, src: Source) {
    src.signal in items && KnownTo(q, src)
  }

  ghost predicate FromLists(q: Queue, results: seq<ListResult>, src: Source) {
    exists r | r in results :: r.Fulfilled? && FromItems(q, r.page.items, src)
  }

  /** The signal of the detail that was read, or else the handed-off signal of the opportunity. */
  predicate FromOne(q: Queue, o: Opportunity, id: string, src: Source) {
    && src.opportunity == Some(o) && src.detail == Get(q.details, id)
    && src.signal == (if src.detail.Some? then src.detail.value.signal
                      else Signal(o.signalId, o.signalVersion, HandedOff, o.facts, o.pending))
  }

  ghost predicate FromProjected(q: Queue, projected: Option<OpportunityPage>, src: Source) {
    projected.Some? && exists o | o in projected.value.opportunities :: FromOne(q, o, o.signalId, src)
  }

  ghost predicate IsSource(s: System, e: Event, src: Source) {
    match e
    case ListsReply(_, results) => FromLists(s.q, results, src)
    case ResponsibilitiesReply(r, projected) =>
      r.Responsibilities? && (FromLists(s.q, r.results, src) || FromProjected(s.q, projected, src))
    case GroupReply(_, page) => page.Some? && FromItems(s.q, page.value.items, src)
    case MoreReply(_, page) => page.Some? && FromItems(s.q, page.value.items, src)
    case MoreOpportunitiesReply(_, projected) => FromProjected(s.q, projected, src)
    case LegacyMoreReply(_, page) => page.Some? && FromItems(s.q, page.value.items, src)
    case DetailReply(r, detail, found) =>
      && r.DetailRead? && detail.Some? && src.detail == detail && src.signal == detail.value.signal
      && src.opportunity == (if found.Some? then found.value else Get(s.q.responsibilities, r.id))
    case DecisionReply(signal, _) => src.signal == signal && KnownTo(s.q, src)
    case SupplementReply(signal) => src.signal == signal && KnownTo(s.q, src)
    case RefreshReply(r, o) => r.Refresh? && o.Some? && FromOne(s.q, o.value, r.id, src)
    case RegisterReply(signal) => src == Source(signal, None, None)
    case _ => false
  }

  /** `x` is `y` with the evidence of an older detail, the gap that leaves, and the reason it was returned, if any. */
  ghost predicate EnrichedBy(x: Scenario, y: Scenario, detail: Detail) {
    && y.version > detail.signal.version && x.evidence == detail.evidence
    && x.reason == (if detail.returnReason != "" then SentBack(detail.returnReason) else y.reason)
    && x == y.(evidence := x.evidence, reason := x.reason, gaps := x.gaps)
    && forall pending :: GapsOf(pending, y.evidence, y.gaps) ==> GapsOf(pending, x.evidence, x.gaps)
  }

  ghost predicate Enriches(s: System, e: Event, x: Scenario) {
    && e.DetailReply? && e.detail.Some? && e.request.DetailRead?
    && exists y | y in s.q.signals :: y.id == e.request.id && EnrichedBy(x, y, e.detail.value)
  }

  ghost predicate NewlyShown(s: System, e: Event, x: Scenario) {
    exists src :: IsSource(s, e, src) && ShowsAll(x, src)
  }

  ghost predicate Explained(s: System, e: Event, x: Scenario) {
    x in s.q.signals || NewlyShown(s, e, x) || Enriches(s, e, x)
  }

  // ---------------------------------------------------------------------------------------
  // Upserts add what they are given
  // ---------------------------------------------------------------------------------------

  lemma UpsertAdds(ss: seq<Scenario>, next: Scenario, x: Scenario)
    requires x in Upsert(ss, next)
    ensures x in ss || x == next
  {
  }

  lemma {:induction false} UpsertAllAdds(ss: seq<Scenario>, nexts: seq<Scenario>, x: Scenario)
    requires x in UpsertAll(ss, nexts)
    ensures x in ss || x in nexts
  {
    if nexts != [] {
      var front, last := nexts[..|nexts| - 1], nexts[|nexts| - 1];
      UpsertAdds(UpsertAll(ss, front), last, x);
      if x != last {
        UpsertAllAdds(ss, front, x);
      }
    }
  }

  lemma ItemsAdd(q: Queue, items: seq<Signal>, x: Scenario)
    requires x in UpsertSignals(q, items).signals
    ensures x in q.signals || exists src :: FromItems(q, items, src) && ShowsAll(x, src)
  {
    var nexts := Scenarios(items, q.details, q.responsibilities);
    UpsertAllAdds(q.signals, nexts, x);
    if x !in q.signals {
      var i :| 0 <= i < |nexts| && nexts[i] == x;
      var src := Source(items[i], Get(q.details, items[i].id), Get(q.responsibilities, items[i].id));
      BuiltShows(src.signal, src.detail, src.opportunity);
      assert FromItems(q, items, src);
    }
  }

  lemma OneAdds(q: Queue, o: Opportunity, id: string) returns (src: Source)
    ensures FromOne(q, o, id, src) && ShowsAll(FromRead(o, Get(q.details, id)), src)
  {
    var detail := Get(q.details, id);
    var signal := if detail.Some? then detail.value.signal
                  else Signal(o.signalId, o.signalVersion, HandedOff, o.facts, o.pending);
    src := Source(signal, detail, Some(o));
    BuiltShows(signal, detail, Some(o));
  }

  lemma ProjectionAdds(q: Queue, p: OpportunityPage, replace: bool, x: Scenario)
    requires x in ApplyResponsibilityPage(q, p, replace).signals
    ensures x in q.signals || exists src :: FromProjected(q, Some(p), src) && ShowsAll(x, src)
  {
    var nexts := Projected(p.opportunities, q.details);
    UpsertAllAdds(q.signals, nexts, x);
    if x !in q.signals {
      var i :| 0 <= i < |nexts| && nexts[i] == x;
      var src := OneAdds(q, p.opportunities[i], p.opportunities[i].signalId);
      assert FromProjected(q, Some(p), src);
    }
  }

  // ---------------------------------------------------------------------------------------
  // Reloads
  // ---------------------------------------------------------------------------------------

  lemma SameKnowledge(q: Queue, p: Queue, items: seq<Signal>, src: Source)
    requires p.details == q.details && p.responsibilities == q.responsibilities && FromItems(p, items, src)
    ensures FromItems(q, items, src)
  {
  }

  lemma {:induction false} ListsKeepKnowledge(q: Queue, results: seq<ListResult>)
    requires |results| <= |MARKET_DESTINATIONS|
    ensures ApplyLists(q, results).details == q.details
    ensures ApplyLists(q, results).responsibilities == q.responsibilities
  {
    if results != [] {
      ListsKeepKnowledge(q, results[..|results| - 1]);
    }
  }

  lemma {:induction false} ListsAdd(q: Queue, results: seq<ListResult>, x: Scenario)
    requires |results| <= |MARKET_DESTINATIONS| && q.signals == [] && x in ApplyLists(q, results).signals
    ensures exists src :: FromLists(q, results, src) && ShowsAll(x, src)
  {
    if results != [] {
      var front, last := results[..|results| - 1], results[|results| - 1];
      var p := ApplyLists(q, front);
      ListsKeepKnowledge(q, front);
      if last.Fulfilled? && x !in p.signals {
        ItemsAdd(p, last.page.items, x);
        var src :| FromItems(p, last.page.items, src) && ShowsAll(x, src);
        SameKnowledge(q, p, last.page.items, src);
        assert FromLists(q, results, src);
      } else {
        ListsAdd(q, front, x);
        var src :| FromLists(q, front, src) && ShowsAll(x, src);
        assert FromLists(q, results, src);
      }
    }
  }

  lemma AdoptedAdds(q: Queue, results: seq<ListResult>, x: Scenario)
    requires |results| <= |MARKET_DESTINATIONS| && x in Adopted(q, results).signals
    ensures exists src :: FromLists(q, results, src) && ShowsAll(x, src)
  {
    if LegacyPage(results).Some? {
      var page := LegacyPage(results).value;
      var i := LegacyPageIsTheFirst(results);
      assert Fulfilled(page) == results[i];
      ItemsAdd(q.(signals := []), page.items, x);
      var src :| FromItems(q.(signals := []), page.items, src) && ShowsAll(x, src);
      assert FromItems(q, Fulfilled(page).page.items, src);
      assert FromLists(q, results, src);
    } else {
      var emptied := q.(legacyActive := false, legacyCursor := None, signals := []);
      ListsAdd(emptied, results, x);
      var src :| FromLists(emptied, results, src) && ShowsAll(x, src);
      var r :| r in results && r.Fulfilled? && FromItems(emptied, r.page.items, src);
      SameKnowledge(q, emptied, r.page.items, src);
    }
  }

  lemma AdoptedKeepsDetails(q: Queue, results: seq<ListResult>)
    requires |results| <= |MARKET_DESTINATIONS|
    ensures Adopted(q, results).details == q.details
  {
    AdoptedKeeps(q, results);
  }

  ghost predicate FromReload(q: Queue, results: seq<ListResult>, projected: Option<OpportunityPage>, src: Source) {
    FromLists(q, results, src) || FromProjected(q, projected, src)
  }

  lemma ReloadAdds(q: Queue, generation: nat, results: seq<ListResult>, projected: Option<OpportunityPage>, x: Scenario)
    requires |results| <= |MARKET_DESTINATIONS| && x in ApplyReload(q, generation, results, projected).signals
    ensures exists src :: FromReload(q, results, projected, src) && ShowsAll(x, src)
  {
    var p := Adopted(q, results);
    AdoptedKeepsDetails(q, results);
    if x in p.signals {
      AdoptedAdds(q, results, x);
      var src :| FromLists(q, results, src) && ShowsAll(x, src);
      assert FromReload(q, results, projected, src);
    } else {
      ProjectionAdds(p, projected.value, true, x);
      var src :| FromProjected(p, projected, src) && ShowsAll(x, src);
      SameProjection(q, p, projected, src);
      assert FromReload(q, results, projected, src);
    }
  }

  lemma SameProjection(q: Queue, p: Queue, projected: Option<OpportunityPage>, src: Source)
    requires p.details == q.details && FromProjected(p, projected, src)
    ensures FromProjected(q, projected, src)
  {
    var o :| o in projected.value.opportunities && FromOne(p, o, o.signalId, src);
    assert FromOne(q, o, o.signalId, src);
  }

  lemma LegacyReloadAdds(q: Queue, page: ListPage, p: OpportunityPage, x: Scenario)
    requires
      var emptied := q.(legacyCursor := page.nextCursor, signals := []);
      x in ApplyResponsibilityPage(UpsertSignals(emptied, page.items), p, true).signals
    ensures exists src :: (FromItems(q, page.items, src) || FromProjected(q, Some(p), src)) && ShowsAll(x, src)
  {
    var emptied := q.(legacyCursor := page.nextCursor, signals := []);
    var listed := UpsertSignals(emptied, page.items);
    ProjectionAdds(listed, p, true, x);
    if x in listed.signals {
      ItemsAdd(emptied, page.items, x);
      var src :| FromItems(emptied, page.items, src) && ShowsAll(x, src);
      assert FromItems(q, page.items, src);
    } else {
      var src :| FromProjected(listed, Some(p), src) && ShowsAll(x, src);
      SameProjection(q, listed, Some(p), src);
    }
  }

  // ---------------------------------------------------------------------------------------
  // One step
  // ---------------------------------------------------------------------------------------

  lemma ListsReplyExplains(s: System, e: Event, x: Scenario)
    requires Enabled(s, e) && e.ListsReply? && x in Step(s, e).q.signals
    ensures Explained(s, e, x)
  {
    if x !in s.q.signals {
      ReloadAdds(s.q, e.request.responsibilityGeneration, e.results, None, x);
      var src :| FromReload(s.q, e.results, None, src) && ShowsAll(x, src);
      assert IsSource(s, e, src);
    }
  }

  lemma LegacyReplyExplains(s: System, e: Event, x: Scenario)
    requires Enabled(s, e) && e.ResponsibilitiesReply? && e.request.legacy
    requires x in Step(s, e).q.signals && x !in s.q.signals
    ensures NewlyShown(s, e, x)
  {
    var r := e.request;
    LegacyReloadAdds(s.q, r.results[0].page, e.projected.value, x);
    var src :| (FromItems(s.q, r.results[0].page.items, src) || FromProjected(s.q, Some(e.projected.value), src))
      && ShowsAll(x, src);
    assert r.results[0] in r.results;
    assert IsSource(s, e, src);
  }

  lemma ResponsibilitiesReplyExplains(s: System, e: Event, x: Scenario)
    requires Enabled(s, e) && e.ResponsibilitiesReply? && x in Step(s, e).q.signals
    ensures Explained(s, e, x)
  {
    var r := e.request;
    if x !in s.q.signals {
      if r.legacy {
        LegacyReplyExplains(s, e, x);
      } else {
        ReloadAdds(s.q, r.responsibilityGeneration, r.results, e.projected, x);
        var src :| FromReload(s.q, r.results, e.projected, src) && ShowsAll(x, src);
        assert IsSource(s, e, src);
      }
    }
  }

  lemma ReplacedAdds(q: Queue, d: State, items: seq<Signal>, x: Scenario)
    requires x in ReplaceDestination(q, d, items).signals && x !in q.signals
    ensures exists src :: FromItems(q, items, src) && ShowsAll(x, src)
  {
    var kept := q.(signals := Kept(q.signals, d, items));
    ItemsAdd(kept, items, x);
    var src :| FromItems(kept, items, src) && ShowsAll(x, src);
    assert FromItems(q, items, src);
  }

  lemma GroupReplyExplains(s: System, e: Event, x: Scenario)
    requires Enabled(s, e) && e.GroupReply? && x in Step(s, e).q.signals
    ensures Explained(s, e, x)
  {
    var r := e.request;
    if x !in s.q.signals {
      var p, page := PageOf(s.q.pages, r.destination), e.page.value;
      var written := s.q.(pages := WritePage(s.q.pages, r.destination, r.identity, page.nextCursor, p.loadingMore));
      ReplacedAdds(written, r.destination, page.items, x);
      var src :| FromItems(written, page.items, src) && ShowsAll(x, src);
      assert IsSource(s, e, src);
    }
  }

  lemma MoreReplyExplains(s: System, e: Event, x: Scenario)
    requires Enabled(s, e) && (e.MoreReply? || e.LegacyMoreReply?) && x in Step(s, e).q.signals
    ensures Explained(s, e, x)
  {
    if x !in s.q.signals {
      ItemsAdd(s.q, e.page.value.items, x);
      var src :| FromItems(s.q, e.page.value.items, src) && ShowsAll(x, src);
      assert IsSource(s, e, src);
    }
  }

  lemma OpportunitiesExplain(s: System, e: Event, x: Scenario)
    requires Enabled(s, e) && e.MoreOpportunitiesReply? && x in Step(s, e).q.signals
    ensures Explained(s, e, x)
  {
    if x !in s.q.signals {
      ProjectionAdds(s.q, e.projected.value, false, x);
      var src :| FromProjected(s.q, Some(e.projected.value), src) && ShowsAll(x, src);
      assert IsSource(s, e, src);
    }
  }

  lemma {:induction false} PendingPart(gaps: seq<Gap>, pending: seq<string>, source: bool)
    requires |gaps| == |pending| + (if source then 1 else 0)
    requires forall i | 0 <= i < |pending| :: gaps[i] == PendingField(pending[i])
    requires source ==> gaps[|pending|] == SourceName
    ensures WithoutSourceName(gaps) == PendingGaps(pending)
    ensures OnlySourceName(gaps) == if source then [SourceName] else []
  {
    if pending == [] {
      assert gaps == if source then [SourceName] else [];
    } else {
      PendingPart(gaps[1..], pending[1..], source);
      assert PendingGaps(pending) == [PendingField(pending[0])] + PendingGaps(pending[1..]);
    }
  }

  lemma EnrichKeepsPending(y: Scenario, detail: Detail, opportunity: Option<Opportunity>, pending: seq<string>)
    requires GapsOf(pending, y.evidence, y.gaps)
    ensures GapsOf(pending, detail.evidence, Enrich(y, detail, opportunity).gaps)
  {
    var built := ToScenario(detail.signal, Some(detail), opportunity);
    BuiltShows(detail.signal, Some(detail), opportunity);
    PendingPart(y.gaps, pending, HasBlankSource(y.evidence));
    PendingPart(built.gaps, detail.signal.pending, HasBlankSource(detail.evidence));
  }

  lemma EnrichedShows(y: Scenario, detail: Detail, opportunity: Option<Opportunity>)
    requires y.version > detail.signal.version
    ensures EnrichedBy(Enrich(y, detail, opportunity), y, detail)
  {
    var x := Enrich(y, detail, opportunity);
    BuiltShows(detail.signal, Some(detail), opportunity);
    forall pending | GapsOf(pending, y.evidence, y.gaps) ensures GapsOf(pending, x.evidence, x.gaps) {
      EnrichKeepsPending(y, detail, opportunity, pending);
    }
  }

  lemma DetailExplains(s: System, e: Event, x: Scenario)
    requires Enabled(s, e) && e.DetailReply? && x in Step(s, e).q.signals
    ensures Explained(s, e, x)
  {
    if x !in s.q.signals {
      var r, detail := e.request, e.detail.value;
      var current := Find(s.q.signals, r.id);
      var opportunity := Get(Answerable(s.q.responsibilities, r.id, e.found), r.id);
      UpsertAdds(s.q.signals, Detailed(current, detail, opportunity), x);
      if current.Some? && current.value.version > detail.signal.version {
        EnrichedShows(current.value, detail, opportunity);
        assert current.value in s.q.signals && current.value.id == r.id;
      } else {
        BuiltShows(detail.signal, Some(detail), opportunity);
        assert IsSource(s, e, Source(detail.signal, Some(detail), opportunity));
      }
    }
  }

  lemma SavedExplains(s: System, e: Event, x: Scenario)
    requires Enabled(s, e) && (e.DecisionReply? || e.SupplementReply?) && x in Step(s, e).q.signals
    ensures Explained(s, e, x)
  {
    var detail, opportunity := Get(s.q.details, e.signal.id), Get(s.q.responsibilities, e.signal.id);
    UpsertAdds(s.q.signals, ToScenario(e.signal, detail, opportunity), x);
    BuiltShows(e.signal, detail, opportunity);
    assert IsSource(s, e, Source(e.signal, detail, opportunity));
  }

  lemma RefreshExplains(s: System, e: Event, x: Scenario)
    requires Enabled(s, e) && e.RefreshReply? && x in Step(s, e).q.signals
    ensures Explained(s, e, x)
  {
    if x !in s.q.signals {
      var o := e.opportunity.value;
      UpsertAdds(s.q.signals, FromRead(o, Get(s.q.details, e.request.id)), x);
      var src := OneAdds(s.q, o, e.request.id);
      assert IsSource(s, e, src);
    }
  }

  lemma RegisterExplains(s: System, e: Event, x: Scenario)
    requires Enabled(s, e) && e.RegisterReply? && x in Step(s, e).q.signals
    ensures Explained(s, e, x)
  {
    BuiltShows(e.signal, None, None);
    assert IsSource(s, e, Source(e.signal, None, None));
  }

  /**
   Each scenario listed after a step was listed before, or shows all that is known of a signal the
   step brought, or is a listed one enriched by a detail of an older version.
   */
  lemma StepExplains(s: System, e: Event, x: Scenario)
    requires Enabled(s, e) && x in Step(s, e).q.signals
    ensures x in s.q.signals || NewlyShown(s, e, x) || Enriches(s, e, x)
  {
    match e
    case ListsReply(_, _) => ListsReplyExplains(s, e, x);
    case ResponsibilitiesReply(_, _) => ResponsibilitiesReplyExplains(s, e, x);
    case GroupReply(_, _) => GroupReplyExplains(s, e, x);
    case MoreReply(_, _) => MoreReplyExplains(s, e, x);
    case MoreOpportunitiesReply(_, _) => OpportunitiesExplain(s, e, x);
    case LegacyMoreReply(_, _) => MoreReplyExplains(s, e, x);
    case DetailReply(_, _, _) => DetailExplains(s, e, x);
    case DecisionReply(_, _) => SavedExplains(s, e, x);
    case SupplementReply(_) => SavedExplains(s, e, x);
    case RefreshReply(_, _) => RefreshExplains(s, e, x);
    case RegisterReply(_) => RegisterExplains(s, e, x);
    case _ => StartLeavesSignals(s, e);
  }

  // ---------------------------------------------------------------------------------------
  // Whole runs
  // ---------------------------------------------------------------------------------------

  /** All that the steps of a run bring. */
  ghost function SourcesOf(s: System, es: seq<Event>, t: System): iset<Source>
    requires Run(s, es, t)
    decreases |es|
  {
    if es == [] then iset{}
    else (iset src | IsSource(s, es[0], src)) + SourcesOf(Step(s, es[0]), es[1..], t)
  }

  /** The scenario shows one of the sources, with its evidence and perhaps a reason it was returned. */
  ghost predicate HasSource(x: Scenario, sources: iset<Source>) {
    exists src, returned :: src in sources && Shows(x, src, x.evidence, returned)
  }

  ghost predicate AllHaveSources(s: System, sources: iset<Source>) {
    forall x | x in s.q.signals :: HasSource(x, sources)
  }

  lemma EnrichedKeepsSource(x: Scenario, y: Scenario, detail: Detail, sources: iset<Source>)
    requires HasSource(y, sources) && EnrichedBy(x, y, detail)
    ensures HasSource(x, sources)
  {
    var src, returned :| src in sources && Shows(y, src, y.evidence, returned);
    assert Shows(x, src, x.evidence, if detail.returnReason != "" then detail.returnReason else returned);
  }

  lemma MoreSources(x: Scenario, sources: iset<Source>, more: iset<Source>)
    requires HasSource(x, sources)
    ensures HasSource(x, sources + more)
  {
    var src, returned :| src in sources && Shows(x, src, x.evidence, returned);
    assert src in sources + more;
  }

  lemma NewHasSource(s: System, e: Event, x: Scenario, sources: iset<Source>)
    requires NewlyShown(s, e, x)
    ensures HasSource(x, sources + iset src | IsSource(s, e, src))
  {
    var src :| IsSource(s, e, src) && ShowsAll(x, src);
    assert Shows(x, src, x.evidence, if src.detail.None? then "" else src.detail.value.returnReason);
    assert src in sources + iset src | IsSource(s, e, src);
  }

  lemma StepHasSources(s: System, e: Event, sources: iset<Source>)
    requires Enabled(s, e) && AllHaveSources(s, sources)
    ensures AllHaveSources(Step(s, e), sources + iset src | IsSource(s, e, src))
  {
    var more := iset src | IsSource(s, e, src);
    forall x | x in Step(s, e).q.signals ensures HasSource(x, sources + more) {
      StepExplains(s, e, x);
      if x in s.q.signals {
        MoreSources(x, sources, more);
      } else if NewlyShown(s, e, x) {
        NewHasSource(s, e, x, sources);
      } else {
        var y :| y in s.q.signals && y.id == e.request.id && EnrichedBy(x, y, e.detail.value);
        EnrichedKeepsSource(x, y, e.detail.value, sources);
        MoreSources(x, sources, more);
      }
    }
  }

  lemma {:induction false} RunHasSources(s: System, es: seq<Event>, t: System, sources: iset<Source>)
    requires Run(s, es, t) && AllHaveSources(s, sources)
    ensures AllHaveSources(t, sources + SourcesOf(s, es, t))
    decreases |es|
  {
    if es == [] {
      assert sources + iset{} == sources;
    } else {
      var first := iset src | IsSource(s, es[0], src);
      StepHasSources(s, es[0], sources);
      RunHasSources(Step(s, es[0]), es[1..], t, sources + first);
      assert sources + first + SourcesOf(Step(s, es[0]), es[1..], t) == sources + SourcesOf(s, es, t);
    }
  }

  /**
   Whatever is listed after a run shows a signal that some step of the run brought: awaiting acceptance
   exactly if it was handed off and the opportunity shown with it is retained by the market, else in the
   signal's own state; its gaps are the pending codes, and the source name exactly if evidence lacks it.
   */
  lemma EveryScenarioHasASource(es: seq<Event>, t: System, x: Scenario)
    requires Run(START, es, t) && x in t.q.signals
    ensures exists src, returned ::
      && src in SourcesOf(START, es, t)
      && x.id == src.signal.id && x.version == src.signal.version && x.facts == src.signal.facts
      && x.responsibility == src.opportunity
      && x.state == (if src.signal.destination == HandedOff && x.responsibility.Some?
                        && x.responsibility.value.retainedByMarket
                     then AwaitingSelectionAcceptance else src.signal.destination)
      && GapsOf(src.signal.pending, x.evidence, x.gaps) && ReasonOf(src, returned, x.reason)
  {
    RunHasSources(START, es, t, iset{});
    assert HasSource(x, iset{} + SourcesOf(START, es, t));
    var src, returned :| src in iset{} + SourcesOf(START, es, t) && Shows(x, src, x.evidence, returned);
    assert src in SourcesOf(START, es, t);
  }

  /** A refresh that finds an opportunity retained by the market moves its signal to those that await acceptance. */
  lemma HandoffIsShown(s: System, e: Event)
    requires Enabled(s, e) && e.RefreshReply? && e.opportunity.Some? && e.opportunity.value.retainedByMarket
    requires Get(s.q.details, e.request.id).None?
    requires var o := e.opportunity.value;
             Listed(s.q.signals, o.signalId) ==> Version(s.q.signals, o.signalId) <= o.signalVersion
    ensures var shown := Find(Step(s, e).q.signals, e.opportunity.value.signalId);
            shown.Some? && shown.value.state == AwaitingSelectionAcceptance
            && shown.value.responsibility == e.opportunity
  {
    var o := e.opportunity.value;
    FindUpserted(s.q.signals, FromRead(o, None), o.signalId);
  }
}
