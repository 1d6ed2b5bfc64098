/**
 Every interleaving of reloads, retries, further pages, detail reads, decisions, supplements and
 registrations. Replies are arbitrary: they may be late, of any version, and list any signals.
 The `saving` flag, which only rules out some of these runs, is left out.
 */
module MarketSignalRuns {
  import opened Wrappers
  import opened MarketSignals

  datatype System = System(q: Queue, waiting: multiset<Request>)

  const START := System(INITIAL, multiset{})

  datatype Event =
    | StartLoad
    | ListsReply(request: Request, results: seq<ListResult>)
    | ResponsibilitiesReply(request: Request, projected: Option<OpportunityPage>)
    | StartRetry(destination: State)
    | GroupReply(request: Request, page: Option<ListPage>)
    | StartMore(destination: State)
    | MoreReply(request: Request, page: Option<ListPage>)
    | MoreOpportunitiesReply(request: Request, projected: Option<OpportunityPage>)
    | LegacyMoreReply(request: Request, page: Option<ListPage>)
    | StartDetail(id: string)
    | DetailReply(request: Request, detail: Option<Detail>, found: Option<Option<Opportunity>>)
    | DecisionReply(signal: Signal, handedOff: bool)
    | RefreshReply(request: Request, opportunity: Option<Opportunity>)
    | SupplementReply(signal: Signal)
    | RegisterReply(signal: Signal)

  /** What a load holds once its lists have arrived. */
  predicate Ready(r: Request) {
    r.Responsibilities? ==> |r.results| == ListCount(r.legacy) && (r.legacy ==> r.results[0].Fulfilled?)
  }

  ghost predicate Enabled(s: System, e: Event) {
    match e
    case ListsReply(r, results) => r in s.waiting && r.Lists? && |results| == ListCount(r.legacy)
    case ResponsibilitiesReply(r, _) => r in s.waiting && r.Responsibilities? && Ready(r)
    case GroupReply(r, _) => r in s.waiting && r.Group?
    case MoreReply(r, _) => r in s.waiting && r.More? && r.destination != AwaitingSelectionAcceptance
    case MoreOpportunitiesReply(r, _) => r in s.waiting && r.More? && r.destination == AwaitingSelectionAcceptance
    case LegacyMoreReply(r, _) => r in s.waiting && r.LegacyMore?
    case DetailReply(r, _, _) => r in s.waiting && r.DetailRead?
    case RefreshReply(r, _) => r in s.waiting && r.Refresh?
    case _ => true
  }

  function Start(s: System, next: (Queue, Request)): System {
    System(next.0, s.waiting[next.1 := s.waiting[next.1] + 1])
  }

  function Continue(s: System, next: (Queue, Option<Request>)): System {
    if next.1.Some? then Start(s, (next.0, next.1.value)) else s.(q := next.0)
  }

  function Done(s: System, r: Request): System {
    s.(waiting := s.waiting[r := if r in s.waiting then s.waiting[r] - 1 else 0])
  }

  /** The replies that end a request. */
  ghost function Answered(s: System, e: Event): System
    requires Enabled(s, e) && !e.StartLoad? && !e.StartRetry? && !e.StartMore? && !e.StartDetail?
  {
    match e
    case ListsReply(r, results) => Continue(Done(s, r), ListsArrived(s.q, r, results))
    case ResponsibilitiesReply(r, projected) => Done(s, r).(q := ResponsibilitiesArrived(s.q, r, projected))
    case GroupReply(r, page) => Done(s, r).(q := GroupArrived(s.q, r, page))
    case MoreReply(r, page) => Done(s, r).(q := MoreArrived(s.q, r, page))
    case MoreOpportunitiesReply(r, projected) => Done(s, r).(q := MoreOpportunitiesArrived(s.q, r, projected))
    case LegacyMoreReply(r, page) => Done(s, r).(q := LegacyMoreArrived(s.q, page))
    case DetailReply(r, detail, found) => Done(s, r).(q := DetailArrived(s.q, r, detail, found))
    case RefreshReply(r, found) => Done(s, r).(q := RefreshArrived(s.q, r, found))
    case DecisionReply(signal, handedOff) => Continue(s, DecisionArrived(s.q, signal, handedOff))
    case SupplementReply(signal) => s.(q := SignalSaved(s.q, signal))
    case RegisterReply(signal) => s.(q := Registered(s.q, signal))
  }

  ghost function Step(s: System, e: Event): System
    requires Enabled(s, e)
  {
    match e
    case StartLoad => Start(s, LoadSignals(s.q))
    case StartRetry(d) => Start(s, RetryGroup(s.q, d))
    case StartMore(d) => Continue(s, LoadMore(s.q, d))
    case StartDetail(id) => Start(s, LoadDetail(s.q, id))
    case _ => Answered(s, e)
  }

  ghost predicate Run(s: System, es: seq<Event>, t: System)
    decreases |es|
  {
    if es == [] then s == t else Enabled(s, es[0]) && Run(Step(s, es[0]), es[1..], t)
  }

  // ---------------------------------------------------------------------------------------
  // What a list of scenarios holds
  // ---------------------------------------------------------------------------------------

  ghost predicate DistinctIds(ss: seq<Scenario>) {
    forall i, j | 0 <= i < j < |ss| :: ss[i].id != ss[j].id
  }

  predicate Listed(ss: seq<Scenario>, id: string) {
    Find(ss, id).Some?
  }

  function Version(ss: seq<Scenario>, id: string): nat
    requires Listed(ss, id)
  {
    Find(ss, id).value.version
  }

  /** No signal listed in both has fallen behind. */
  ghost predicate NoneFallsBehind(ss: seq<Scenario>, tt: seq<Scenario>) {
    forall id | Listed(ss, id) && Listed(tt, id) :: Version(ss, id) <= Version(tt, id)
  }

  /** Nor has one left. */
  ghost predicate OnlyMovesOn(ss: seq<Scenario>, tt: seq<Scenario>) {
    forall id | Listed(ss, id) :: Listed(tt, id) && Version(ss, id) <= Version(tt, id)
  }

  lemma {:induction false} FindAppended(ss: seq<Scenario>, next: Scenario, id: string)
    ensures Find(ss + [next], id) == if Listed(ss, id) then Find(ss, id) else if next.id == id then Some(next) else None
  {
    if ss == [] {
      assert ss + [next] == [next];
    } else {
      assert (ss + [next])[1..] == ss[1..] + [next];
      FindAppended(ss[1..], next, id);
    }
  }

  lemma {:induction false} FindReplaced(ss: seq<Scenario>, next: Scenario, id: string)
    ensures Find(Replace(ss, next), id) == if id == next.id && Listed(ss, id) then Some(next) else Find(ss, id)
  {
    if ss != [] {
      assert Replace(ss, next)[1..] == Replace(ss[1..], next);
      FindReplaced(ss[1..], next, id);
    }
  }

  /** An upsert changes the one signal, to the new version unless a later one is listed. */
  lemma FindUpserted(ss: seq<Scenario>, next: Scenario, id: string)
    ensures Find(Upsert(ss, next), id) ==
      if id != next.id || (Listed(ss, id) && Version(ss, id) > next.version) then Find(ss, id) else Some(next)
  {
    FindAppended(ss, next, id);
    FindReplaced(ss, next, id);
  }

  lemma UpsertMovesOn(ss: seq<Scenario>, next: Scenario)
    ensures OnlyMovesOn(ss, Upsert(ss, next))
    ensures Listed(Upsert(ss, next), next.id) && Version(Upsert(ss, next), next.id) >= next.version
  {
    forall id | Listed(ss, id)
      ensures Listed(Upsert(ss, next), id) && Version(ss, id) <= Version(Upsert(ss, next), id)
    {
      FindUpserted(ss, next, id);
    }
    FindUpserted(ss, next, next.id);
  }

  lemma {:induction false} UpsertAllMovesOn(ss: seq<Scenario>, nexts: seq<Scenario>)
    ensures OnlyMovesOn(ss, UpsertAll(ss, nexts))
  {
    if nexts != [] {
      var before := UpsertAll(ss, nexts[..|nexts| - 1]);
      UpsertAllMovesOn(ss, nexts[..|nexts| - 1]);
      UpsertMovesOn(before, nexts[|nexts| - 1]);
    }
  }

  /** Upserts add no other ids. */
  lemma {:induction false} UpsertAllAddsOnly(ss: seq<Scenario>, nexts: seq<Scenario>, id: string)
    requires Listed(UpsertAll(ss, nexts), id) && !Listed(ss, id)
    ensures exists i | 0 <= i < |nexts| :: nexts[i].id == id
  {
    if nexts != [] {
      var last := |nexts| - 1;
      FindUpserted(UpsertAll(ss, nexts[..last]), nexts[last], id);
      if nexts[last].id != id {
        UpsertAllAddsOnly(ss, nexts[..last], id);
        var i :| 0 <= i < last && nexts[..last][i].id == id;
        assert nexts[i].id == id;
      }
    }
  }

  lemma UpsertKeepsDistinct(ss: seq<Scenario>, next: Scenario)
    requires DistinctIds(ss)
    ensures DistinctIds(Upsert(ss, next))
  {
  }

  lemma {:induction false} UpsertAllKeepsDistinct(ss: seq<Scenario>, nexts: seq<Scenario>)
    requires DistinctIds(ss)
    ensures DistinctIds(UpsertAll(ss, nexts))
  {
    if nexts != [] {
      UpsertAllKeepsDistinct(ss, nexts[..|nexts| - 1]);
      UpsertKeepsDistinct(UpsertAll(ss, nexts[..|nexts| - 1]), nexts[|nexts| - 1]);
    }
  }

  lemma {:induction false} KeptFromDistinct(ss: seq<Scenario>, d: State, items: seq<Signal>)
    requires DistinctIds(ss)
    ensures DistinctIds(Kept(ss, d, items))
    ensures forall id | Listed(Kept(ss, d, items), id) :: Find(Kept(ss, d, items), id) == Find(ss, id)
  {
    if ss != [] {
      assert DistinctIds(ss[1..]);
      KeptFromDistinct(ss[1..], d, items);
      var rest := Kept(ss[1..], d, items);
      forall x | x in rest ensures x.id != ss[0].id {
        var i :| 0 <= i < |ss[1..]| && ss[1..][i] == x;
        assert ss[i + 1] == x;
      }
      var kept := Kept(ss, d, items);
      forall id | Listed(kept, id) ensures Find(kept, id) == Find(ss, id) {
        if ss[0].id == id {
          assert !Listed(rest, id);
        }
        assert kept == rest || (kept[0] == ss[0] && kept[1..] == rest);
      }
    }
  }

  // ---------------------------------------------------------------------------------------
  // One step
  // ---------------------------------------------------------------------------------------

  /** The step puts a whole reloaded queue in place. */
  predicate AppliesReload(s: System, e: Event) {
    match e
    case ListsReply(r, results) =>
      && r.Lists? && r.generation == s.q.loadGeneration && !r.legacy
      && exists reply | reply in results :: reply.Unauthorized?
    case ResponsibilitiesReply(r, projected) =>
      r.Responsibilities? && r.generation == s.q.loadGeneration && (r.legacy ==> projected.Some?)
    case _ => false
  }

  /** A registration answered only after its signal was listed, by a reload or a further page. */
  predicate ListsTwice(s: System, e: Event) {
    e.RegisterReply? && Listed(s.q.signals, e.signal.id)
  }

  lemma GroupStep(q: Queue, r: Request, page: Option<ListPage>)
    requires r.Group? && DistinctIds(q.signals)
    ensures DistinctIds(GroupArrived(q, r, page).signals)
        && NoneFallsBehind(q.signals, GroupArrived(q, r, page).signals)
  {
    if page.Some? {
      var kept := Kept(q.signals, r.destination, page.value.items);
      var nexts := Scenarios(page.value.items, q.details, q.responsibilities);
      KeptFromDistinct(q.signals, r.destination, page.value.items);
      UpsertAllKeepsDistinct(kept, nexts);
      UpsertAllMovesOn(kept, nexts);
      forall id | Listed(q.signals, id) && Listed(UpsertAll(kept, nexts), id)
        ensures Version(q.signals, id) <= Version(UpsertAll(kept, nexts), id)
      {
        if !Listed(kept, id) {
          UpsertAllAddsOnly(kept, nexts, id);
        }
      }
    }
  }

  lemma ListsDistinct(q: Queue, items: seq<Signal>)
    requires DistinctIds(q.signals)
    ensures DistinctIds(UpsertSignals(q, items).signals) && OnlyMovesOn(q.signals, UpsertSignals(q, items).signals)
  {
    UpsertAllKeepsDistinct(q.signals, Scenarios(items, q.details, q.responsibilities));
    UpsertAllMovesOn(q.signals, Scenarios(items, q.details, q.responsibilities));
  }

  lemma ProjectionStep(q: Queue, p: OpportunityPage, replace: bool)
    requires DistinctIds(q.signals)
    ensures DistinctIds(ApplyResponsibilityPage(q, p, replace).signals)
    ensures OnlyMovesOn(q.signals, ApplyResponsibilityPage(q, p, replace).signals)
  {
    UpsertAllKeepsDistinct(q.signals, Projected(p.opportunities, q.details));
    UpsertAllMovesOn(q.signals, Projected(p.opportunities, q.details));
  }

  lemma {:induction false} ListsAppliedDistinct(q: Queue, results: seq<ListResult>)
    requires DistinctIds(q.signals) && |results| <= |MARKET_DESTINATIONS|
    ensures DistinctIds(ApplyLists(q, results).signals)
  {
    if results != [] {
      var last := results[|results| - 1];
      ListsAppliedDistinct(q, results[..|results| - 1]);
      var p := ApplyLists(q, results[..|results| - 1]);
      if last.Fulfilled? {
        UpsertAllKeepsDistinct(p.signals, Scenarios(last.page.items, p.details, p.responsibilities));
      }
    }
  }

  lemma ReloadDistinct(q: Queue, generation: nat, results: seq<ListResult>, projected: Option<OpportunityPage>)
    requires |results| <= |MARKET_DESTINATIONS|
    ensures DistinctIds(ApplyReload(q, generation, results, projected).signals)
  {
    var legacyPage := LegacyPage(results);
    if legacyPage.Some? {
      UpsertAllKeepsDistinct([], Scenarios(legacyPage.value.items, q.details, q.responsibilities));
    } else {
      ListsAppliedDistinct(q.(legacyActive := false, legacyCursor := None, signals := []), results);
    }
    var p := if legacyPage.Some? then AdoptLegacy(q, legacyPage.value) else AdoptGroups(q, results);
    if projected.Some? {
      ProjectionStep(p, projected.value, true);
    }
  }

  lemma ListsReplyStep(s: System, e: Event)
    requires Enabled(s, e) && e.ListsReply? && DistinctIds(s.q.signals)
    ensures DistinctIds(Step(s, e).q.signals)
    ensures !AppliesReload(s, e) ==> Step(s, e).q == s.q
  {
    ReloadDistinct(s.q, e.request.responsibilityGeneration, e.results, None);
  }

  lemma ResponsibilitiesReplyStep(s: System, e: Event)
    requires Enabled(s, e) && e.ResponsibilitiesReply? && DistinctIds(s.q.signals)
    ensures DistinctIds(Step(s, e).q.signals)
    ensures !AppliesReload(s, e) ==> Step(s, e).q == s.q
  {
    var r := e.request;
    ReloadDistinct(s.q, r.responsibilityGeneration, r.results, e.projected);
    if r.legacy && e.projected.Some? {
      var q := s.q.(legacyCursor := r.results[0].page.nextCursor, signals := []);
      ListsDistinct(q, r.results[0].page.items);
      ProjectionStep(UpsertSignals(q, r.results[0].page.items), e.projected.value, true);
    }
  }

  lemma MoreStep(q: Queue, r: Request, page: Option<ListPage>)
    requires r.More? && r.destination != AwaitingSelectionAcceptance && DistinctIds(q.signals)
    ensures DistinctIds(MoreArrived(q, r, page).signals) && OnlyMovesOn(q.signals, MoreArrived(q, r, page).signals)
  {
    if page.Some? {
      ListsDistinct(q, page.value.items);
    }
  }

  lemma MoreOpportunitiesStep(q: Queue, r: Request, p: Option<OpportunityPage>)
    requires r.More? && r.destination == AwaitingSelectionAcceptance && DistinctIds(q.signals)
    ensures DistinctIds(MoreOpportunitiesArrived(q, r, p).signals)
        && OnlyMovesOn(q.signals, MoreOpportunitiesArrived(q, r, p).signals)
  {
    if p.Some? {
      ProjectionStep(q, p.value, false);
    }
  }

  lemma LegacyMoreStep(q: Queue, page: Option<ListPage>)
    requires DistinctIds(q.signals)
    ensures DistinctIds(LegacyMoreArrived(q, page).signals)
        && OnlyMovesOn(q.signals, LegacyMoreArrived(q, page).signals)
  {
    if page.Some? {
      ListsDistinct(q, page.value.items);
    }
  }

  lemma UpsertStep(ss: seq<Scenario>, next: Scenario)
    requires DistinctIds(ss)
    ensures DistinctIds(Upsert(ss, next)) && OnlyMovesOn(ss, Upsert(ss, next))
  {
    UpsertKeepsDistinct(ss, next);
    UpsertMovesOn(ss, next);
  }

  lemma DetailReplyStep(s: System, e: Event)
    requires Enabled(s, e) && DistinctIds(s.q.signals) && e.DetailReply?
    ensures DistinctIds(Step(s, e).q.signals) && OnlyMovesOn(s.q.signals, Step(s, e).q.signals)
  {
    if e.detail.Some? {
      var responsibilities := Answerable(s.q.responsibilities, e.request.id, e.found);
      var current, opportunity := Find(s.q.signals, e.request.id), Get(responsibilities, e.request.id);
      UpsertStep(s.q.signals, Detailed(current, e.detail.value, opportunity));
    }
  }

  lemma SavedStep(s: System, e: Event)
    requires Enabled(s, e) && DistinctIds(s.q.signals) && (e.DecisionReply? || e.SupplementReply?)
    ensures DistinctIds(Step(s, e).q.signals) && OnlyMovesOn(s.q.signals, Step(s, e).q.signals)
    ensures Listed(Step(s, e).q.signals, e.signal.id) && Version(Step(s, e).q.signals, e.signal.id) >= e.signal.version
  {
    var next := ToScenario(e.signal, Get(s.q.details, e.signal.id), Get(s.q.responsibilities, e.signal.id));
    UpsertStep(s.q.signals, next);
    UpsertMovesOn(s.q.signals, next);
  }

  lemma RefreshStep(s: System, e: Event)
    requires Enabled(s, e) && DistinctIds(s.q.signals) && e.RefreshReply?
    ensures DistinctIds(Step(s, e).q.signals) && OnlyMovesOn(s.q.signals, Step(s, e).q.signals)
  {
    if e.opportunity.Some? {
      var o, detail := e.opportunity.value, Get(s.q.details, e.request.id);
      UpsertStep(s.q.signals, FromRead(o, detail));
    }
  }

  /** A registration keeps the ids distinct exactly when its signal was not listed yet. */
  lemma RegisterStep(s: System, signal: Signal)
    requires DistinctIds(s.q.signals)
    ensures DistinctIds(Registered(s.q, signal).signals) <==> !Listed(s.q.signals, signal.id)
    ensures !Listed(s.q.signals, signal.id) ==> OnlyMovesOn(s.q.signals, Registered(s.q, signal).signals)
  {
    var after := Registered(s.q, signal).signals;
    if Listed(s.q.signals, signal.id) {
      var x := Find(s.q.signals, signal.id).value;
      var i :| 0 <= i < |s.q.signals| && s.q.signals[i] == x;
      assert after[i + 1].id == after[0].id;
    }
    assert after[1..] == s.q.signals;
  }

  lemma StartLeavesSignals(s: System, e: Event)
    requires e.StartLoad? || e.StartRetry? || e.StartMore? || e.StartDetail?
    ensures Step(s, e).q.signals == s.q.signals
  {
  }

  /**
   No step but a whole reload lets a listed signal fall behind, or, unless it lists a signal
   twice, repeats an id.
   */
  lemma NoStepFallsBehind(s: System, e: Event)
    requires Enabled(s, e) && DistinctIds(s.q.signals) && !ListsTwice(s, e)
    ensures DistinctIds(Step(s, e).q.signals)
    ensures !AppliesReload(s, e) ==> NoneFallsBehind(s.q.signals, Step(s, e).q.signals)
  {
    match e
    case ListsReply(_, _) => ListsReplyStep(s, e);
    case ResponsibilitiesReply(_, _) => ResponsibilitiesReplyStep(s, e);
    case GroupReply(r, page) => GroupStep(s.q, r, page);
    case MoreReply(r, page) => MoreStep(s.q, r, page);
    case MoreOpportunitiesReply(r, projected) => MoreOpportunitiesStep(s.q, r, projected);
    case LegacyMoreReply(_, page) => LegacyMoreStep(s.q, page);
    case DetailReply(_, _, _) => DetailReplyStep(s, e);
    case DecisionReply(_, _) => SavedStep(s, e);
    case SupplementReply(_) => SavedStep(s, e);
    case RefreshReply(_, _) => RefreshStep(s, e);
    case RegisterReply(signal) => RegisterStep(s, signal);
    case _ => StartLeavesSignals(s, e);
  }

  // ---------------------------------------------------------------------------------------
  // Whole runs
  // ---------------------------------------------------------------------------------------

  /** A run that never lists a signal twice. */
  ghost predicate CleanRun(s: System, es: seq<Event>, t: System)
    decreases |es|
  {
    if es == [] then s == t
    else Enabled(s, es[0]) && !ListsTwice(s, es[0]) && CleanRun(Step(s, es[0]), es[1..], t)
  }

  lemma {:induction false} CleanRunIsRun(s: System, es: seq<Event>, t: System)
    requires CleanRun(s, es, t)
    ensures Run(s, es, t)
    decreases |es|
  {
    if es != [] {
      CleanRunIsRun(Step(s, es[0]), es[1..], t);
    }
  }

  lemma {:induction false} IdsStayDistinct(s: System, es: seq<Event>, t: System)
    requires CleanRun(s, es, t) && DistinctIds(s.q.signals)
    ensures DistinctIds(t.q.signals)
    decreases |es|
  {
    if es != [] {
      NoStepFallsBehind(s, es[0]);
      IdsStayDistinct(Step(s, es[0]), es[1..], t);
    }
  }

  ghost predicate DistinctThroughout(s: System, es: seq<Event>, t: System)
    requires Run(s, es, t)
    decreases |es|
  {
    DistinctIds(s.q.signals) && (es != [] ==> DistinctThroughout(Step(s, es[0]), es[1..], t))
  }

  /** Ids are distinct in every state of a run exactly if no signal was listed when its registration was answered. */
  lemma {:induction false} DistinctExactlyIfClean(s: System, es: seq<Event>, t: System)
    requires Run(s, es, t) && DistinctIds(s.q.signals)
    ensures DistinctThroughout(s, es, t) <==> CleanRun(s, es, t)
    decreases |es|
  {
    if es != [] {
      if ListsTwice(s, es[0]) {
        RegisterStep(s, es[0].signal);
      } else {
        NoStepFallsBehind(s, es[0]);
        DistinctExactlyIfClean(Step(s, es[0]), es[1..], t);
      }
    }
  }

  /** `id` is listed all along and no reload is put in place. */
  ghost predicate ListedThroughout(s: System, es: seq<Event>, t: System, id: string)
    requires CleanRun(s, es, t)
    decreases |es|
  {
    && Listed(s.q.signals, id)
    && (es != [] ==> !AppliesReload(s, es[0]) && ListedThroughout(Step(s, es[0]), es[1..], t, id))
  }

  /** Then its version never drops. */
  lemma {:induction false} VersionsNeverDrop(s: System, es: seq<Event>, t: System, id: string)
    requires CleanRun(s, es, t) && DistinctIds(s.q.signals) && ListedThroughout(s, es, t, id)
    ensures Listed(t.q.signals, id) && Version(s.q.signals, id) <= Version(t.q.signals, id)
    decreases |es|
  {
    if es != [] {
      NoStepFallsBehind(s, es[0]);
      VersionsNeverDrop(Step(s, es[0]), es[1..], t, id);
    }
  }

  // ---------------------------------------------------------------------------------------
  // Details of an older version
  // ---------------------------------------------------------------------------------------

  predicate SameButForDetail(x: Scenario, y: Scenario) {
    y == x.(evidence := y.evidence, reason := y.reason, gaps := y.gaps)
  }

  /** A detail older than what is listed adds its evidence, and changes no field of the signal itself. */
  lemma OlderDetailOnlyAddsEvidence(s: System, e: Event)
    requires Enabled(s, e) && e.DetailReply? && e.detail.Some?
    requires Listed(s.q.signals, e.request.id) && Version(s.q.signals, e.request.id) > e.detail.value.signal.version
    ensures |Step(s, e).q.signals| == |s.q.signals|
    ensures forall i | 0 <= i < |s.q.signals| ::
        s.q.signals[i].id != e.request.id ==> Step(s, e).q.signals[i] == s.q.signals[i]
    ensures Listed(Step(s, e).q.signals, e.request.id)
    ensures SameButForDetail(Find(s.q.signals, e.request.id).value, Find(Step(s, e).q.signals, e.request.id).value)
    ensures Token(s.q, e.request.id) == e.request.token ==>
              Find(Step(s, e).q.signals, e.request.id).value.evidence == e.detail.value.evidence
  {
    var responsibilities := Answerable(s.q.responsibilities, e.request.id, e.found);
    var current := Find(s.q.signals, e.request.id);
    FindUpserted(s.q.signals, Detailed(current, e.detail.value, Get(responsibilities, e.request.id)), e.request.id);
  }

  /** A reply to an earlier attempt at a group, a page or a detail changes nothing. */
  lemma LateRepliesChangeNothing(s: System, e: Event)
    requires Enabled(s, e)
    requires e.GroupReply? || e.MoreReply? || e.MoreOpportunitiesReply? || e.DetailReply?
    requires if e.DetailReply? then e.request.token != Token(s.q, e.request.id)
             else e.request.generation != PageOf(s.q.pages, e.request.destination).generation
    ensures Step(s, e).q == s.q
  {
  }
}
