/** The order of the queue: what stays keeps its place, what is new comes last, in the order it was brought. */
module MarketSignalOrder {
  import opened Wrappers
  import opened Text
  import opened MarketSignals
  import opened MarketSignalRuns
  import opened MarketSignalVersions

  function Ids(ss: seq<Scenario>): seq<string> {
    seq(|ss|, i requires 0 <= i < |ss| => ss[i].id)
  }

  function Named(items: seq<Signal>): seq<string> {
    seq(|items|, i requires 0 <= i < |items| => items[i].id)
  }

  /** What the step leaves in place: nothing of a reload, of a retried group what the reply has too, else everything. */
  function Staying(s: System, e: Event): seq<Scenario> {
    if AppliesReload(s, e) then []
    else if e.GroupReply? && GroupApplied(s.q, e.request, e.page) then
      StayingIn(s.q.signals, e.request.destination, e.page.value.items)
    else s.q.signals
  }

  function StayingIn(ss: seq<Scenario>, d: State, items: seq<Signal>): seq<Scenario> {
    if ss == [] then []
    else
      var front, last := StayingIn(ss[..|ss| - 1], d, items), ss[|ss| - 1];
      if last.state == d && last.id !in Named(items) then front else front + [last]
  }

  /** The ids that are not listed, each once, in the order of their first occurrences. */
  ghost predicate NewOnes(listed: seq<string>, ids: seq<string>, news: seq<string>) {
    && (forall id :: id in news <==> id in ids && id !in listed)
    && (forall i, j | 0 <= i < j < |news| :: news[i] != news[j])
    && (forall i, j | 0 <= i < j < |news| :: OccursBefore(ids, news[i], news[j]))
  }

  // ---------------------------------------------------------------------------------------
  // Upserts
  // ---------------------------------------------------------------------------------------

  function Noted(listed: seq<string>, ids: seq<string>): seq<string> {
    if ids == [] then listed
    else
      var before, id := Noted(listed, ids[..|ids| - 1]), ids[|ids| - 1];
      if id in before then before else before + [id]
  }

  lemma {:induction false} NotedTwice(listed: seq<string>, a: seq<string>, b: seq<string>)
    ensures Noted(listed, a + b) == Noted(Noted(listed, a), b)
  {
    if b == [] {
      assert a + b == a;
    } else {
      assert (a + b)[..|a + b| - 1] == a + b[..|b| - 1];
      NotedTwice(listed, a, b[..|b| - 1]);
    }
  }

  lemma {:induction false} NotedKeeps(listed: seq<string>, ids: seq<string>)
    ensures listed <= Noted(listed, ids)
  {
    if ids != [] {
      NotedKeeps(listed, ids[..|ids| - 1]);
    }
  }

  function Fresh(listed: seq<string>, ids: seq<string>): seq<string> {
    NotedKeeps(listed, ids);
    Noted(listed, ids)[|listed|..]
  }

  lemma NewOneAppended(listed: seq<string>, ids: seq<string>, news: seq<string>, id: string)
    requires NewOnes(listed, ids, news)
    ensures NewOnes(listed, ids + [id], if id in listed || id in news then news else news + [id])
  {
    forall i, j | 0 <= i < j < |news| ensures OccursBefore(ids + [id], news[i], news[j]) {
      StillBefore(ids, id, news[i], news[j]);
    }
    if id !in listed && id !in news {
      forall i | 0 <= i < |news| ensures OccursBefore(ids + [id], news[i], id) {
        assert news[i] in news;
        NewIsLast(ids, id, news[i]);
      }
    }
  }

  lemma FreshAppended(listed: seq<string>, ids: seq<string>, id: string)
    ensures
      var news := Fresh(listed, ids);
      Fresh(listed, ids + [id]) == if id in listed || id in news then news else news + [id]
  {
    var before := Noted(listed, ids);
    NotedKeeps(listed, ids);
    assert before == listed + Fresh(listed, ids);
    assert (ids + [id])[..|ids|] == ids;
    assert id !in before ==> (before + [id])[|listed|..] == before[|listed|..] + [id];
  }

  lemma {:induction false} FreshAreNew(listed: seq<string>, ids: seq<string>)
    ensures NewOnes(listed, ids, Fresh(listed, ids))
  {
    if ids != [] {
      var front, id := ids[..|ids| - 1], ids[|ids| - 1];
      FreshAreNew(listed, front);
      NewOneAppended(listed, front, Fresh(listed, front), id);
      FreshAppended(listed, front, id);
      assert ids == front + [id];
    }
  }

  lemma ListedInIds(ss: seq<Scenario>, id: string)
    ensures Find(ss, id).None? <==> id !in Ids(ss)
  {
    var found := Find(ss, id);
    if found.Some? {
      var i :| 0 <= i < |ss| && ss[i] == found.value;
      assert Ids(ss)[i] == id;
    }
  }

  lemma UpsertNotes(ss: seq<Scenario>, x: Scenario)
    ensures Ids(Upsert(ss, x)) == if x.id in Ids(ss) then Ids(ss) else Ids(ss) + [x.id]
  {
    ListedInIds(ss, x.id);
  }

  lemma {:induction false} UpsertAllNotes(ss: seq<Scenario>, xs: seq<Scenario>)
    ensures Ids(UpsertAll(ss, xs)) == Noted(Ids(ss), Ids(xs))
  {
    if xs != [] {
      var front := xs[..|xs| - 1];
      UpsertAllNotes(ss, front);
      UpsertNotes(UpsertAll(ss, front), xs[|xs| - 1]);
      assert Ids(xs)[..|xs| - 1] == Ids(front);
    }
  }

  /** `ts` is `ss` with the new ones of `items` behind it. */
  ghost predicate Grows(ss: seq<Scenario>, items: seq<Signal>, ts: seq<Scenario>) {
    Ids(ts) == Noted(Ids(ss), Named(items))
  }

  lemma SignalsGrow(q: Queue, items: seq<Signal>)
    ensures Grows(q.signals, items, UpsertSignals(q, items).signals)
  {
    var xs := Scenarios(items, q.details, q.responsibilities);
    UpsertAllNotes(q.signals, xs);
    assert Ids(xs) == Named(items);
  }

  lemma ProjectionGrows(q: Queue, p: OpportunityPage, replace: bool)
    ensures Grows(q.signals, ProjectedSignals(Some(p), q.details), ApplyResponsibilityPage(q, p, replace).signals)
  {
    var xs := Projected(p.opportunities, q.details);
    UpsertAllNotes(q.signals, xs);
    assert Ids(xs) == Named(ProjectedSignals(Some(p), q.details));
  }

  lemma OneGrows(ss: seq<Scenario>, x: Scenario, signal: Signal)
    requires x.id == signal.id
    ensures Grows(ss, [signal], Upsert(ss, x))
  {
    UpsertNotes(ss, x);
    assert Named([signal]) == [x.id];
    assert Noted(Ids(ss), [x.id][..0]) == Ids(ss);
  }

  lemma GrowsTwice(ss: seq<Scenario>, a: seq<Signal>, ts: seq<Scenario>, b: seq<Signal>, us: seq<Scenario>)
    requires Grows(ss, a, ts) && Grows(ts, b, us)
    ensures Grows(ss, a + b, us)
  {
    NotedTwice(Ids(ss), Named(a), Named(b));
    assert Named(a + b) == Named(a) + Named(b);
  }

  lemma NothingGrows(ss: seq<Scenario>)
    ensures Grows(ss, [], ss)
  {
  }

  // ---------------------------------------------------------------------------------------
  // Reloads and retries
  // ---------------------------------------------------------------------------------------

  lemma {:induction false} ListsGrow(q: Queue, results: seq<ListResult>)
    requires |results| <= |MARKET_DESTINATIONS|
    ensures Grows(q.signals, Items(results), ApplyLists(q, results).signals)
  {
    if results != [] {
      var front, last := results[..|results| - 1], results[|results| - 1];
      ListsGrow(q, front);
      var added := if last.Fulfilled? then last.page.items else [];
      if last.Fulfilled? {
        SignalsGrow(ApplyLists(q, front), added);
      } else {
        NothingGrows(ApplyLists(q, front).signals);
      }
      GrowsTwice(q.signals, Items(front), ApplyLists(q, front).signals, added, ApplyLists(q, results).signals);
    }
  }

  lemma AdoptedGrows(q: Queue, results: seq<ListResult>)
    requires |results| <= |MARKET_DESTINATIONS|
    ensures Grows([], if LegacyPage(results).Some? then LegacyPage(results).value.items else Items(results),
                  Adopted(q, results).signals)
  {
    if LegacyPage(results).Some? {
      var page := LegacyPage(results).value;
      SignalsGrow(q.(legacyActive := true, legacyCursor := page.nextCursor, signals := [],
                     pages := RenewAll(q.pages, MARKET_DESTINATIONS)), page.items);
    } else {
      ListsGrow(q.(legacyActive := false, legacyCursor := None, signals := []), results);
    }
  }

  lemma ReloadGrows(q: Queue, generation: nat, results: seq<ListResult>, projected: Option<OpportunityPage>)
    requires |results| <= |MARKET_DESTINATIONS|
    ensures Grows([], ReloadedSignals(q, generation, results, projected),
                  ApplyReload(q, generation, results, projected).signals)
  {
    var first := if LegacyPage(results).Some? then LegacyPage(results).value.items else Items(results);
    var adopted := Adopted(q, results);
    AdoptedKeeps(q, results);
    AdoptedGrows(q, results);
    if projected.Some? && ProjectionFits(q, generation) {
      ProjectionGrows(adopted, projected.value, true);
      GrowsTwice([], first, adopted.signals, ProjectedSignals(projected, q.details),
                 ApplyReload(q, generation, results, projected).signals);
    } else {
      assert first + [] == first;
    }
  }

  lemma LegacyReloadGrows(q: Queue, page: ListPage, p: OpportunityPage)
    ensures Grows([], page.items + ProjectedSignals(Some(p), q.details), ApplyLegacyReload(q, page, p).signals)
  {
    var emptied := q.(legacyCursor := page.nextCursor, signals := []);
    SignalsGrow(emptied, page.items);
    ProjectionGrows(UpsertSignals(emptied, page.items), p, true);
    GrowsTwice([], page.items, UpsertSignals(emptied, page.items).signals, ProjectedSignals(Some(p), q.details),
               ApplyLegacyReload(q, page, p).signals);
  }

  lemma IncomingNamed(items: seq<Signal>, id: string)
    ensures Incoming(items, id) <==> id in Named(items)
  {
    if Incoming(items, id) {
      var s :| s in items && s.id == id;
      var i :| 0 <= i < |items| && items[i] == s;
      assert Named(items)[i] == id;
    }
  }

  lemma {:induction false} KeptJoined(a: seq<Scenario>, b: seq<Scenario>, d: State, items: seq<Signal>)
    ensures Kept(a + b, d, items) == Kept(a, d, items) + Kept(b, d, items)
  {
    if a == [] {
      assert a + b == b;
    } else {
      assert (a + b)[1..] == a[1..] + b;
      KeptJoined(a[1..], b, d, items);
    }
  }

  lemma KeptOne(x: Scenario, d: State, items: seq<Signal>)
    ensures Kept([x], d, items) == if x.state != d || Incoming(items, x.id) then [x] else []
  {
    assert Kept([x][1..], d, items) == [];
  }

  lemma {:induction false} KeptStays(ss: seq<Scenario>, d: State, items: seq<Signal>)
    ensures Kept(ss, d, items) == StayingIn(ss, d, items)
  {
    if ss != [] {
      var front, last := ss[..|ss| - 1], ss[|ss| - 1];
      KeptStays(front, d, items);
      KeptJoined(front, [last], d, items);
      KeptOne(last, d, items);
      IncomingNamed(items, last.id);
      assert ss == front + [last];
    }
  }

  // ---------------------------------------------------------------------------------------
  // One step
  // ---------------------------------------------------------------------------------------

  ghost predicate StepGrows(s: System, e: Event)
    requires Enabled(s, e)
  {
    Grows(Staying(s, e), Brought(s, e), Step(s, e).q.signals)
  }

  lemma ListsReplyGrows(s: System, e: Event)
    requires Enabled(s, e) && e.ListsReply?
    ensures StepGrows(s, e)
  {
    if AppliesReload(s, e) {
      ReloadGrows(s.q, e.request.responsibilityGeneration, e.results, None);
    }
  }

  lemma ResponsibilitiesReplyGrows(s: System, e: Event)
    requires Enabled(s, e) && e.ResponsibilitiesReply?
    ensures StepGrows(s, e)
  {
    var r := e.request;
    if AppliesReload(s, e) {
      if r.legacy {
        LegacyReloadGrows(s.q, r.results[0].page, e.projected.value);
      } else {
        ReloadGrows(s.q, r.responsibilityGeneration, r.results, e.projected);
      }
    }
  }

  lemma GroupReplyGrows(s: System, e: Event)
    requires Enabled(s, e) && e.GroupReply?
    ensures StepGrows(s, e)
  {
    var r := e.request;
    if GroupApplied(s.q, r, e.page) {
      var p, page := PageOf(s.q.pages, r.destination), e.page.value;
      var written := s.q.(pages := WritePage(s.q.pages, r.destination, r.identity, page.nextCursor, p.loadingMore));
      SignalsGrow(written.(signals := Kept(s.q.signals, r.destination, page.items)), page.items);
      KeptStays(s.q.signals, r.destination, page.items);
    }
  }

  lemma PageGrows(s: System, e: Event)
    requires Enabled(s, e) && (e.MoreReply? || e.LegacyMoreReply? || e.MoreOpportunitiesReply?)
    ensures StepGrows(s, e)
  {
    if e.MoreOpportunitiesReply? {
      if e.projected.Some? {
        ProjectionGrows(s.q, e.projected.value, false);
      }
    } else if e.page.Some? {
      SignalsGrow(s.q, e.page.value.items);
    }
  }

  lemma DetailGrows(s: System, e: Event)
    requires Enabled(s, e) && e.DetailReply?
    ensures StepGrows(s, e)
  {
    var r := e.request;
    if Token(s.q, r.id) == r.token && e.detail.Some? {
      var detail, current := e.detail.value, Find(s.q.signals, r.id);
      var opportunity := Get(Answerable(s.q.responsibilities, r.id, e.found), r.id);
      if DetailApplied(s.q, r, e.detail) {
        OneGrows(s.q.signals, ToScenario(detail.signal, Some(detail), opportunity), detail.signal);
      } else {
        UpsertNotes(s.q.signals, Enrich(current.value, detail, opportunity));
        ListedInIds(s.q.signals, r.id);
      }
    }
  }

  lemma SignalGrows(s: System, e: Event)
    requires Enabled(s, e) && (e.DecisionReply? || e.SupplementReply? || e.RefreshReply?)
    ensures StepGrows(s, e)
  {
    if e.RefreshReply? {
      if e.opportunity.Some? {
        var o, detail := e.opportunity.value, Get(s.q.details, e.request.id);
        var signal := HandedOverSignal(o, e.request.id, s.q.details);
        OneGrows(s.q.signals, ToScenario(signal, detail, Some(o)), signal);
      }
    } else {
      var next := ToScenario(e.signal, Get(s.q.details, e.signal.id), Get(s.q.responsibilities, e.signal.id));
      OneGrows(s.q.signals, next, e.signal);
    }
  }

  lemma RequestGrows(s: System, e: Event)
    requires Enabled(s, e) && (e.StartLoad? || e.StartRetry? || e.StartMore? || e.StartDetail?)
    ensures StepGrows(s, e)
  {
  }

  lemma EachStepGrows(s: System, e: Event)
    requires Enabled(s, e) && !e.RegisterReply?
    ensures StepGrows(s, e)
  {
    match e
    case ListsReply(_, _) => ListsReplyGrows(s, e);
    case ResponsibilitiesReply(_, _) => ResponsibilitiesReplyGrows(s, e);
    case GroupReply(_, _) => GroupReplyGrows(s, e);
    case MoreReply(_, _) => PageGrows(s, e);
    case LegacyMoreReply(_, _) => PageGrows(s, e);
    case MoreOpportunitiesReply(_, _) => PageGrows(s, e);
    case DetailReply(_, _, _) => DetailGrows(s, e);
    case DecisionReply(_, _) => SignalGrows(s, e);
    case SupplementReply(_) => SignalGrows(s, e);
    case RefreshReply(_, _) => SignalGrows(s, e);
    case _ => RequestGrows(s, e);
  }

  /**
   What stays on the list keeps its order. Behind it come the signals that are new, each once, in the
   order in which the reply brings them. Only a registered signal comes first.
   */
  lemma StepKeepsOrder(s: System, e: Event)
    requires Enabled(s, e)
    ensures
      var before, after := Ids(s.q.signals), Ids(Step(s, e).q.signals);
      if e.RegisterReply? then after == [e.signal.id] + before
      else
        && Ids(Staying(s, e)) <= after
        && NewOnes(Ids(Staying(s, e)), Named(Brought(s, e)), after[|Staying(s, e)|..])
  {
    if !e.RegisterReply? {
      EachStepGrows(s, e);
      NotedKeeps(Ids(Staying(s, e)), Named(Brought(s, e)));
      FreshAreNew(Ids(Staying(s, e)), Named(Brought(s, e)));
    }
  }
}
