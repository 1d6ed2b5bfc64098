/** The composable itself: its variables, changed step by step between two awaits. */
module MarketSignalWorkbench {
  import opened Wrappers
  import opened MarketSignalPages
  import opened MarketSignals

  class Workbench {
    var signals: seq<Scenario>
    var pages: map<State, Page>
    var legacyActive: bool
    var legacyNextCursor: Option<string>
    var legacyLoadingMore: bool
    var details: map<string, Detail>
    var responsibilities: map<string, Opportunity>
    var detailRequests: map<string, nat>
    var loadGeneration: nat

    constructor ()
      ensures View() == INITIAL
    {
      signals, pages, legacyActive, legacyNextCursor, legacyLoadingMore := [], map[], false, None, false;
      details, responsibilities, detailRequests, loadGeneration := map[], map[], map[], 0;
    }

    function View(): Queue
      reads this
    {
      Queue(signals, pages, legacyActive, legacyNextCursor, legacyLoadingMore, details, responsibilities,
          detailRequests, loadGeneration)
    }

    method UpsertScenario(next: Scenario)
      modifies this`signals
      ensures signals == Upsert(old(signals), next)
    {
      var current := Find(signals, next.id);
      if current.None? {
        signals := signals + [next];
        return;
      }
      if current.value.version > next.version { return; }
      signals := Replace(signals, next);
    }

    method UpsertEach(nexts: seq<Scenario>)
      modifies this`signals
      ensures signals == UpsertAll(old(signals), nexts)
    {
      for i := 0 to |nexts|
        invariant signals == UpsertAll(old(signals), nexts[..i])
      {
        UpsertScenario(nexts[i]);
        assert nexts[..i + 1][..i] == nexts[..i];
      }
      assert nexts[..|nexts|] == nexts;
    }

    method UpsertItems(items: seq<Signal>)
      modifies this`signals
      ensures signals == UpsertAll(old(signals), Scenarios(items, details, responsibilities))
    {
      UpsertEach(Scenarios(items, details, responsibilities));
    }

    method ProjectEach(os: seq<Opportunity>)
      modifies this`signals, this`responsibilities
      ensures responsibilities == Assign(old(responsibilities), os)
      ensures signals == UpsertAll(old(signals), Projected(os, details))
    {
      for i := 0 to |os|
        invariant responsibilities == Assign(old(responsibilities), os[..i])
        invariant signals == UpsertAll(old(signals), Projected(os[..i], details))
      {
        responsibilities := responsibilities[os[i].signalId := os[i]];
        UpsertScenario(FromOpportunity(os[i], details));
        assert os[..i + 1][..i] == os[..i];
        assert Projected(os[..i + 1], details)[..i] == Projected(os[..i], details);
      }
      assert os[..|os|] == os;
    }

    method ApplyProjection(p: OpportunityPage, replace: bool)
      modifies this`signals, this`responsibilities, this`pages
      ensures View() == ApplyResponsibilityPage(old(View()), p, replace)
      ensures Assigned(old(responsibilities), responsibilities, p.opportunities, replace)
      ensures var page := PageOf(old(pages), AwaitingSelectionAcceptance);
              Written(old(pages), pages, AwaitingSelectionAcceptance, page.identity, p.nextCursor, page.loadingMore)
    {
      ProjectionAssigns(responsibilities, p.opportunities, replace);
      if replace {
        responsibilities := Carried(responsibilities, p.opportunities);
      }
      ProjectEach(p.opportunities);
      pages := WithCursor(pages, AwaitingSelectionAcceptance, p.nextCursor);
    }

    method BumpEach(ds: seq<State>)
      requires Distinct(ds)
      modifies this`pages
      ensures pages == BumpAll(old(pages), ds)
    {
      for n := 0 to |ds|
        invariant pages == BumpAll(old(pages), ds[..n])
        invariant forall i | n <= i < |ds| :: PageOf(pages, ds[i]) == PageOf(old(pages), ds[i])
      {
        pages := pages[ds[n] := Bumped(PageOf(pages, ds[n]))];
        assert ds[..n + 1][..n] == ds[..n];
      }
      assert ds[..|ds|] == ds;
    }

    method RenewEach(ds: seq<State>)
      requires Distinct(ds)
      modifies this`pages
      ensures pages == RenewAll(old(pages), ds)
    {
      for n := 0 to |ds|
        invariant pages == RenewAll(old(pages), ds[..n])
        invariant forall i | n <= i < |ds| :: PageOf(pages, ds[i]) == PageOf(old(pages), ds[i])
      {
        pages := pages[ds[n] := Renewed(PageOf(pages, ds[n]))];
        assert ds[..n + 1][..n] == ds[..n];
      }
      assert ds[..|ds|] == ds;
    }

    method RenewMarket()
      modifies this`pages
      ensures pages == RenewAll(old(pages), MARKET_DESTINATIONS)
      ensures ReplacedByNew(old(pages), pages, MARKET_DESTINATIONS)
    {
      MarketGroups();
      RenewAllReplaces(pages, MARKET_DESTINATIONS);
      RenewEach(MARKET_DESTINATIONS);
    }

    method StartLoad() returns (r: Request)
      modifies this
      ensures (View(), r) == LoadSignals(old(View()))
      ensures r == Lists(loadGeneration, PageOf(pages, AwaitingSelectionAcceptance).generation, legacyActive)
      ensures loadGeneration == old(loadGeneration) + 1 && responsibilities == map[]
      ensures NewAttempt(old(pages), pages, !legacyActive)
      ensures (signals, details, legacyActive) == old((signals, details, legacyActive))
    {
      LoadIsNewAttempt(View());
      MarketGroups();
      loadGeneration := loadGeneration + 1;
      responsibilities := map[];
      pages := pages[AwaitingSelectionAcceptance := Bumped(PageOf(pages, AwaitingSelectionAcceptance))];
      r := Lists(loadGeneration, pages[AwaitingSelectionAcceptance].generation, legacyActive);
      if legacyActive { return; }
      BumpEach(MARKET_DESTINATIONS);
    }

    method TakeLegacyPage(page: ListPage)
      modifies this
      ensures View() == AdoptLegacy(old(View()), page)
      ensures legacyActive && legacyNextCursor == page.nextCursor
      ensures ReplacedByNew(old(pages), pages, MARKET_DESTINATIONS)
    {
      legacyActive, legacyNextCursor, signals := true, page.nextCursor, [];
      UpsertItems(page.items);
      RenewMarket();
    }

    method TakeList(d: State, r: ListResult)
      modifies this`signals, this`pages
      ensures View() == ApplyList(old(View()), d, r)
      ensures Written(old(pages), pages, d, PageOf(old(pages), d).identity, CursorOf(r), false)
    {
      var page := PageOf(pages, d).(loadingMore := false);
      match r
      case Fulfilled(list) =>
        UpsertItems(list.items);
        pages := pages[d := page.(nextCursor := list.nextCursor)];
      case _ =>
        pages := pages[d := page.(nextCursor := None)];
    }

    method TakeGroups(results: seq<ListResult>)
      requires |results| <= |MARKET_DESTINATIONS|
      modifies this
      ensures View() == AdoptGroups(old(View()), results)
      ensures !legacyActive && legacyNextCursor == None
      ensures CursorsSet(old(pages), pages, results)
    {
      legacyActive, legacyNextCursor, signals := false, None, [];
      ghost var start := View();
      for i := 0 to |results|
        invariant View() == ApplyLists(start, results[..i])
      {
        TakeList(MARKET_DESTINATIONS[i], results[i]);
        assert results[..i + 1][..i] == results[..i];
      }
      assert results[..|results|] == results;
      ListsKeepLegacy(start, results);
      ListsSetAllCursors(start, results);
    }

    method Reload(responsibilityGeneration: nat, results: seq<ListResult>, projected: Option<OpportunityPage>)
      requires |results| <= |MARKET_DESTINATIONS|
      modifies this
      ensures View() == ApplyReload(old(View()), responsibilityGeneration, results, projected)
      ensures legacyActive <==> exists r | r in results :: r.Fulfilled? && r.page.totalCount.None?
    {
      ghost var _ := LegacyPageIsTheFirst(results);
      var legacyPage := LegacyPage(results);
      if legacyPage.Some? {
        TakeLegacyPage(legacyPage.value);
      } else {
        TakeGroups(results);
      }
      if PageOf(pages, AwaitingSelectionAcceptance).generation == responsibilityGeneration {
        if projected.Some? {
          ApplyProjection(projected.value, true);
        } else {
          pages := WithCursor(pages, AwaitingSelectionAcceptance, None);
        }
      }
    }

    method OnLists(r: Request, results: seq<ListResult>) returns (next: Option<Request>)
      requires r.Lists? && |results| == ListCount(r.legacy)
      modifies this
      ensures (View(), next) == ListsArrived(old(View()), r, results)
      ensures r.generation != old(loadGeneration) || (r.legacy && !results[0].Fulfilled?) ==>
        View() == old(View()) && next.None?
      ensures next.Some? <==>
        && r.generation == old(loadGeneration)
        && if r.legacy then results[0].Fulfilled? else forall reply | reply in results :: !reply.Unauthorized?
      ensures next.Some? ==>
        next == Some(Responsibilities(r.generation, r.responsibilityGeneration, r.legacy, results))
        && View() == old(View())
    {
      next := None;
      if r.generation != loadGeneration || (r.legacy && !results[0].Fulfilled?) { return; }
      if !r.legacy && Refused(results) {
        Reload(r.responsibilityGeneration, results, None);
      } else {
        next := Some(Responsibilities(r.generation, r.responsibilityGeneration, r.legacy, results));
      }
    }

    method ReloadLegacy(page: ListPage, p: OpportunityPage)
      modifies this
      ensures View() == ApplyLegacyReload(old(View()), page, p)
      ensures legacyNextCursor == page.nextCursor
      ensures Assigned(old(responsibilities), responsibilities, p.opportunities, true)
    {
      legacyNextCursor, signals := page.nextCursor, [];
      UpsertItems(page.items);
      ApplyProjection(p, true);
    }

    method OnResponsibilities(r: Request, projected: Option<OpportunityPage>)
      requires r.Responsibilities? && |r.results| == ListCount(r.legacy) && (r.legacy ==> r.results[0].Fulfilled?)
      modifies this
      ensures View() == ResponsibilitiesArrived(old(View()), r, projected)
      ensures r.generation != old(loadGeneration) || (r.legacy && projected.None?) ==> View() == old(View())
    {
      if r.generation != loadGeneration { return; }
      if !r.legacy {
        Reload(r.responsibilityGeneration, r.results, projected);
      } else if projected.Some? {
        ReloadLegacy(r.results[0].page, projected.value);
      }
    }

    method StartRetry(d: State) returns (r: Request)
      modifies this
      ensures (View(), r) == RetryGroup(old(View()), d)
      ensures d == AwaitingSelectionAcceptance || old(legacyActive) ==>
        r.Lists? && loadGeneration == old(loadGeneration) + 1
      ensures d != AwaitingSelectionAcceptance && !old(legacyActive) ==>
        var page := PageOf(old(pages), d);
        && r == Group(d, page.generation + 1, page.identity)
        && pages == old(pages)[d := Page(page.nextCursor, false, page.generation + 1, page.identity)]
        && (signals, responsibilities, loadGeneration) == old((signals, responsibilities, loadGeneration))
    {
      if d == AwaitingSelectionAcceptance || legacyActive {
        r := StartLoad();
      } else {
        var page := Bumped(PageOf(pages, d)).(loadingMore := false);
        pages := pages[d := page];
        r := Group(d, page.generation, page.identity);
      }
    }

    method OnGroup(r: Request, reply: Option<ListPage>)
      requires r.Group?
      modifies this`signals, this`pages
      ensures View() == GroupArrived(old(View()), r, reply)
      ensures PageOf(old(pages), r.destination).generation != r.generation || reply.None? ==> View() == old(View())
      ensures PageOf(old(pages), r.destination).generation == r.generation && reply.Some? ==>
        Written(old(pages), pages, r.destination, r.identity, reply.value.nextCursor,
                PageOf(old(pages), r.destination).loadingMore)
    {
      var page := PageOf(pages, r.destination);
      if page.generation != r.generation || reply.None? { return; }
      signals := Kept(signals, r.destination, reply.value.items);
      UpsertItems(reply.value.items);
      pages := WritePage(pages, r.destination, r.identity, reply.value.nextCursor, page.loadingMore);
    }

    method StartLoadMore(d: State) returns (r: Option<Request>)
      modifies this`pages, this`legacyLoadingMore
      ensures (View(), r) == LoadMore(old(View()), d)
      ensures legacyActive ==>
        && (r.Some? <==> old(legacyNextCursor.GetOr("") != "" && !legacyLoadingMore))
        && (r.Some? ==> r == Some(LegacyMore(legacyNextCursor.GetOr(""))) && legacyLoadingMore) && pages == old(pages)
      ensures !legacyActive ==>
        var page := PageOf(old(pages), d);
        && (r.Some? <==> page.nextCursor.GetOr("") != "" && !page.loadingMore)
        && (r.Some? ==> r == Some(More(d, page.generation, page.identity, page.nextCursor.GetOr("")))
                        && pages == old(pages)[d := Page(page.nextCursor, true, page.generation, page.identity)])
    {
      if legacyActive {
        if !Usable(legacyNextCursor) || legacyLoadingMore { return None; }
        legacyLoadingMore := true;
        return Some(LegacyMore(legacyNextCursor.value));
      }
      var page := PageOf(pages, d);
      if !Usable(page.nextCursor) || page.loadingMore { return None; }
      pages := pages[d := page.(loadingMore := true)];
      r := Some(More(d, page.generation, page.identity, page.nextCursor.value));
    }

    method OnMore(r: Request, reply: Option<ListPage>)
      requires r.More? && r.destination != AwaitingSelectionAcceptance
      modifies this`signals, this`pages
      ensures View() == MoreArrived(old(View()), r, reply)
      ensures PageOf(old(pages), r.destination).generation != r.generation ==> View() == old(View())
      ensures PageOf(old(pages), r.destination).generation == r.generation ==>
        Written(old(pages), pages, r.destination, r.identity,
                if reply.Some? then reply.value.nextCursor else PageOf(old(pages), r.destination).nextCursor, false)
    {
      var page := PageOf(pages, r.destination);
      if page.generation != r.generation { return; }
      var cursor := page.nextCursor;
      if reply.Some? {
        UpsertItems(reply.value.items);
        cursor := reply.value.nextCursor;
      }
      pages := WritePage(pages, r.destination, r.identity, cursor, false);
    }

    method OnMoreOpportunities(r: Request, reply: Option<OpportunityPage>)
      requires r.More? && r.destination == AwaitingSelectionAcceptance
      modifies this`signals, this`responsibilities, this`pages
      ensures View() == MoreOpportunitiesArrived(old(View()), r, reply)
      ensures PageOf(old(pages), r.destination).generation != r.generation ==> View() == old(View())
      ensures PageOf(old(pages), r.destination).generation == r.generation
              && PageOf(old(pages), r.destination).identity == r.identity ==>
        Written(old(pages), pages, r.destination, r.identity,
                if reply.Some? then reply.value.nextCursor else PageOf(old(pages), r.destination).nextCursor, false)
    {
      if PageOf(pages, r.destination).generation != r.generation { return; }
      if reply.Some? {
        ApplyProjection(reply.value, false);
      }
      pages := WritePage(pages, r.destination, r.identity, PageOf(pages, r.destination).nextCursor, false);
    }

    method OnLegacyMore(reply: Option<ListPage>)
      modifies this`signals, this`legacyNextCursor, this`legacyLoadingMore
      ensures View() == LegacyMoreArrived(old(View()), reply)
      ensures !legacyLoadingMore
      ensures legacyNextCursor == if reply.Some? then reply.value.nextCursor else old(legacyNextCursor)
    {
      if reply.Some? {
        UpsertItems(reply.value.items);
        legacyNextCursor := reply.value.nextCursor;
      }
      legacyLoadingMore := false;
    }

    method StartDetail(id: string) returns (r: Request)
      modifies this`detailRequests
      ensures (View(), r) == LoadDetail(old(View()), id)
      ensures r.DetailRead? && r.id == id && id in detailRequests && r.token == detailRequests[id]
      ensures r.token == (if id in old(detailRequests) then old(detailRequests)[id] else 0) + 1
    {
      var token := Token(View(), id) + 1;
      detailRequests := detailRequests[id := token];
      r := DetailRead(id, token);
    }

    method NoteResponsibility(id: string, found: Option<Option<Opportunity>>)
      modifies this`responsibilities
      ensures responsibilities == Answerable(old(responsibilities), id, found)
    {
      if found.None? { return; }
      if found.value.Some? {
        responsibilities := responsibilities[id := found.value.value];
      } else {
        responsibilities := responsibilities - {id};
      }
    }

    method MergeDetail(id: string, detail: Detail, responsibility: Option<Opportunity>)
      modifies this`signals, this`details
      ensures details == old(details)[id := detail]
      ensures signals == Upsert(old(signals), Detailed(Find(old(signals), id), detail, responsibility))
    {
      var current := Find(signals, id);
      details := details[id := detail];
      if current.Some? && current.value.version > detail.signal.version {
        UpsertScenario(Enrich(current.value, detail, responsibility));
      } else {
        UpsertScenario(ToScenario(detail.signal, Some(detail), responsibility));
      }
    }

    method OnDetail(r: Request, detail: Option<Detail>, found: Option<Option<Opportunity>>)
      requires r.DetailRead?
      modifies this`signals, this`responsibilities, this`details
      ensures View() == DetailArrived(old(View()), r, detail, found)
      ensures (if r.id in detailRequests then detailRequests[r.id] else 0) != r.token || detail.None? ==>
        View() == old(View())
      ensures (if r.id in detailRequests then detailRequests[r.id] else 0) == r.token && detail.Some? ==>
        && details == old(details)[r.id := detail.value]
        && Get(responsibilities, r.id) == (if found.Some? then found.value else Get(old(responsibilities), r.id))
    {
      if Token(View(), r.id) != r.token || detail.None? { return; }
      NoteResponsibility(r.id, found);
      MergeDetail(r.id, detail.value, Get(responsibilities, r.id));
    }

    method OnSupplement(s: Signal)
      modifies this`signals
      ensures View() == SignalSaved(old(View()), s)
    {
      UpsertScenario(ToScenario(s, Get(details, s.id), Get(responsibilities, s.id)));
    }

    method OnDecision(s: Signal, handedOff: bool) returns (next: Option<Request>)
      modifies this`signals, this`loadGeneration
      ensures (View(), next) == DecisionArrived(old(View()), s, handedOff)
      ensures loadGeneration == old(loadGeneration) + 1
      ensures next == if handedOff then Some(Refresh(s.id)) else None
    {
      loadGeneration := loadGeneration + 1;
      UpsertScenario(ToScenario(s, Get(details, s.id), Get(responsibilities, s.id)));
      next := if handedOff then Some(Refresh(s.id)) else None;
    }

    method OnRefresh(r: Request, found: Option<Opportunity>)
      requires r.Refresh?
      modifies this`signals, this`responsibilities
      ensures View() == RefreshArrived(old(View()), r, found)
      ensures found.None? ==> View() == old(View())
      ensures found.Some? ==> responsibilities == old(responsibilities)[r.id := found.value]
    {
      if found.None? { return; }
      responsibilities := responsibilities[r.id := found.value];
      var detail := Get(details, r.id);
      UpsertScenario(FromRead(found.value, detail));
    }

    method OnRegistered(created: Signal)
      modifies this`signals
      ensures View() == Registered(old(View()), created)
      ensures |signals| == |old(signals)| + 1 && signals[1..] == old(signals) && signals[0].id == created.id
    {
      signals := [ToScenario(created, None, None)] + signals;
    }
  }
}
