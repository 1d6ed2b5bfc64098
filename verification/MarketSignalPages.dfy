/** What the steps of the queue do to the pages of its groups and to who answers for its signals. */
module MarketSignalPages {
  import opened Wrappers
  import opened MarketSignals

  /** The groups of the market are all but the one that awaits acceptance. */
  lemma MarketGroups()
    ensures Distinct(MARKET_DESTINATIONS)
    ensures forall d: State :: d in MARKET_DESTINATIONS <==> d != AwaitingSelectionAcceptance
  {
    forall d: State ensures d in MARKET_DESTINATIONS <==> d != AwaitingSelectionAcceptance {
      match d
      case NeedsDecision => assert MARKET_DESTINATIONS[0] == d;
      case SelectionReturnRequested => assert MARKET_DESTINATIONS[1] == d;
      case ReturnedFromSelection => assert MARKET_DESTINATIONS[2] == d;
      case Watching => assert MARKET_DESTINATIONS[3] == d;
      case HandedOff => assert MARKET_DESTINATIONS[4] == d;
      case Dismissed => assert MARKET_DESTINATIONS[5] == d;
      case Voided => assert MARKET_DESTINATIONS[6] == d;
      case Archived => assert MARKET_DESTINATIONS[7] == d;
      case AwaitingSelectionAcceptance =>
    }
  }

  /** The pages of `ds` have the next generation, and nothing else has changed. */
  ghost predicate Raised(before: map<State, Page>, after: map<State, Page>, ds: seq<State>) {
    forall d: State :: var p, q := PageOf(before, d), PageOf(after, d);
      if d in ds then q == Page(p.nextCursor, p.loadingMore, p.generation + 1, p.identity) else q == p
  }

  /** The pages of `ds` are new, empty ones of the same generation, and nothing else has changed. */
  ghost predicate ReplacedByNew(before: map<State, Page>, after: map<State, Page>, ds: seq<State>) {
    forall d: State :: var p, q := PageOf(before, d), PageOf(after, d);
      if d in ds then q == Page(None, false, p.generation, p.identity + 1) else q == p
  }

  lemma LastIsNew(ds: seq<State>, d: State)
    requires Distinct(ds) && ds != []
    ensures Distinct(ds[..|ds| - 1]) && ds[|ds| - 1] !in ds[..|ds| - 1]
    ensures d in ds <==> d in ds[..|ds| - 1] || d == ds[|ds| - 1]
  {
    assert ds == ds[..|ds| - 1] + [ds[|ds| - 1]];
  }

  lemma {:induction false} BumpAllRaises(pages: map<State, Page>, ds: seq<State>)
    requires Distinct(ds)
    ensures Raised(pages, BumpAll(pages, ds), ds)
  {
    if ds != [] {
      LastIsNew(ds, ds[0]);
      BumpAllRaises(pages, ds[..|ds| - 1]);
      forall d: State ensures d in ds <==> d in ds[..|ds| - 1] || d == ds[|ds| - 1] {
        LastIsNew(ds, d);
      }
    }
  }

  lemma {:induction false} RenewAllReplaces(pages: map<State, Page>, ds: seq<State>)
    requires Distinct(ds)
    ensures ReplacedByNew(pages, RenewAll(pages, ds), ds)
  {
    if ds != [] {
      LastIsNew(ds, ds[0]);
      RenewAllReplaces(pages, ds[..|ds| - 1]);
      forall d: State ensures d in ds <==> d in ds[..|ds| - 1] || d == ds[|ds| - 1] {
        LastIsNew(ds, d);
      }
    }
  }

  /** The last opportunity of a page for the signal. */
  ghost predicate IsLast(os: seq<Opportunity>, id: string, o: Opportunity) {
    exists k | 0 <= k < |os| :: os[k] == o && o.signalId == id && forall j | k < j < |os| :: os[j].signalId != id
  }

  predicate Names(os: seq<Opportunity>, id: string) {
    exists o | o in os :: o.signalId == id
  }

  /** What a page of opportunities makes of the one known for `id`; a whole page drops those the market retained. */
  ghost predicate AssignedTo(before: map<string, Opportunity>, after: map<string, Opportunity>, os: seq<Opportunity>,
          whole: bool, id: string)
  {
    if Names(os, id) then id in after && IsLast(os, id, after[id])
    else if id in before && !(whole && before[id].retainedByMarket) then id in after && after[id] == before[id]
    else id !in after
  }

  ghost predicate Assigned(before: map<string, Opportunity>, after: map<string, Opportunity>, os: seq<Opportunity>,
          whole: bool)
  {
    forall id :: AssignedTo(before, after, os, whole, id)
  }

  lemma NamedInFront(os: seq<Opportunity>, id: string)
    requires os != [] && os[|os| - 1].signalId != id
    ensures Names(os, id) <==> Names(os[..|os| - 1], id)
  {
    assert os == os[..|os| - 1] + [os[|os| - 1]];
  }

  lemma LastInFront(os: seq<Opportunity>, id: string, o: Opportunity)
    requires os != [] && os[|os| - 1].signalId != id && IsLast(os[..|os| - 1], id, o)
    ensures IsLast(os, id, o)
  {
    var front := os[..|os| - 1];
    var k :| 0 <= k < |front| && front[k] == o && o.signalId == id
      && forall j | k < j < |front| :: front[j].signalId != id;
    assert os[k] == o;
  }

  lemma {:induction false} LastAssigned(before: map<string, Opportunity>, os: seq<Opportunity>, id: string)
    ensures AssignedTo(before, Assign(before, os), os, false, id)
  {
    if os != [] {
      var front, last := os[..|os| - 1], os[|os| - 1];
      LastAssigned(before, front, id);
      if last.signalId == id {
        assert last in os && IsLast(os, id, last);
      } else {
        NamedInFront(os, id);
        if Names(front, id) {
          LastInFront(os, id, Assign(before, front)[id]);
        }
      }
    }
  }

  lemma ProjectionAssigns(before: map<string, Opportunity>, os: seq<Opportunity>, whole: bool)
    ensures Assigned(before, Assign(if whole then Carried(before, os) else before, os), os, whole)
  {
    var carried := if whole then Carried(before, os) else before;
    forall id ensures AssignedTo(before, Assign(carried, os), os, whole, id) {
      LastAssigned(carried, os, id);
    }
  }

  /** The page of `d` has this cursor and flag, unless another object has taken its place; the rest is as before. */
  ghost predicate Written(before: map<State, Page>, after: map<State, Page>, d: State, identity: nat,
          cursor: Option<string>, loadingMore: bool)
  {
    forall e: State :: var p, q := PageOf(before, e), PageOf(after, e);
      if e == d && p.identity == identity then q == Page(cursor, loadingMore, p.generation, p.identity) else q == p
  }

  /** A reload raises the generation of the group that awaits acceptance and, of groups, that of all others. */
  ghost predicate NewAttempt(before: map<State, Page>, after: map<State, Page>, all: bool) {
    forall d: State :: var p, q := PageOf(before, d), PageOf(after, d);
      if d == AwaitingSelectionAcceptance || all
      then q == Page(p.nextCursor, p.loadingMore, p.generation + 1, p.identity) else q == p
  }

  lemma LoadIsNewAttempt(q: Queue)
    ensures NewAttempt(q.pages, LoadSignals(q).0.pages, !q.legacyActive)
  {
    var bumped := q.pages[AwaitingSelectionAcceptance := Bumped(PageOf(q.pages, AwaitingSelectionAcceptance))];
    MarketGroups();
    if !q.legacyActive {
      BumpAllRaises(bumped, MARKET_DESTINATIONS);
    }
  }

  /** The cursor of a group that was read; a group that failed has none. */
  function CursorOf(r: ListResult): Option<string> {
    if r.Fulfilled? then r.page.nextCursor else None
  }

  /** What one list does to the pages. */
  lemma ListWrites(q: Queue, d: State, r: ListResult)
    ensures Written(q.pages, ApplyList(q, d, r).pages, d, PageOf(q.pages, d).identity, CursorOf(r), false)
    ensures ApplyList(q, d, r).legacyActive == q.legacyActive && ApplyList(q, d, r).legacyCursor == q.legacyCursor
  {
  }

  lemma {:induction false} ListsLeave(q: Queue, results: seq<ListResult>, d: State)
    requires |results| <= |MARKET_DESTINATIONS| && forall i | 0 <= i < |results| :: MARKET_DESTINATIONS[i] != d
    ensures PageOf(ApplyLists(q, results).pages, d) == PageOf(q.pages, d)
  {
    if results != [] {
      var last := |results| - 1;
      ListsLeave(q, results[..last], d);
      ListWrites(ApplyLists(q, results[..last]), MARKET_DESTINATIONS[last], results[last]);
    }
  }

  /** The cursor and flag of the i-th group after all lists were applied. */
  predicate CursorSet(before: map<State, Page>, after: map<State, Page>, d: State, r: ListResult) {
    var p := PageOf(before, d);
    PageOf(after, d) == Page(CursorOf(r), false, p.generation, p.identity)
  }

  lemma {:induction false} ListsSetCursors(q: Queue, results: seq<ListResult>, i: nat)
    requires i < |results| <= |MARKET_DESTINATIONS|
    ensures CursorSet(q.pages, ApplyLists(q, results).pages, MARKET_DESTINATIONS[i], results[i])
    decreases |results|
  {
    var last := |results| - 1;
    MarketGroups();
    ListWrites(ApplyLists(q, results[..last]), MARKET_DESTINATIONS[last], results[last]);
    if i < last {
      ListsSetCursors(q, results[..last], i);
    } else {
      ListsLeave(q, results[..last], MARKET_DESTINATIONS[i]);
    }
  }

  lemma {:induction false} ListsKeepLegacy(q: Queue, results: seq<ListResult>)
    requires |results| <= |MARKET_DESTINATIONS|
    ensures ApplyLists(q, results).legacyActive == q.legacyActive
    ensures ApplyLists(q, results).legacyCursor == q.legacyCursor
  {
    if results != [] {
      var last := |results| - 1;
      ListsKeepLegacy(q, results[..last]);
      ListWrites(ApplyLists(q, results[..last]), MARKET_DESTINATIONS[last], results[last]);
    }
  }

  ghost predicate CursorsSet(before: map<State, Page>, after: map<State, Page>, results: seq<ListResult>)
    requires |results| <= |MARKET_DESTINATIONS|
  {
    forall i | 0 <= i < |results| :: CursorSet(before, after, MARKET_DESTINATIONS[i], results[i])
  }

  lemma ListsSetAllCursors(q: Queue, results: seq<ListResult>)
    requires |results| <= |MARKET_DESTINATIONS|
    ensures CursorsSet(q.pages, ApplyLists(q, results).pages, results)
  {
    forall i | 0 <= i < |results|
      ensures CursorSet(q.pages, ApplyLists(q, results).pages, MARKET_DESTINATIONS[i], results[i])
    {
      ListsSetCursors(q, results, i);
    }
  }

  /** The first list of an older API: one whose reply does not count its group. */
  predicate IsFirstUncounted(results: seq<ListResult>, i: nat) {
    && i < |results| && results[i].Fulfilled? && results[i].page.totalCount.None?
    && forall j | 0 <= j < i :: !(results[j].Fulfilled? && results[j].page.totalCount.None?)
  }

  /** That list decides between the two ways to apply a reload. */
  lemma {:induction false} LegacyPageIsTheFirst(results: seq<ListResult>) returns (i: nat)
    ensures LegacyPage(results).Some? ==> IsFirstUncounted(results, i) && LegacyPage(results).value == results[i].page
    ensures LegacyPage(results).None? ==> forall r | r in results :: r.Fulfilled? ==> r.page.totalCount.Some?
  {
    i := 0;
    if results != [] && !(results[0].Fulfilled? && results[0].page.totalCount.None?) {
      i := LegacyPageIsTheFirst(results[1..]);
      i := i + 1;
      assert results == [results[0]] + results[1..];
    }
  }
}
