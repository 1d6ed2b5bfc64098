/**
 The decision queue of `useMarketSignalWorkbench`: what it lists and the functions that reload,
 extend and correct it, each cut at its awaits. A `Request` is what a waiting function has
 captured. Flags, totals and texts that no branch reads again are left out.
 */
module MarketSignals {
  import opened Wrappers
  import opened Text

  datatype State =
    | NeedsDecision | SelectionReturnRequested | ReturnedFromSelection | Watching
    | HandedOff | Dismissed | Voided | Archived
    | AwaitingSelectionAcceptance

  const MARKET_DESTINATIONS: seq<State> :=
    [NeedsDecision, SelectionReturnRequested, ReturnedFromSelection, Watching, HandedOff, Dismissed, Voided, Archived]

  ghost predicate Distinct(ds: seq<State>) {
    forall i, j | 0 <= i < j < |ds| :: ds[i] != ds[j]
  }

  datatype Signal = Signal(id: string, version: nat, destination: State, facts: string, pending: seq<string>)
  datatype Evidence = Evidence(id: string, sourceName: string, summary: string)
  datatype Detail = Detail(signal: Signal, evidence: seq<Evidence>, returnReason: string)

  /** An opportunity: the signal as it was handed over, and who answers for it. */
  datatype Opportunity = Opportunity(
    signalId: string, signalVersion: nat, facts: string, pending: seq<string>, retainedByMarket: bool,
    assignedActor: string)

  datatype Gap = PendingField(code: string) | SourceName
  datatype Reason = SentBack(text: string) | Claimed(actor: string) | HandedOver | ByDestination(destination: State)

  datatype Scenario = Scenario(
    id: string, version: nat, state: State, facts: string, reason: Reason, evidence: seq<Evidence>, gaps: seq<Gap>,
    responsibility: Option<Opportunity>)

  datatype ListPage = ListPage(items: seq<Signal>, nextCursor: Option<string>, totalCount: Option<nat>)
  datatype ListResult = Fulfilled(page: ListPage) | Failed | Unauthorized
  datatype OpportunityPage = OpportunityPage(opportunities: seq<Opportunity>, nextCursor: Option<string>)

  /**
   One entry of `pages`. `identity` stands for the object: adopting the older API puts new objects
   in place, and a function that holds an old one then writes to an object nobody reads.
   */
  datatype Page = Page(nextCursor: Option<string>, loadingMore: bool, generation: nat, identity: nat)

  const EMPTY_PAGE := Page(None, false, 0, 0)

  datatype Request =
    | Lists(generation: nat, responsibilityGeneration: nat, legacy: bool)
    | Responsibilities(generation: nat, responsibilityGeneration: nat, legacy: bool, results: seq<ListResult>)
    | Group(destination: State, generation: nat, identity: nat)
    | More(destination: State, generation: nat, identity: nat, cursor: string)
    | LegacyMore(cursor: string)
    | DetailRead(id: string, token: nat)
    | Refresh(id: string)

  datatype Queue = Queue(
    signals: seq<Scenario>, pages: map<State, Page>, legacyActive: bool, legacyCursor: Option<string>,
    legacyLoadingMore: bool, details: map<string, Detail>, responsibilities: map<string, Opportunity>,
    detailRequests: map<string, nat>, loadGeneration: nat)

  const INITIAL := Queue([], map[], false, None, false, map[], map[], map[], 0)

  function PageOf(pages: map<State, Page>, s: State): Page {
    if s in pages then pages[s] else EMPTY_PAGE
  }

  function Get<T>(m: map<string, T>, id: string): Option<T> {
    if id in m then Some(m[id]) else None
  }

  // ---------------------------------------------------------------------------------------
  // Scenarios
  // ---------------------------------------------------------------------------------------

  function PendingGaps(codes: seq<string>): seq<Gap> {
    seq(|codes|, i requires 0 <= i < |codes| => PendingField(codes[i]))
  }

  predicate LacksSourceName(evidence: seq<Evidence>) {
    exists e | e in evidence :: Trim(e.sourceName) == ""
  }

  function ToScenario(s: Signal, detail: Option<Detail>, opportunity: Option<Opportunity>): Scenario {
    var awaiting := s.destination == HandedOff && opportunity.Some? && opportunity.value.retainedByMarket;
    var evidence := if detail.Some? then detail.value.evidence else [];
    Scenario(
      s.id, s.version, if awaiting then AwaitingSelectionAcceptance else s.destination, s.facts,
      if detail.Some? && detail.value.returnReason != "" then SentBack(detail.value.returnReason)
      else if awaiting then
        if opportunity.value.assignedActor != "" then Claimed(opportunity.value.assignedActor) else HandedOver
      else ByDestination(s.destination),
      evidence, PendingGaps(s.pending) + (if LacksSourceName(evidence) then [SourceName] else []), opportunity)
  }

  function SignalFromOpportunity(o: Opportunity): Signal {
    Signal(o.signalId, o.signalVersion, HandedOff, o.facts, o.pending)
  }

  /** The signal of the detail that was read, or else of the opportunity. */
  function FromRead(o: Opportunity, detail: Option<Detail>): Scenario {
    ToScenario(if detail.Some? then detail.value.signal else SignalFromOpportunity(o), detail, Some(o))
  }

  function FromOpportunity(o: Opportunity, details: map<string, Detail>): Scenario {
    FromRead(o, Get(details, o.signalId))
  }

  // ---------------------------------------------------------------------------------------
  // Upserts
  // ---------------------------------------------------------------------------------------

  function Find(ss: seq<Scenario>, id: string): (r: Option<Scenario>)
    ensures r.Some? ==> r.value in ss && r.value.id == id
    ensures r.None? ==> forall x | x in ss :: x.id != id
  {
    if ss == [] then None else if ss[0].id == id then Some(ss[0]) else Find(ss[1..], id)
  }

  function Replace(ss: seq<Scenario>, next: Scenario): seq<Scenario> {
    seq(|ss|, i requires 0 <= i < |ss| => if ss[i].id == next.id then next else ss[i])
  }

  /** `upsertScenario` */
  function Upsert(ss: seq<Scenario>, next: Scenario): seq<Scenario> {
    var current := Find(ss, next.id);
    if current.None? then ss + [next]
    else if current.value.version > next.version then ss
    else Replace(ss, next)
  }

  function UpsertAll(ss: seq<Scenario>, nexts: seq<Scenario>): seq<Scenario> {
    if nexts == [] then ss else Upsert(UpsertAll(ss, nexts[..|nexts| - 1]), nexts[|nexts| - 1])
  }

  function Scenarios(items: seq<Signal>, details: map<string, Detail>,
          responsibilities: map<string, Opportunity>): seq<Scenario>
  {
    seq(|items|, i requires 0 <= i < |items| =>
      ToScenario(items[i], Get(details, items[i].id), Get(responsibilities, items[i].id)))
  }

  /** `upsertSignals` */
  function UpsertSignals(q: Queue, items: seq<Signal>): Queue {
    q.(signals := UpsertAll(q.signals, Scenarios(items, q.details, q.responsibilities)))
  }

  // ---------------------------------------------------------------------------------------
  // The responsibility projection
  // ---------------------------------------------------------------------------------------

  function Carried(responsibilities: map<string, Opportunity>, os: seq<Opportunity>): map<string, Opportunity> {
    map id | id in responsibilities
      && (responsibilities[id].retainedByMarket ==> exists o | o in os :: o.signalId == id)
      :: responsibilities[id]
  }

  function Assign(responsibilities: map<string, Opportunity>, os: seq<Opportunity>): map<string, Opportunity> {
    if os == [] then responsibilities
    else var last := os[|os| - 1]; Assign(responsibilities, os[..|os| - 1])[last.signalId := last]
  }

  function Projected(os: seq<Opportunity>, details: map<string, Detail>): seq<Scenario> {
    seq(|os|, i requires 0 <= i < |os| => FromOpportunity(os[i], details))
  }

  function WithCursor(pages: map<State, Page>, s: State, cursor: Option<string>): map<State, Page> {
    pages[s := PageOf(pages, s).(nextCursor := cursor)]
  }

  function ApplyResponsibilityPage(q: Queue, p: OpportunityPage, replace: bool): Queue {
    q.(signals := UpsertAll(q.signals, Projected(p.opportunities, q.details)),
       responsibilities := Assign(
         if replace then Carried(q.responsibilities, p.opportunities) else q.responsibilities, p.opportunities),
       pages := WithCursor(q.pages, AwaitingSelectionAcceptance, p.nextCursor))
  }

  // ---------------------------------------------------------------------------------------
  // loadSignals
  // ---------------------------------------------------------------------------------------

  function Bumped(p: Page): Page {
    p.(generation := p.generation + 1)
  }

  /** The pages of `ds` start a new generation. */
  function BumpAll(pages: map<State, Page>, ds: seq<State>): map<State, Page> {
    if ds == [] then pages
    else var d := ds[|ds| - 1]; BumpAll(pages, ds[..|ds| - 1])[d := Bumped(PageOf(pages, d))]
  }

  function LoadSignals(q: Queue): (Queue, Request) {
    var bumped := q.pages[AwaitingSelectionAcceptance := Bumped(PageOf(q.pages, AwaitingSelectionAcceptance))];
    (q.(loadGeneration := q.loadGeneration + 1, responsibilities := map[],
        pages := if q.legacyActive then bumped else BumpAll(bumped, MARKET_DESTINATIONS)),
     Lists(q.loadGeneration + 1, bumped[AwaitingSelectionAcceptance].generation, q.legacyActive))
  }

  /** The first list whose reply does not count its group, which only the older API sends. */
  function LegacyPage(results: seq<ListResult>): Option<ListPage> {
    if results == [] then None
    else if results[0].Fulfilled? && results[0].page.totalCount.None? then Some(results[0].page)
    else LegacyPage(results[1..])
  }

  /** A new page object of the same generation. */
  function Renewed(p: Page): Page {
    EMPTY_PAGE.(generation := p.generation, identity := p.identity + 1)
  }

  function RenewAll(pages: map<State, Page>, ds: seq<State>): map<State, Page> {
    if ds == [] then pages
    else var d := ds[|ds| - 1]; RenewAll(pages, ds[..|ds| - 1])[d := Renewed(PageOf(pages, d))]
  }

  function AdoptLegacy(q: Queue, page: ListPage): Queue {
    UpsertSignals(q.(legacyActive := true, legacyCursor := page.nextCursor, signals := [],
                     pages := RenewAll(q.pages, MARKET_DESTINATIONS)), page.items)
  }

  function ApplyList(q: Queue, d: State, r: ListResult): Queue {
    var cursor := if r.Fulfilled? then r.page.nextCursor else None;
    var p := q.(pages := q.pages[d := PageOf(q.pages, d).(loadingMore := false, nextCursor := cursor)]);
    if r.Fulfilled? then UpsertSignals(p, r.page.items) else p
  }

  function ApplyLists(q: Queue, results: seq<ListResult>): Queue
    requires |results| <= |MARKET_DESTINATIONS|
  {
    if results == [] then q
    else ApplyList(ApplyLists(q, results[..|results| - 1]), MARKET_DESTINATIONS[|results| - 1], results[|results| - 1])
  }

  function AdoptGroups(q: Queue, results: seq<ListResult>): Queue
    requires |results| <= |MARKET_DESTINATIONS|
  {
    ApplyLists(q.(legacyActive := false, legacyCursor := None, signals := []), results)
  }

  /** `projected` is None when the projection failed or was not asked for. */
  function ApplyReload(q: Queue, responsibilityGeneration: nat, results: seq<ListResult>,
          projected: Option<OpportunityPage>): Queue
    requires |results| <= |MARKET_DESTINATIONS|
  {
    var legacyPage := LegacyPage(results);
    var p := if legacyPage.Some? then AdoptLegacy(q, legacyPage.value) else AdoptGroups(q, results);
    if PageOf(p.pages, AwaitingSelectionAcceptance).generation != responsibilityGeneration then p
    else if projected.Some? then ApplyResponsibilityPage(p, projected.value, true)
    else p.(pages := WithCursor(p.pages, AwaitingSelectionAcceptance, None))
  }

  predicate Refused(results: seq<ListResult>) {
    exists r | r in results :: r.Unauthorized?
  }

  /** The number of lists a load asks for. */
  function ListCount(legacy: bool): nat {
    if legacy then 1 else |MARKET_DESTINATIONS|
  }

  function ListsArrived(q: Queue, r: Request, results: seq<ListResult>): (Queue, Option<Request>)
    requires r.Lists? && |results| == ListCount(r.legacy)
  {
    if r.generation != q.loadGeneration then (q, None)
    else if r.legacy && !results[0].Fulfilled? then (q, None)
    else if !r.legacy && Refused(results) then (ApplyReload(q, r.responsibilityGeneration, results, None), None)
    else (q, Some(Responsibilities(r.generation, r.responsibilityGeneration, r.legacy, results)))
  }

  /** A reload of the older API: its page, then the opportunities. */
  function ApplyLegacyReload(q: Queue, page: ListPage, p: OpportunityPage): Queue {
    ApplyResponsibilityPage(UpsertSignals(q.(legacyCursor := page.nextCursor, signals := []), page.items), p, true)
  }

  function ResponsibilitiesArrived(q: Queue, r: Request, projected: Option<OpportunityPage>): Queue
    requires r.Responsibilities? && |r.results| == ListCount(r.legacy) && (r.legacy ==> r.results[0].Fulfilled?)
  {
    if r.generation != q.loadGeneration then q
    else if !r.legacy then ApplyReload(q, r.responsibilityGeneration, r.results, projected)
    else if projected.None? then q
    else ApplyLegacyReload(q, r.results[0].page, projected.value)
  }

  // ---------------------------------------------------------------------------------------
  // retryGroup and loadMore
  // ---------------------------------------------------------------------------------------

  function RetryGroup(q: Queue, d: State): (Queue, Request) {
    if d == AwaitingSelectionAcceptance || q.legacyActive then LoadSignals(q)
    else
      var p := Bumped(PageOf(q.pages, d)).(loadingMore := false);
      (q.(pages := q.pages[d := p]), Group(d, p.generation, p.identity))
  }

  function ReplaceDestination(q: Queue, d: State, items: seq<Signal>): Queue {
    UpsertSignals(q.(signals := Kept(q.signals, d, items)), items)
  }

  predicate Incoming(items: seq<Signal>, id: string) {
    exists s | s in items :: s.id == id
  }

  function Kept(ss: seq<Scenario>, d: State, items: seq<Signal>): (r: seq<Scenario>)
    ensures forall x :: x in r <==> x in ss && (x.state != d || Incoming(items, x.id))
  {
    if ss == [] then []
    else (if ss[0].state != d || Incoming(items, ss[0].id) then [ss[0]] else []) + Kept(ss[1..], d, items)
  }

  /** A write through the page object a function holds; lost when another object has taken its place. */
  function WritePage(pages: map<State, Page>, d: State, identity: nat, cursor: Option<string>,
          loadingMore: bool): map<State, Page>
  {
    var p := PageOf(pages, d);
    if p.identity == identity then pages[d := p.(nextCursor := cursor, loadingMore := loadingMore)] else pages
  }

  function GroupArrived(q: Queue, r: Request, reply: Option<ListPage>): Queue
    requires r.Group?
  {
    var p := PageOf(q.pages, r.destination);
    if p.generation != r.generation || reply.None? then q
    else
      ReplaceDestination(
        q.(pages := WritePage(q.pages, r.destination, r.identity, reply.value.nextCursor, p.loadingMore)),
        r.destination, reply.value.items)
  }

  predicate Usable(cursor: Option<string>) {
    cursor.Some? && cursor.value != ""
  }

  function LoadMore(q: Queue, d: State): (Queue, Option<Request>) {
    var p := PageOf(q.pages, d);
    if q.legacyActive then
      if !Usable(q.legacyCursor) || q.legacyLoadingMore then (q, None)
      else (q.(legacyLoadingMore := true), Some(LegacyMore(q.legacyCursor.value)))
    else if !Usable(p.nextCursor) || p.loadingMore then (q, None)
    else (q.(pages := q.pages[d := p.(loadingMore := true)]),
      Some(More(d, p.generation, p.identity, p.nextCursor.value)))
  }

  function MoreArrived(q: Queue, r: Request, reply: Option<ListPage>): Queue
    requires r.More? && r.destination != AwaitingSelectionAcceptance
  {
    var p := PageOf(q.pages, r.destination);
    if p.generation != r.generation then q
    else if reply.None? then q.(pages := WritePage(q.pages, r.destination, r.identity, p.nextCursor, false))
    else UpsertSignals(q.(pages := WritePage(q.pages, r.destination, r.identity, reply.value.nextCursor, false)),
      reply.value.items)
  }

  function MoreOpportunitiesArrived(q: Queue, r: Request, reply: Option<OpportunityPage>): Queue
    requires r.More? && r.destination == AwaitingSelectionAcceptance
  {
    var p := PageOf(q.pages, r.destination);
    if p.generation != r.generation then q
    else
      var applied := if reply.Some? then ApplyResponsibilityPage(q, reply.value, false) else q;
      applied.(pages := WritePage(applied.pages, r.destination, r.identity,
          PageOf(applied.pages, r.destination).nextCursor, false))
  }

  /** No generation is compared here. */
  function LegacyMoreArrived(q: Queue, reply: Option<ListPage>): Queue {
    var p := if reply.Some? then UpsertSignals(q, reply.value.items).(legacyCursor := reply.value.nextCursor) else q;
    p.(legacyLoadingMore := false)
  }

  // ---------------------------------------------------------------------------------------
  // One signal; a reply is taken to be about the signal it was asked for
  // ---------------------------------------------------------------------------------------

  function Token(q: Queue, id: string): nat {
    if id in q.detailRequests then q.detailRequests[id] else 0
  }

  function LoadDetail(q: Queue, id: string): (Queue, Request) {
    var token := Token(q, id) + 1;
    (q.(detailRequests := q.detailRequests[id := token]), DetailRead(id, token))
  }

  function WithoutSourceName(gaps: seq<Gap>): seq<Gap> {
    if gaps == [] then [] else (if gaps[0] == SourceName then [] else [gaps[0]]) + WithoutSourceName(gaps[1..])
  }

  function OnlySourceName(gaps: seq<Gap>): seq<Gap> {
    if gaps == [] then [] else (if gaps[0] == SourceName then [SourceName] else []) + OnlySourceName(gaps[1..])
  }

  /** What a detail of an older version may still add to the listed signal. */
  function Enrich(current: Scenario, detail: Detail, opportunity: Option<Opportunity>): Scenario {
    var enriched := ToScenario(detail.signal, Some(detail), opportunity);
    current.(evidence := enriched.evidence,
             reason := if detail.returnReason != "" then enriched.reason else current.reason,
             gaps := WithoutSourceName(current.gaps) + OnlySourceName(enriched.gaps))
  }

  /** `found` is None when the opportunities could not be read. */
  function Answerable(responsibilities: map<string, Opportunity>, id: string,
          found: Option<Option<Opportunity>>): map<string, Opportunity>
  {
    match found
    case None => responsibilities
    case Some(None) => responsibilities - {id}
    case Some(Some(o)) => responsibilities[id := o]
  }

  function Detailed(current: Option<Scenario>, detail: Detail, opportunity: Option<Opportunity>): Scenario {
    if current.Some? && current.value.version > detail.signal.version then Enrich(current.value, detail, opportunity)
    else ToScenario(detail.signal, Some(detail), opportunity)
  }

  function DetailArrived(q: Queue, r: Request, detail: Option<Detail>, found: Option<Option<Opportunity>>): Queue
    requires r.DetailRead?
  {
    if Token(q, r.id) != r.token || detail.None? then q
    else
      var responsibilities := Answerable(q.responsibilities, r.id, found);
      q.(responsibilities := responsibilities, details := q.details[r.id := detail.value],
         signals := Upsert(q.signals, Detailed(Find(q.signals, r.id), detail.value, Get(responsibilities, r.id))))
  }

  /** A reply that carries the signal itself, to a supplement or to a decision. */
  function SignalSaved(q: Queue, s: Signal): Queue {
    q.(signals := Upsert(q.signals, ToScenario(s, Get(q.details, s.id), Get(q.responsibilities, s.id))))
  }

  function DecisionArrived(q: Queue, s: Signal, handedOff: bool): (Queue, Option<Request>) {
    (SignalSaved(q.(loadGeneration := q.loadGeneration + 1), s), if handedOff then Some(Refresh(s.id)) else None)
  }

  function RefreshArrived(q: Queue, r: Request, found: Option<Opportunity>): Queue
    requires r.Refresh?
  {
    if found.None? then q
    else
      var o := found.value;
      var detail := Get(q.details, r.id);
      q.(responsibilities := q.responsibilities[r.id := o],
         signals := Upsert(q.signals, FromRead(o, detail)))
  }

  /** The list is not searched for the id first. */
  function Registered(q: Queue, created: Signal): Queue {
    q.(signals := [ToScenario(created, None, None)] + q.signals)
  }
}
