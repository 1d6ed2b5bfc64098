/**
 Any number of pages that follow the protocol: tabs, browsers and page loads, each with keys of its
 own and none with the keys of another. They share the server with arbitrary other clients. A page
 that is closed takes no further step, and what it sent may still arrive.
 */
module UnloadingClients {
  import opened Wrappers
  import opened UnloadingServer
  import opened UnloadingCommands
  import opened UnloadingSafety
  import opened UnloadingRetries

  /** The server that counts is the one of the world, not the one in a page's system. */
  datatype World = World(pages: map<nat, System>, server: Server)

  const EMPTY_WORLD := World(map[], EMPTY_SERVER)

  datatype WorldEvent =
    | Opens(page: nat)
    | At(page: nat, event: Event)
    | Others(event: Event)

  /** The world as one page meets it. */
  function View(w: World, i: nat): System
    requires i in w.pages
  {
    w.pages[i].(server := w.server)
  }

  predicate ByOthers(e: Event) {
    e.OthersReport? || e.OthersFact?
  }

  ghost predicate NeverIssued(w: World, k: Key) {
    forall i | i in w.pages :: NotIssued(View(w, i), k)
  }

  ghost predicate FreshReport(server: Server, e: Event) {
    e.OthersReport? ==> forall k | k in server.reports :: server.reports[k].report.reportId != e.reportId
  }

  ghost predicate WorldEnabled(w: World, e: WorldEvent) {
    match e
    case Opens(i) => i !in w.pages
    case At(i, event) =>
      i in w.pages && !ByOthers(event) && Enabled(View(w, i), event) && (NeedsKey(event) ==> NeverIssued(w, event.uuid))
    case Others(event) =>
      ByOthers(event) && FreshReport(w.server, event)
      && NeverIssued(w, if event.OthersReport? then event.request.key else event.factRequest.key)
  }

  ghost function WorldStep(w: World, e: WorldEvent): World
    requires WorldEnabled(w, e)
  {
    match e
    case Opens(i) => w.(pages := w.pages[i := INITIAL])
    case At(i, event) => var t := Step(View(w, i), event); World(w.pages[i := t], t.server)
    case Others(event) =>
      w.(server := if event.OthersReport? then AppendReport(w.server, event.request, event.reportId).0
                   else RecordFact(w.server, event.factRequest, event.factId).0)
  }

  ghost predicate WorldRun(w: World, es: seq<WorldEvent>, t: World)
    decreases |es|
  {
    if es == [] then w == t else WorldEnabled(w, es[0]) && WorldRun(WorldStep(w, es[0]), es[1..], t)
  }

  // ---------------------------------------------------------------------------------------
  // The invariant
  // ---------------------------------------------------------------------------------------

  ghost predicate Apart(s: System, t: System) {
    forall p, q | p in s.issued && q in t.issued :: p.0 != q.0
  }

  ghost predicate PagesApart(w: World) {
    forall i, j | i in w.pages && j in w.pages && i != j :: Apart(View(w, i), View(w, j))
  }

  ghost predicate WorldInv(w: World) {
    StoredInv(w.server) && (forall i | i in w.pages :: Inv(View(w, i))) && PagesApart(w)
  }

  lemma PageOpens(server: Server)
    requires StoredInv(server)
    ensures Inv(INITIAL.(server := server))
  {
  }

  lemma OpeningKeepsInv(w: World, e: WorldEvent)
    requires WorldInv(w) && WorldEnabled(w, e) && e.Opens?
    ensures WorldInv(WorldStep(w, e))
  {
    var v := WorldStep(w, e);
    PageOpens(w.server);
    forall i | i in v.pages ensures Inv(View(v, i)) {
      assert i != e.page ==> View(v, i) == View(w, i);
    }
    forall i, j | i in v.pages && j in v.pages && i != j ensures Apart(View(v, i), View(v, j)) {
      if i != e.page && j != e.page {
        assert Apart(View(w, i), View(w, j));
      }
    }
  }

  lemma OthersKeepInv(w: World, e: WorldEvent)
    requires WorldInv(w) && WorldEnabled(w, e) && e.Others?
    ensures (forall i | i in w.pages :: Inv(View(WorldStep(w, e), i))) && PagesApart(WorldStep(w, e))
  {
    var v := WorldStep(w, e);
    forall i | i in v.pages ensures Inv(View(v, i)) {
      assert Enabled(View(w, i), e.event);
      assert Step(View(w, i), e.event) == View(v, i);
      StepKeepsInv(View(w, i), e.event);
    }
    forall i, j | i in v.pages && j in v.pages && i != j ensures Apart(View(v, i), View(v, j)) {
      assert Apart(View(w, i), View(w, j));
    }
  }

  lemma RecordKeepsReports(server: Server, r: FactRequest, id: nat)
    ensures RecordFact(server, r, id).0.reports == server.reports && RecordFact(server, r, id).0.active == server.active
  {
  }

  lemma OthersKeepStored(w: World, e: WorldEvent)
    requires WorldInv(w) && WorldEnabled(w, e) && e.Others?
    ensures StoredInv(WorldStep(w, e).server)
  {
    if e.event.OthersReport? {
      AppendKeepsStored(w.server, e.event.request, e.event.reportId);
    } else {
      RecordKeepsReports(w.server, e.event.factRequest, e.event.factId);
    }
  }

  /** What a page's step looks like from another page. */
  function SeenByOthers(e: Event): Event {
    match e
    case ServerGetsReport(r, id) => OthersReport(r, id)
    case ServerGetsFact(r, id) => OthersFact(r, id)
    case _ => e
  }

  lemma SentKeyIsIssued(s: System, e: Event)
    requires SentInv(s) && Enabled(s, e) && (e.ServerGetsReport? || e.ServerGetsFact?)
    ensures exists p :: p in s.issued && p.0 == if e.ServerGetsReport? then e.request.key else e.factRequest.key
  {
    if e.ServerGetsFact? {
      var id :| (e.factRequest.key, FactScope(e.factRequest.command.container, id)) in s.issued;
    } else {
      var c := e.request.command;
      assert (e.request.key, ReportScope(c.container, c.expectedVersion + 1)) in s.issued;
    }
  }

  lemma StepSeen(s: System, t: System, e: Event)
    requires Inv(s) && Inv(t) && Apart(s, t) && s.server == t.server && Enabled(s, e) && !ByOthers(e)
    ensures Inv(t.(server := Step(s, e).server))
  {
    if e.ServerGetsReport? || e.ServerGetsFact? {
      SentKeyIsIssued(s, e);
      var k := if e.ServerGetsReport? then e.request.key else e.factRequest.key;
      var p :| p in s.issued && p.0 == k;
      assert NotIssued(t, k);
      assert Step(t, SeenByOthers(e)) == t.(server := Step(s, e).server);
      StepKeepsInv(t, SeenByOthers(e));
    } else {
      assert t.(server := Step(s, e).server) == t;
    }
  }

  lemma IssuedByStep(s: System, e: Event)
    requires KeysInv(s) && Enabled(s, e)
    ensures forall p | p in Step(s, e).issued :: p in s.issued || (NeedsKey(e) && p.0 == e.uuid)
  {
    if NeedsKey(e) {
      StepDraws(s, e);
    } else {
      StepKeeps(s, e);
    }
  }

  lemma StepStaysApart(w: World, i: nat, e: Event, j: nat)
    requires PagesApart(w) && WorldEnabled(w, At(i, e)) && KeysInv(View(w, i)) && j in w.pages && i != j
    ensures Apart(Step(View(w, i), e), View(w, j)) && Apart(View(w, j), Step(View(w, i), e))
  {
    assert Apart(View(w, i), View(w, j)) && Apart(View(w, j), View(w, i));
    IssuedByStep(View(w, i), e);
    assert NeedsKey(e) ==> NotIssued(View(w, j), e.uuid);
  }

  lemma PageStepSeen(w: World, e: WorldEvent, j: nat)
    requires WorldInv(w) && WorldEnabled(w, e) && e.At? && j in w.pages
    ensures Inv(View(WorldStep(w, e), j))
  {
    var v, i := WorldStep(w, e), e.page;
    if j == i {
      StepKeepsInv(View(w, i), e.event);
      assert View(v, i) == Step(View(w, i), e.event);
    } else {
      assert Apart(View(w, i), View(w, j));
      StepSeen(View(w, i), View(w, j), e.event);
      assert View(v, j) == View(w, j).(server := Step(View(w, i), e.event).server);
    }
  }

  lemma PageStepStaysApart(w: World, e: WorldEvent, j: nat, k: nat)
    requires PagesApart(w) && WorldEnabled(w, e) && e.At? && KeysInv(View(w, e.page))
    requires j in w.pages && k in w.pages && j != k
    ensures Apart(View(WorldStep(w, e), j), View(WorldStep(w, e), k))
  {
    if j == e.page {
      StepStaysApart(w, j, e.event, k);
    } else if k == e.page {
      StepStaysApart(w, k, e.event, j);
    } else {
      assert Apart(View(w, j), View(w, k));
    }
  }

  lemma PageStepKeepsInv(w: World, e: WorldEvent)
    requires WorldInv(w) && WorldEnabled(w, e) && e.At?
    ensures WorldInv(WorldStep(w, e))
  {
    var v := WorldStep(w, e);
    assert v.pages.Keys == w.pages.Keys;
    forall j | j in v.pages ensures Inv(View(v, j)) {
      PageStepSeen(w, e, j);
    }
    assert StoredInv(v.server) by {
      assert Inv(View(v, e.page));
    }
    forall j, k | j in v.pages && k in v.pages && j != k ensures Apart(View(v, j), View(v, k)) {
      PageStepStaysApart(w, e, j, k);
    }
  }

  lemma {:induction false} WorldRunKeepsInv(w: World, es: seq<WorldEvent>, t: World)
    requires WorldInv(w) && WorldRun(w, es, t)
    ensures WorldInv(t)
    decreases |es|
  {
    if es != [] {
      match es[0] {
        case Opens(_) => OpeningKeepsInv(w, es[0]);
        case At(_, _) => PageStepKeepsInv(w, es[0]);
        case Others(_) =>
          OthersKeepInv(w, es[0]);
          OthersKeepStored(w, es[0]);
      }
      WorldRunKeepsInv(WorldStep(w, es[0]), es[1..], t);
    }
  }

  // ---------------------------------------------------------------------------------------
  // Exactly once, whoever sends
  // ---------------------------------------------------------------------------------------

  /** The facts that pages following the protocol have recorded for a report. */
  ghost function FactsAnywhere(w: World, report: Report): set<Key> {
    set k | k in w.server.facts && IssuedSomewhere(w, k, FactScope(report.container, report.reportId))
  }

  ghost predicate IssuedSomewhere(w: World, k: Key, scope: Scope) {
    exists i :: i in w.pages && (k, scope) in View(w, i).issued
  }

  /** Only the page whose report it is records facts for it. */
  lemma OnePagePerReport(w: World, scope: Scope, i: nat, k: Key, j: nat, l: Key)
    requires WorldInv(w) && scope.FactScope? && i in w.pages && j in w.pages
    requires (k, scope) in View(w, i).issued && (l, scope) in View(w, j).issued
    ensures i == j
  {
    var kr :| Origin(View(w, i), (k, scope), kr);
    var lr :| Origin(View(w, j), (l, scope), lr);
    assert kr == lr;
    var r := w.server.reports[kr].report;
    var p := (kr, ReportScope(r.container, r.version));
    assert p in View(w, i).issued && p in View(w, j).issued;
  }

  lemma OneFactPerReport(w: World, report: Report, k: Key, l: Key)
    requires WorldInv(w) && k in FactsAnywhere(w, report) && l in FactsAnywhere(w, report)
    ensures k == l
  {
    var scope := FactScope(report.container, report.reportId);
    var i :| i in w.pages && (k, scope) in View(w, i).issued;
    var j :| j in w.pages && (l, scope) in View(w, j).issued;
    OnePagePerReport(w, scope, i, k, j, l);
    assert KeysInv(View(w, i));
  }

  lemma OneReportAt(server: Server, container: string, version: nat, k: Key)
    requires StoredInv(server) && k in ReportsAt(server, container, version)
    ensures ReportsAt(server, container, version) == {k}
  {
    forall l | l in ReportsAt(server, container, version) ensures l == k {
      SamePlaceSameKey(server, container, version, l, k);
    }
  }

  lemma OneFactFor(w: World, report: Report, k: Key)
    requires WorldInv(w) && k in FactsAnywhere(w, report)
    ensures FactsAnywhere(w, report) == {k}
  {
    forall l | l in FactsAnywhere(w, report) ensures l == k {
      OneFactPerReport(w, report, l, k);
    }
  }

  lemma AtMostOneReport(server: Server, container: string, version: nat)
    requires StoredInv(server)
    ensures |ReportsAt(server, container, version)| <= 1
  {
    if k :| k in ReportsAt(server, container, version) {
      OneReportAt(server, container, version, k);
    }
  }

  lemma AtMostOneFact(w: World, report: Report)
    requires WorldInv(w)
    ensures |FactsAnywhere(w, report)| <= 1
  {
    if k :| k in FactsAnywhere(w, report) {
      OneFactFor(w, report, k);
    }
  }

  /**
   However many pages submit, fail and retry: at most one report per container and version, and one
   fact per report.
   */
  lemma NeverTwiceAnywhere(es: seq<WorldEvent>, w: World, container: string, version: nat, report: Report)
    requires WorldRun(EMPTY_WORLD, es, w)
    ensures |ReportsAt(w.server, container, version)| <= 1 && |FactsAnywhere(w, report)| <= 1
  {
    WorldRunKeepsInv(EMPTY_WORLD, es, w);
    AtMostOneReport(w.server, container, version);
    AtMostOneFact(w, report);
  }

  lemma DeliveredOnce(w: World, i: nat, f: Finished)
    requires WorldInv(w) && i in w.pages && f in w.pages[i].finished
    ensures f.reportKey in ReportsAt(w.server, f.args.container, f.args.expectedVersion + 1)
    ensures f.args.draft.state.Completed? ==> f.factKey.Some? && f.factKey.value in FactsAnywhere(w, f.report)
  {
    assert Inv(View(w, i)) && Delivered(View(w, i), f);
    if f.args.draft.state.Completed? {
      assert IssuedSomewhere(w, f.factKey.value, FactScope(f.report.container, f.report.reportId));
    }
  }

  /** A completed draft whose submission ended without an error on any page left exactly one report and one fact. */
  lemma ExactlyOnceAnywhere(es: seq<WorldEvent>, w: World, i: nat, n: nat)
    requires WorldRun(EMPTY_WORLD, es, w) && i in w.pages && n < |w.pages[i].finished|
    ensures
      var f := w.pages[i].finished[n];
      && ReportsAt(w.server, f.args.container, f.args.expectedVersion + 1) == {f.reportKey}
      && (f.args.draft.state.Completed? ==> f.factKey.Some? && FactsAnywhere(w, f.report) == {f.factKey.value})
  {
    WorldRunKeepsInv(EMPTY_WORLD, es, w);
    var f := w.pages[i].finished[n];
    DeliveredOnce(w, i, f);
    OneReportAt(w.server, f.args.container, f.args.expectedVersion + 1, f.reportKey);
    if f.args.draft.state.Completed? {
      OneFactFor(w, f.report, f.factKey.value);
    }
  }

  lemma DeliveredAsEntered(w: World, i: nat, f: Finished)
    requires WorldInv(w) && i in w.pages && f in w.pages[i].finished
    ensures Delivered(View(w, i), f)
  {
    assert Inv(View(w, i));
  }

  /**
   The stored report of a submission that ended without an error says what was entered: it has a
   completion time exactly if the draft was completed, and then the fact has the same one.
   */
  lemma SavedAsEntered(es: seq<WorldEvent>, w: World, i: nat, n: nat)
    requires WorldRun(EMPTY_WORLD, es, w) && i in w.pages && n < |w.pages[i].finished|
    ensures
      var f := w.pages[i].finished[n];
      f.reportKey in w.server.reports &&
      var c, a := w.server.reports[f.reportKey].command, f.args;
      && c.container == a.container && c.expectedVersion == a.expectedVersion && c.warehouse == a.warehouse
      && c.state == a.draft.state && c.fields == a.draft.fields && c.evidenceRefs == f.refs
      && Some(c.startedAt) == a.draft.startedAt
      && (c.completedAt.Some? <==> a.draft.state.Completed?)
      && (c.completedAt.Some? ==> c.completedAt == a.draft.completedAt)
      && Reason(a.draft.state, c.reasonCode)
    ensures
      var f := w.pages[i].finished[n];
      f.args.draft.state.Completed? ==>
        f.factKey.Some? && f.factKey.value in w.server.facts &&
        var c, fact := w.server.reports[f.reportKey].command, w.server.facts[f.factKey.value].command;
        && c.completedAt == Some(fact.occurredAt) && fact.rawValue == f.args.draft.completedLocal
        && fact.container == f.args.container && fact.warehouse == c.warehouse && fact.evidenceRefs == c.evidenceRefs
        && fact.expectedVersion == f.args.projectionVersion
  {
    WorldRunKeepsInv(EMPTY_WORLD, es, w);
    DeliveredAsEntered(w, i, w.pages[i].finished[n]);
  }

  // ---------------------------------------------------------------------------------------
  // The reports of a container
  // ---------------------------------------------------------------------------------------

  lemma StepKeepsOrder(s: System, e: Event)
    requires Enabled(s, e) && InOrder(s.server)
    ensures InOrder(Step(s, e).server)
  {
    if e.ServerGetsReport? || e.OthersReport? {
      AppendKeepsOrder(s.server, e.request, e.reportId);
    } else if e.ServerGetsFact? || e.OthersFact? {
      RecordKeepsOrder(s.server, e.factRequest, e.factId);
    }
  }

  lemma WorldStepKeepsOrder(w: World, e: WorldEvent)
    requires WorldEnabled(w, e) && InOrder(w.server)
    ensures InOrder(WorldStep(w, e).server)
  {
    match e
    case Opens(_) =>
    case At(i, event) => StepKeepsOrder(View(w, i), event);
    case Others(event) =>
      if event.OthersReport? {
        AppendKeepsOrder(w.server, event.request, event.reportId);
      } else {
        RecordKeepsOrder(w.server, event.factRequest, event.factId);
      }
  }

  /**
   Whoever sends what, and however often: the reports of a container have the versions from 1 to that
   of its active report, no version is behind an earlier one, and no two facts were recorded against
   one projection version.
   */
  lemma {:induction false} HistoryIsInOrder(w: World, es: seq<WorldEvent>, t: World)
    requires WorldRun(w, es, t) && InOrder(w.server)
    ensures InOrder(t.server)
    decreases |es|
  {
    if es != [] {
      WorldStepKeepsOrder(w, es[0]);
      HistoryIsInOrder(WorldStep(w, es[0]), es[1..], t);
    }
  }
}
