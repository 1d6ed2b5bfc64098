/**
 One client, a network that may lose, delay and repeat messages, and the server, which other
 clients use too. A request that was sent may reach the server any number of times, also after
 the client has given it up; an answer may reach the client late or never.
 */
module UnloadingSafety {
  import opened Wrappers
  import opened UnloadingServer
  import opened UnloadingCommands

  datatype Finished = Finished(
    args: Args, refs: seq<string>, reportKey: Key, report: Report, factKey: Option<Key>)

  /**
   `issued` remembers for which scope each key was drawn, `finished` every submission that ended
   without an error.
   */
  datatype System = System(
    client: Client, server: Server, sentReports: set<ReportRequest>, sentFacts: set<FactRequest>,
    reportAnswers: set<(ReportRequest, Report)>, factAnswers: set<(FactRequest, nat)>,
    issued: set<(Key, Scope)>, finished: seq<Finished>)

  const INITIAL := System(INITIAL_CLIENT, EMPTY_SERVER, {}, {}, {}, {}, {}, [])

  datatype Event =
    | SubmitEvent(args: Args, uuid: Key)
    | EvidenceEvent(refs: Option<seq<string>>, uuid: Key)
    | ReportReply(report: Option<Report>, uuid: Key)
    | FactReply(fact: Option<nat>)
    | ReloadReply(ok: bool)
    | ServerGetsReport(request: ReportRequest, reportId: ReportId)
    | ServerGetsFact(factRequest: FactRequest, factId: nat)
    | OthersReport(request: ReportRequest, reportId: ReportId)
    | OthersFact(factRequest: FactRequest, factId: nat)

  /** A `randomUUID()` never repeats a key or an id seen anywhere before. */
  ghost predicate FreshKey(s: System, k: Key) {
    k !in s.server.reports && k !in s.server.facts && forall p | p in s.issued :: p.0 != k
  }

  ghost predicate FreshReportId(s: System, id: ReportId) {
    forall k | k in s.server.reports :: s.server.reports[k].report.reportId != id
  }

  ghost predicate NotIssued(s: System, k: Key) {
    forall p | p in s.issued :: p.0 != k
  }

  ghost predicate Enabled(s: System, e: Event) {
    match e
    case SubmitEvent(_, uuid) => FreshKey(s, uuid)
    case EvidenceEvent(_, uuid) => FreshKey(s, uuid) && s.client.phase.ResolvingEvidence?
    case ReportReply(report, uuid) =>
      FreshKey(s, uuid) && s.client.phase.AwaitingReport?
      && (report.Some? ==> (s.client.phase.report, report.value) in s.reportAnswers)
    case FactReply(fact) =>
      s.client.phase.AwaitingFact? && (fact.Some? ==> (s.client.phase.fact, fact.value) in s.factAnswers)
    case ReloadReply(_) => s.client.phase.AwaitingReload?
    case ServerGetsReport(r, id) => r in s.sentReports && FreshReportId(s, id)
    case ServerGetsFact(r, _) => r in s.sentFacts
    case OthersReport(r, id) => NotIssued(s, r.key) && FreshReportId(s, id)
    case OthersFact(r, _) => NotIssued(s, r.key)
  }

  function ClientStep(s: System, c: Client): System {
    s.(client := c,
       issued := s.issued + set scope | scope in c.keys :: (c.keys[scope], scope),
       sentReports := s.sentReports + (if c.phase.AwaitingReport? then {c.phase.report} else {}),
       sentFacts := s.sentFacts + (if c.phase.AwaitingFact? then {c.phase.fact} else {}))
  }

  ghost function Step(s: System, e: Event): System
    requires Enabled(s, e)
  {
    match e
    case SubmitEvent(a, uuid) => ClientStep(s, Submit(s.client, a, uuid))
    case EvidenceEvent(refs, uuid) => ClientStep(s, EvidenceResolved(s.client, refs, uuid))
    case ReportReply(report, uuid) => ClientStep(s, ReportReplied(s.client, report, uuid))
    case FactReply(fact) => ClientStep(s, FactReplied(s.client, fact))
    case ReloadReply(ok) =>
      var p := s.client.phase;
      var t := ClientStep(s, Reloaded(s.client, ok));
      if ok then t.(finished := s.finished + [FinishedOf(s.client)]) else t
    case ServerGetsReport(r, id) =>
      var (server, answer) := AppendReport(s.server, r, id);
      s.(server := server, reportAnswers := s.reportAnswers + if answer.Some? then {(r, answer.value)} else {})
    case ServerGetsFact(r, id) =>
      var (server, answer) := RecordFact(s.server, r, id);
      s.(server := server, factAnswers := s.factAnswers + if answer.Some? then {(r, answer.value)} else {})
    case OthersReport(r, id) => s.(server := AppendReport(s.server, r, id).0)
    case OthersFact(r, id) => s.(server := RecordFact(s.server, r, id).0)
  }

  /** The evidence kept for the scope of a draft. */
  function EvidenceFor(c: Client, a: Args): seq<string> {
    if a.Scope() in c.evidence then c.evidence[a.Scope()] else []
  }

  function FinishedOf(c: Client): Finished
    requires c.phase.AwaitingReload?
  {
    var p := c.phase;
    Finished(p.args, EvidenceFor(c, p.args), KeyFor(c.keys, p.args.Scope(), 0), p.saved,
             if p.factScope.Some? then Some(KeyFor(c.keys, p.factScope.value, 0)) else None)
  }

  ghost predicate Run(s: System, es: seq<Event>, t: System)
    decreases |es|
  {
    if es == [] then s == t else Enabled(s, es[0]) && Run(Step(s, es[0]), es[1..], t)
  }

  // ---------------------------------------------------------------------------------------
  // The invariant
  // ---------------------------------------------------------------------------------------

  ghost predicate KeysInv(s: System) {
    && (forall scope | scope in s.client.keys :: (s.client.keys[scope], scope) in s.issued)
    && (forall p, q | p in s.issued && q in s.issued && p.0 == q.0 :: p == q)
    && (forall p, q | p in s.issued && q in s.issued && p.1.FactScope? && p.1 == q.1 :: p == q)
  }

  ghost predicate SentInv(s: System) {
    && (forall r | r in s.sentReports ::
          (r.key, ReportScope(r.command.container, r.command.expectedVersion + 1)) in s.issued)
    && (forall r | r in s.sentFacts :: exists id :: (r.key, FactScope(r.command.container, id)) in s.issued)
  }

  ghost predicate AnswersInv(s: System) {
    && (forall a | a in s.reportAnswers ::
          a.0.key in s.server.reports && s.server.reports[a.0.key] == StoredReport(a.0.command, a.1))
    && (forall a | a in s.factAnswers ::
          a.0.key in s.server.facts && s.server.facts[a.0.key] == StoredFact(a.0.command, a.1))
  }

  ghost predicate StoredInv(server: Server) {
    && (forall k | k in server.reports :: StoredWell(server.reports[k]))
    && (forall k | k in server.reports :: var r := server.reports[k].report;
          r.container in server.active && r.version <= server.active[r.container].version)
    && (forall k, l | k in server.reports && l in server.reports && k != l ::
          && server.reports[k].report.reportId != server.reports[l].report.reportId
          && !SamePlace(server.reports[k].report, server.reports[l].report))
  }

  predicate StoredWell(st: StoredReport) {
    && st.report.container == st.command.container
    && st.report.version == st.command.expectedVersion + 1
    && st.report.state == st.command.state
  }

  predicate SamePlace(a: Report, b: Report) {
    a.container == b.container && a.version == b.version
  }

  ghost predicate PlaceInv(s: System) {
    forall p | p in s.issued && p.0 in s.server.reports ::
      var r := s.server.reports[p.0].report; p.1 == ReportScope(r.container, r.version)
  }

  /** Report key `k`, of this client, holds the report of `p` and, once the fact key is dropped, is dropped itself. */
  ghost predicate Origin(s: System, p: (Key, Scope), k: Key)
    requires p.1.FactScope?
  {
    && k in s.server.reports
    && var r := s.server.reports[k].report;
    && r.reportId == p.1.reportId && r.container == p.1.container
    && (k, ReportScope(r.container, r.version)) in s.issued
    && (Holds(s.client, p.1, p.0) || !Holds(s.client, ReportScope(r.container, r.version), k))
  }

  predicate Holds(c: Client, scope: Scope, k: Key) {
    scope in c.keys && c.keys[scope] == k
  }

  ghost predicate OriginInv(s: System) {
    forall p | p in s.issued && p.1.FactScope? :: exists k :: Origin(s, p, k)
  }

  predicate Reason(state: OperationState, code: string) {
    match state
    case Completed => code == "unloading_completed"
    case Partial => code == "unloading_progress_reported"
    case Started => code == "unloading_started"
  }

  /** The report says what the draft says; it has a completion time exactly if the draft is completed. */
  predicate Tells(c: ReportCommand, a: Args, refs: seq<string>) {
    && c.container == a.container && c.expectedVersion == a.expectedVersion && c.warehouse == a.warehouse
    && c.state == a.draft.state && c.fields == a.draft.fields && c.evidenceRefs == refs
    && Some(c.startedAt) == a.draft.startedAt
    && c.completedAt == (if a.draft.state.Completed? then a.draft.completedAt else None)
    && (a.draft.state.Completed? ==> c.completedAt.Some?)
    && Reason(a.draft.state, c.reasonCode)
  }

  /** The fact says when the draft was completed, with the evidence of its report. */
  predicate TellsFact(c: FactCommand, a: Args, refs: seq<string>) {
    && c.container == a.container && c.expectedVersion == a.projectionVersion && c.warehouse == a.warehouse
    && Some(c.occurredAt) == a.draft.completedAt && c.rawValue == a.draft.completedLocal && c.evidenceRefs == refs
  }

  ghost predicate PhaseInv(s: System) {
    var c := s.client;
    match c.phase
    case Idle => true
    case ResolvingEvidence(_) => true
    case AwaitingReport(a, refs, r) =>
      && TimesParse(a.draft) && Tells(r.command, a, refs) && EvidenceFor(c, a) == refs
      && Holds(c, a.Scope(), r.key) && r in s.sentReports
    case AwaitingFact(a, saved, f) =>
      && SavedBy(s, a, saved) && f in s.sentFacts && TellsFact(f.command, a, EvidenceFor(c, a))
      && a.draft.state.Completed? && Holds(c, FactScope(a.container, saved.reportId), f.key)
    case AwaitingReload(a, saved, factScope) =>
      && SavedBy(s, a, saved)
      && (a.draft.state.Completed? ==> factScope.Some?)
      && (factScope.Some? ==> factScope.value == FactScope(a.container, saved.reportId)
                              && factScope.value in c.keys && c.keys[factScope.value] in s.server.facts
                              && a.draft.state.Completed?
                              && TellsFact(s.server.facts[c.keys[factScope.value]].command, a, EvidenceFor(c, a)))
  }

  ghost predicate SavedBy(s: System, a: Args, saved: Report) {
    && a.Scope() in s.client.keys
    && s.client.keys[a.Scope()] in s.server.reports
    && s.server.reports[s.client.keys[a.Scope()]].report == saved
    && Tells(s.server.reports[s.client.keys[a.Scope()]].command, a, EvidenceFor(s.client, a))
    && saved.container == a.container && saved.version == a.expectedVersion + 1 && saved.state == a.draft.state
  }

  /** What a finished submission has left on the server. */
  ghost predicate Delivered(s: System, f: Finished) {
    && f.reportKey in s.server.reports && s.server.reports[f.reportKey].report == f.report
    && f.report.container == f.args.container && f.report.version == f.args.expectedVersion + 1
    && Tells(s.server.reports[f.reportKey].command, f.args, f.refs)
    && (f.args.draft.state.Completed? <==> f.factKey.Some?)
    && (f.factKey.Some? ==> f.factKey.value in s.server.facts
                            && TellsFact(s.server.facts[f.factKey.value].command, f.args, f.refs)
                            && (f.factKey.value, FactScope(f.args.container, f.report.reportId)) in s.issued)
  }

  ghost predicate FinishedInv(s: System) {
    forall f | f in s.finished :: Delivered(s, f)
  }

  ghost predicate Inv(s: System) {
    KeysInv(s) && SentInv(s) && AnswersInv(s) && StoredInv(s.server) && PlaceInv(s) && OriginInv(s) && PhaseInv(s)
        && FinishedInv(s)
  }

  // ---------------------------------------------------------------------------------------
  // Every step keeps it
  // ---------------------------------------------------------------------------------------

  /** The client keeps its keys, or draws `uuid` for a scope that has none. */
  predicate Draws(c: Client, d: Client, scope: Scope, uuid: Key) {
    d.keys == c.keys || (scope !in c.keys && d.keys == c.keys[scope := uuid])
  }

  /** No key was ever issued for a fact scope that a fresh key is drawn for. */
  ghost predicate Unused(s: System, scope: Scope) {
    scope.FactScope? && scope !in s.client.keys ==> forall p | p in s.issued :: p.1 != scope
  }

  predicate ReportFor(s: System, scope: Scope, k: Key)
    requires scope.FactScope?
  {
    && k in s.server.reports
    && var r := s.server.reports[k].report;
    && r.reportId == scope.reportId && r.container == scope.container
    && (k, ReportScope(r.container, r.version)) in s.issued
  }

  ghost predicate HasOrigin(s: System, scope: Scope) {
    scope.FactScope? ==> exists k :: ReportFor(s, scope, k)
  }

  lemma IssuedAfterDraw(s: System, d: Client, scope: Scope, uuid: Key)
    requires KeysInv(s) && Draws(s.client, d, scope, uuid)
    ensures forall p | p in ClientStep(s, d).issued ::
              p in s.issued || (p == (uuid, scope) && scope !in s.client.keys && d.keys == s.client.keys[scope := uuid])
  {
  }

  lemma DrawKeepsKeys(s: System, d: Client, scope: Scope, uuid: Key)
    requires KeysInv(s) && FreshKey(s, uuid) && Draws(s.client, d, scope, uuid) && Unused(s, scope)
    ensures KeysInv(ClientStep(s, d))
  {
    IssuedAfterDraw(s, d, scope, uuid);
  }

  lemma DrawKeepsOrigin(s: System, d: Client, scope: Scope, uuid: Key, p: (Key, Scope))
    requires OriginInv(s) && Draws(s.client, d, scope, uuid) && HasOrigin(s, scope) && FreshKey(s, uuid)
        && p.1.FactScope?
    requires p in s.issued || (p == (uuid, scope) && scope !in s.client.keys && d.keys == s.client.keys[scope := uuid])
    ensures exists k :: Origin(ClientStep(s, d), p, k)
  {
    if p in s.issued {
      var k :| Origin(s, p, k);
      assert Origin(ClientStep(s, d), p, k);
    } else {
      var k :| ReportFor(s, scope, k);
      assert Origin(ClientStep(s, d), p, k);
    }
  }

  lemma DrawKeepsOrigins(s: System, d: Client, scope: Scope, uuid: Key)
    requires KeysInv(s) && PlaceInv(s) && OriginInv(s)
    requires FreshKey(s, uuid) && Draws(s.client, d, scope, uuid) && HasOrigin(s, scope)
    ensures PlaceInv(ClientStep(s, d)) && OriginInv(ClientStep(s, d))
  {
    IssuedAfterDraw(s, d, scope, uuid);
    forall p | p in ClientStep(s, d).issued && p.1.FactScope?
      ensures exists k :: Origin(ClientStep(s, d), p, k)
    {
      DrawKeepsOrigin(s, d, scope, uuid, p);
    }
  }

  /** Origins survive a step that draws no key and drops a fact key only together with its report key. */
  lemma DropKeepsOrigins(s: System, d: Client)
    requires KeysInv(s) && PlaceInv(s) && OriginInv(s)
    requires forall scope | scope in d.keys :: Holds(s.client, scope, d.keys[scope])
    requires forall p, k | p in s.issued && p.1.FactScope? && Origin(s, p, k) && Holds(s.client, p.1, p.0)
        && !Holds(d, p.1, p.0) ::
               var r := s.server.reports[k].report; ReportScope(r.container, r.version) !in d.keys
    ensures KeysInv(ClientStep(s, d)) && PlaceInv(ClientStep(s, d)) && OriginInv(ClientStep(s, d))
    ensures ClientStep(s, d).issued == s.issued
  {
    var t := ClientStep(s, d);
    assert t.issued == s.issued;
    forall p | p in t.issued && p.1.FactScope?
      ensures exists k :: Origin(t, p, k)
    {
      var k :| Origin(s, p, k);
      assert Origin(t, p, k);
    }
  }

  lemma SentStays(s: System, d: Client)
    requires SentInv(s)
    requires d.phase.AwaitingReport? ==>
               var r := d.phase.report; Holds(d, ReportScope(r.command.container, r.command.expectedVersion + 1), r.key)
    requires d.phase.AwaitingFact? ==>
               var r := d.phase.fact; exists id :: Holds(d, FactScope(r.command.container, id), r.key)
    ensures SentInv(ClientStep(s, d))
  {
    var t := ClientStep(s, d);
    forall r | r in t.sentFacts
      ensures exists id :: (r.key, FactScope(r.command.container, id)) in t.issued
    {
      if r in s.sentFacts {
        var id :| (r.key, FactScope(r.command.container, id)) in s.issued;
        assert (r.key, FactScope(r.command.container, id)) in t.issued;
      } else {
        var id :| Holds(d, FactScope(r.command.container, id), r.key);
        assert (r.key, FactScope(r.command.container, id)) in t.issued;
      }
    }
  }

  /** What does not mention the client's own state survives every client step. */
  lemma ServerSideStays(s: System, d: Client)
    requires AnswersInv(s) && StoredInv(s.server) && FinishedInv(s)
    ensures var t := ClientStep(s, d); AnswersInv(t) && StoredInv(t.server) && FinishedInv(t)
  {
    var t := ClientStep(s, d);
    forall f | f in t.finished
      ensures Delivered(t, f)
    {
      assert Delivered(s, f);
    }
  }

  lemma SendReportPhase(s: System, c: Client, a: Args, refs: seq<string>, uuid: Key)
    requires a.Scope() in c.evidence && c.evidence[a.Scope()] == refs
    ensures PhaseInv(ClientStep(s, SendReport(c, a, refs, uuid)))
  {
  }

  lemma SendReportKeepsKeys(s: System, c: Client, a: Args, refs: seq<string>, uuid: Key)
    requires KeysInv(s) && PlaceInv(s) && OriginInv(s) && FreshKey(s, uuid) && c.keys == s.client.keys
    ensures var t := ClientStep(s, SendReport(c, a, refs, uuid)); KeysInv(t) && PlaceInv(t) && OriginInv(t)
  {
    var d := SendReport(c, a, refs, uuid);
    assert Draws(s.client, d, a.Scope(), uuid);
    DrawKeepsKeys(s, d, a.Scope(), uuid);
    DrawKeepsOrigins(s, d, a.Scope(), uuid);
  }

  lemma SendReportSent(s: System, c: Client, a: Args, refs: seq<string>, uuid: Key)
    requires SentInv(s)
    ensures SentInv(ClientStep(s, SendReport(c, a, refs, uuid)))
  {
    SentStays(s, SendReport(c, a, refs, uuid));
  }

  lemma SendReportKeepsInv(s: System, c: Client, a: Args, refs: seq<string>, uuid: Key)
    requires Inv(s) && FreshKey(s, uuid) && c.keys == s.client.keys
    requires a.Scope() in c.evidence && c.evidence[a.Scope()] == refs
    ensures Inv(ClientStep(s, SendReport(c, a, refs, uuid)))
  {
    SendReportKeepsKeys(s, c, a, refs, uuid);
    SendReportSent(s, c, a, refs, uuid);
    ServerSideStays(s, SendReport(c, a, refs, uuid));
    SendReportPhase(s, c, a, refs, uuid);
  }

  /** A step that leaves the keys alone and ends idle or resolving evidence keeps the invariant. */
  lemma QuietStepKeepsInv(s: System, d: Client)
    requires Inv(s) && d.keys == s.client.keys && (d.phase.Idle? || d.phase.ResolvingEvidence?)
    ensures Inv(ClientStep(s, d))
  {
    DropKeepsOrigins(s, d);
    SentStays(s, d);
    ServerSideStays(s, d);
  }

  lemma SubmitKeepsInv(s: System, e: Event)
    requires Inv(s) && e.SubmitEvent? && Enabled(s, e)
    ensures Inv(Step(s, e))
  {
    var c, a := s.client, e.args;
    if !c.phase.Idle? {
      assert ClientStep(s, c) == s;
    } else if a.Scope() in c.evidence {
      SendReportKeepsInv(s, c.(failed := false), a, c.evidence[a.Scope()], e.uuid);
    } else {
      QuietStepKeepsInv(s, Submit(c, a, e.uuid));
    }
  }

  lemma EvidenceKeepsInv(s: System, e: Event)
    requires Inv(s) && e.EvidenceEvent? && Enabled(s, e)
    ensures Inv(Step(s, e))
  {
    var c := s.client;
    match e.refs
    case None => QuietStepKeepsInv(s, Fail(c));
    case Some(rs) =>
      SendReportKeepsInv(s, c.(evidence := c.evidence[c.phase.args.Scope() := rs]), c.phase.args, rs, e.uuid);
  }

  /** While the report key is held, the fact key of its report is held too, if there ever was one. */
  lemma NoDroppedFactKey(s: System, scope: Scope, kr: Key)
    requires StoredInv(s.server) && OriginInv(s) && scope.FactScope? && kr in s.server.reports
    requires var r := s.server.reports[kr].report;
             r.reportId == scope.reportId && Holds(s.client, ReportScope(r.container, r.version), kr)
    ensures Unused(s, scope)
  {
    forall p | p in s.issued && p.1 == scope
      ensures scope in s.client.keys
    {
      var k :| Origin(s, p, k);
      assert k == kr;
    }
  }

  /** The answer the client takes is the report stored under the key it still holds. */
  lemma AnswerIsStored(s: System, saved: Report)
    requires AnswersInv(s) && StoredInv(s.server) && PhaseInv(s)
    requires s.client.phase.AwaitingReport? && (s.client.phase.report, saved) in s.reportAnswers
    ensures SavedBy(s, s.client.phase.args, saved)
        && Holds(s.client, s.client.phase.args.Scope(), s.client.phase.report.key)
  {
    var r := s.client.phase.report;
    assert s.server.reports[r.key] == StoredReport(r.command, saved) && StoredWell(s.server.reports[r.key]);
  }

  lemma ReportReplyPhase(s: System, saved: Report, uuid: Key)
    requires PhaseInv(s) && s.client.phase.AwaitingReport? && SavedBy(s, s.client.phase.args, saved)
    ensures PhaseInv(ClientStep(s, ReportReplied(s.client, Some(saved), uuid)))
  {
  }

  lemma ReportReplyKeepsInv(s: System, e: Event)
    requires Inv(s) && e.ReportReply? && Enabled(s, e)
    ensures Inv(Step(s, e))
  {
    var c := s.client;
    match e.report
    case None => QuietStepKeepsInv(s, Fail(c));
    case Some(saved) =>
      var a, r, d := c.phase.args, c.phase.report, ReportReplied(c, e.report, e.uuid);
      AnswerIsStored(s, saved);
      var scope := FactScope(a.container, saved.reportId);
      NoDroppedFactKey(s, scope, r.key);
      assert ReportFor(s, scope, r.key);
      DrawKeepsKeys(s, d, scope, e.uuid);
      DrawKeepsOrigins(s, d, scope, e.uuid);
      if d.phase.AwaitingFact? {
        assert Holds(d, FactScope(d.phase.fact.command.container, saved.reportId), d.phase.fact.key);
      }
      SentStays(s, d);
      ServerSideStays(s, d);
      ReportReplyPhase(s, saved, e.uuid);
  }

  lemma FactReplyKeepsInv(s: System, e: Event)
    requires Inv(s) && e.FactReply? && Enabled(s, e)
    ensures Inv(Step(s, e))
  {
    var c := s.client;
    match e.fact
    case None => QuietStepKeepsInv(s, Fail(c));
    case Some(id) =>
      var d := FactReplied(c, e.fact);
      DropKeepsOrigins(s, d);
      SentStays(s, d);
      ServerSideStays(s, d);
  }

  lemma FinishedKeysDropTogether(s: System)
    requires StoredInv(s.server) && PhaseInv(s) && s.client.phase.AwaitingReload?
    ensures var d := Reloaded(s.client, true);
            forall p, k | p in s.issued && p.1.FactScope? && Origin(s, p, k) && Holds(s.client, p.1, p.0)
              && !Holds(d, p.1, p.0) ::
              var r := s.server.reports[k].report; ReportScope(r.container, r.version) !in d.keys
  {
    var a, saved := s.client.phase.args, s.client.phase.saved;
    var d := Reloaded(s.client, true);
    forall p, k | p in s.issued && p.1.FactScope? && Origin(s, p, k) && Holds(s.client, p.1, p.0) && !Holds(d, p.1, p.0)
      ensures var r := s.server.reports[k].report; ReportScope(r.container, r.version) !in d.keys
    {
      assert p.1 == FactScope(a.container, saved.reportId);
      assert k == s.client.keys[a.Scope()];
    }
  }

  lemma FinishedIsDelivered(s: System)
    requires KeysInv(s) && PhaseInv(s) && s.client.phase.AwaitingReload?
    ensures Delivered(s, FinishedOf(s.client))
  {
  }

  lemma FinishingKeepsFinished(s: System)
    requires FinishedInv(s) && s.client.phase.AwaitingReload? && Delivered(s, FinishedOf(s.client))
    ensures FinishedInv(Step(s, ReloadReply(true)))
  {
    var t := Step(s, ReloadReply(true));
    forall f | f in t.finished
      ensures Delivered(t, f)
    {
      assert Delivered(s, f);
    }
  }

  lemma FinishingKeepsRest(s: System, d: Client)
    requires AnswersInv(s) && StoredInv(s.server) && KeysInv(ClientStep(s, d)) && SentInv(ClientStep(s, d))
    requires PlaceInv(ClientStep(s, d)) && OriginInv(ClientStep(s, d))
    requires s.client.phase.AwaitingReload? && d == Reloaded(s.client, true)
    ensures var t := Step(s, ReloadReply(true));
            KeysInv(t) && SentInv(t) && AnswersInv(t) && StoredInv(t.server) && PlaceInv(t) && OriginInv(t)
                && PhaseInv(t)
  {
    var t := Step(s, ReloadReply(true));
    assert t == ClientStep(s, d).(finished := t.finished);
    forall p | p in t.issued && p.1.FactScope?
      ensures exists k :: Origin(t, p, k)
    {
      var k :| Origin(ClientStep(s, d), p, k);
      assert Origin(t, p, k);
    }
  }

  lemma ReloadKeepsInv(s: System, e: Event)
    requires Inv(s) && e.ReloadReply? && Enabled(s, e)
    ensures Inv(Step(s, e))
  {
    if !e.ok {
      QuietStepKeepsInv(s, Fail(s.client));
    } else {
      var d := Reloaded(s.client, true);
      FinishedKeysDropTogether(s);
      DropKeepsOrigins(s, d);
      SentStays(s, d);
      FinishedIsDelivered(s);
      FinishingKeepsFinished(s);
      FinishingKeepsRest(s, d);
    }
  }

  lemma AppendKeepsStored(server: Server, r: ReportRequest, id: ReportId)
    requires StoredInv(server) && forall k | k in server.reports :: server.reports[k].report.reportId != id
    ensures StoredInv(AppendReport(server, r, id).0)
  {
  }

  /** The server only gained reports and facts; the client and its keys are as they were. */
  ghost predicate ServerGrew(s: System, t: System) {
    && t == s.(server := t.server, reportAnswers := t.reportAnswers, factAnswers := t.factAnswers)
    && (forall k | k in s.server.reports :: k in t.server.reports && t.server.reports[k] == s.server.reports[k])
    && (forall k | k in s.server.facts :: k in t.server.facts && t.server.facts[k] == s.server.facts[k])
  }

  lemma GrowthKeepsOrigins(s: System, t: System)
    requires ServerGrew(s, t) && OriginInv(s)
    ensures OriginInv(t)
  {
    forall p | p in t.issued && p.1.FactScope?
      ensures exists k :: Origin(t, p, k)
    {
      var k :| Origin(s, p, k);
      assert Origin(t, p, k);
    }
  }

  lemma GrowthKeepsClientSide(s: System, t: System)
    requires ServerGrew(s, t) && KeysInv(s) && SentInv(s) && PhaseInv(s) && FinishedInv(s)
    ensures KeysInv(t) && SentInv(t) && PhaseInv(t) && FinishedInv(t)
  {
    forall f | f in t.finished
      ensures Delivered(t, f)
    {
      assert Delivered(s, f);
    }
  }

  lemma ReportArrivalKeepsPlaces(s: System, e: Event)
    requires KeysInv(s) && SentInv(s) && AnswersInv(s) && PlaceInv(s) && Enabled(s, e)
    requires e.ServerGetsReport? || e.OthersReport?
    ensures var t := Step(s, e); AnswersInv(t) && PlaceInv(t) && ServerGrew(s, t)
  {
    var r, t := e.request, Step(s, e);
    forall p | p in t.issued && p.0 in t.server.reports
      ensures var r := t.server.reports[p.0].report; p.1 == ReportScope(r.container, r.version)
    {
      if p.0 !in s.server.reports {
        assert p.0 == r.key;
        if e.ServerGetsReport? {
          assert (r.key, ReportScope(r.command.container, r.command.expectedVersion + 1)) in s.issued;
        }
      }
    }
  }

  lemma FactArrivalKeepsPlaces(s: System, e: Event)
    requires AnswersInv(s) && PlaceInv(s) && Enabled(s, e)
    requires e.ServerGetsFact? || e.OthersFact?
    ensures var t := Step(s, e);
            AnswersInv(t) && PlaceInv(t) && ServerGrew(s, t) && t.server.reports == s.server.reports
    ensures Step(s, e).server.active == s.server.active
  {
  }

  lemma ArrivalKeepsInv(s: System, e: Event)
    requires Inv(s) && Enabled(s, e)
    requires e.ServerGetsReport? || e.ServerGetsFact? || e.OthersReport? || e.OthersFact?
    ensures Inv(Step(s, e))
  {
    var t := Step(s, e);
    if e.ServerGetsReport? || e.OthersReport? {
      AppendKeepsStored(s.server, e.request, e.reportId);
      ReportArrivalKeepsPlaces(s, e);
    } else {
      FactArrivalKeepsPlaces(s, e);
    }
    GrowthKeepsOrigins(s, t);
    GrowthKeepsClientSide(s, t);
  }

  lemma StepKeepsInv(s: System, e: Event)
    requires Inv(s) && Enabled(s, e)
    ensures Inv(Step(s, e))
  {
    match e
    case SubmitEvent(_, _) => SubmitKeepsInv(s, e);
    case EvidenceEvent(_, _) => EvidenceKeepsInv(s, e);
    case ReportReply(_, _) => ReportReplyKeepsInv(s, e);
    case FactReply(_) => FactReplyKeepsInv(s, e);
    case ReloadReply(_) => ReloadKeepsInv(s, e);
    case _ => ArrivalKeepsInv(s, e);
  }

  lemma {:induction false} RunKeepsInv(s: System, es: seq<Event>, t: System)
    requires Inv(s) && Run(s, es, t)
    ensures Inv(t)
    decreases |es|
  {
    if es != [] {
      StepKeepsInv(s, es[0]);
      RunKeepsInv(Step(s, es[0]), es[1..], t);
    }
  }

  // ---------------------------------------------------------------------------------------
  // Exactly once
  // ---------------------------------------------------------------------------------------

  /** The reports the server holds for a container at a version. */
  function ReportsAt(server: Server, container: string, version: nat): set<Key> {
    set k | k in server.reports && server.reports[k].report.container == container
      && server.reports[k].report.version == version
  }

  /** The facts this client has recorded for a report. */
  function FactsFor(s: System, report: Report): set<Key> {
    set k | k in s.server.facts && (k, FactScope(report.container, report.reportId)) in s.issued
  }

  lemma SamePlaceSameKey(server: Server, container: string, version: nat, k: Key, l: Key)
    requires StoredInv(server) && k in ReportsAt(server, container, version)
        && l in ReportsAt(server, container, version)
    ensures k == l
  {
  }

  lemma SameReportSameFactKey(s: System, report: Report, k: Key, l: Key)
    requires KeysInv(s) && k in FactsFor(s, report) && l in FactsFor(s, report)
    ensures k == l
  {
    var scope := FactScope(report.container, report.reportId);
    assert (k, scope) in s.issued && (l, scope) in s.issued;
  }

  lemma AtMostOne(a: set<Key>)
    requires forall k, l | k in a && l in a :: k == l
    ensures |a| <= 1
  {
    if k :| k in a {
      assert a == {k};
    }
  }

  /** Whatever is lost or repeated: at most one report per container and version, at most one fact per report. */
  lemma NeverTwice(es: seq<Event>, t: System, container: string, version: nat, report: Report)
    requires Run(INITIAL, es, t)
    ensures |ReportsAt(t.server, container, version)| <= 1 && |FactsFor(t, report)| <= 1
  {
    RunKeepsInv(INITIAL, es, t);
    forall k, l | k in ReportsAt(t.server, container, version) && l in ReportsAt(t.server, container, version)
      ensures k == l
    {
      SamePlaceSameKey(t.server, container, version, k, l);
    }
    forall k, l | k in FactsFor(t, report) && l in FactsFor(t, report)
      ensures k == l
    {
      SameReportSameFactKey(t, report, k, l);
    }
    AtMostOne(ReportsAt(t.server, container, version));
    AtMostOne(FactsFor(t, report));
  }

  /** A completed draft whose submission ended without an error left exactly one report and exactly one fact. */
  lemma ExactlyOnce(es: seq<Event>, t: System, i: nat)
    requires Run(INITIAL, es, t) && i < |t.finished|
    ensures var f := t.finished[i];
            && ReportsAt(t.server, f.args.container, f.args.expectedVersion + 1) == {f.reportKey}
            && (f.args.draft.state.Completed? ==> f.factKey.Some? && FactsFor(t, f.report) == {f.factKey.value})
  {
    var f := t.finished[i];
    RunKeepsInv(INITIAL, es, t);
    assert Delivered(t, f);
    var version := f.args.expectedVersion + 1;
    forall k | k in ReportsAt(t.server, f.args.container, version)
      ensures k == f.reportKey
    {
      SamePlaceSameKey(t.server, f.args.container, version, k, f.reportKey);
    }
    if f.args.draft.state.Completed? {
      forall k | k in FactsFor(t, f.report)
        ensures k == f.factKey.value
      {
        SameReportSameFactKey(t, f.report, k, f.factKey.value);
      }
    }
  }

  // ---------------------------------------------------------------------------------------
  // What goes out
  // ---------------------------------------------------------------------------------------

  /** The start, and for a completed operation the completion, is a time. */
  predicate TimesEntered(d: Draft) {
    d.startedAt.Some? && (d.state.Completed? ==> d.completedAt.Some?)
  }

  /** A report is asked for exactly if there is evidence and the times can be read, and it says what the draft says. */
  lemma ReportAskedExactly(s: System, e: Event)
    requires Enabled(s, e) && !s.client.phase.AwaitingReport?
    ensures Step(s, e).client.phase.AwaitingReport? <==>
      || (e.SubmitEvent? && s.client.phase.Idle? && e.args.Scope() in s.client.evidence && TimesEntered(e.args.draft))
      || (e.EvidenceEvent? && e.refs.Some? && TimesEntered(s.client.phase.args.draft))
    ensures Step(s, e).client.phase.AwaitingReport? ==>
      var p := Step(s, e).client.phase;
      Tells(p.report.command, p.args, EvidenceFor(Step(s, e).client, p.args)) && p.report in Step(s, e).sentReports
  {
  }

  /** Evidence is asked for exactly if none is kept. */
  lemma EvidenceAskedExactly(s: System, e: Event)
    requires Enabled(s, e) && !s.client.phase.ResolvingEvidence?
    ensures Step(s, e).client.phase.ResolvingEvidence? <==>
      e.SubmitEvent? && s.client.phase.Idle? && e.args.Scope() !in s.client.evidence
    ensures Step(s, e).client.phase.ResolvingEvidence? ==> Step(s, e).client.phase.args == e.args
  {
  }

  /** A fact is asked for exactly after the answer with a completed report to a completed draft. */
  lemma FactAskedExactly(s: System, e: Event)
    requires Enabled(s, e) && PhaseInv(s) && !s.client.phase.AwaitingFact?
    ensures Step(s, e).client.phase.AwaitingFact? <==>
      && e.ReportReply? && e.report.Some? && e.report.value.state.Completed?
      && s.client.phase.args.draft.state.Completed?
    ensures Step(s, e).client.phase.AwaitingFact? ==>
      var p := Step(s, e).client.phase;
      && p.args == s.client.phase.args && p.saved == e.report.value && p.fact in Step(s, e).sentFacts
      && TellsFact(p.fact.command, p.args, EvidenceFor(Step(s, e).client, p.args))
  {
  }

  /** A submission ends by an error, which is shown, or by a successful reload, after which none is. */
  lemma EndsExactly(s: System, e: Event)
    requires Enabled(s, e) && !s.client.phase.Idle? && Step(s, e).client.phase.Idle?
    ensures Step(s, e).client.failed == (if e == ReloadReply(true) then s.client.failed else true)
    ensures e != ReloadReply(true) ==>
      && Step(s, e).client.keys == s.client.keys
      && (forall scope | scope in s.client.evidence :: scope in Step(s, e).client.evidence)
    ensures e != ReloadReply(true) ==>
      || (e.EvidenceEvent? && (e.refs.None? || !TimesEntered(s.client.phase.args.draft)))
      || (e.ReportReply? && e.report.None?) || (e.FactReply? && e.fact.None?) || e == ReloadReply(false)
  {
  }
}
