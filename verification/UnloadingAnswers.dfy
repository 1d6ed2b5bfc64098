/** What the server answers to every request, and that a repeated request is answered as the first time. */
module UnloadingAnswers {
  import opened Wrappers
  import opened UnloadingServer
  import opened UnloadingCommands
  import opened UnloadingSafety
  import opened UnloadingRetries

  // ---------------------------------------------------------------------------------------
  // One request
  // ---------------------------------------------------------------------------------------

  /** A report never goes back behind the last one, and nothing but a completion follows a completion. */
  predicate Follows(last: OperationState, next: OperationState) {
    match last
    case Started => true
    case Partial => !next.Started?
    case Completed => next.Completed?
  }

  /** The report continues the history of its container. */
  predicate Continues(s: Server, c: ReportCommand) {
    if c.container !in s.active then c.expectedVersion == 0
    else s.active[c.container].version == c.expectedVersion && Follows(s.active[c.container].state, c.state)
  }

  /** A report that is not known yet becomes the active one of its container, in the next version. */
  ghost predicate Appended(s: Server, r: ReportRequest, id: ReportId, t: Server, report: Report) {
    && report.reportId == id && report.container == r.command.container && report.state == r.command.state
    && report.version == r.command.expectedVersion + 1
    && t.reports == s.reports[r.key := StoredReport(r.command, report)]
    && t.active == s.active[r.command.container := report] && t.facts == s.facts && t.projection == s.projection
  }

  /** A known key gives the report filed under it, if the command is the same; else only a continuation is filed. */
  lemma AppendAnswers(s: Server, r: ReportRequest, id: ReportId)
    ensures
      var (t, answer) := AppendReport(s, r, id);
      if r.key in s.reports then
        && t == s && (answer.Some? <==> s.reports[r.key].command == r.command)
        && (answer.Some? ==> answer.value == s.reports[r.key].report)
      else if Continues(s, r.command) then answer.Some? && Appended(s, r, id, t, answer.value)
      else t == s && answer.None?
  {
  }

  /** A fact continues the projection of its container. */
  predicate ContinuesProjection(s: Server, c: FactCommand) {
    if c.container in s.projection then s.projection[c.container] == c.expectedVersion else c.expectedVersion == 0
  }

  lemma RecordAnswers(s: Server, r: FactRequest, id: nat)
    ensures
      var (t, answer) := RecordFact(s, r, id);
      if r.key in s.facts then
        && t == s && (answer.Some? <==> s.facts[r.key].command == r.command)
        && (answer.Some? ==> answer.value == s.facts[r.key].factId)
      else if ContinuesProjection(s, r.command) then
        && answer == Some(id) && t.facts == s.facts[r.key := StoredFact(r.command, id)]
        && t.projection == s.projection[r.command.container := r.command.expectedVersion + 1]
        && t.reports == s.reports && t.active == s.active
      else t == s && answer.None?
  {
  }

  // ---------------------------------------------------------------------------------------
  // Any run
  // ---------------------------------------------------------------------------------------

  /** What is filed stays as it is. */
  ghost predicate Files(s: Server, t: Server) {
    && (forall k | k in s.reports :: k in t.reports && t.reports[k] == s.reports[k])
    && (forall k | k in s.facts :: k in t.facts && t.facts[k] == s.facts[k])
  }

  lemma AppendFiles(s: Server, r: ReportRequest, id: ReportId)
    ensures Files(s, AppendReport(s, r, id).0)
  {
  }

  lemma RecordFiles(s: Server, r: FactRequest, id: nat)
    ensures Files(s, RecordFact(s, r, id).0)
  {
  }

  lemma StepFiles(s: System, e: Event)
    requires Enabled(s, e)
    ensures Files(s.server, Step(s, e).server)
  {
    match e
    case ServerGetsReport(r, id) => AppendFiles(s.server, r, id);
    case OthersReport(r, id) => AppendFiles(s.server, r, id);
    case ServerGetsFact(r, id) => RecordFiles(s.server, r, id);
    case OthersFact(r, id) => RecordFiles(s.server, r, id);
    case _ =>
  }

  lemma {:induction false} RunFiles(s: System, es: seq<Event>, t: System)
    requires Run(s, es, t)
    ensures Files(s.server, t.server)
    decreases |es|
  {
    if es != [] {
      StepFiles(s, es[0]);
      RunFiles(Step(s, es[0]), es[1..], t);
    }
  }

  /** A request the server has filed is answered with what it filed, whatever came in between, and changes nothing. */
  lemma RepeatsAreAnsweredAlike(s: System, es: seq<Event>, t: System, r: ReportRequest, f: FactRequest, id: nat)
    requires Run(s, es, t)
    ensures r.key in s.server.reports && s.server.reports[r.key].command == r.command ==>
      AppendReport(t.server, r, id) == (t.server, Some(s.server.reports[r.key].report))
    ensures f.key in s.server.facts && s.server.facts[f.key].command == f.command ==>
      RecordFact(t.server, f, id) == (t.server, Some(s.server.facts[f.key].factId))
  {
    RunFiles(s, es, t);
  }

  /**
   If the server filed a report whose answer never came, submitting the same draft again, after any run
   without a success of its scope, gets the answer that was lost, and files nothing more.
   */
  lemma LostAnswerIsRecovered(before: seq<Event>, s: System, es: seq<Event>, t: System, uuid: Key, id: ReportId)
    requires Run(INITIAL, before, s) && s.client.phase.AwaitingReport?
    requires var r := s.client.phase.report;
      r.key in s.server.reports && s.server.reports[r.key].command == r.command
    requires Run(s, es, t) && t.client.phase.Idle? && FreshKey(t, uuid)
    requires !FinishedIn(s, es, t, s.client.phase.args.Scope())
    ensures
      var again := Submit(t.client, s.client.phase.args, uuid).phase;
      && again.AwaitingReport?
      && AppendReport(t.server, again.report, id) ==
         (t.server, Some(s.server.reports[s.client.phase.report.key].report))
  {
    RetryResendsTheSameReport(before, s, es, t, uuid);
    RunFiles(s, es, t);
  }

  /** And so for its fact: the second submission gets the answers of both. */
  lemma LostFactIsRecovered(before: seq<Event>, s: System, es: seq<Event>, t: System, uuid: Key, v: Key, id: nat)
    requires Run(INITIAL, before, s) && s.client.phase.AwaitingFact?
    requires var f := s.client.phase.fact; f.key in s.server.facts && s.server.facts[f.key].command == f.command
    requires Run(s, es, t) && t.client.phase.Idle? && FreshKey(t, uuid) && FreshKey(t, v)
    requires !FinishedIn(s, es, t, s.client.phase.args.Scope())
    ensures
      var p := s.client.phase;
      var again := Submit(t.client, p.args, uuid);
      && again.phase.AwaitingReport?
      && var next := ReportReplied(again, Some(p.saved), v).phase;
        && next.AwaitingFact?
        && RecordFact(t.server, next.fact, id) == (t.server, Some(s.server.facts[p.fact.key].factId))
  {
    RetryRecordsTheSameFact(before, s, es, t, uuid, v);
    RunFiles(s, es, t);
  }
}
