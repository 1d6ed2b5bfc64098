/**
 The two server operations an unloading submission reaches: appending an unloading report and
 recording the "unloaded" date fact. Both look the idempotency key up before they compare the
 expected version. A stored payload is compared as a whole, as its hash is.
 */
module UnloadingServer {
  import opened Wrappers

  type Key = nat        // an idempotency key: `crypto.randomUUID()`
  type ReportId = nat   // `randomUUID()` on the server

  datatype OperationState = Started | Partial | Completed {
    function Order(): nat {
      match this case Started => 0 case Partial => 1 case Completed => 2
    }
  }

  datatype ReportCommand = ReportCommand(
    container: string, expectedVersion: nat, warehouse: string, state: OperationState, startedAt: int,
    completedAt: Option<int>, fields: seq<string>, evidenceRefs: seq<string>, reasonCode: string)

  datatype FactCommand = FactCommand(
    container: string, occurredAt: int, rawValue: string, warehouse: string, evidenceRefs: seq<string>,
    expectedVersion: nat)

  datatype ReportRequest = ReportRequest(key: Key, command: ReportCommand)
  datatype FactRequest = FactRequest(key: Key, command: FactCommand)

  datatype Report = Report(reportId: ReportId, container: string, version: nat, state: OperationState)
  datatype StoredReport = StoredReport(command: ReportCommand, report: Report)
  datatype StoredFact = StoredFact(command: FactCommand, factId: nat)

  /** `active` is the one row per container that is not superseded; `projection` the highest fact version. */
  datatype Server = Server(
    reports: map<Key, StoredReport>, active: map<string, Report>, facts: map<Key, StoredFact>, projection: map<string,
    nat>)

  const EMPTY_SERVER := Server(map[], map[], map[], map[])

  predicate Progresses(current: Option<OperationState>, next: OperationState) {
    match current
    case None => true
    case Some(state) => next.Order() >= state.Order() && (state.Completed? ==> next.Completed?)
  }

  function ActiveVersion(s: Server, container: string): nat {
    if container in s.active then s.active[container].version else 0
  }

  function ActiveState(s: Server, container: string): Option<OperationState> {
    if container in s.active then Some(s.active[container].state) else None
  }

  /** `append`: the new server and the report it answers with, or None for a refusal. */
  function AppendReport(s: Server, r: ReportRequest, id: ReportId): (Server, Option<Report>) {
    var c := r.command;
    if r.key in s.reports then
      (s, if s.reports[r.key].command == c then Some(s.reports[r.key].report) else None)
    else if ActiveVersion(s, c.container) != c.expectedVersion then (s, None)
    else if !Progresses(ActiveState(s, c.container), c.state) then (s, None)
    else
      var report := Report(id, c.container, ActiveVersion(s, c.container) + 1, c.state);
      (s.(reports := s.reports[r.key := StoredReport(c, report)], active := s.active[c.container := report]),
          Some(report))
  }

  function Projection(s: Server, container: string): nat {
    if container in s.projection then s.projection[container] else 0
  }

  function RecordFact(s: Server, r: FactRequest, id: nat): (Server, Option<nat>) {
    var c := r.command;
    if r.key in s.facts then
      (s, if s.facts[r.key].command == c then Some(s.facts[r.key].factId) else None)
    else if Projection(s, c.container) != c.expectedVersion then (s, None)
    else
      (s.(facts := s.facts[r.key := StoredFact(c, id)],
          projection := s.projection[c.container := c.expectedVersion + 1]), Some(id))
  }

  // ---------------------------------------------------------------------------------------
  // The history of a container
  // ---------------------------------------------------------------------------------------

  /** A report of the container with the version is stored. */
  ghost predicate HasVersion(s: Server, container: string, version: nat) {
    exists k :: k in s.reports && s.reports[k].report.container == container && s.reports[k].report.version == version
  }

  /** The versions of a container run from 1 to that of its active report. */
  ghost predicate VersionsRun(s: Server) {
    && (forall k | k in s.reports ::
          1 <= s.reports[k].report.version <= ActiveVersion(s, s.reports[k].report.container))
    && (forall container, version | 1 <= version <= ActiveVersion(s, container) :: HasVersion(s, container, version))
  }

  /** A later version is never behind an earlier one, and what is active is the latest. */
  ghost predicate StatesProgress(s: Server) {
    && (forall k, l | k in s.reports && l in s.reports ::
          var q, r := s.reports[k].report, s.reports[l].report;
          q.container == r.container && q.version <= r.version ==> q.state.Order() <= r.state.Order())
    && (forall k | k in s.reports ::
          var r := s.reports[k].report;
          r.container in s.active && r.state.Order() <= s.active[r.container].state.Order()
          && (r.version == s.active[r.container].version ==> r == s.active[r.container]))
  }

  lemma AppendKeepsVersion(s: Server, r: ReportRequest, id: ReportId, container: string, version: nat)
    requires VersionsRun(s) && 1 <= version <= ActiveVersion(AppendReport(s, r, id).0, container)
    ensures HasVersion(AppendReport(s, r, id).0, container, version)
  {
    var t := AppendReport(s, r, id).0;
    if version <= ActiveVersion(s, container) {
      assert HasVersion(s, container, version);
      var k :| k in s.reports && s.reports[k].report.container == container && s.reports[k].report.version == version;
      assert k in t.reports && t.reports[k] == s.reports[k];
    } else {
      assert r.key in t.reports && t.reports[r.key].report.container == container;
    }
  }

  lemma AppendKeepsVersions(s: Server, r: ReportRequest, id: ReportId)
    requires VersionsRun(s)
    ensures VersionsRun(AppendReport(s, r, id).0)
  {
    var t := AppendReport(s, r, id).0;
    forall container, version | 1 <= version <= ActiveVersion(t, container) ensures HasVersion(t, container, version) {
      AppendKeepsVersion(s, r, id, container, version);
    }
  }

  lemma AppendKeepsProgress(s: Server, r: ReportRequest, id: ReportId)
    requires VersionsRun(s) && StatesProgress(s)
    ensures StatesProgress(AppendReport(s, r, id).0)
  {
  }

  /** Every fact of a container was recorded against another projection version, and each raised it. */
  ghost predicate FactsInOrder(s: Server) {
    && (forall k | k in s.facts :: s.facts[k].command.expectedVersion < Projection(s, s.facts[k].command.container))
    && (forall k, l | k in s.facts && l in s.facts && k != l ::
          s.facts[k].command.container == s.facts[l].command.container ==>
          s.facts[k].command.expectedVersion != s.facts[l].command.expectedVersion)
  }

  lemma RecordKeepsFacts(s: Server, r: FactRequest, id: nat)
    requires FactsInOrder(s)
    ensures FactsInOrder(RecordFact(s, r, id).0)
  {
  }

  /** The reports and facts of every container, in the order the server took them. */
  ghost predicate InOrder(s: Server) {
    VersionsRun(s) && StatesProgress(s) && FactsInOrder(s)
  }

  lemma AppendKeepsOrder(s: Server, r: ReportRequest, id: ReportId)
    requires InOrder(s)
    ensures InOrder(AppendReport(s, r, id).0)
  {
    AppendKeepsVersions(s, r, id);
    AppendKeepsProgress(s, r, id);
    assert AppendReport(s, r, id).0.facts == s.facts && AppendReport(s, r, id).0.projection == s.projection;
  }

  lemma RecordKeepsOrder(s: Server, r: FactRequest, id: nat)
    requires InOrder(s)
    ensures InOrder(RecordFact(s, r, id).0)
  {
    var t := RecordFact(s, r, id).0;
    RecordKeepsFacts(s, r, id);
    assert t.reports == s.reports && t.active == s.active;
    forall container, version | 1 <= version <= ActiveVersion(t, container) ensures HasVersion(t, container, version) {
      assert HasVersion(s, container, version);
    }
  }
}
