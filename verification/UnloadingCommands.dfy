/**
 `useContainerUnloadingCommands`: one submission at a time, cut at its four awaits.
 `Client` is the state between two cuts; each function below is the code from one cut to the
 next. `uuid` is the value the code would draw if it needs a new key.
 */
module UnloadingCommands {
  import opened Wrappers
  import opened Text
  import opened UnloadingServer

  /** The keys of `keys` and `evidenceRefsByScope`; a scope text is built from UUIDs and a number. */
  datatype Scope = ReportScope(container: string, version: nat) | FactScope(container: string, reportId: ReportId)

  /** `startedAt` and `completedAt` are what parsing the two local texts gives, None when it throws. */
  datatype Draft = Draft(
    state: OperationState, startedAt: Option<int>, completedLocal: string, completedAt: Option<int>,
    fields: seq<string>)

  datatype Args = Args(
    container: string, expectedVersion: nat, projectionVersion: nat, warehouse: string, draft: Draft)
  {
    function Scope(): Scope {
      ReportScope(container, expectedVersion + 1)
    }
  }

  datatype Phase =
    | Idle
    | ResolvingEvidence(args: Args)
    | AwaitingReport(args: Args, refs: seq<string>, report: ReportRequest)
    | AwaitingFact(args: Args, saved: Report, fact: FactRequest)
    | AwaitingReload(args: Args, saved: Report, factScope: Option<Scope>)

  datatype Client = Client(
    phase: Phase, failed: bool, keys: map<Scope, Key>, evidence: map<Scope, seq<string>>,
    reportResult: Option<Report>, factResult: Option<nat>)

  const INITIAL_CLIENT := Client(Idle, false, map[], map[], None, None)

  /** The throwing half of `parseZonedDateTime`, on both texts that are parsed. */
  predicate TimesParse(d: Draft) {
    d.startedAt.Some? && (d.state.Completed? ==> d.completedAt.Some?)
  }

  function ReasonCode(state: OperationState): string {
    match state
    case Completed => "unloading_completed"
    case Partial => "unloading_progress_reported"
    case Started => "unloading_started"
  }

  function ReportCommandOf(a: Args, refs: seq<string>): ReportCommand
    requires TimesParse(a.draft)
  {
    ReportCommand(a.container, a.expectedVersion, a.warehouse, a.draft.state, a.draft.startedAt.value,
                  if a.draft.state.Completed? then a.draft.completedAt else None,
                  a.draft.fields, refs, ReasonCode(a.draft.state))
  }

  function FactCommandOf(a: Args, refs: seq<string>): FactCommand
    requires a.draft.completedAt.Some?
  {
    FactCommand(a.container, a.draft.completedAt.value, a.draft.completedLocal, a.warehouse, refs, a.projectionVersion)
  }

  function KeyFor(keys: map<Scope, Key>, scope: Scope, uuid: Key): Key {
    if scope in keys then keys[scope] else uuid
  }

  function Fail(c: Client): Client {
    c.(phase := Idle, failed := true)
  }

  function SendReport(c: Client, a: Args, refs: seq<string>, uuid: Key): Client {
    if !TimesParse(a.draft) then Fail(c)
    else
      var k := KeyFor(c.keys, a.Scope(), uuid);
      c.(keys := c.keys[a.Scope() := k],
         phase := AwaitingReport(a, refs, ReportRequest(k, ReportCommandOf(a, refs))))
  }

  function Submit(c: Client, a: Args, uuid: Key): Client {
    if !c.phase.Idle? then c
    else if a.Scope() in c.evidence then SendReport(c.(failed := false), a, c.evidence[a.Scope()], uuid)
    else c.(failed := false, phase := ResolvingEvidence(a))
  }

  function EvidenceResolved(c: Client, refs: Option<seq<string>>, uuid: Key): Client
    requires c.phase.ResolvingEvidence?
  {
    match refs
    case None => Fail(c)
    case Some(rs) => SendReport(c.(evidence := c.evidence[c.phase.args.Scope() := rs]), c.phase.args, rs, uuid)
  }

  function ReportReplied(c: Client, answer: Option<Report>, uuid: Key): Client
    requires c.phase.AwaitingReport?
  {
    match answer
    case None => Fail(c)
    case Some(report) =>
      var a := c.phase.args;
      if report.state.Completed? && a.draft.state.Completed? && a.draft.completedAt.Some? then
        var scope := FactScope(a.container, report.reportId);
        var k := KeyFor(c.keys, scope, uuid);
        c.(reportResult := Some(report), keys := c.keys[scope := k],
           phase := AwaitingFact(a, report, FactRequest(k, FactCommandOf(a, c.phase.refs))))
      else c.(reportResult := Some(report), phase := AwaitingReload(a, report, None))
  }

  function FactReplied(c: Client, answer: Option<nat>): Client
    requires c.phase.AwaitingFact?
  {
    match answer
    case None => Fail(c)
    case Some(id) =>
      c.(factResult := Some(id),
         phase := AwaitingReload(c.phase.args, c.phase.saved,
         Some(FactScope(c.phase.args.container, c.phase.saved.reportId))))
  }

  function Reloaded(c: Client, ok: bool): Client
    requires c.phase.AwaitingReload?
  {
    if !ok then Fail(c)
    else
      var scope := c.phase.args.Scope();
      c.(phase := Idle, evidence := c.evidence - {scope},
         keys := c.keys - {scope} - (if c.phase.factScope.Some? then {c.phase.factScope.value} else {}))
  }

  // ---------------------------------------------------------------------------------------
  // resolveEvidence
  // ---------------------------------------------------------------------------------------

  /** `[...new Set(values.map(trim))].filter(Boolean)` */
  function EvidenceValues(values: seq<string>): seq<string> {
    NonEmpty(Unique(seq(|values|, i requires 0 <= i < |values| => Trim(values[i]))))
  }

  function NonEmpty(values: seq<string>): (r: seq<string>)
    ensures forall v :: v in r <==> v in values && v != ""
  {
    if values == [] then [] else (if values[0] == "" then [] else [values[0]]) + NonEmpty(values[1..])
  }

  ghost predicate InOrderOf(ts: seq<string>, us: seq<string>) {
    forall i, j | 0 <= i < j < |us| :: OccursBefore(ts, us[i], us[j]) && us[i] != us[j]
  }

  lemma {:induction false} NonEmptyKeepsOrder(ts: seq<string>, us: seq<string>)
    requires InOrderOf(ts, us)
    ensures InOrderOf(ts, NonEmpty(us))
  {
    if us != [] {
      var rest := NonEmpty(us[1..]);
      NonEmptyKeepsOrder(ts, us[1..]);
      forall x | x in rest ensures OccursBefore(ts, us[0], x) && us[0] != x {
        var j :| 0 <= j < |us[1..]| && us[1..][j] == x;
        assert us[j + 1] == x;
      }
    }
  }

  /** The trimmed values that are not empty, each once, in the order of their first occurrences. */
  ghost predicate Selected(values: seq<string>, vs: seq<string>) {
    exists ts: seq<string> ::
      && |ts| == |values| && (forall i | 0 <= i < |ts| :: TrimmedTo(values[i], ts[i]))
      && (forall v :: v in vs <==> v in ts && v != "") && InOrderOf(ts, vs)
  }

  lemma EvidenceIsSelected(values: seq<string>)
    ensures Selected(values, EvidenceValues(values))
  {
    var ts := seq(|values|, i requires 0 <= i < |values| => Trim(values[i]));
    forall i | 0 <= i < |ts| ensures TrimmedTo(values[i], ts[i]) {
      TrimIs(values[i], ts[i]);
    }
    UniqueIsOnceEach(ts);
    NonEmptyKeepsOrder(ts, Unique(ts));
  }

  /** The value itself if it is a reference, else what registering it gives, None when that fails. */
  function ReferenceFor(v: string, isReference: string -> bool, register: string -> Option<string>): Option<string> {
    if isReference(v) then Some(v) else register(v)
  }

  method CollectReferences(normalized: seq<string>, isReference: string -> bool, register: string -> Option<string>)
    returns (refs: Option<seq<string>>)
    ensures refs.Some? <==> normalized != [] && forall i | 0 <= i < |normalized| ::
        ReferenceFor(normalized[i], isReference, register).Some?
    ensures refs.Some? ==> |refs.value| == |normalized| && forall i | 0 <= i < |normalized| ::
              ReferenceFor(normalized[i], isReference, register) == Some(refs.value[i])
  {
    var found: seq<string> := [];
    for k := 0 to |normalized|
      invariant |found| == k
      invariant forall i | 0 <= i < k :: ReferenceFor(normalized[i], isReference, register) == Some(found[i])
    {
      var reference := ReferenceFor(normalized[k], isReference, register);
      if reference.None? { return None; }
      found := found + [reference.value];
    }
    refs := if |found| == 0 then None else Some(found);
  }

  /** A reference for each distinct value, in order; nothing when there is no value or a registration fails. */
  method ResolveEvidence(values: seq<string>, isReference: string -> bool, register: string -> Option<string>)
    returns (refs: Option<seq<string>>)
    ensures var vs := EvidenceValues(values);
      && (refs.Some? <==> vs != [] && forall i | 0 <= i < |vs| :: ReferenceFor(vs[i], isReference, register).Some?)
      && (refs.Some? ==> |refs.value| == |vs| && forall i | 0 <= i < |vs| ::
            ReferenceFor(vs[i], isReference, register) == Some(refs.value[i]))
  {
    refs := CollectReferences(EvidenceValues(values), isReference, register);
  }

  class ContainerUnloadingCommands {
    var phase: Phase   // `submitting` is `phase != Idle`
    var failed: bool   // `error` holds a text
    var keys: map<Scope, Key>
    var evidenceRefsByScope: map<Scope, seq<string>>
    var reportResult: Option<Report>
    var factResult: Option<nat>

    constructor ()
      ensures View() == INITIAL_CLIENT
    {
      phase, failed, keys, evidenceRefsByScope, reportResult, factResult := Idle, false, map[], map[], None, None;
    }

    function View(): Client
      reads this
    {
      Client(phase, failed, keys, evidenceRefsByScope, reportResult, factResult)
    }

    /** `key(scope)`: the key kept for the scope, or a new one that is then kept. */
    method TakeKey(scope: Scope, uuid: Key) returns (k: Key)
      modifies this`keys
      ensures k == KeyFor(old(keys), scope, uuid) && keys == old(keys)[scope := k]
    {
      if scope in keys {
        k := keys[scope];
        assert keys == keys[scope := k];
      } else {
        k := uuid;
        keys := keys[scope := k];
      }
    }

    /** The `catch` and `finally` of `submitReport`. */
    method Abort()
      modifies this`phase, this`failed
      ensures View() == Fail(old(View()))
    {
      failed := true;
      phase := Idle;
    }

    method ContinueWithEvidence(a: Args, refs: seq<string>, uuid: Key)
      modifies this
      ensures View() == SendReport(old(View()), a, refs, uuid)
    {
      if !TimesParse(a.draft) {
        Abort();
      } else {
        var k := TakeKey(a.Scope(), uuid);
        phase := AwaitingReport(a, refs, ReportRequest(k, ReportCommandOf(a, refs)));
      }
    }

    method SubmitReport(a: Args, uuid: Key)
      modifies this
      ensures View() == Submit(old(View()), a, uuid)
    {
      if phase != Idle { return; }
      failed := false;
      if a.Scope() in evidenceRefsByScope {
        ContinueWithEvidence(a, evidenceRefsByScope[a.Scope()], uuid);
      } else {
        phase := ResolvingEvidence(a);
      }
    }

    method OnEvidence(refs: Option<seq<string>>, uuid: Key)
      requires phase.ResolvingEvidence?
      modifies this
      ensures View() == EvidenceResolved(old(View()), refs, uuid)
    {
      if refs.None? {
        Abort();
      } else {
        var a := phase.args;
        evidenceRefsByScope := evidenceRefsByScope[a.Scope() := refs.value];
        ContinueWithEvidence(a, refs.value, uuid);
      }
    }

    method OnReport(answer: Option<Report>, uuid: Key)
      requires phase.AwaitingReport?
      modifies this
      ensures View() == ReportReplied(old(View()), answer, uuid)
    {
      if answer.None? {
        Abort();
      } else {
        var report, a, refs := answer.value, phase.args, phase.refs;
        reportResult := Some(report);
        if report.state.Completed? && a.draft.state.Completed? && a.draft.completedAt.Some? {
          var k := TakeKey(FactScope(a.container, report.reportId), uuid);
          phase := AwaitingFact(a, report, FactRequest(k, FactCommandOf(a, refs)));
        } else {
          phase := AwaitingReload(a, report, None);
        }
      }
    }

    method OnFact(answer: Option<nat>)
      requires phase.AwaitingFact?
      modifies this
      ensures View() == FactReplied(old(View()), answer)
    {
      if answer.None? {
        Abort();
      } else {
        factResult := answer;
        phase := AwaitingReload(phase.args, phase.saved, Some(FactScope(phase.args.container, phase.saved.reportId)));
      }
    }

    method OnReload(ok: bool)
      requires phase.AwaitingReload?
      modifies this
      ensures View() == Reloaded(old(View()), ok)
    {
      if !ok {
        Abort();
      } else {
        var scope, factScope := phase.args.Scope(), phase.factScope;
        keys := keys - {scope};
        evidenceRefsByScope := evidenceRefsByScope - {scope};
        if factScope.Some? {
          keys := keys - {factScope.value};
        }
        phase := Idle;
      }
    }
  }
}
