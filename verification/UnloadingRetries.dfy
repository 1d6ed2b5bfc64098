/**
 What a page keeps of a submission from its first request to the reload that ends it, and what it
 then forgets, over whole runs.
 */
module UnloadingRetries {
  import opened Wrappers
  import opened UnloadingServer
  import opened UnloadingCommands
  import opened UnloadingSafety

  // ---------------------------------------------------------------------------------------
  // Keys after a step
  // ---------------------------------------------------------------------------------------

  /** The events that may need a new key. */
  predicate NeedsKey(e: Event) {
    e.SubmitEvent? || e.EvidenceEvent? || e.ReportReply?
  }

  /** Each key was there before under its scope, or is the new one. */
  ghost predicate KeepsOrDraws(c: Client, d: Client, uuid: Key) {
    forall scope | scope in d.keys :: Holds(c, scope, d.keys[scope]) || d.keys[scope] == uuid
  }

  lemma StepDraws(s: System, e: Event)
    requires Enabled(s, e) && NeedsKey(e)
    ensures KeepsOrDraws(s.client, Step(s, e).client, e.uuid)
  {
    match e
    case SubmitEvent(a, uuid) => assert KeepsOrDraws(s.client, Submit(s.client, a, uuid), uuid);
    case EvidenceEvent(refs, uuid) => assert KeepsOrDraws(s.client, EvidenceResolved(s.client, refs, uuid), uuid);
    case ReportReply(report, uuid) => assert KeepsOrDraws(s.client, ReportReplied(s.client, report, uuid), uuid);
  }

  lemma StepKeeps(s: System, e: Event)
    requires Enabled(s, e) && !NeedsKey(e)
    ensures forall scope | scope in Step(s, e).client.keys :: Holds(s.client, scope, Step(s, e).client.keys[scope])
  {
  }

  lemma IssuedGrows(s: System, e: Event)
    requires Enabled(s, e)
    ensures s.issued <= Step(s, e).issued
  {
  }

  /** A key that was issued for a scope and is not held under it any more. */
  predicate Gone(s: System, scope: Scope, k: Key) {
    (k, scope) in s.issued && !Holds(s.client, scope, k)
  }

  lemma StaysGone(s: System, e: Event, scope: Scope, k: Key)
    requires Enabled(s, e) && Gone(s, scope, k)
    ensures Gone(Step(s, e), scope, k)
  {
    IssuedGrows(s, e);
    if NeedsKey(e) {
      StepDraws(s, e);
    } else {
      StepKeeps(s, e);
    }
  }

  lemma {:induction false} StaysGoneAlong(s: System, es: seq<Event>, t: System, scope: Scope, k: Key)
    requires Run(s, es, t) && Gone(s, scope, k)
    ensures Gone(t, scope, k)
    decreases |es|
  {
    if es != [] {
      StaysGone(s, es[0], scope, k);
      StaysGoneAlong(Step(s, es[0]), es[1..], t, scope, k);
    }
  }

  // ---------------------------------------------------------------------------------------
  // What a submission in progress holds
  // ---------------------------------------------------------------------------------------

  /** Evidence is asked for only where none is kept, and requests are built from what is kept. */
  predicate Consistent(c: Client) {
    match c.phase
    case Idle => true
    case ResolvingEvidence(a) => a.Scope() !in c.evidence
    case AwaitingReport(a, refs, r) =>
      TimesParse(a.draft) && Kept(c, a.Scope(), r.key, refs) && r.command == ReportCommandOf(a, refs)
    case AwaitingFact(a, saved, f) =>
      && TimesParse(a.draft) && a.draft.state.Completed? && saved.state.Completed?
      && a.Scope() in c.keys && a.Scope() in c.evidence
      && Holds(c, FactScope(a.container, saved.reportId), f.key) && f.command == FactCommandOf(a, c.evidence[a.Scope()])
    case AwaitingReload(a, saved, factScope) =>
      factScope.Some? ==> factScope.value == FactScope(a.container, saved.reportId)
  }

  /** The scope keeps this key and this evidence. */
  predicate Kept(c: Client, scope: Scope, k: Key, refs: seq<string>) {
    Holds(c, scope, k) && scope in c.evidence && c.evidence[scope] == refs
  }

  lemma StepKeepsConsistent(s: System, e: Event)
    requires Enabled(s, e) && Consistent(s.client)
    ensures Consistent(Step(s, e).client)
  {
    match e
    case SubmitEvent(a, uuid) => assert Consistent(Submit(s.client, a, uuid));
    case EvidenceEvent(refs, uuid) => assert Consistent(EvidenceResolved(s.client, refs, uuid));
    case ReportReply(report, uuid) => assert Consistent(ReportReplied(s.client, report, uuid));
    case FactReply(fact) => assert Consistent(FactReplied(s.client, fact));
    case ReloadReply(ok) => assert Consistent(Reloaded(s.client, ok));
    case _ =>
  }

  lemma {:induction false} RunKeepsConsistent(s: System, es: seq<Event>, t: System)
    requires Run(s, es, t) && Consistent(s.client)
    ensures Consistent(t.client)
    decreases |es|
  {
    if es != [] {
      StepKeepsConsistent(s, es[0]);
      RunKeepsConsistent(Step(s, es[0]), es[1..], t);
    }
  }

  /** The step ends a submission of the scope without an error. */
  predicate Finishes(s: System, e: Event, scope: Scope) {
    e == ReloadReply(true) && s.client.phase.AwaitingReload? && s.client.phase.args.Scope() == scope
  }

  ghost predicate FinishedIn(s: System, es: seq<Event>, t: System, scope: Scope)
    requires Run(s, es, t)
    decreases |es|
  {
    es != [] && (Finishes(s, es[0], scope) || FinishedIn(Step(s, es[0]), es[1..], t, scope))
  }

  /** Whatever a client does meanwhile, also with other drafts of the scope. */
  lemma StepKeepsKept(s: System, e: Event, scope: Scope, k: Key, refs: seq<string>)
    requires Enabled(s, e) && Consistent(s.client) && Kept(s.client, scope, k, refs)
    requires scope.ReportScope? && !Finishes(s, e, scope)
    ensures Kept(Step(s, e).client, scope, k, refs)
  {
    match e
    case SubmitEvent(a, uuid) => assert Kept(Submit(s.client, a, uuid), scope, k, refs);
    case EvidenceEvent(found, uuid) => assert Kept(EvidenceResolved(s.client, found, uuid), scope, k, refs);
    case ReportReply(report, uuid) => assert Kept(ReportReplied(s.client, report, uuid), scope, k, refs);
    case FactReply(fact) => assert Kept(FactReplied(s.client, fact), scope, k, refs);
    case ReloadReply(ok) => assert Kept(Reloaded(s.client, ok), scope, k, refs);
    case _ =>
  }

  lemma FinishingDrops(s: System, e: Event, scope: Scope, k: Key)
    requires Enabled(s, e) && KeysInv(s) && Finishes(s, e, scope) && Holds(s.client, scope, k)
    ensures Gone(Step(s, e), scope, k)
  {
    IssuedGrows(s, e);
    assert (s.client.keys[scope], scope) in s.issued;
  }

  lemma {:induction false} KeptUntilFinished(s: System, es: seq<Event>, t: System, scope: Scope, k: Key,
          refs: seq<string>)
    requires Inv(s) && Consistent(s.client) && Run(s, es, t) && scope.ReportScope? && Kept(s.client, scope, k, refs)
    ensures if FinishedIn(s, es, t, scope) then Gone(t, scope, k) else Kept(t.client, scope, k, refs)
    decreases |es|
  {
    if es != [] {
      var u := Step(s, es[0]);
      if Finishes(s, es[0], scope) {
        FinishingDrops(s, es[0], scope, k);
        StaysGoneAlong(u, es[1..], t, scope, k);
      } else {
        StepKeepsKept(s, es[0], scope, k, refs);
        StepKeepsInv(s, es[0]);
        StepKeepsConsistent(s, es[0]);
        KeptUntilFinished(u, es[1..], t, scope, k, refs);
      }
    }
  }

  lemma ReachedIsSound(before: seq<Event>, s: System)
    requires Run(INITIAL, before, s)
    ensures Inv(s) && Consistent(s.client)
  {
    RunKeepsInv(INITIAL, before, s);
    RunKeepsConsistent(INITIAL, before, s);
  }

  lemma SubmittedWithKept(c: Client, a: Args, k: Key, refs: seq<string>, uuid: Key)
    requires c.phase.Idle? && TimesParse(a.draft) && Kept(c, a.Scope(), k, refs)
    ensures Submit(c, a, uuid).phase == AwaitingReport(a, refs, ReportRequest(k, ReportCommandOf(a, refs)))
    ensures Submit(c, a, uuid).keys == c.keys
  {
  }

  lemma SubmittedAfterGone(s: System, a: Args, k: Key, uuid: Key)
    requires s.client.phase.Idle? && Gone(s, a.Scope(), k) && FreshKey(s, uuid)
    ensures Submit(s.client, a, uuid).phase.AwaitingReport? ==> Submit(s.client, a, uuid).phase.report.key != k
  {
  }

  /**
   Once a report request was sent, submitting the same draft again sends exactly that request, until a
   submission of its scope has ended without an error; never afterwards.
   */
  lemma RetryResendsTheSameReport(before: seq<Event>, s: System, es: seq<Event>, t: System, uuid: Key)
    requires Run(INITIAL, before, s) && s.client.phase.AwaitingReport?
    requires Run(s, es, t) && t.client.phase.Idle? && FreshKey(t, uuid)
    ensures var a := s.client.phase.args;
            Submit(t.client, a, uuid).phase == s.client.phase <==> !FinishedIn(s, es, t, a.Scope())
  {
    var p := s.client.phase;
    ReachedIsSound(before, s);
    KeptUntilFinished(s, es, t, p.args.Scope(), p.report.key, p.refs);
    if FinishedIn(s, es, t, p.args.Scope()) {
      SubmittedAfterGone(t, p.args, p.report.key, uuid);
    } else {
      SubmittedWithKept(t.client, p.args, p.report.key, p.refs, uuid);
    }
  }

  // ---------------------------------------------------------------------------------------
  // The fact of a saved report
  // ---------------------------------------------------------------------------------------

  /** The report is stored under the key of its scope. */
  predicate Stored(server: Server, k: Key, saved: Report) {
    k in server.reports && server.reports[k].report == saved
  }

  lemma StaysStored(s: System, e: Event, k: Key, saved: Report)
    requires Enabled(s, e) && Stored(s.server, k, saved)
    ensures Stored(Step(s, e).server, k, saved)
  {
  }

  predicate FactKept(s: System, k: Key, saved: Report, kf: Key) {
    && saved.state.Completed? && Stored(s.server, k, saved)
    && Holds(s.client, ReportScope(saved.container, saved.version), k)
    && Holds(s.client, FactScope(saved.container, saved.reportId), kf)
  }

  /** A reload drops the key of the fact exactly if it drops that of its report. */
  lemma DroppedTogether(s: System, k: Key, saved: Report, kf: Key)
    requires StoredInv(s.server) && PhaseInv(s) && FactKept(s, k, saved, kf) && s.client.phase.AwaitingReload?
    ensures s.client.phase.args.Scope() == ReportScope(saved.container, saved.version) <==>
      s.client.phase.factScope == Some(FactScope(saved.container, saved.reportId))
  {
    var p := s.client.phase;
    var l := s.client.keys[p.args.Scope()];
    assert s.server.reports[l].report == p.saved;
    assert k != l ==> s.server.reports[k].report.reportId != s.server.reports[l].report.reportId;
  }

  lemma ReloadKeepsFactKept(s: System, e: Event, k: Key, saved: Report, kf: Key)
    requires Enabled(s, e) && e.ReloadReply? && StoredInv(s.server) && PhaseInv(s) && FactKept(s, k, saved, kf)
    requires !Finishes(s, e, ReportScope(saved.container, saved.version))
    ensures FactKept(Step(s, e), k, saved, kf)
  {
    DroppedTogether(s, k, saved, kf);
  }

  lemma StepKeepsFactKept(s: System, e: Event, k: Key, saved: Report, kf: Key)
    requires Enabled(s, e) && StoredInv(s.server) && PhaseInv(s) && FactKept(s, k, saved, kf)
    requires !Finishes(s, e, ReportScope(saved.container, saved.version))
    ensures FactKept(Step(s, e), k, saved, kf)
  {
    StaysStored(s, e, k, saved);
    match e
    case SubmitEvent(a, uuid) => assert HeldOn(s.client, Submit(s.client, a, uuid));
    case EvidenceEvent(found, uuid) => assert HeldOn(s.client, EvidenceResolved(s.client, found, uuid));
    case ReportReply(report, uuid) => assert HeldOn(s.client, ReportReplied(s.client, report, uuid));
    case FactReply(fact) => assert HeldOn(s.client, FactReplied(s.client, fact));
    case ReloadReply(ok) => ReloadKeepsFactKept(s, e, k, saved, kf);
    case _ =>
  }

  ghost predicate HeldOn(c: Client, d: Client) {
    forall scope | scope in c.keys :: Holds(d, scope, c.keys[scope])
  }

  lemma FinishingDropsFact(s: System, e: Event, k: Key, saved: Report, kf: Key)
    requires Enabled(s, e) && KeysInv(s) && StoredInv(s.server) && PhaseInv(s) && FactKept(s, k, saved, kf)
    requires Finishes(s, e, ReportScope(saved.container, saved.version))
    ensures Gone(Step(s, e), FactScope(saved.container, saved.reportId), kf)
  {
    DroppedTogether(s, k, saved, kf);
    IssuedGrows(s, e);
    var scope := FactScope(saved.container, saved.reportId);
    assert (s.client.keys[scope], scope) in s.issued;
  }

  lemma {:induction false} FactKeptUntilFinished(s: System, es: seq<Event>, t: System, k: Key, saved: Report, kf: Key)
    requires Inv(s) && Run(s, es, t) && FactKept(s, k, saved, kf)
    ensures if FinishedIn(s, es, t, ReportScope(saved.container, saved.version))
            then Gone(t, FactScope(saved.container, saved.reportId), kf) else FactKept(t, k, saved, kf)
    decreases |es|
  {
    if es != [] {
      if Finishes(s, es[0], ReportScope(saved.container, saved.version)) {
        FinishingDropsFact(s, es[0], k, saved, kf);
        StaysGoneAlong(Step(s, es[0]), es[1..], t, FactScope(saved.container, saved.reportId), kf);
      } else {
        StepKeepsFactKept(s, es[0], k, saved, kf);
        StepKeepsInv(s, es[0]);
        FactKeptUntilFinished(Step(s, es[0]), es[1..], t, k, saved, kf);
      }
    }
  }

  lemma FactIsKept(s: System)
    requires PhaseInv(s) && Consistent(s.client) && s.client.phase.AwaitingFact?
    ensures var p := s.client.phase;
            && p.args.Scope() == ReportScope(p.saved.container, p.saved.version)
                  && p.args.container == p.saved.container
            && p.args.Scope() in s.client.keys && p.args.Scope() in s.client.evidence
            && FactKept(s, s.client.keys[p.args.Scope()], p.saved, p.fact.key)
  {
  }

  lemma FactResent(c: Client, a: Args, saved: Report, refs: seq<string>, k: Key, kf: Key, uuid: Key, v: Key)
    requires c.phase.Idle? && TimesParse(a.draft) && a.draft.state.Completed? && saved.state.Completed?
    requires Kept(c, a.Scope(), k, refs) && Holds(c, FactScope(a.container, saved.reportId), kf)
    ensures var again := Submit(c, a, uuid);
            && again.phase.AwaitingReport?
            && ReportReplied(again, Some(saved), v).phase ==
                  AwaitingFact(a, saved, FactRequest(kf, FactCommandOf(a, refs)))
  {
    SubmittedWithKept(c, a, k, refs, uuid);
  }

  lemma FactUnderNewKey(s: System, a: Args, saved: Report, kf: Key, uuid: Key, v: Key)
    requires s.client.phase.Idle? && Gone(s, FactScope(a.container, saved.reportId), kf)
    requires FreshKey(s, uuid) && FreshKey(s, v)
    ensures var again := Submit(s.client, a, uuid);
            again.phase.AwaitingReport? && ReportReplied(again, Some(saved), v).phase.AwaitingFact? ==>
              ReportReplied(again, Some(saved), v).phase.fact.key != kf
  {
  }

  /**
   Once the fact of a saved report was sent, submitting the draft again leads, after the answer with the
   same report, to exactly that fact request, until a submission of the scope has ended without an error;
   never afterwards.
   */
  lemma RetryRecordsTheSameFact(before: seq<Event>, s: System, es: seq<Event>, t: System, uuid: Key, v: Key)
    requires Run(INITIAL, before, s) && s.client.phase.AwaitingFact?
    requires Run(s, es, t) && t.client.phase.Idle? && FreshKey(t, uuid) && FreshKey(t, v)
    ensures var p := s.client.phase;
            var again := Submit(t.client, p.args, uuid);
            (again.phase.AwaitingReport? && ReportReplied(again, Some(p.saved), v).phase == p) <==>
            !FinishedIn(s, es, t, p.args.Scope())
  {
    var p := s.client.phase;
    ReachedIsSound(before, s);
    FactIsKept(s);
    var k, refs := s.client.keys[p.args.Scope()], s.client.evidence[p.args.Scope()];
    KeptUntilFinished(s, es, t, p.args.Scope(), k, refs);
    FactKeptUntilFinished(s, es, t, k, p.saved, p.fact.key);
    if FinishedIn(s, es, t, p.args.Scope()) {
      FactUnderNewKey(t, p.args, p.saved, p.fact.key, uuid, v);
    } else {
      FactResent(t.client, p.args, p.saved, refs, k, p.fact.key, uuid, v);
    }
  }

  // ---------------------------------------------------------------------------------------
  // What a success forgets
  // ---------------------------------------------------------------------------------------

  /** The submission goes on: no error ends it, and it is not over. */
  ghost predicate Busy(s: System, es: seq<Event>, t: System)
    requires Run(s, es, t)
    decreases |es|
  {
    !s.client.phase.Idle? && (es != [] ==> Busy(Step(s, es[0]), es[1..], t))
  }

  /** The scope of the fact that a saved report of the draft leads to. */
  function FactScopes(a: Args, saved: Report): set<Scope> {
    if saved.state.Completed? && a.draft.state.Completed? && a.draft.completedAt.Some?
    then {FactScope(a.container, saved.reportId)} else {}
  }

  /** What a submission of `a` that began at `c` has changed. */
  predicate Within(c: Client, d: Client, a: Args) {
    && !d.failed && d.evidence - {a.Scope()} == c.evidence - {a.Scope()}
    && match d.phase
       case Idle => true
       case ResolvingEvidence(b) => b == a && d.keys == c.keys
       case AwaitingReport(b, _, _) => b == a && d.keys - {a.Scope()} == c.keys - {a.Scope()}
       case AwaitingFact(b, saved, _) =>
         && b == a && d.reportResult == Some(saved) && FactScopes(a, saved) == {FactScope(a.container, saved.reportId)}
         && d.keys - {a.Scope()} - FactScopes(a, saved) == c.keys - {a.Scope()} - FactScopes(a, saved)
       case AwaitingReload(b, saved, factScope) =>
         && b == a && d.reportResult == Some(saved)
         && FactScopes(a, saved) == (if factScope.Some? then {factScope.value} else {})
         && (factScope.Some? ==> d.factResult.Some?)
         && d.keys - {a.Scope()} - FactScopes(a, saved) == c.keys - {a.Scope()} - FactScopes(a, saved)
  }

  lemma SubmitBegins(c: Client, a: Args, uuid: Key)
    requires c.phase.Idle? && !Submit(c, a, uuid).phase.Idle?
    ensures Within(c, Submit(c, a, uuid), a)
  {
  }

  lemma EvidenceWithin(c: Client, d: Client, a: Args, refs: Option<seq<string>>, uuid: Key)
    requires Within(c, d, a) && d.phase.ResolvingEvidence? && !EvidenceResolved(d, refs, uuid).phase.Idle?
    ensures Within(c, EvidenceResolved(d, refs, uuid), a)
  {
  }

  lemma ReportWithin(c: Client, d: Client, a: Args, answer: Option<Report>, uuid: Key)
    requires Within(c, d, a) && d.phase.AwaitingReport? && !ReportReplied(d, answer, uuid).phase.Idle?
    ensures Within(c, ReportReplied(d, answer, uuid), a)
  {
    var saved := answer.value;
    var next := ReportReplied(d, answer, uuid);
    assert next.keys - {a.Scope()} - FactScopes(a, saved) == c.keys - {a.Scope()} - FactScopes(a, saved) by {
      assert next.keys - {a.Scope()} - FactScopes(a, saved) == d.keys - {a.Scope()} - FactScopes(a, saved);
    }
  }

  lemma FactWithin(c: Client, d: Client, a: Args, answer: Option<nat>)
    requires Within(c, d, a) && d.phase.AwaitingFact? && !FactReplied(d, answer).phase.Idle?
    ensures Within(c, FactReplied(d, answer), a)
  {
  }

  lemma StepWithin(c: Client, s: System, e: Event, a: Args)
    requires Enabled(s, e) && Within(c, s.client, a) && !s.client.phase.Idle? && !Step(s, e).client.phase.Idle?
    ensures Within(c, Step(s, e).client, a)
  {
    match e
    case EvidenceEvent(refs, uuid) => EvidenceWithin(c, s.client, a, refs, uuid);
    case ReportReply(report, uuid) => ReportWithin(c, s.client, a, report, uuid);
    case FactReply(fact) => FactWithin(c, s.client, a, fact);
    case _ =>
  }

  lemma {:induction false} RunWithin(c: Client, s: System, es: seq<Event>, t: System, a: Args)
    requires Run(s, es, t) && Busy(s, es, t) && Within(c, s.client, a)
    ensures Within(c, t.client, a)
    decreases |es|
  {
    if es != [] {
      assert Busy(Step(s, es[0]), es[1..], t);
      StepWithin(c, s, es[0], a);
      RunWithin(c, Step(s, es[0]), es[1..], t, a);
    }
  }

  lemma ReloadEnds(c: Client, d: Client, a: Args)
    requires Within(c, d, a) && d.phase.AwaitingReload?
    ensures var done := Reloaded(d, true);
            && done.phase.Idle? && !done.failed && done.reportResult == Some(d.phase.saved)
            && done.evidence == c.evidence - {a.Scope()}
            && done.keys == c.keys - {a.Scope()} - FactScopes(a, d.phase.saved)
            && (FactScopes(a, d.phase.saved) != {} ==> done.factResult.Some?)
  {
  }

  /**
   However a submission got to its reload, with evidence resolved or kept from an earlier attempt and
   keys new or kept, when it ends without an error it has forgotten exactly its own evidence and keys.
   */
  lemma SuccessForgetsItsOwn(s: System, a: Args, uuid: Key, es: seq<Event>, t: System)
    requires s.client.phase.Idle? && Enabled(s, SubmitEvent(a, uuid))
    requires var sent := Step(s, SubmitEvent(a, uuid)); Run(sent, es, t) && Busy(sent, es, t)
    requires t.client.phase.AwaitingReload?
    ensures var done, saved := Step(t, ReloadReply(true)).client, t.client.phase.saved;
            && done.phase.Idle? && !done.failed && done.reportResult == Some(saved)
            && done.evidence == s.client.evidence - {a.Scope()}
            && done.keys == s.client.keys - {a.Scope()} - FactScopes(a, saved)
            && (FactScopes(a, saved) != {} ==> done.factResult.Some?)
  {
    SubmitBegins(s.client, a, uuid);
    RunWithin(s.client, Step(s, SubmitEvent(a, uuid)), es, t, a);
    ReloadEnds(s.client, t.client, a);
  }
}
