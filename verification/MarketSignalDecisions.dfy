/**
 Decisions: which reloads they overtake, exactly when the decided version stays shown, and reachable
 runs in which it does not.
 */
module MarketSignalDecisions {
  import opened Wrappers
  import opened MarketSignals
  import opened MarketSignalRuns
  import opened MarketSignalVersions

  // ---------------------------------------------------------------------------------------
  // Decisions and the reloads they overtake
  // ---------------------------------------------------------------------------------------

  predicate IsLoad(r: Request) {
    r.Lists? || r.Responsibilities?
  }

  ghost predicate LoadsInv(s: System) {
    forall r | r in s.waiting :: Ready(r) && (IsLoad(r) ==> r.generation <= s.q.loadGeneration)
  }

  lemma {:induction false} ListsKeepGeneration(q: Queue, results: seq<ListResult>)
    requires |results| <= |MARKET_DESTINATIONS|
    ensures ApplyLists(q, results).loadGeneration == q.loadGeneration
  {
    if results != [] {
      ListsKeepGeneration(q, results[..|results| - 1]);
    }
  }

  lemma ReloadKeepsGeneration(q: Queue, generation: nat, results: seq<ListResult>, projected: Option<OpportunityPage>)
    requires |results| <= |MARKET_DESTINATIONS|
    ensures ApplyReload(q, generation, results, projected).loadGeneration == q.loadGeneration
  {
    ListsKeepGeneration(q.(legacyActive := false, legacyCursor := None, signals := []), results);
  }

  lemma LoadReplyGeneration(s: System, e: Event)
    requires Enabled(s, e) && (e.ListsReply? || e.ResponsibilitiesReply?)
    ensures Step(s, e).q.loadGeneration == s.q.loadGeneration
  {
    if e.ListsReply? {
      ReloadKeepsGeneration(s.q, e.request.responsibilityGeneration, e.results, None);
    } else {
      ReloadKeepsGeneration(s.q, e.request.responsibilityGeneration, e.request.results, e.projected);
    }
  }

  lemma LoadReplyKeepsLoads(s: System, e: Event)
    requires LoadsInv(s) && Enabled(s, e) && (e.ListsReply? || e.ResponsibilitiesReply?)
    ensures LoadsInv(Step(s, e))
  {
    LoadReplyGeneration(s, e);
  }

  lemma StepKeepsLoads(s: System, e: Event)
    requires LoadsInv(s) && Enabled(s, e)
    ensures LoadsInv(Step(s, e)) && Step(s, e).q.loadGeneration >= s.q.loadGeneration
  {
    if e.ListsReply? || e.ResponsibilitiesReply? {
      LoadReplyKeepsLoads(s, e);
      LoadReplyGeneration(s, e);
    } else if e.StartLoad? || e.StartRetry? || e.StartMore? || e.StartDetail? {
      StartKeepsLoads(s, e);
    } else {
      OtherKeepsLoads(s, e);
    }
  }

  lemma StartedKeepsLoads(s: System, next: (Queue, Request))
    requires LoadsInv(s) && Ready(next.1) && next.0.loadGeneration >= s.q.loadGeneration
    requires IsLoad(next.1) ==> next.1.generation <= next.0.loadGeneration
    ensures LoadsInv(Start(s, next))
  {
  }

  lemma StartKeepsLoads(s: System, e: Event)
    requires LoadsInv(s) && (e.StartLoad? || e.StartRetry? || e.StartMore? || e.StartDetail?)
    ensures LoadsInv(Step(s, e)) && Step(s, e).q.loadGeneration >= s.q.loadGeneration
  {
    match e
    case StartLoad => StartedKeepsLoads(s, LoadSignals(s.q));
    case StartRetry(d) => StartedKeepsLoads(s, RetryGroup(s.q, d));
    case StartDetail(id) => StartedKeepsLoads(s, LoadDetail(s.q, id));
    case StartMore(d) =>
      var next := LoadMore(s.q, d);
      if next.1.Some? {
        StartedKeepsLoads(s, (next.0, next.1.value));
      }
  }

  lemma OtherKeepsLoads(s: System, e: Event)
    requires LoadsInv(s) && Enabled(s, e) && !e.ListsReply? && !e.ResponsibilitiesReply?
    requires !e.StartLoad? && !e.StartRetry? && !e.StartMore? && !e.StartDetail?
    ensures LoadsInv(Step(s, e)) && Step(s, e).q.loadGeneration >= s.q.loadGeneration
  {
  }

  lemma {:induction false} RunKeepsLoads(s: System, es: seq<Event>, t: System)
    requires LoadsInv(s) && Run(s, es, t)
    ensures LoadsInv(t) && t.q.loadGeneration >= s.q.loadGeneration
    decreases |es|
  {
    if es != [] {
      StepKeepsLoads(s, es[0]);
      RunKeepsLoads(Step(s, es[0]), es[1..], t);
    }
  }

  predicate RepliesTo(e: Event, r: Request) {
    (e.ListsReply? || e.ResponsibilitiesReply?) && e.request == r
  }

  /** A reload that was waiting when a decision was answered leaves the queue alone, however late its replies come. */
  lemma DecisionOvertakesReloads(before: seq<Event>, s: System, decision: Event, es: seq<Event>, t: System, r: Request,
          reply: Event)
    requires Run(START, before, s) && r in s.waiting && IsLoad(r)
    requires decision.DecisionReply? && Run(Step(s, decision), es, t)
    requires RepliesTo(reply, r) && Enabled(t, reply)
    ensures Step(t, reply).q == t.q
  {
    RunKeepsLoads(START, before, s);
    StepKeepsLoads(s, decision);
    RunKeepsLoads(Step(s, decision), es, t);
  }

  predicate StartsReload(s: System, e: Event) {
    e.StartLoad? || (e.StartRetry? && (e.destination == AwaitingSelectionAcceptance || s.q.legacyActive))
  }

  ghost predicate NoLoadIsCurrent(s: System) {
    forall r | r in s.waiting && IsLoad(r) :: r.generation < s.q.loadGeneration
  }

  lemma OvertakenReply(s: System, e: Event)
    requires NoLoadIsCurrent(s) && Enabled(s, e) && (e.ListsReply? || e.ResponsibilitiesReply?)
    ensures !AppliesReload(s, e) && NoLoadIsCurrent(Step(s, e))
  {
    assert IsLoad(e.request);
  }

  lemma OvertakenStart(s: System, e: Event)
    requires NoLoadIsCurrent(s) && !StartsReload(s, e)
        && (e.StartLoad? || e.StartRetry? || e.StartMore? || e.StartDetail?)
    ensures NoLoadIsCurrent(Step(s, e))
  {
  }

  lemma OvertakenStep(s: System, e: Event)
    requires NoLoadIsCurrent(s) && Enabled(s, e) && !StartsReload(s, e)
    ensures !AppliesReload(s, e) && NoLoadIsCurrent(Step(s, e))
  {
    if e.ListsReply? || e.ResponsibilitiesReply? {
      OvertakenReply(s, e);
    } else if e.StartLoad? || e.StartRetry? || e.StartMore? || e.StartDetail? {
      OvertakenStart(s, e);
    } else {
      OvertakenOther(s, e);
    }
  }

  lemma OvertakenOther(s: System, e: Event)
    requires NoLoadIsCurrent(s) && Enabled(s, e) && !e.ListsReply? && !e.ResponsibilitiesReply?
    requires !e.StartLoad? && !e.StartRetry? && !e.StartMore? && !e.StartDetail?
    ensures NoLoadIsCurrent(Step(s, e))
  {
  }

  /** No reload is asked for along the run. */
  ghost predicate NoReloadAsked(s: System, es: seq<Event>, t: System)
    requires Run(s, es, t)
    decreases |es|
  {
    es != [] ==> !StartsReload(s, es[0]) && NoReloadAsked(Step(s, es[0]), es[1..], t)
  }

  lemma {:induction false} LoadsStayOvertaken(s: System, es: seq<Event>, t: System)
    requires Run(s, es, t) && NoLoadIsCurrent(s) && NoReloadAsked(s, es, t)
    ensures NoLoadIsCurrent(t)
    decreases |es|
  {
    if es != [] {
      OvertakenStep(s, es[0]);
      LoadsStayOvertaken(Step(s, es[0]), es[1..], t);
    }
  }

  /** After a decision, while no reload is asked for, only the retry of a group drops a signal. */
  lemma OnlyRetriesDrop(before: seq<Event>, s: System, decision: Event, es: seq<Event>, t: System, e: Event, id: string)
    requires Run(START, before, s) && decision.DecisionReply?
    requires Run(Step(s, decision), es, t) && NoReloadAsked(Step(s, decision), es, t)
    requires Enabled(t, e)
    ensures Drops(t, e, id) <==> e.GroupReply? && DroppedByGroup(t.q, e.request, e.page, id)
  {
    RunKeepsLoads(START, before, s);
    LoadsStayOvertaken(Step(s, decision), es, t);
    if e.ListsReply? || e.ResponsibilitiesReply? {
      OvertakenReply(t, e);
    }
  }

  /**
   Once a decision is answered with a version, the decided signal is shown in that version or a later
   one exactly if it was never dropped, or was so brought since it was last dropped. It is shown in an
   earlier one exactly if it was dropped, and brought since only in earlier ones.
   */
  lemma DecisionsStick(before: seq<Event>, s: System, decision: Event, es: seq<Event>, t: System)
    requires CleanRun(START, before, s) && decision.DecisionReply? && CleanRun(Step(s, decision), es, t)
    ensures Run(Step(s, decision), es, t)
    ensures
      var id, v := decision.signal.id, decision.signal.version;
      AtLeast(t.q.signals, id, v) <==>
      NeverDropped(Step(s, decision), es, t, id) || BroughtSince(Step(s, decision), es, t, id, v)
    ensures
      var id, v := decision.signal.id, decision.signal.version;
      Listed(t.q.signals, id) && Version(t.q.signals, id) < v <==>
      && !NeverDropped(Step(s, decision), es, t, id)
      && BroughtSince(Step(s, decision), es, t, id, 0) && !BroughtSince(Step(s, decision), es, t, id, v)
  {
    var id, v, decided := decision.signal.id, decision.signal.version, Step(s, decision);
    IdsStayDistinct(START, before, s);
    SavedStep(s, decision);
    RunDecides(decided, es, t, id, v);
    RunDecides(decided, es, t, id, 0);
  }

  // ---------------------------------------------------------------------------------------
  // Reachable runs in which the conditions fail
  // ---------------------------------------------------------------------------------------

  const OBSERVED := Signal("x", 1, NeedsDecision, "", [])
  const WATCHED := Signal("x", 2, Watching, "", [])
  const FIRST_PAGE := ListPage([OBSERVED], Some("next"), Some(1))
  const NO_WATCHED := ListPage([], None, Some(0))
  const LATE_PAGE := ListPage([OBSERVED], None, Some(1))

  const RETRY := Group(NeedsDecision, 1, 0)
  const MORE := More(NeedsDecision, 1, 0, "next")
  const RETRY_WATCHING := Group(Watching, 1, 0)

  const LATE_RETRY := GroupReply(RETRY_WATCHING, Some(NO_WATCHED))
  const LATE_MORE := MoreReply(MORE, Some(LATE_PAGE))

  lemma {:induction false} RunAppended(s: System, es: seq<Event>, t: System, e: Event)
    requires Run(s, es, t) && Enabled(t, e)
    ensures Run(s, es + [e], Step(t, e))
    decreases |es|
  {
    if es == [] {
      assert ([] + [e])[1..] == [];
    } else {
      assert (es + [e])[1..] == es[1..] + [e];
      RunAppended(Step(s, es[0]), es[1..], t, e);
    }
  }

  /** Only "x" is listed, as `signal`, and nothing else is known of it. */
  ghost predicate Shows(s: System, signals: seq<Scenario>) {
    && s.q.signals == signals && s.q.details == map[] && s.q.responsibilities == map[] && !s.q.legacyActive
    && PageOf(s.q.pages, NeedsDecision).generation == 1 && PageOf(s.q.pages, NeedsDecision).identity == 0
  }

  lemma ObservedListed(q: Queue, page: ListPage)
    requires q.signals == [] && q.details == map[] && q.responsibilities == map[] && page.items == [OBSERVED]
    ensures UpsertSignals(q, page.items).signals == [ToScenario(OBSERVED, None, None)]
  {
    assert Scenarios([OBSERVED], map[], map[]) == [ToScenario(OBSERVED, None, None)];
    assert UpsertAll([], [ToScenario(OBSERVED, None, None)]) == [ToScenario(OBSERVED, None, None)];
  }

  /** "x" is still to be decided. */
  lemma Observed() returns (es: seq<Event>, s: System)
    ensures Run(START, es, s) && Shows(s, [ToScenario(OBSERVED, None, None)])
    ensures PageOf(s.q.pages, NeedsDecision) == Page(Some("next"), false, 1, 0)
        && PageOf(s.q.pages, Watching) == EMPTY_PAGE
  {
    var s1 := Step(START, StartRetry(NeedsDecision));
    assert RETRY in s1.waiting;
    s := Step(s1, GroupReply(RETRY, Some(FIRST_PAGE)));
    assert Kept([], NeedsDecision, [OBSERVED]) == [];
    ObservedListed(s1.q, FIRST_PAGE);
    es := [StartRetry(NeedsDecision)];
    assert Run(s1, [], s1);
    assert Run(START, es, s1);
    RunAppended(START, es, s1, GroupReply(RETRY, Some(FIRST_PAGE)));
    es := es + [GroupReply(RETRY, Some(FIRST_PAGE))];
  }

  /** A further page of its group and the group it will move to are both asked for. */
  lemma Asked() returns (es: seq<Event>, s: System)
    ensures Run(START, es, s) && Shows(s, [ToScenario(OBSERVED, None, None)])
    ensures MORE in s.waiting && RETRY_WATCHING in s.waiting && PageOf(s.q.pages, Watching).generation == 1
  {
    var before, s2 := Observed();
    var s3 := Step(s2, StartMore(NeedsDecision));
    assert MORE in s3.waiting;
    s := Step(s3, StartRetry(Watching));
    RunAppended(START, before, s2, StartMore(NeedsDecision));
    RunAppended(START, before + [StartMore(NeedsDecision)], s3, StartRetry(Watching));
    es := before + [StartMore(NeedsDecision)] + [StartRetry(Watching)];
  }

  lemma Decided() returns (es: seq<Event>, s: System)
    ensures Run(START, es, s) && Shows(s, [ToScenario(WATCHED, None, None)])
    ensures MORE in s.waiting && RETRY_WATCHING in s.waiting && PageOf(s.q.pages, Watching).generation == 1
  {
    var before, asked := Asked();
    s := Step(asked, DecisionReply(WATCHED, false));
    RunAppended(START, before, asked, DecisionReply(WATCHED, false));
    es := before + [DecisionReply(WATCHED, false)];
    assert s.q.signals == Replace(asked.q.signals, ToScenario(WATCHED, None, None)) ==
        [ToScenario(WATCHED, None, None)];
  }

  lemma LateRetryDrops(s: System)
    requires Shows(s, [ToScenario(WATCHED, None, None)]) && MORE in s.waiting && RETRY_WATCHING in s.waiting
    requires PageOf(s.q.pages, Watching).generation == 1
    ensures Shows(Step(s, LATE_RETRY), []) && MORE in Step(s, LATE_RETRY).waiting
  {
    assert Kept(s.q.signals, Watching, []) == [];
  }

  lemma LateMoreLists(s: System)
    requires Shows(s, []) && MORE in s.waiting
    ensures Shows(Step(s, LATE_MORE), [ToScenario(OBSERVED, None, None)])
  {
    ObservedListed(s.q, LATE_PAGE);
  }

  /**
   A decision does not outdate the pages in flight. A late retry drops the decided signal, and a
   late further page then lists it again in the version before the decision.
   */
  lemma OlderVersionReturns() returns (es: seq<Event>, decided: System)
    ensures Run(START, es, decided) && Find(decided.q.signals, "x") == Some(ToScenario(WATCHED, None, None))
    ensures Enabled(decided, LATE_RETRY) && Enabled(Step(decided, LATE_RETRY), LATE_MORE)
    ensures Find(Step(Step(decided, LATE_RETRY), LATE_MORE).q.signals, "x") == Some(ToScenario(OBSERVED, None, None))
  {
    es, decided := Decided();
    LateRetryDrops(decided);
    LateMoreLists(Step(decided, LATE_RETRY));
  }

  /** A signal that is listed while its registration waits is then listed twice. */
  lemma RegistrationRepeatsAnId() returns (es: seq<Event>, s: System)
    ensures Run(START, es, s) && !DistinctIds(s.q.signals)
  {
    var before, observed := Observed();
    s := Step(observed, RegisterReply(OBSERVED));
    RunAppended(START, before, observed, RegisterReply(OBSERVED));
    es := before + [RegisterReply(OBSERVED)];
    RegisterStep(observed, OBSERVED);
  }
}
