/** Any run of the store's operations without a reset. */
module DemoOperationRuns {
  import opened Wrappers
  import opened Numerals
  import opened DemoOperationEffects
  import opened DemoOperations

  datatype Event =
    | Claim(taskId: string, clock: Clock)
    | Acknowledge(taskId: string, inputId: string, clock: Clock)
    | Verify(taskId: string, evidenceId: string, value: Option<string>, clock: Clock)
    | Start(taskId: string, actionCode: string, existing: Option<string>, clock: Clock)
    | Receive(taskId: string, clock: Clock)
    | Accept(taskId: string, intent: Intent, clock: Clock)
    | CommitResult(taskId: string, actionCode: string, clock: Clock)
    | CommitReport(taskId: string, detail: string, clock: Clock)
    | Retryable(taskId: string)

  function Step(s: State, e: Event): State {
    match e
    case Claim(taskId, clock) => ClaimTask(s, taskId, clock)
    case Acknowledge(taskId, inputId, clock) => AcknowledgeInput(s, taskId, inputId, clock)
    case Verify(taskId, evidenceId, value, clock) => VerifyEvidence(s, taskId, evidenceId, value, clock)
    case Start(taskId, actionCode, existing, clock) => StartOperation(s, taskId, actionCode, existing, clock)
    case Receive(taskId, clock) => MarkReceived(s, taskId, clock)
    case Accept(taskId, intent, clock) => MarkAccepted(s, taskId, intent, clock)
    case CommitResult(taskId, actionCode, clock) => CommitTaskResult(s, taskId, actionCode, clock).0
    case CommitReport(taskId, detail, clock) => CommitException(s, taskId, detail, clock)
    case Retryable(taskId) => MarkRetryable(s, taskId)
  }

  function Run(s: State, es: seq<Event>): State
    decreases |es|
  {
    if es == [] then s else Run(Step(s, es[0]), es[1..])
  }

  // ---------------------------------------------------------------------------------------
  // Containers
  // ---------------------------------------------------------------------------------------

  /** Nothing but the displayed task and submission state may have changed. */
  predicate AtRest(c: Container, d: Container) {
    d == c.(taskStatus := d.taskStatus, syncStatus := d.syncStatus)
  }

  /** One event was put on the container: status along its rule, one entry, its node done and the current one. */
  predicate Advanced(c: Container, d: Container) {
    && d.id == c.id
    && |d.timeline| == |c.timeline| + 1 && d.timeline[..|c.timeline|] == c.timeline
    && var entry := d.timeline[|c.timeline|];
    && var rule := RuleFor(entry.eventCode);
    && rule.Some? && c.status == rule.value.from && d.status == rule.value.to && d.changedAt == entry.actual
    && |d.rail| == |c.rail| && forall k | 0 <= k < |d.rail| ::
         NodeAfter(c.rail[k], d.rail[k], rule.value.nodeKey, rule.value.nextNodeKey, entry)
  }

  ghost predicate AllAtRest(cs: seq<Container>, ds: seq<Container>) {
    |ds| == |cs| && forall i | 0 <= i < |cs| :: AtRest(cs[i], ds[i])
  }

  ghost predicate EachAtMostOnce(cs: seq<Container>, ds: seq<Container>) {
    |ds| == |cs| && forall i | 0 <= i < |cs| :: AtRest(cs[i], ds[i]) || Advanced(cs[i], ds[i])
  }

  lemma ShowsAtRest(cs: seq<Container>, t: Task, stage: Stage)
    ensures AllAtRest(cs, ShowTask(cs, t)) && AllAtRest(cs, ShowStage(cs, t, stage))
  {
  }

  lemma BothShownAtRest(cs: seq<Container>, t: Task, stage: Stage)
    ensures AllAtRest(cs, ShowTask(ShowStage(cs, t, stage), t)) && AllAtRest(cs, ShowStage(ShowTask(cs, t), t, stage))
  {
    ShowsAtRest(cs, t, stage);
    ShowsAtRest(ShowStage(cs, t, stage), t, stage);
    ShowsAtRest(ShowTask(cs, t), t, stage);
  }

  lemma EventAdvances(cs: seq<Container>, t: Task, eventCode: string, ref: string, clock: Clock)
    requires ApplyEvent(cs, t, eventCode, ref, clock).Some?
    ensures EachAtMostOnce(cs, ApplyEvent(cs, t, eventCode, ref, clock).value)
  {
  }

  lemma ImmediateAtRest(s: State, i: nat, t: Task, a: string, p: string, payload: Option<string>, clock: Clock)
    requires i < |s.tasks|
    ensures AllAtRest(s.containers, CommitImmediate(s, i, t, a, p, payload, clock).containers)
    ensures AllAtRest(s.containers, RejectImmediate(s, i, t, a, p, clock).containers)
  {
    BothShownAtRest(s.containers, t, Committed);
    ShowsAtRest(s.containers, t, Rejected);
  }

  /** The decision an immediate operation takes. */
  function DecisionOf(t: Task, e: Event): Decision {
    match e
    case Claim(_, _) => Claiming(t)
    case Acknowledge(_, inputId, _) => Acknowledging(t, inputId)
    case Verify(_, evidenceId, value, _) => Verifying(t, evidenceId, value)
    case _ => Nothing
  }

  predicate Immediate(e: Event) {
    e.Claim? || e.Acknowledge? || e.Verify?
  }

  lemma StepIsDecided(s: State, e: Event)
    requires Immediate(e)
    ensures var i := TaskAt(s.tasks, e.taskId);
      Step(s, e) == if i == |s.tasks| then s else Decided(s, i, DecisionOf(s.tasks[i], e), e.clock)
  {
  }

  lemma ImmediateStepAtRest(s: State, e: Event)
    requires Immediate(e)
    ensures AllAtRest(s.containers, Step(s, e).containers)
  {
    StepIsDecided(s, e);
    var i := TaskAt(s.tasks, e.taskId);
    if i < |s.tasks| {
      match DecisionOf(s.tasks[i], e)
      case Commit(t, a, p, payload) => ImmediateAtRest(s, i, t, a, p, payload, e.clock);
      case Reject(t, a, p) => ImmediateAtRest(s, i, t, a, p, None, e.clock);
      case Nothing =>
    }
  }

  lemma StageStepAtRest(s: State, e: Event)
    requires e.Start? || e.Receive? || e.Retryable?
    ensures AllAtRest(s.containers, Step(s, e).containers)
  {
    var i := TaskAt(s.tasks, e.taskId);
    if i < |s.tasks| {
      ShowsAtRest(s.containers, s.tasks[i], Sending);
      ShowsAtRest(s.containers, s.tasks[i], Received);
      if e.taskId in s.submissions {
        ShowsAtRest(s.containers, s.tasks[i], s.submissions[e.taskId].stage);
      }
    }
  }

  lemma AcceptStepAtRest(s: State, e: Event)
    requires e.Accept?
    ensures AllAtRest(s.containers, Step(s, e).containers)
  {
    var i := TaskAt(s.tasks, e.taskId);
    if i < |s.tasks| {
      ShowsAtRest(s.containers, s.tasks[i], Accepted);
      BothShownAtRest(s.containers, s.tasks[i].(status := Reported), Accepted);
    }
  }

  lemma ReportStepAtRest(s: State, e: Event)
    requires e.CommitReport?
    ensures AllAtRest(s.containers, Step(s, e).containers)
  {
    var i := TaskAt(s.tasks, e.taskId);
    if i < |s.tasks| {
      ShowsAtRest(s.containers, s.tasks[i], Committed);
      BothShownAtRest(s.containers, s.tasks[i].(status := Blocked), Committed);
    }
  }

  lemma AtRestAfter(cs: seq<Container>, ds: seq<Container>, es: seq<Container>)
    requires EachAtMostOnce(cs, ds) && AllAtRest(ds, es)
    ensures EachAtMostOnce(cs, es)
  {
  }

  lemma ConcludedAtRest(s: State, i: nat, sub: Submission, a: string, ref: string, clock: Clock)
    requires i < |s.tasks|
    ensures AllAtRest(s.containers, AcceptResult(s, i, sub, a, ref, clock).containers)
    ensures AllAtRest(s.containers, RejectResult(s, i, sub).containers)
  {
    BothShownAtRest(s.containers, s.tasks[i].(status := InProgress), Rejected);
    var status := if s.tasks[i].waitsForOthers then WaitingExternal else Completed;
    BothShownAtRest(s.containers, s.tasks[i].(status := status), Committed);
  }

  lemma ResultAdvances(cs: seq<Container>, t: Task, ref: string, clock: Clock)
    requires WithResult(cs, t, ref, clock).Some?
    ensures EachAtMostOnce(cs, WithResult(cs, t, ref, clock).value)
  {
    if Advance(t).Some? {
      EventAdvances(cs, t, Advance(t).value, ref, clock);
    }
  }

  lemma CommitStepAdvances(s: State, e: Event)
    requires e.CommitResult?
    ensures EachAtMostOnce(s.containers, Step(s, e).containers)
    ensures !CommitTaskResult(s, e.taskId, e.actionCode, e.clock).1 ==> AllAtRest(s.containers, Step(s, e).containers)
  {
    var i := TaskAt(s.tasks, e.taskId);
    if i < |s.tasks| && e.taskId in s.submissions {
      var sub, drawn := s.submissions[e.taskId], s.(sequence := s.sequence + 1);
      var ref := NextId("result", e.clock, drawn.sequence);
      match WithResult(s.containers, s.tasks[i], ref, e.clock)
      case None => ConcludedAtRest(drawn, i, sub, e.actionCode, ref, e.clock);
      case Some(cs) =>
        ResultAdvances(s.containers, s.tasks[i], ref, e.clock);
        ConcludedAtRest(drawn.(containers := cs), i, sub, e.actionCode, ref, e.clock);
        AtRestAfter(s.containers, cs, Step(s, e).containers);
    }
  }

  lemma StepAdvances(s: State, e: Event)
    ensures EachAtMostOnce(s.containers, Step(s, e).containers)
  {
    if Immediate(e) {
      ImmediateStepAtRest(s, e);
    } else if e.CommitResult? {
      CommitStepAdvances(s, e);
    } else if e.Accept? {
      AcceptStepAtRest(s, e);
    } else if e.CommitReport? {
      ReportStepAtRest(s, e);
    } else {
      StageStepAtRest(s, e);
    }
  }

  /** No rule leads on from where a rule has led. */
  lemma NeverTwice(c: Container, d: Container, e: Container)
    requires Advanced(c, d) && (AtRest(d, e) || Advanced(d, e))
    ensures Advanced(c, e)
  {
  }

  lemma OnceThenOnce(cs: seq<Container>, ds: seq<Container>, fs: seq<Container>)
    requires EachAtMostOnce(cs, ds) && EachAtMostOnce(ds, fs)
    ensures EachAtMostOnce(cs, fs)
  {
    forall i | 0 <= i < |cs|
      ensures AtRest(cs[i], fs[i]) || Advanced(cs[i], fs[i])
    {
      if Advanced(cs[i], ds[i]) {
        NeverTwice(cs[i], ds[i], fs[i]);
      }
    }
  }

  /**
   In any run each container's status changes at most once, along the rule of one event, and its
   timeline grows by that one entry exactly if it did.
   */
  lemma {:induction false} ContainersAdvanceAtMostOnce(s: State, es: seq<Event>)
    ensures EachAtMostOnce(s.containers, Run(s, es).containers)
    ensures forall i | 0 <= i < |s.containers| ::
      var c, d := s.containers[i], Run(s, es).containers[i];
      (d.status != c.status <==> |d.timeline| == |c.timeline| + 1)
          && (d.status == c.status <==> d.timeline == c.timeline)
    decreases |es|
  {
    if es != [] {
      var cs, ds, fs := s.containers, Step(s, es[0]).containers, Run(s, es).containers;
      StepAdvances(s, es[0]);
      ContainersAdvanceAtMostOnce(Step(s, es[0]), es[1..]);
      OnceThenOnce(cs, ds, fs);
    }
  }

  lemma SameIdsSamePlace(cs: seq<Container>, ds: seq<Container>, id: string)
    requires |cs| == |ds| && forall i | 0 <= i < |cs| :: cs[i].id == ds[i].id
    ensures ContainerAt(cs, id) == ContainerAt(ds, id)
  {
  }

  /** `e` commits the result of `t`, which puts `eventCode` on its container. */
  ghost predicate Puts(s: State, e: Event, t: Task, eventCode: string) {
    && e.CommitResult? && e.taskId in s.submissions
    && TaskAt(s.tasks, e.taskId) < |s.tasks| && s.tasks[TaskAt(s.tasks, e.taskId)] == t && Advance(t) == Some(eventCode)
  }

  ghost predicate Succeeds(s: State, e: Event)
    requires e.CommitResult?
  {
    CommitTaskResult(s, e.taskId, e.actionCode, e.clock).1
  }

  /** The container of `id` is where the event leads. */
  ghost predicate Reached(cs: seq<Container>, id: string, eventCode: string) {
    && RuleFor(eventCode).Some? && ContainerAt(cs, id) < |cs|
          && cs[ContainerAt(cs, id)].status == RuleFor(eventCode).value.to
  }

  lemma EventReaches(cs: seq<Container>, t: Task, eventCode: string, ref: string, clock: Clock)
    requires ApplyEvent(cs, t, eventCode, ref, clock).Some?
    ensures Reached(ApplyEvent(cs, t, eventCode, ref, clock).value, t.containerId, eventCode)
  {
    SameIdsSamePlace(cs, ApplyEvent(cs, t, eventCode, ref, clock).value, t.containerId);
  }

  /** Nothing leads away from there. */
  lemma StaysReached(cs: seq<Container>, ds: seq<Container>, id: string, eventCode: string)
    requires Reached(cs, id, eventCode) && EachAtMostOnce(cs, ds)
    ensures Reached(ds, id, eventCode)
  {
    SameIdsSamePlace(cs, ds, id);
  }

  lemma SuccessShown(s: State, e: Event, i: nat) returns (ref: string, cs: seq<Container>)
    requires e.CommitResult? && Succeeds(s, e) && i == TaskAt(s.tasks, e.taskId)
    ensures i < |s.tasks| && WithResult(s.containers, s.tasks[i], ref, e.clock) == Some(cs)
        && AllAtRest(cs, Step(s, e).containers)
  {
    var drawn := s.(sequence := s.sequence + 1);
    ref := NextId("result", e.clock, drawn.sequence);
    cs := WithResult(s.containers, s.tasks[i], ref, e.clock).value;
    var sub := s.submissions[e.taskId];
    assert Step(s, e) == AcceptResult(drawn.(containers := cs), i, sub, e.actionCode, ref, e.clock);
    ConcludedAtRest(drawn.(containers := cs), i, sub, e.actionCode, ref, e.clock);
  }

  lemma AcceptedReaches(s: State, e: Event, t: Task, eventCode: string)
    requires Puts(s, e, t, eventCode) && Succeeds(s, e)
    ensures Reached(Step(s, e).containers, t.containerId, eventCode)
  {
    var ref, cs := SuccessShown(s, e, TaskAt(s.tasks, e.taskId));
    EventReaches(s.containers, t, eventCode, ref, e.clock);
    StaysReached(cs, Step(s, e).containers, t.containerId, eventCode);
  }

  lemma ReachedIsRefused(s: State, e: Event, t: Task, eventCode: string)
    requires Puts(s, e, t, eventCode) && Reached(s.containers, t.containerId, eventCode)
    ensures !Succeeds(s, e)
    ensures e.taskId in Step(s, e).submissions
    ensures var sub := Step(s, e).submissions[e.taskId];
            sub.stage == Rejected && sub.errorCode == Some("CONTAINER_VERSION_CONFLICT")
  {
    assert ApplyEvent(s.containers, t, eventCode, NextId("result", e.clock, s.sequence + 1), e.clock) == None;
  }

  /**
   Once an event was put on a container, no later commit of the same event, by any task, is
   accepted for it: the submission is rejected and no status, rail or timeline changes.
   */
  lemma SecondCommitRejected(s: State, first: Event, t: Task, es: seq<Event>, second: Event, u: Task, eventCode: string)
    requires Puts(s, first, t, eventCode) && Succeeds(s, first)
    requires Puts(Run(Step(s, first), es), second, u, eventCode) && u.containerId == t.containerId
    ensures var after := Run(Step(s, first), es);
      && !Succeeds(after, second) && AllAtRest(after.containers, Step(after, second).containers)
      && second.taskId in Step(after, second).submissions
      && var sub := Step(after, second).submissions[second.taskId];
         sub.stage == Rejected && sub.errorCode == Some("CONTAINER_VERSION_CONFLICT")
  {
    var after := Run(Step(s, first), es);
    AcceptedReaches(s, first, t, eventCode);
    ContainersAdvanceAtMostOnce(Step(s, first), es);
    StaysReached(Step(s, first).containers, after.containers, t.containerId, eventCode);
    ReachedIsRefused(after, second, u, eventCode);
    CommitStepAdvances(after, second);
  }

  // ---------------------------------------------------------------------------------------
  // The log
  // ---------------------------------------------------------------------------------------

  /** The number `nextId` put at the end of an id, 0 if there is none. */
  function NumberIn(id: string): nat {
    if Digits(AfterLast('_', id)) then DecimalValue(AfterLast('_', id)) else 0
  }

  lemma NumberOfNextId(prefix: string, clock: Clock, n: nat)
    ensures NumberIn(NextId(prefix, clock, n)) == n
  {
    assert '_' !in Decimal(n);
    AfterLastOf('_', prefix + "_" + clock.stamp, Decimal(n));
  }

  /** A record of something that happened: committed with its result, or rejected with its error. */
  predicate Concluding(r: Record) {
    || (r.submission.stage.Committed? && r.submission.resultRef.Some?)
    || (r.submission.stage.Rejected? && r.submission.errorCode.Some?)
  }

  predicate NumberedWithin(r: Record, low: nat, high: nat) {
    r.submission.stage.Committed? && r.submission.resultRef.Some? ==>
      low < NumberIn(r.submission.resultRef.value) <= high
  }

  /** A step leaves the log as it is, or appends one record whose result was numbered by this step. */
  ghost predicate LogStep(s: State, t: State) {
    && s.sequence <= t.sequence
    && (t.operations == s.operations
        || (|t.operations| == |s.operations| + 1 && t.operations[..|s.operations|] == s.operations
            && Concluding(t.operations[|s.operations|])
                  && NumberedWithin(t.operations[|s.operations|], s.sequence, t.sequence)))
  }

  lemma DecidedLogs(s: State, i: nat, d: Decision, clock: Clock)
    requires i < |s.tasks|
    ensures LogStep(s, Decided(s, i, d, clock))
  {
    if d.Commit? {
      NumberOfNextId(d.prefix, clock, s.sequence + 1);
    }
  }

  lemma ImmediateLogs(s: State, e: Event)
    requires Immediate(e)
    ensures LogStep(s, Step(s, e))
  {
    StepIsDecided(s, e);
    var i := TaskAt(s.tasks, e.taskId);
    if i < |s.tasks| {
      DecidedLogs(s, i, DecisionOf(s.tasks[i], e), e.clock);
    }
  }

  lemma CommitLogs(s: State, e: Event)
    requires e.CommitResult?
    ensures LogStep(s, Step(s, e))
  {
    NumberOfNextId("result", e.clock, s.sequence + 1);
  }

  lemma ReportLogs(s: State, e: Event)
    requires e.CommitReport?
    ensures LogStep(s, Step(s, e))
  {
    NumberOfNextId("exception", e.clock, s.sequence + 1);
  }

  lemma StepLogs(s: State, e: Event)
    ensures LogStep(s, Step(s, e))
  {
    if Immediate(e) {
      ImmediateLogs(s, e);
    } else if e.CommitResult? {
      CommitLogs(s, e);
    } else if e.CommitReport? {
      ReportLogs(s, e);
    }
  }

  predicate SameResult(q: Record, r: Record) {
    q.submission.stage.Committed? && r.submission.stage.Committed? && q.submission.resultRef == r.submission.resultRef
  }

  /** What was logged since the log had `n` records. */
  ghost predicate SoundSince(s: State, n: nat, low: nat) {
    && n <= |s.operations|
    && (forall k | n <= k < |s.operations| ::
          Concluding(s.operations[k]) && NumberedWithin(s.operations[k], low, s.sequence))
    && (forall j, k | n <= j < k < |s.operations| :: !SameResult(s.operations[j], s.operations[k]))
  }

  lemma LogGrowsSoundly(s: State, t: State, n: nat, low: nat)
    requires SoundSince(s, n, low) && LogStep(s, t) && low <= s.sequence
    ensures SoundSince(t, n, low)
  {
  }

  /**
   The log only grows, by committed records with a result and rejected ones with an error, and no
   two committed records share their result.
   */
  lemma {:induction false} LogIsSound(s: State, es: seq<Event>, n: nat, low: nat)
    requires SoundSince(s, n, low) && low <= s.sequence
    ensures s.operations <= Run(s, es).operations && SoundSince(Run(s, es), n, low)
    decreases |es|
  {
    if es != [] {
      StepLogs(s, es[0]);
      LogGrowsSoundly(s, Step(s, es[0]), n, low);
      LogIsSound(Step(s, es[0]), es[1..], n, low);
    }
  }

  // ---------------------------------------------------------------------------------------
  // Exceptions
  // ---------------------------------------------------------------------------------------

  /** The number in an exception id, None for ids of another form, as the initial ones have. */
  function ExceptionNumber(id: string): Option<nat> {
    if |id| > 3 && id[..3] == "EX-" && Digits(id[3..]) then Some(DecimalValue(id[3..])) else None
  }

  lemma {:induction false} LeadingZero(k: string)
    requires Digits(k)
    ensures Digits("0" + k) && DecimalValue("0" + k) == DecimalValue(k)
  {
    var z := "0" + k;
    if k == "" {
      assert z[..0] == "";
    } else {
      assert z[..|z| - 1] == "0" + k[..|k| - 1];
      LeadingZero(k[..|k| - 1]);
    }
  }

  lemma {:induction false} PaddedValue(k: string)
    requires Digits(k) && k != ""
    ensures Digits(Padded(k)) && Padded(k) != "" && DecimalValue(Padded(k)) == DecimalValue(k)
    decreases 6 - |k|
  {
    if |k| < 6 {
      LeadingZero(k);
      PaddedValue("0" + k);
    }
  }

  lemma NumberOfException(n: nat)
    ensures ExceptionNumber(ExceptionId(n)) == Some(n)
  {
    PaddedValue(Decimal(n));
    assert ExceptionId(n)[3..] == Padded(Decimal(n));
  }

  ghost predicate ExceptionStep(s: State, t: State) {
    && s.sequence <= t.sequence
    && (t.exceptions == s.exceptions
        || (|t.exceptions| == |s.exceptions| + 1 && t.exceptions[..|s.exceptions|] == s.exceptions
            && t.exceptions[|s.exceptions|].id == ExceptionId(t.sequence) && s.sequence < t.sequence))
  }

  lemma StepReports(s: State, e: Event)
    ensures ExceptionStep(s, Step(s, e))
  {
    StepLogs(s, e);
  }

  ghost predicate ExceptionsDistinct(s: State) {
    && (forall j, k | 0 <= j < k < |s.exceptions| :: s.exceptions[j].id != s.exceptions[k].id)
    && (forall k | 0 <= k < |s.exceptions| :: ExceptionNumber(s.exceptions[k].id).GetOr(0) <= s.sequence)
  }

  lemma ExceptionsGrowDistinct(s: State, t: State)
    requires ExceptionsDistinct(s) && ExceptionStep(s, t)
    ensures ExceptionsDistinct(t)
  {
    NumberOfException(t.sequence);
  }

  /** Exception ids stay pairwise distinct, also beyond the six digits they are padded to. */
  lemma {:induction false} ExceptionsStayDistinct(s: State, es: seq<Event>)
    requires ExceptionsDistinct(s)
    ensures ExceptionsDistinct(Run(s, es))
    decreases |es|
  {
    if es != [] {
      StepReports(s, es[0]);
      ExceptionsGrowDistinct(s, Step(s, es[0]));
      ExceptionsStayDistinct(Step(s, es[0]), es[1..]);
    }
  }

  /** The store starts with an empty log, sequence 0 and two exceptions, and is sound from there. */
  lemma StartIsSound(s: State)
    requires s.operations == [] && s.sequence == 0
    requires |s.exceptions| == 2 && s.exceptions[0].id == "EX-240910-03" && s.exceptions[1].id == "EX-240909-07"
    ensures SoundSince(s, 0, 0) && ExceptionsDistinct(s)
  {
    assert s.exceptions[0].id[3..][6] == '-' && s.exceptions[1].id[3..][6] == '-';
    assert s.exceptions[0].id[5] != s.exceptions[1].id[5] || s.exceptions[0].id[7] != s.exceptions[1].id[7];
  }

  // ---------------------------------------------------------------------------------------
  // Scanned evidence
  // ---------------------------------------------------------------------------------------

  predicate Matches(e: Evidence) {
    && e.expectedValue.GetOr("") != "" && e.capturedValue.Some?
    && Normalized(e.capturedValue.value) == e.expectedValue.value
  }

  /** A scan is verified in `f` only if it was so in `e`, or what was captured is what was expected. */
  predicate VerifiedRightly(e: Evidence, f: Evidence) {
    && f.kind == e.kind && f.expectedValue == e.expectedValue
    && (f.kind.Scan? && f.state.Verified? ==> f == e || Matches(f))
  }

  ghost predicate TaskVerifiedRightly(t: Task, u: Task) {
    |u.evidence| == |t.evidence| && forall k | 0 <= k < |t.evidence| :: VerifiedRightly(t.evidence[k], u.evidence[k])
  }

  ghost predicate AllVerifiedRightly(ts: seq<Task>, us: seq<Task>) {
    |us| == |ts| && forall i | 0 <= i < |ts| :: TaskVerifiedRightly(ts[i], us[i])
  }

  lemma CapturedIsRight(e: Evidence, value: Option<string>)
    requires !ScanFails(e, value)
    ensures VerifiedRightly(e, Captured(e, value))
  {
  }

  lemma OneChanged(t: Task, k: nat, e: Evidence)
    requires k < |t.evidence| && VerifiedRightly(t.evidence[k], e)
    ensures TaskVerifiedRightly(t, WithEvidence(t, k, e))
  {
  }

  lemma VerifyingIsRight(t: Task, evidenceId: string, value: Option<string>)
    requires !Verifying(t, evidenceId, value).Nothing?
    ensures TaskVerifiedRightly(t, Verifying(t, evidenceId, value).t)
  {
    var k := EvidenceAt(t.evidence, evidenceId);
    var e := t.evidence[k];
    OneChanged(t, k, e.(state := EvidencePending));
    if !ScanFails(e, value) {
      CapturedIsRight(e, value);
      OneChanged(t, k, Captured(e, value));
    }
  }

  lemma DecisionVerifiesRightly(t: Task, e: Event)
    requires Immediate(e) && !DecisionOf(t, e).Nothing?
    ensures TaskVerifiedRightly(t, DecisionOf(t, e).t)
  {
    match e
    case Verify(_, evidenceId, value, _) => VerifyingIsRight(t, evidenceId, value);
    case Claim(_, _) =>
    case Acknowledge(_, _, _) =>
  }

  lemma ImmediateVerifiesRightly(s: State, e: Event)
    requires Immediate(e)
    ensures AllVerifiedRightly(s.tasks, Step(s, e).tasks)
  {
    StepIsDecided(s, e);
    var i := TaskAt(s.tasks, e.taskId);
    if i < |s.tasks| && !DecisionOf(s.tasks[i], e).Nothing? {
      DecisionVerifiesRightly(s.tasks[i], e);
      assert Step(s, e).tasks == s.tasks[i := DecisionOf(s.tasks[i], e).t];
    }
  }

  lemma ResultLeavesEvidence(s: State, e: Event)
    requires e.CommitResult?
    ensures |Step(s, e).tasks| == |s.tasks| && forall i | 0 <= i < |s.tasks| ::
        Step(s, e).tasks[i].evidence == s.tasks[i].evidence
  {
  }

  lemma EvidenceUntouched(s: State, e: Event)
    requires !Immediate(e) && !e.CommitResult?
    ensures |Step(s, e).tasks| == |s.tasks| && forall i | 0 <= i < |s.tasks| ::
        Step(s, e).tasks[i].evidence == s.tasks[i].evidence
  {
  }

  lemma StepVerifiesRightly(s: State, e: Event)
    ensures AllVerifiedRightly(s.tasks, Step(s, e).tasks)
  {
    if Immediate(e) {
      ImmediateVerifiesRightly(s, e);
    } else if e.CommitResult? {
      ResultLeavesEvidence(s, e);
    } else {
      EvidenceUntouched(s, e);
    }
  }

  /** Every scan that was verified along a run had captured exactly its expected value. */
  lemma {:induction false} ScansAreVerifiedRightly(s: State, es: seq<Event>)
    ensures AllVerifiedRightly(s.tasks, Run(s, es).tasks)
    decreases |es|
  {
    if es != [] {
      StepVerifiesRightly(s, es[0]);
      ScansAreVerifiedRightly(Step(s, es[0]), es[1..]);
    }
  }
}
