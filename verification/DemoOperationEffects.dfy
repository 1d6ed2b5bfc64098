/**
 What each operation of the store leaves behind, field by field: the task, its submission, the log, the
 reports and what the container shows.
 */
module DemoOperationEffects {
  import opened Wrappers
  import opened Text
  import opened DemoOperations

  // ---------------------------------------------------------------------------------------
  // What containers show
  // ---------------------------------------------------------------------------------------

  /** The first container with the id, the one a search finds. */
  predicate IsFirst(cs: seq<Container>, k: nat, id: string) {
    k < |cs| && cs[k].id == id && forall j | 0 <= j < k :: cs[j].id != id
  }

  /** The first container of the id shows the status and stage that are given; nothing else has changed. */
  ghost predicate Displays(cs: seq<Container>, ds: seq<Container>, id: string, status: Option<TaskStatus>,
          stage: Option<Stage>)
  {
    |ds| == |cs| && forall k | 0 <= k < |cs| ::
      ds[k] == if IsFirst(cs, k, id) then Displaying(cs[k], status, stage) else cs[k]
  }

  function Displaying(c: Container, status: Option<TaskStatus>, stage: Option<Stage>): Container {
    c.(taskStatus := status.GetOr(c.taskStatus), syncStatus := stage.GetOr(c.syncStatus))
  }

  lemma TaskShown(cs: seq<Container>, t: Task)
    ensures Displays(cs, ShowTask(cs, t), t.containerId, Some(t.status), None)
  {
  }

  lemma StageShown(cs: seq<Container>, t: Task, stage: Stage)
    ensures Displays(cs, ShowStage(cs, t, stage), t.containerId, None, Some(stage))
  {
  }

  lemma BothShown(cs: seq<Container>, t: Task, stage: Stage)
    ensures Displays(cs, ShowStage(ShowTask(cs, t), t, stage), t.containerId, Some(t.status), Some(stage))
    ensures Displays(cs, ShowTask(ShowStage(cs, t, stage), t), t.containerId, Some(t.status), Some(stage))
  {
    TaskShown(cs, t);
    StageShown(cs, t, stage);
    TaskShown(ShowStage(cs, t, stage), t);
    StageShown(ShowTask(cs, t), t, stage);
    DisplayedTwice(cs, ShowTask(cs, t), ShowStage(ShowTask(cs, t), t, stage), t.containerId, Some(t.status), None,
                   None, Some(stage));
    DisplayedTwice(cs, ShowStage(cs, t, stage), ShowTask(ShowStage(cs, t, stage), t), t.containerId, None, Some(stage),
                   Some(t.status), None);
  }

  lemma DisplayedTwice(cs: seq<Container>, ds: seq<Container>, es: seq<Container>, id: string,
          a: Option<TaskStatus>, x: Option<Stage>, b: Option<TaskStatus>, y: Option<Stage>)
    requires Displays(cs, ds, id, a, x) && Displays(ds, es, id, b, y)
    ensures Displays(cs, es, id, if b.Some? then b else a, if y.Some? then y else x)
  {
    FirstStays(cs, ds, id);
  }

  lemma FirstStays(cs: seq<Container>, ds: seq<Container>, id: string)
    requires |ds| == |cs| && forall k | 0 <= k < |cs| :: ds[k].id == cs[k].id
    ensures forall k | 0 <= k < |cs| :: IsFirst(cs, k, id) <==> IsFirst(ds, k, id)
  {
  }

  // ---------------------------------------------------------------------------------------
  // Immediate operations
  // ---------------------------------------------------------------------------------------

  /** A committed submission: three ids drawn, the result first, and one time for all. */
  predicate CommittedSubmission(sub: Submission, action: string, prefix: string, n: nat, clock: Clock) {
    && sub.actionCode == Some(action) && sub.stage == Committed && sub.errorCode == None && !sub.canRetry
    && sub.resultRef == Some(NextId(prefix, clock, n + 1)) && sub.resultEventCode == None
    && sub.operationId == Some(NextId("op", clock, n + 2)) && sub.traceId == Some(NextId("tr", clock, n + 3))
    && sub.receivedAt == Some(clock.time) && sub.acceptedAt == Some(clock.time) && sub.committedAt == Some(clock.time)
  }

  predicate RejectedSubmission(sub: Submission, action: string, errorCode: string, n: nat, clock: Clock) {
    && sub.actionCode == Some(action) && sub.stage == Rejected && sub.errorCode == Some(errorCode) && !sub.canRetry
    && sub.resultRef == None && sub.resultEventCode == None && sub.acceptedAt == None && sub.committedAt == None
    && sub.operationId == Some(NextId("op", clock, n + 1)) && sub.traceId == Some(NextId("tr", clock, n + 2))
    && sub.receivedAt == Some(clock.time)
  }

  /** The submission of the task is filed, and logged as it is with who did it. */
  predicate Filed(s: State, t: State, u: Task, sub: Submission, payload: Option<string>) {
    && t.submissions == s.submissions[u.id := sub] && t.exceptions == s.exceptions
    && t.operations == s.operations + [Record(u.id, sub, u.assignee.GetOr(CURRENT_USER), payload)]
  }

  /** The task is as in `u`, its submission committed, filed and shown. */
  ghost predicate CommittedAs(s: State, t: State, i: nat, u: Task, action: string, prefix: string,
          payload: Option<string>, clock: Clock)
    requires i < |s.tasks|
  {
    && t.tasks == s.tasks[i := u] && t.sequence == s.sequence + 3 && u.id in t.submissions
    && CommittedSubmission(t.submissions[u.id], action, prefix, s.sequence, clock)
    && Filed(s, t, u, t.submissions[u.id], payload)
    && Displays(s.containers, t.containers, u.containerId, Some(u.status), Some(Committed))
  }

  ghost predicate RejectedAs(s: State, t: State, i: nat, u: Task, action: string, errorCode: string, clock: Clock)
    requires i < |s.tasks|
  {
    && t.tasks == s.tasks[i := u] && t.sequence == s.sequence + 2 && u.id in t.submissions
    && RejectedSubmission(t.submissions[u.id], action, errorCode, s.sequence, clock)
    && Filed(s, t, u, t.submissions[u.id], None)
    && Displays(s.containers, t.containers, u.containerId, None, Some(Rejected))
  }

  lemma CommitEffect(s: State, i: nat, u: Task, action: string, prefix: string, payload: Option<string>, clock: Clock)
    requires i < |s.tasks| && action != ""
    ensures
      CommittedAs(s, CommitImmediate(s, i, u, action, prefix, payload, clock), i, u, action, prefix, payload, clock)
  {
    BothShown(s.containers, u, Committed);
  }

  lemma RejectEffect(s: State, i: nat, u: Task, action: string, errorCode: string, clock: Clock)
    requires i < |s.tasks| && action != ""
    ensures RejectedAs(s, RejectImmediate(s, i, u, action, errorCode, clock), i, u, action, errorCode, clock)
  {
    StageShown(s.containers, u, Rejected);
  }

  /** A task of the pool that nobody has is taken by the current user; any other is left alone. */
  lemma ClaimEffect(s: State, i: nat, clock: Clock)
    requires i < |s.tasks| && TaskAt(s.tasks, s.tasks[i].id) == i
    ensures
      var t, after := s.tasks[i], ClaimTask(s, s.tasks[i].id, clock);
      if t.pooled && t.assignee.GetOr("") == "" then
        CommittedAs(s, after, i, t.(assignee := Some(CURRENT_USER), status := InProgress), "candidate_claim_task",
                    "assignment", None, clock)
      else after == s
  {
    var t := s.tasks[i];
    CommitEffect(s, i, t.(assignee := Some(CURRENT_USER), status := InProgress), "candidate_claim_task", "assignment",
                 None, clock);
  }

  lemma AcknowledgingIs(t: Task, inputId: string)
    ensures
      var k := InputAt(t.inputs, inputId);
      Acknowledging(t, inputId) ==
        if k < |t.inputs| && t.inputs[k].state == InputPending then
          Commit(t.(inputs := t.inputs[k := Input(t.inputs[k].id, Ready)]), "candidate_acknowledge_task_input", "input",
                 Some(inputId))
        else Nothing
  {
  }

  /** An input that waits for it becomes ready; no other input is touched. */
  lemma AcknowledgeEffect(s: State, i: nat, inputId: string, clock: Clock)
    requires i < |s.tasks| && TaskAt(s.tasks, s.tasks[i].id) == i
    ensures
      var t, after := s.tasks[i], AcknowledgeInput(s, s.tasks[i].id, inputId, clock);
      var k := InputAt(t.inputs, inputId);
      if k < |t.inputs| && t.inputs[k].state == InputPending then
        CommittedAs(s, after, i, t.(inputs := t.inputs[k := Input(t.inputs[k].id, Ready)]),
                    "candidate_acknowledge_task_input", "input", Some(inputId), clock)
      else after == s
  {
    AcknowledgingIs(s.tasks[i], inputId);
    match Acknowledging(s.tasks[i], inputId)
    case Commit(u, action, prefix, payload) => CommitEffect(s, i, u, action, prefix, payload, clock);
    case _ =>
  }

  /** Separators and blanks are dropped, and nothing else. */
  lemma StrippedOne(c: char)
    ensures Stripped([c]) == if c == '-' || IsSpace(c) then "" else [c]
  {
    assert [c][1..] == "";
  }

  /** The rest keeps its order. */
  lemma {:induction false} StrippedTogether(a: string, b: string)
    ensures Stripped(a + b) == Stripped(a) + Stripped(b)
  {
    if a == "" {
      assert a + b == b;
    } else {
      var first := if a[0] == '-' || IsSpace(a[0]) then "" else [a[0]];
      assert (a + b)[0] == a[0] && (a + b)[1..] == a[1..] + b;
      StrippedTogether(a[1..], b);
      assert first + (Stripped(a[1..]) + Stripped(b)) == first + Stripped(a[1..]) + Stripped(b);
    }
  }

  /** What was scanned, without separators and in upper case, is what was expected. */
  predicate ScanMatches(e: Evidence, value: Option<string>) {
    e.expectedValue.GetOr("") != "" && UpperOf(Stripped(value.GetOr("")), e.expectedValue.value)
  }

  lemma UpperIsUnique(s: string, t: string)
    ensures UpperOf(s, t) <==> t == ToUpper(s)
  {
  }

  lemma ScanFailsExactly(e: Evidence, value: Option<string>)
    ensures ScanFails(e, value) <==> e.kind.Scan? && !ScanMatches(e, value)
  {
    if e.expectedValue.GetOr("") != "" {
      UpperIsUnique(Stripped(value.GetOr("")), e.expectedValue.value);
    }
  }

  /** What becomes of evidence when a value is given for it. */
  lemma VerifyingIs(t: Task, evidenceId: string, value: Option<string>)
    ensures
      var k, d := EvidenceAt(t.evidence, evidenceId), Verifying(t, evidenceId, value);
      if k == |t.evidence| || t.evidence[k].kind.ExternalEvent? || t.evidence[k].kind.Receipt? then d == Nothing
      else
        var e := t.evidence[k];
        if e.kind.Scan? && !ScanMatches(e, value) then
          d == Reject(t.(evidence := t.evidence[k := e.(state := EvidencePending)]),
                      "candidate_verify_container_identity", "TASK_CONTAINER_MISMATCH")
        else if e.kind.Photo? && value.GetOr("") == "" then
          d == Reject(t, "candidate_verify_task_evidence", "TASK_EVIDENCE_MISSING")
        else
          var captured := e.(state := Verified, capturedValue := Some(value.GetOr(CONFIRMED)));
          d == Commit(t.(evidence := t.evidence[k := captured]), "candidate_verify_task_evidence", "evidence",
                      Some(evidenceId))
  {
    var k := EvidenceAt(t.evidence, evidenceId);
    if k < |t.evidence| {
      ScanFailsExactly(t.evidence[k], value);
    }
  }

  /** And what such a decision leaves behind. */
  lemma VerifyEffect(s: State, i: nat, evidenceId: string, value: Option<string>, clock: Clock)
    requires i < |s.tasks| && TaskAt(s.tasks, s.tasks[i].id) == i
    ensures
      var t, after := s.tasks[i], VerifyEvidence(s, s.tasks[i].id, evidenceId, value, clock);
      match Verifying(t, evidenceId, value)
      case Nothing => after == s
      case Commit(u, action, prefix, payload) => CommittedAs(s, after, i, u, action, prefix, payload, clock)
      case Reject(u, action, errorCode) => RejectedAs(s, after, i, u, action, errorCode, clock)
  {
    VerifyingIs(s.tasks[i], evidenceId, value);
    match Verifying(s.tasks[i], evidenceId, value)
    case Nothing =>
    case Commit(u, action, prefix, payload) => CommitEffect(s, i, u, action, prefix, payload, clock);
    case Reject(u, action, errorCode) => RejectEffect(s, i, u, action, errorCode, clock);
  }

  // ---------------------------------------------------------------------------------------
  // Submissions
  // ---------------------------------------------------------------------------------------

  /** Only the submission of the task and what its container shows of it have changed. */
  ghost predicate OnlySubmission(s: State, t: State, u: Task, sub: Submission) {
    && t.submissions == s.submissions[u.id := sub]
    && t.operations == s.operations && t.exceptions == s.exceptions
    && Displays(s.containers, t.containers, u.containerId, None, Some(sub.stage))
  }

  /** A submission starts afresh, under its old operation id or a new one. */
  lemma StartEffect(s: State, i: nat, action: string, existing: Option<string>, clock: Clock)
    requires i < |s.tasks| && TaskAt(s.tasks, s.tasks[i].id) == i
    ensures
      var t, after := s.tasks[i], StartOperation(s, s.tasks[i].id, action, existing, clock);
      var op := if existing.Some? then existing.value else NextId("op", clock, s.sequence + 1);
      && after.tasks == s.tasks && after.sequence == s.sequence + (if existing.Some? then 0 else 1)
      && OnlySubmission(s, after, t, Submission(Some(action), Sending, Some(op), None, None, None, None, None, None,
                                                None, false))
  {
    StageShown(s.containers, s.tasks[i], Sending);
  }

  /** A receipt keeps the trace and the time there are, and draws what there is not. */
  lemma ReceiveEffect(s: State, i: nat, clock: Clock)
    requires i < |s.tasks| && TaskAt(s.tasks, s.tasks[i].id) == i && s.tasks[i].id in s.submissions
    ensures
      var t, after := s.tasks[i], MarkReceived(s, s.tasks[i].id, clock);
      var sub := s.submissions[t.id];
      && after.tasks == s.tasks && after.sequence == s.sequence + (if sub.traceId.Some? then 0 else 1)
      && OnlySubmission(s, after, t, sub.(
           stage := Received, canRetry := false,
           traceId := if sub.traceId.Some? then sub.traceId else Some(NextId("tr", clock, s.sequence + 1)),
           receivedAt := if sub.receivedAt.Some? then sub.receivedAt else Some(clock.time)))
  {
    StageShown(s.containers, s.tasks[i], Received);
  }

  /** An acceptance dates the submission; a completion is then reported, on the task and its container. */
  lemma AcceptEffect(s: State, i: nat, intent: Intent, clock: Clock)
    requires i < |s.tasks| && TaskAt(s.tasks, s.tasks[i].id) == i && s.tasks[i].id in s.submissions
    ensures
      var t, after := s.tasks[i], MarkAccepted(s, s.tasks[i].id, intent, clock);
      && after.sequence == s.sequence && after.operations == s.operations && after.exceptions == s.exceptions
      && after.submissions ==
           s.submissions[t.id := s.submissions[t.id].(stage := Accepted, acceptedAt := Some(clock.time))]
      && after.tasks == (if intent.Complete? then s.tasks[i := t.(status := Reported)] else s.tasks)
      && Displays(s.containers, after.containers, t.containerId,
                  if intent.Complete? then Some(Reported) else None, Some(Accepted))
  {
    StageShown(s.containers, s.tasks[i], Accepted);
    BothShown(s.containers, s.tasks[i].(status := Reported), Accepted);
    assert s.tasks[i := s.tasks[i]] == s.tasks;
  }

  /** A submission is marked for another try, and shown again as it is. */
  lemma RetryableEffect(s: State, i: nat)
    requires i < |s.tasks| && TaskAt(s.tasks, s.tasks[i].id) == i && s.tasks[i].id in s.submissions
    ensures
      var t, after := s.tasks[i], MarkRetryable(s, s.tasks[i].id);
      && after.tasks == s.tasks && after.sequence == s.sequence
      && OnlySubmission(s, after, t, s.submissions[t.id].(canRetry := true))
  {
    StageShown(s.containers, s.tasks[i], s.submissions[s.tasks[i].id].stage);
  }

  // ---------------------------------------------------------------------------------------
  // Results and reports
  // ---------------------------------------------------------------------------------------

  /** The statuses between which an event may move a container. */
  predicate Moves(eventCode: string, from: string, to: string) {
    || (eventCode == "arrived" && from == "in_transit" && to == "at_port")
    || (eventCode == "unloaded" && from == "picked_up" && to == "unloaded")
  }

  /** The nodes an event is about: the one it finishes and the one that comes next. */
  predicate About(eventCode: string, node: string, next: string) {
    || (eventCode == "arrived" && node == "arrival" && next == "pickup")
    || (eventCode == "unloaded" && node == "unload" && next == "unstuff")
  }

  /** The node of the event is done at its time; a pending next one is drawn attention to; no other has changed. */
  predicate NodeAfter(n: Node, m: Node, node: string, next: string, entry: Entry) {
    if n.key == node then m == Node(n.key, Done, true, "", entry.actual, entry.eventCode)
    else if n.key == next && n.phase.Pending? then m == n.(isCurrent := false, attention := "current")
    else m == n.(isCurrent := false)
  }

  /** The container has moved as the event says, and the event is the last entry of its timeline. */
  ghost predicate MovedBy(c: Container, d: Container, nodeName: string, entry: Entry) {
    && d == c.(status := d.status, changedAt := entry.actual, currentNode := nodeName, rail := d.rail,
               timeline := c.timeline + [entry])
    && Moves(entry.eventCode, c.status, d.status)
    && |d.rail| == |c.rail|
    && exists node, next :: About(entry.eventCode, node, next)
         && forall k | 0 <= k < |c.rail| :: NodeAfter(c.rail[k], d.rail[k], node, next, entry)
  }

  /** An event is put on the first container of the task exactly if it may move it from where it is. */
  lemma EventEffect(cs: seq<Container>, t: Task, eventCode: string, ref: string, clock: Clock)
    ensures
      var i, after := ContainerAt(cs, t.containerId), ApplyEvent(cs, t, eventCode, ref, clock);
      if i < |cs| && exists to :: Moves(eventCode, cs[i].status, to) then
        after.Some? && |after.value| == |cs| && after.value == cs[i := after.value[i]]
        && MovedBy(cs[i], after.value[i], t.nodeName, Entry(eventCode, clock.time, t.id, ref))
      else after.None?
  {
    var i, after := ContainerAt(cs, t.containerId), ApplyEvent(cs, t, eventCode, ref, clock);
    if after.Some? {
      var rule := RuleFor(eventCode).value;
      assert Moves(eventCode, cs[i].status, rule.to) && About(eventCode, rule.nodeKey, rule.nextNodeKey);
    }
  }

  /** What a concluded submission leaves: the task in its status, the submission filed, logged and shown. */
  ghost predicate ConcludedAs(s: State, t: State, i: nat, status: TaskStatus, sub: Submission, payload: Option<string>)
    requires i < |s.tasks|
  {
    var u := s.tasks[i].(status := status);
    && t.tasks == s.tasks[i := u] && t.submissions == s.submissions[u.id := sub] && t.exceptions == s.exceptions
    && t.operations == (if sub.actionCode.GetOr("") == "" then s.operations
                        else s.operations + [Record(u.id, sub, u.assignee.GetOr(CURRENT_USER), payload)])
    && Displays(s.containers, t.containers, u.containerId, Some(status), Some(sub.stage))
  }

  lemma AcceptResultEffect(s: State, i: nat, sub: Submission, action: string, ref: string, clock: Clock)
    requires i < |s.tasks|
    ensures
      var t := s.tasks[i];
      ConcludedAs(s, AcceptResult(s, i, sub, action, ref, clock), i,
                  if t.waitsForOthers then WaitingExternal else Completed,
                  sub.(stage := Committed, committedAt := Some(clock.time), resultRef := Some(ref),
                       resultEventCode := t.resultEventCode, errorCode := None, canRetry := false), Some(action))
  {
    BothShown(s.containers, s.tasks[i].(status := if s.tasks[i].waitsForOthers then WaitingExternal else Completed),
              Committed);
  }

  lemma RejectResultEffect(s: State, i: nat, sub: Submission)
    requires i < |s.tasks|
    ensures ConcludedAs(s, RejectResult(s, i, sub), i, InProgress,
                        sub.(stage := Rejected, errorCode := Some("CONTAINER_VERSION_CONFLICT"), canRetry := false),
                        None)
  {
    BothShown(s.containers, s.tasks[i].(status := InProgress), Rejected);
  }

  /** The event a task's result stands for, if it is to move the container. */
  predicate MovesContainer(t: Task, eventCode: string) {
    t.advancesContainer && eventCode != "" && t.resultEventCode == Some(eventCode)
  }

  /** The result is to move a container that may not move so, or that is not there. */
  ghost predicate MayNotMove(cs: seq<Container>, t: Task) {
    var i := ContainerAt(cs, t.containerId);
    exists code :: MovesContainer(t, code) && (i < |cs| ==> forall to :: !Moves(code, cs[i].status, to))
  }

  /** The containers with the result of the task on its own, if it moves it. */
  ghost predicate PutOn(cs: seq<Container>, ds: seq<Container>, t: Task, ref: string, clock: Clock) {
    if exists code :: MovesContainer(t, code) then
      var i := ContainerAt(cs, t.containerId);
      && i < |cs| && |ds| == |cs| && ds == cs[i := ds[i]]
      && MovedBy(cs[i], ds[i], t.nodeName, Entry(t.resultEventCode.value, clock.time, t.id, ref))
    else ds == cs
  }

  lemma WithResultEffect(cs: seq<Container>, t: Task, ref: string, clock: Clock)
    ensures
      var after := WithResult(cs, t, ref, clock);
      && (after.None? <==> MayNotMove(cs, t))
      && (after.Some? ==> PutOn(cs, after.value, t, ref, clock))
  {
    if Advance(t).Some? {
      assert MovesContainer(t, Advance(t).value);
      EventEffect(cs, t, Advance(t).value, ref, clock);
    }
  }

  /** The task is open again, and its submission rejected. */
  ghost predicate ResultRefused(s: State, after: State, i: nat, sub: Submission)
    requires i < |s.tasks|
  {
    ConcludedAs(s, after, i, InProgress,
                sub.(stage := Rejected, errorCode := Some("CONTAINER_VERSION_CONFLICT"), canRetry := false), None)
  }

  /** The task is over or waits for others, its submission committed with the result, which is on the container. */
  ghost predicate ResultTaken(s: State, cs: seq<Container>, after: State, i: nat, sub: Submission, action: string,
          ref: string, clock: Clock)
    requires i < |s.tasks|
  {
    var t := s.tasks[i];
    && PutOn(s.containers, cs, t, ref, clock)
    && ConcludedAs(s.(containers := cs), after, i, if t.waitsForOthers then WaitingExternal else Completed,
                   sub.(stage := Committed, committedAt := Some(clock.time), resultRef := Some(ref),
                        resultEventCode := t.resultEventCode, errorCode := None, canRetry := false), Some(action))
  }

  lemma RefusedEnd(s: State, i: nat, sub: Submission)
    requires i < |s.tasks|
    ensures ResultRefused(s, RejectResult(Drawn(s, None), i, sub), i, sub)
  {
    RejectResultEffect(Drawn(s, None), i, sub);
  }

  lemma TakenEnd(s: State, cs: seq<Container>, i: nat, sub: Submission, action: string, ref: string, clock: Clock)
    requires i < |s.tasks| && PutOn(s.containers, cs, s.tasks[i], ref, clock)
    ensures ResultTaken(s, cs, AcceptResult(Drawn(s, Some(cs)), i, sub, action, ref, clock), i, sub, action, ref, clock)
  {
    AcceptResultEffect(Drawn(s, Some(cs)), i, sub, action, ref, clock);
  }

  lemma ResultSteps(s: State, i: nat, action: string, clock: Clock)
    requires i < |s.tasks| && TaskAt(s.tasks, s.tasks[i].id) == i && s.tasks[i].id in s.submissions
    ensures
      var t := s.tasks[i];
      var sub, ref := s.submissions[t.id], NextId("result", clock, s.sequence + 1);
      var result := WithResult(s.containers, t, ref, clock);
      var (after, done) := CommitTaskResult(s, t.id, action, clock);
      && after.sequence == s.sequence + 1 && done == result.Some?
      && after == if done then AcceptResult(Drawn(s, result), i, sub, action, ref, clock)
                  else RejectResult(Drawn(s, result), i, sub)
  {
  }

  /** A result is refused exactly if it is to move its container and may not; either way it takes one number. */
  lemma ResultEffect(s: State, i: nat, action: string, clock: Clock)
    requires i < |s.tasks| && TaskAt(s.tasks, s.tasks[i].id) == i && s.tasks[i].id in s.submissions
    ensures
      var t := s.tasks[i];
      var sub, ref := s.submissions[t.id], NextId("result", clock, s.sequence + 1);
      var (after, done) := CommitTaskResult(s, t.id, action, clock);
      && after.sequence == s.sequence + 1
      && (!done <==> MayNotMove(s.containers, t))
      && (!done ==> ResultRefused(s, after, i, sub))
      && (done ==> exists cs :: ResultTaken(s, cs, after, i, sub, action, ref, clock))
  {
    var t := s.tasks[i];
    var sub, ref := s.submissions[t.id], NextId("result", clock, s.sequence + 1);
    var result := WithResult(s.containers, t, ref, clock);
    ResultSteps(s, i, action, clock);
    WithResultEffect(s.containers, t, ref, clock);
    if result.Some? {
      TakenEnd(s, result.value, i, sub, action, ref, clock);
    } else {
      RefusedEnd(s, i, sub);
    }
  }

  /** A report is filed under the next number, blocks a task that is not closed, and commits its submission. */
  lemma ReportEffect(s: State, i: nat, detail: string, clock: Clock)
    requires i < |s.tasks| && TaskAt(s.tasks, s.tasks[i].id) == i && s.tasks[i].id in s.submissions
    ensures
      var t, after := s.tasks[i], CommitException(s, s.tasks[i].id, detail, clock);
      var ref, closed := NextId("exception", clock, s.sequence + 1), t.status.Completed? || t.status.WaitingExternal?;
      var u := if closed then t else t.(status := Blocked);
      var sub := s.submissions[t.id].(stage := Committed, committedAt := Some(clock.time), resultRef := Some(ref),
                                      canRetry := false);
      && after.tasks == s.tasks[i := u] && after.sequence == s.sequence + 1
      && after.submissions == s.submissions[t.id := sub]
      && after.exceptions == s.exceptions + [
           Report(ExceptionId(s.sequence + 1), t.containerId, t.id, detail, t.assignee.GetOr(UNASSIGNED), Some(ref))]
      && after.operations == (if sub.actionCode.GetOr("") == "" then s.operations
                              else s.operations + [Record(t.id, sub, t.assignee.GetOr(CURRENT_USER), Some(detail))])
      && Displays(s.containers, after.containers, t.containerId, if closed then None else Some(Blocked),
                  Some(Committed))
  {
    StageShown(s.containers, s.tasks[i], Committed);
    BothShown(s.containers, s.tasks[i].(status := Blocked), Committed);
  }

  /** Nothing happens to a task that is not there, or to a submission that was never started. */
  lemma UnknownIsLeftAlone(s: State, taskId: string, clock: Clock, action: string, intent: Intent)
    requires forall t | t in s.tasks :: t.id != taskId
    ensures ClaimTask(s, taskId, clock) == s && MarkReceived(s, taskId, clock) == s
    ensures MarkAccepted(s, taskId, intent, clock) == s && CommitTaskResult(s, taskId, action, clock) == (s, false)
    ensures CommitException(s, taskId, action, clock) == s && MarkRetryable(s, taskId) == s
    ensures StartOperation(s, taskId, action, None, clock) == s
  {
  }
}
