/** The store: its reactive fields, changed step by step. */
module DemoOperationsStore {
  import opened Wrappers
  import opened DemoOperations

  class Store {
    var containers: seq<Container>
    var tasks: seq<Task>
    var submissions: map<string, Submission>
    var operations: seq<Record>
    var exceptions: seq<Report>
    var sequence: nat

    constructor (s: State)
      ensures View() == s
    {
      containers, tasks, submissions, operations, exceptions, sequence :=
        s.containers, s.tasks, s.submissions, s.operations, s.exceptions, s.sequence;
    }

    function View(): State
      reads this
    {
      State(containers, tasks, submissions, operations, exceptions, sequence)
    }

    method DrawId(prefix: string, clock: Clock) returns (id: string)
      modifies this`sequence
      ensures sequence == old(sequence) + 1 && id == NextId(prefix, clock, sequence)
    {
      sequence := sequence + 1;
      id := NextId(prefix, clock, sequence);
    }

    method DrawOperation(clock: Clock) returns (op: string, tr: string)
      modifies this`sequence
      ensures sequence == old(sequence) + 2
      ensures op == NextId("op", clock, old(sequence) + 1) && tr == NextId("tr", clock, old(sequence) + 2)
    {
      op := DrawId("op", clock);
      tr := DrawId("tr", clock);
    }

    method UpdateTaskProjection(t: Task)
      modifies this`containers
      ensures containers == ShowTask(old(containers), t)
    {
      var i := ContainerAt(containers, t.containerId);
      if i == |containers| { return; }
      containers := containers[i := containers[i].(taskStatus := t.status)];
    }

    method UpdateSyncProjection(t: Task, sub: Submission)
      modifies this`containers
      ensures containers == ShowStage(old(containers), t, sub.stage)
    {
      var i := ContainerAt(containers, t.containerId);
      if i == |containers| { return; }
      containers := containers[i := containers[i].(syncStatus := sub.stage)];
    }

    method SaveSubmission(t: Task, sub: Submission)
      modifies this`containers, this`submissions
      ensures submissions == old(submissions)[t.id := sub] && containers == ShowStage(old(containers), t, sub.stage)
    {
      submissions := submissions[t.id := sub];
      UpdateSyncProjection(t, sub);
    }

    method RecordOperation(t: Task, sub: Submission, payload: Option<string>)
      modifies this`operations
      ensures operations == Recorded(old(operations), t, sub, payload)
    {
      if sub.actionCode.GetOr("") == "" { return; }
      operations := operations + [Record(t.id, sub, t.assignee.GetOr(CURRENT_USER), payload)];
    }

    method Finish(t: Task, sub: Submission, payload: Option<string>)
      modifies this`submissions, this`containers, this`operations
      ensures View() == Finished(old(View()), t, sub, payload)
    {
      SaveSubmission(t, sub);
      UpdateTaskProjection(t);
      RecordOperation(t, sub, payload);
    }

    /** The ids a commit draws before and after `apply`, which draws none. */
    method CommittedSubmission(actionCode: string, prefix: string, clock: Clock) returns (sub: Submission)
      modifies this`sequence
      ensures sequence == old(sequence) + 3 && sub == CommittedNow(actionCode, prefix, old(sequence), clock)
    {
      var ref := DrawId(prefix, clock);
      var op, tr := DrawOperation(clock);
      sub := Submission(Some(actionCode), Committed, Some(op), Some(tr), Some(clock.time), Some(clock.time),
          Some(clock.time), Some(ref),
                        None, None, false);
    }

    method RejectedSubmission(actionCode: string, errorCode: string, clock: Clock) returns (sub: Submission)
      modifies this`sequence
      ensures sequence == old(sequence) + 2 && sub == RejectedNow(actionCode, old(sequence), errorCode, clock)
    {
      var op, tr := DrawOperation(clock);
      sub := Submission(Some(actionCode), Rejected, Some(op), Some(tr), Some(clock.time), None, None, None, None,
          Some(errorCode), false);
    }

    method CommitNow(i: nat, t: Task, actionCode: string, prefix: string, payload: Option<string>, clock: Clock)
      requires i < |tasks|
      modifies this
      ensures View() == CommitImmediate(old(View()), i, t, actionCode, prefix, payload, clock)
    {
      tasks := tasks[i := t];
      var sub := CommittedSubmission(actionCode, prefix, clock);
      Finish(t, sub, payload);
    }

    method RejectNow(i: nat, t: Task, actionCode: string, errorCode: string, clock: Clock)
      requires i < |tasks|
      modifies this
      ensures View() == RejectImmediate(old(View()), i, t, actionCode, errorCode, clock)
    {
      tasks := tasks[i := t];
      var sub := RejectedSubmission(actionCode, errorCode, clock);
      SaveSubmission(t, sub);
      RecordOperation(t, sub, None);
    }

    method Claim(taskId: string, clock: Clock)
      modifies this
      ensures View() == ClaimTask(old(View()), taskId, clock)
    {
      var i := TaskAt(tasks, taskId);
      if i == |tasks| || !tasks[i].pooled || tasks[i].assignee.GetOr("") != "" { return; }
      CommitNow(i, tasks[i].(assignee := Some(CURRENT_USER), status := InProgress), "candidate_claim_task",
          "assignment", None, clock);
    }

    method Acknowledge(taskId: string, inputId: string, clock: Clock)
      modifies this
      ensures View() == AcknowledgeInput(old(View()), taskId, inputId, clock)
    {
      var i := TaskAt(tasks, taskId);
      if i == |tasks| { return; }
      var t := tasks[i];
      var k := InputAt(t.inputs, inputId);
      if k == |t.inputs| || t.inputs[k].state != InputPending { return; }
      CommitNow(i, t.(inputs := t.inputs[k := t.inputs[k].(state := Ready)]), "candidate_acknowledge_task_input",
          "input", Some(inputId), clock);
    }

    method Verify(taskId: string, evidenceId: string, value: Option<string>, clock: Clock)
      modifies this
      ensures View() == VerifyEvidence(old(View()), taskId, evidenceId, value, clock)
    {
      var i := TaskAt(tasks, taskId);
      if i == |tasks| { return; }
      VerifyFound(i, evidenceId, value, clock);
    }

    method VerifyFound(i: nat, evidenceId: string, value: Option<string>, clock: Clock)
      requires i < |tasks|
      modifies this
      ensures View() == Decided(old(View()), i, Verifying(old(tasks)[i], evidenceId, value), clock)
    {
      var t := tasks[i];
      var k := EvidenceAt(t.evidence, evidenceId);
      if k == |t.evidence| || t.evidence[k].kind.ExternalEvent? || t.evidence[k].kind.Receipt? { return; }
      var e := t.evidence[k];
      if ScanFails(e, value) {
        RejectNow(i, WithEvidence(t, k, e.(state := EvidencePending)), "candidate_verify_container_identity",
            "TASK_CONTAINER_MISMATCH", clock);
        return;
      }
      if e.kind.Photo? && value.GetOr("") == "" {
        RejectNow(i, t, "candidate_verify_task_evidence", "TASK_EVIDENCE_MISSING", clock);
        return;
      }
      CommitNow(i, WithEvidence(t, k, Captured(e, value)), "candidate_verify_task_evidence", "evidence",
          Some(evidenceId), clock);
    }

    method Start(taskId: string, actionCode: string, existing: Option<string>, clock: Clock)
      modifies this
      ensures View() == StartOperation(old(View()), taskId, actionCode, existing, clock)
    {
      var i := TaskAt(tasks, taskId);
      if i == |tasks| { return; }
      var op := existing.GetOr("");
      if existing.None? {
        op := DrawId("op", clock);
      }
      SaveSubmission(tasks[i], EMPTY_SUBMISSION.(actionCode := Some(actionCode), stage := Sending,
          operationId := Some(op)));
    }

    method Receive(taskId: string, clock: Clock)
      modifies this
      ensures View() == MarkReceived(old(View()), taskId, clock)
    {
      var i := TaskAt(tasks, taskId);
      if i == |tasks| || taskId !in submissions { return; }
      var sub := submissions[taskId];
      var traceId := sub.traceId.GetOr("");
      if sub.traceId.None? {
        traceId := DrawId("tr", clock);
      }
      var next := sub.(stage := Received, traceId := Some(traceId),
          receivedAt := Some(sub.receivedAt.GetOr(clock.time)), canRetry := false);
      submissions := submissions[taskId := next];
      UpdateSyncProjection(tasks[i], next);
    }

    method Accept(taskId: string, intent: Intent, clock: Clock)
      modifies this
      ensures View() == MarkAccepted(old(View()), taskId, intent, clock)
    {
      var i := TaskAt(tasks, taskId);
      if i == |tasks| || taskId !in submissions { return; }
      var next := submissions[taskId].(stage := Accepted, acceptedAt := Some(clock.time));
      submissions := submissions[taskId := next];
      if intent.Complete? {
        tasks := tasks[i := tasks[i].(status := Reported)];
        UpdateTaskProjection(tasks[i]);
      }
      UpdateSyncProjection(tasks[i], next);
    }

    method MarkNodes(rail: seq<Node>, rule: Rule, eventCode: string, clock: Clock) returns (marked: seq<Node>)
      ensures marked == MarkRail(rail, rule, eventCode, clock)
    {
      marked := [];
      for k := 0 to |rail|
        invariant marked == MarkRail(rail, rule, eventCode, clock)[..k]
      {
        var node := rail[k].(isCurrent := rail[k].key == rule.nodeKey);
        if node.key == rule.nodeKey {
          node := node.(phase := Done, attention := "", actual := clock.time, evidence := eventCode);
        } else if node.key == rule.nextNodeKey && node.phase.Pending? {
          node := node.(attention := "current");
        }
        assert node == MarkNode(rail[k], rule, eventCode, clock);
        marked := marked + [node];
      }
    }

    method ApplyContainerEvent(t: Task, eventCode: string, ref: string, clock: Clock) returns (applied: bool)
      modifies this`containers
      ensures applied <==> ApplyEvent(old(containers), t, eventCode, ref, clock).Some?
      ensures containers == ApplyEvent(old(containers), t, eventCode, ref, clock).GetOr(old(containers))
    {
      var i, found := ContainerAt(containers, t.containerId), RuleFor(eventCode);
      if i == |containers| || found.None? || containers[i].status != found.value.from { return false; }
      var rule, c := found.value, containers[i];
      var rail := MarkNodes(c.rail, rule, eventCode, clock);
      containers := containers[i := c.(status := rule.to, changedAt := clock.time, currentNode := t.nodeName,
          rail := rail,
                                       timeline := c.timeline + [Entry(eventCode, clock.time, t.id, ref)])];
      applied := true;
    }

    method Conclude(i: nat, t: Task, sub: Submission, payload: Option<string>)
      requires i < |tasks|
      modifies this
      ensures View() == Concluded(old(View()), i, t, sub, payload)
    {
      tasks := tasks[i := t];
      submissions := submissions[t.id := sub];
      UpdateTaskProjection(t);
      UpdateSyncProjection(t, sub);
      RecordOperation(t, sub, payload);
    }

    method PutResult(t: Task, ref: string, clock: Clock) returns (done: bool)
      modifies this`containers
      ensures done <==> WithResult(old(containers), t, ref, clock).Some?
      ensures containers == WithResult(old(containers), t, ref, clock).GetOr(old(containers))
    {
      var eventCode := Advance(t);
      if eventCode.None? { return true; }
      done := ApplyContainerEvent(t, eventCode.value, ref, clock);
    }

    method CommitResult(taskId: string, actionCode: string, clock: Clock) returns (done: bool)
      modifies this
      ensures (View(), done) == CommitTaskResult(old(View()), taskId, actionCode, clock)
    {
      var i := TaskAt(tasks, taskId);
      if i == |tasks| || taskId !in submissions { return false; }
      var ref := DrawId("result", clock);
      done := PutResult(tasks[i], ref, clock);
      assert View() == Drawn(old(View()), WithResult(old(containers), tasks[i], ref, clock));
      EndTask(done, i, submissions[taskId], actionCode, ref, clock);
    }

    method EndTask(done: bool, i: nat, sub: Submission, actionCode: string, ref: string, clock: Clock)
      requires i < |tasks|
      modifies this
      ensures View() == Ended(old(View()), done, i, sub, actionCode, ref, clock)
    {
      if done {
        AcceptTask(i, sub, actionCode, ref, clock);
      } else {
        RejectTask(i, sub);
      }
    }

    method AcceptTask(i: nat, sub: Submission, actionCode: string, ref: string, clock: Clock)
      requires i < |tasks|
      modifies this
      ensures View() == AcceptResult(old(View()), i, sub, actionCode, ref, clock)
    {
      var t := tasks[i];
      Conclude(i, t.(status := if t.waitsForOthers then WaitingExternal else Completed),
               sub.(stage := Committed, committedAt := Some(clock.time), resultRef := Some(ref),
                    resultEventCode := t.resultEventCode, errorCode := None, canRetry := false), Some(actionCode));
    }

    method RejectTask(i: nat, sub: Submission)
      requires i < |tasks|
      modifies this
      ensures View() == RejectResult(old(View()), i, sub)
    {
      Conclude(i, tasks[i].(status := InProgress),
               sub.(stage := Rejected, errorCode := Some("CONTAINER_VERSION_CONFLICT"), canRetry := false), None);
    }

    method BlockTask(i: nat)
      requires i < |tasks|
      modifies this`tasks, this`containers
      ensures tasks == old(tasks)[i := Blocking(old(tasks)[i])]
      ensures containers == if Closed(old(tasks)[i]) then old(containers) else ShowTask(old(containers), tasks[i])
    {
      if !tasks[i].status.Completed? && !tasks[i].status.WaitingExternal? {
        tasks := tasks[i := tasks[i].(status := Blocked)];
        UpdateTaskProjection(tasks[i]);
      }
    }

    method CommitReport(taskId: string, detail: string, clock: Clock)
      modifies this
      ensures View() == CommitException(old(View()), taskId, detail, clock)
    {
      var i := TaskAt(tasks, taskId);
      if i == |tasks| || taskId !in submissions { return; }
      var t := tasks[i];
      var ref := DrawId("exception", clock);
      exceptions := exceptions +
          [Report(ExceptionId(sequence), t.containerId, t.id, detail, t.assignee.GetOr(UNASSIGNED), Some(ref))];
      BlockTask(i);
      var next := submissions[taskId].(stage := Committed, committedAt := Some(clock.time), resultRef := Some(ref),
          canRetry := false);
      submissions := submissions[taskId := next];
      UpdateSyncProjection(tasks[i], next);
      RecordOperation(tasks[i], next, Some(detail));
    }

    method Retryable(taskId: string)
      modifies this
      ensures View() == MarkRetryable(old(View()), taskId)
    {
      var i := TaskAt(tasks, taskId);
      if i == |tasks| || taskId !in submissions { return; }
      submissions := submissions[taskId := submissions[taskId].(canRetry := true)];
      UpdateSyncProjection(tasks[i], submissions[taskId]);
    }
  }
}
