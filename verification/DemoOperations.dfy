/**
 The operations behind `useDemoOperationsStore`: tasks, submissions, containers and the operation
 log, changed in place. Labels, tones and messages are left out; `Clock` is what one call reads
 from the clock. Finding by id is finding the first.
 */
module DemoOperations {
  import opened Wrappers
  import opened Numerals
  import opened Text

  /** `time` is the local time; `stamp` the time in base 36 that goes into new ids. */
  datatype Clock = Clock(time: string, stamp: string)

  datatype Phase = Done | Pending | Optional | Skipped
  datatype Node = Node(key: string, phase: Phase, isCurrent: bool, attention: string, actual: string, evidence: string)
  datatype Entry = Entry(eventCode: string, actual: string, taskId: string, eventRef: string)

  datatype Container = Container(
    id: string, status: string, changedAt: string, currentNode: string, taskStatus: TaskStatus, syncStatus: Stage,
    rail: seq<Node>, timeline: seq<Entry>)

  datatype TaskStatus = Available | InProgress | Blocked | Reported | WaitingExternal | UnderReview | Completed
  datatype Stage = Idle | Sending | Received | Accepted | Committed | Rejected
  datatype InputState = Ready | InputPending | Missing
  datatype EvidenceKind = Scan | Document | Photo | Checklist | ExternalEvent | Receipt
  datatype EvidenceState = EvidencePending | Verified | Waiting
  datatype Intent = Claim | Complete | ReportException

  datatype Input = Input(id: string, state: InputState)
  datatype Evidence = Evidence(
    id: string, kind: EvidenceKind, state: EvidenceState, expectedValue: Option<string>, capturedValue: Option<string>)

  datatype Task = Task(
    id: string, containerId: string, nodeName: string, status: TaskStatus, pooled: bool, assignee: Option<string>,
    inputs: seq<Input>, evidence: seq<Evidence>, waitsForOthers: bool, resultEventCode: Option<string>,
    advancesContainer: bool)

  datatype Submission = Submission(
    actionCode: Option<string>, stage: Stage, operationId: Option<string>, traceId: Option<string>,
    receivedAt: Option<string>, acceptedAt: Option<string>, committedAt: Option<string>,
    resultRef: Option<string>, resultEventCode: Option<string>, errorCode: Option<string>, canRetry: bool)

  datatype Record = Record(taskId: string, submission: Submission, actor: string, payload: Option<string>)
  datatype Report = Report(id: string, containerId: string, sourceTaskId: string, issue: string, owner: string,
      resultRef: Option<string>)

  datatype State = State(
    containers: seq<Container>, tasks: seq<Task>, submissions: map<string, Submission>,
    operations: seq<Record>, exceptions: seq<Report>, sequence: nat)

  const EMPTY_SUBMISSION := Submission(None, Idle, None, None, None, None, None, None, None, None, false)
  const CURRENT_USER := "current user"
  const UNASSIGNED := "unassigned"
  const CONFIRMED := "confirmed by hand"

  datatype Rule = Rule(from: string, to: string, nodeKey: string, nextNodeKey: string)

  function RuleFor(eventCode: string): Option<Rule> {
    if eventCode == "arrived" then Some(Rule("in_transit", "at_port", "arrival", "pickup"))
    else if eventCode == "unloaded" then Some(Rule("picked_up", "unloaded", "unload", "unstuff"))
    else None
  }

  // ---------------------------------------------------------------------------------------
  // Ids and lookups
  // ---------------------------------------------------------------------------------------

  /** `nextId`, for the `n`-th id drawn. */
  function NextId(prefix: string, clock: Clock, n: nat): string {
    (prefix + "_" + clock.stamp) + ['_'] + Decimal(n)
  }

  function Padded(k: string): string
    decreases 6 - |k|
  {
    if |k| < 6 then Padded("0" + k) else k
  }

  function ExceptionId(n: nat): string {
    "EX-" + Padded(Decimal(n))
  }

  function TaskAt(ts: seq<Task>, id: string): (i: nat)
    ensures i <= |ts| && (i < |ts| ==> ts[i].id == id) && forall k | 0 <= k < i :: ts[k].id != id
  {
    if ts == [] || ts[0].id == id then 0 else 1 + TaskAt(ts[1..], id)
  }

  function ContainerAt(cs: seq<Container>, id: string): (i: nat)
    ensures i <= |cs| && (i < |cs| ==> cs[i].id == id) && forall k | 0 <= k < i :: cs[k].id != id
  {
    if cs == [] || cs[0].id == id then 0 else 1 + ContainerAt(cs[1..], id)
  }

  function InputAt(xs: seq<Input>, id: string): (i: nat)
    ensures i <= |xs| && (i < |xs| ==> xs[i].id == id)
  {
    if xs == [] || xs[0].id == id then 0 else 1 + InputAt(xs[1..], id)
  }

  function EvidenceAt(xs: seq<Evidence>, id: string): (i: nat)
    ensures i <= |xs| && (i < |xs| ==> xs[i].id == id)
  {
    if xs == [] || xs[0].id == id then 0 else 1 + EvidenceAt(xs[1..], id)
  }

  // ---------------------------------------------------------------------------------------
  // Projections and the log
  // ---------------------------------------------------------------------------------------

  /** `updateTaskProjection` and `updateSyncProjection`: the container of a task shows its state. */
  function ShowTask(cs: seq<Container>, t: Task): seq<Container> {
    var i := ContainerAt(cs, t.containerId);
    if i == |cs| then cs else cs[i := cs[i].(taskStatus := t.status)]
  }

  function ShowStage(cs: seq<Container>, t: Task, stage: Stage): seq<Container> {
    var i := ContainerAt(cs, t.containerId);
    if i == |cs| then cs else cs[i := cs[i].(syncStatus := stage)]
  }

  /** `recordOperation`: the record is a copy of the submission as it is now. */
  function Recorded(log: seq<Record>, t: Task, sub: Submission, payload: Option<string>): seq<Record> {
    if sub.actionCode.GetOr("") == "" then log
    else log + [Record(t.id, sub, t.assignee.GetOr(CURRENT_USER), payload)]
  }

  /** A committed submission whose ids are the next three after `n`. */
  function CommittedNow(actionCode: string, prefix: string, n: nat, clock: Clock): Submission {
    Submission(
      Some(actionCode), Committed, Some(NextId("op", clock, n + 2)), Some(NextId("tr", clock, n + 3)),
      Some(clock.time), Some(clock.time), Some(clock.time), Some(NextId(prefix, clock, n + 1)), None, None, false)
  }

  function RejectedNow(actionCode: string, n: nat, errorCode: string, clock: Clock): Submission {
    Submission(
      Some(actionCode), Rejected, Some(NextId("op", clock, n + 1)), Some(NextId("tr", clock, n + 2)),
      Some(clock.time), None, None, None, None, Some(errorCode), false)
  }

  /** The submission is saved, shown and logged, and its task shown. */
  function Finished(s: State, t: Task, sub: Submission, payload: Option<string>): State {
    s.(submissions := s.submissions[t.id := sub], containers := ShowTask(ShowStage(s.containers, t, sub.stage), t),
       operations := Recorded(s.operations, t, sub, payload))
  }

  /** `commitImmediate`, where `t` is how `apply` leaves its task. */
  function CommitImmediate(s: State, i: nat, t: Task, actionCode: string, prefix: string, payload: Option<string>,
          clock: Clock): State
    requires i < |s.tasks|
  {
    var sub := CommittedNow(actionCode, prefix, s.sequence, clock);
    Finished(s.(tasks := s.tasks[i := t], sequence := s.sequence + 3), t, sub, payload)
  }

  function RejectImmediate(s: State, i: nat, t: Task, actionCode: string, errorCode: string, clock: Clock): State
    requires i < |s.tasks|
  {
    var sub := RejectedNow(actionCode, s.sequence, errorCode, clock);
    s.(tasks := s.tasks[i := t], submissions := s.submissions[t.id := sub], sequence := s.sequence + 2,
       containers := ShowStage(s.containers, t, Rejected), operations := Recorded(s.operations, t, sub, None))
  }

  // ---------------------------------------------------------------------------------------
  // Immediate operations
  // ---------------------------------------------------------------------------------------

  /** What an immediate operation does with its task, which is then as in `t`. */
  datatype Decision =
    | Nothing
    | Commit(t: Task, action: string, prefix: string, payload: Option<string>)
    | Reject(t: Task, action: string, errorCode: string)

  function Decided(s: State, i: nat, d: Decision, clock: Clock): State
    requires i < |s.tasks|
  {
    match d
    case Nothing => s
    case Commit(t, action, prefix, payload) => CommitImmediate(s, i, t, action, prefix, payload, clock)
    case Reject(t, action, errorCode) => RejectImmediate(s, i, t, action, errorCode, clock)
  }

  function Claiming(t: Task): Decision {
    if !t.pooled || t.assignee.GetOr("") != "" then Nothing
    else Commit(t.(assignee := Some(CURRENT_USER), status := InProgress), "candidate_claim_task", "assignment", None)
  }

  function ClaimTask(s: State, taskId: string, clock: Clock): State {
    var i := TaskAt(s.tasks, taskId);
    if i == |s.tasks| then s else Decided(s, i, Claiming(s.tasks[i]), clock)
  }

  function Acknowledging(t: Task, inputId: string): Decision {
    var k := InputAt(t.inputs, inputId);
    if k == |t.inputs| || t.inputs[k].state != InputPending then Nothing
    else Commit(t.(inputs := t.inputs[k := t.inputs[k].(state := Ready)]), "candidate_acknowledge_task_input", "input",
      Some(inputId))
  }

  function AcknowledgeInput(s: State, taskId: string, inputId: string, clock: Clock): State {
    var i := TaskAt(s.tasks, taskId);
    if i == |s.tasks| then s else Decided(s, i, Acknowledging(s.tasks[i], inputId), clock)
  }

  /** `value.replace(/[-\s]/g, "").toUpperCase()` */
  function Normalized(value: string): string {
    ToUpper(Stripped(value))
  }

  function Stripped(value: string): string {
    if value == "" then "" else (if value[0] == '-' || IsSpace(value[0]) then "" else [value[0]]) + Stripped(value[1..])
  }

  function WithEvidence(t: Task, k: nat, e: Evidence): Task
    requires k < |t.evidence|
  {
    t.(evidence := t.evidence[k := e])
  }

  predicate ScanFails(e: Evidence, value: Option<string>) {
    e.kind.Scan? && (e.expectedValue.GetOr("") == "" || Normalized(value.GetOr("")) != e.expectedValue.value)
  }

  function Captured(e: Evidence, value: Option<string>): Evidence {
    e.(state := Verified, capturedValue := Some(value.GetOr(CONFIRMED)))
  }

  function Verifying(t: Task, evidenceId: string, value: Option<string>): Decision {
    var k := EvidenceAt(t.evidence, evidenceId);
    if k == |t.evidence| || t.evidence[k].kind.ExternalEvent? || t.evidence[k].kind.Receipt? then Nothing
    else
      var e := t.evidence[k];
      if ScanFails(e, value) then
        Reject(WithEvidence(t, k, e.(state := EvidencePending)), "candidate_verify_container_identity",
            "TASK_CONTAINER_MISMATCH")
      else if e.kind.Photo? && value.GetOr("") == "" then
        Reject(t, "candidate_verify_task_evidence", "TASK_EVIDENCE_MISSING")
      else
        Commit(WithEvidence(t, k, Captured(e, value)), "candidate_verify_task_evidence", "evidence", Some(evidenceId))
  }

  function VerifyEvidence(s: State, taskId: string, evidenceId: string, value: Option<string>, clock: Clock): State {
    var i := TaskAt(s.tasks, taskId);
    if i == |s.tasks| then s else Decided(s, i, Verifying(s.tasks[i], evidenceId, value), clock)
  }

  // ---------------------------------------------------------------------------------------
  // Submissions
  // ---------------------------------------------------------------------------------------

  function StartOperation(s: State, taskId: string, actionCode: string, existing: Option<string>, clock: Clock): State {
    var i := TaskAt(s.tasks, taskId);
    if i == |s.tasks| then s
    else
      var n := if existing.None? then s.sequence + 1 else s.sequence;
      var sub := EMPTY_SUBMISSION.(actionCode := Some(actionCode), stage := Sending,
                                   operationId := Some(existing.GetOr(NextId("op", clock, s.sequence + 1))));
      s.(submissions := s.submissions[taskId := sub], sequence := n,
          containers := ShowStage(s.containers, s.tasks[i], Sending))
  }

  function MarkReceived(s: State, taskId: string, clock: Clock): State {
    var i := TaskAt(s.tasks, taskId);
    if i == |s.tasks| || taskId !in s.submissions then s
    else
      var sub := s.submissions[taskId];
      var n := if sub.traceId.None? then s.sequence + 1 else s.sequence;
      s.(submissions := s.submissions[taskId := sub.(
           stage := Received, traceId := Some(sub.traceId.GetOr(NextId("tr", clock, s.sequence + 1))),
           receivedAt := Some(sub.receivedAt.GetOr(clock.time)), canRetry := false)],
         sequence := n, containers := ShowStage(s.containers, s.tasks[i], Received))
  }

  function MarkAccepted(s: State, taskId: string, intent: Intent, clock: Clock): State {
    var i := TaskAt(s.tasks, taskId);
    if i == |s.tasks| || taskId !in s.submissions then s
    else
      var t := if intent.Complete? then s.tasks[i].(status := Reported) else s.tasks[i];
      s.(submissions :=
           s.submissions[taskId := s.submissions[taskId].(stage := Accepted, acceptedAt := Some(clock.time))],
         tasks := s.tasks[i := t],
         containers := ShowStage(if intent.Complete? then ShowTask(s.containers, t) else s.containers, t, Accepted))
  }

  function MarkNode(n: Node, rule: Rule, eventCode: string, clock: Clock): Node {
    var m := n.(isCurrent := n.key == rule.nodeKey);
    if n.key == rule.nodeKey then m.(phase := Done, attention := "", actual := clock.time, evidence := eventCode)
    else if n.key == rule.nextNodeKey && n.phase.Pending? then m.(attention := "current")
    else m
  }

  function MarkRail(rail: seq<Node>, rule: Rule, eventCode: string, clock: Clock): seq<Node> {
    seq(|rail|, i requires 0 <= i < |rail| => MarkNode(rail[i], rule, eventCode, clock))
  }

  /** `applyContainerEvent`, or None where it returns false. */
  function ApplyEvent(cs: seq<Container>, t: Task, eventCode: string, ref: string, clock: Clock): Option<seq<Container>>
  {
    var i, rule := ContainerAt(cs, t.containerId), RuleFor(eventCode);
    if i == |cs| || rule.None? || cs[i].status != rule.value.from then None
    else
      Some(cs[i := cs[i].(
        status := rule.value.to, changedAt := clock.time, currentNode := t.nodeName,
        rail := MarkRail(cs[i].rail, rule.value, eventCode, clock),
        timeline := cs[i].timeline + [Entry(eventCode, clock.time, t.id, ref)])])
  }

  /** The event a task's result puts on its container, if any. */
  function Advance(t: Task): Option<string> {
    if t.advancesContainer && t.resultEventCode.GetOr("") != "" then t.resultEventCode else None
  }

  /** What both ends of `commitTaskResult` update. */
  function Concluded(s: State, i: nat, t: Task, sub: Submission, payload: Option<string>): State
    requires i < |s.tasks|
  {
    s.(tasks := s.tasks[i := t], submissions := s.submissions[t.id := sub],
       containers := ShowStage(ShowTask(s.containers, t), t, sub.stage),
       operations := Recorded(s.operations, t, sub, payload))
  }

  function RejectResult(s: State, i: nat, sub: Submission): State
    requires i < |s.tasks|
  {
    Concluded(s, i, s.tasks[i].(status := InProgress),
              sub.(stage := Rejected, errorCode := Some("CONTAINER_VERSION_CONFLICT"), canRetry := false), None)
  }

  function AcceptResult(s: State, i: nat, sub: Submission, actionCode: string, ref: string, clock: Clock): State
    requires i < |s.tasks|
  {
    var t := s.tasks[i].(status := if s.tasks[i].waitsForOthers then WaitingExternal else Completed);
    Concluded(s, i, t, sub.(stage := Committed, committedAt := Some(clock.time), resultRef := Some(ref),
                            resultEventCode := t.resultEventCode, errorCode := None, canRetry := false),
                            Some(actionCode))
  }

  /** The containers once the result is put on them, or None where that is refused. */
  function WithResult(cs: seq<Container>, t: Task, ref: string, clock: Clock): Option<seq<Container>> {
    match Advance(t)
    case None => Some(cs)
    case Some(eventCode) => ApplyEvent(cs, t, eventCode, ref, clock)
  }

  /** The two ends of a result: put on its container, or refused there. */
  function Ended(s: State, done: bool, i: nat, sub: Submission, actionCode: string, ref: string, clock: Clock): State
    requires i < |s.tasks|
  {
    if done then AcceptResult(s, i, sub, actionCode, ref, clock) else RejectResult(s, i, sub)
  }

  /** A result id is drawn, and its event put on the container if it may be. */
  function Drawn(s: State, result: Option<seq<Container>>): State {
    s.(sequence := s.sequence + 1, containers := result.GetOr(s.containers))
  }

  function CommitTaskResult(s: State, taskId: string, actionCode: string, clock: Clock): (State, bool) {
    var i := TaskAt(s.tasks, taskId);
    if i == |s.tasks| || taskId !in s.submissions then (s, false)
    else
      var ref := NextId("result", clock, s.sequence + 1);
      var result := WithResult(s.containers, s.tasks[i], ref, clock);
      (Ended(Drawn(s, result), result.Some?, i, s.submissions[taskId], actionCode, ref, clock), result.Some?)
  }

  predicate Closed(t: Task) {
    t.status.Completed? || t.status.WaitingExternal?
  }

  function Blocking(t: Task): Task {
    if Closed(t) then t else t.(status := Blocked)
  }

  function CommitException(s: State, taskId: string, detail: string, clock: Clock): State {
    var i := TaskAt(s.tasks, taskId);
    if i == |s.tasks| || taskId !in s.submissions then s
    else
      var t, ref := Blocking(s.tasks[i]), NextId("exception", clock, s.sequence + 1);
      var sub := s.submissions[taskId].(stage := Committed, committedAt := Some(clock.time), resultRef := Some(ref),
          canRetry := false);
      s.(tasks := s.tasks[i := t], submissions := s.submissions[taskId := sub], sequence := s.sequence + 1,
         exceptions := s.exceptions + [
           Report(ExceptionId(s.sequence + 1), t.containerId, t.id, detail, t.assignee.GetOr(UNASSIGNED), Some(ref))],
         containers := ShowStage(if Closed(s.tasks[i]) then s.containers else ShowTask(s.containers, t), t, Committed),
         operations := Recorded(s.operations, t, sub, Some(detail)))
  }

  function MarkRetryable(s: State, taskId: string): State {
    var i := TaskAt(s.tasks, taskId);
    if i == |s.tasks| || taskId !in s.submissions then s
    else
      s.(submissions := s.submissions[taskId := s.submissions[taskId].(canRetry := true)],
         containers := ShowStage(s.containers, s.tasks[i], s.submissions[taskId].stage))
  }
}
