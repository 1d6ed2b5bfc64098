/** The tasks a workspace shows, which of them is active, and the evidence typed in for them. */
module LiveWorkspaceTasks {
  import opened Wrappers
  import opened LiveWorkspace
  import opened LiveWorkspaceRuns

  // ---------------------------------------------------------------------------------------
  // The tasks
  // ---------------------------------------------------------------------------------------

  /** The detail at `k` is the one the task shows. */
  predicate ShownAt(ds: seq<Detail>, k: nat, t: Task) {
    k < |ds| && ds[k].containerId != "" && t.taskId == ds[k].id && t.containerId == ds[k].containerId
  }

  ghost predicate AllShown(ds: seq<Detail>, ts: seq<Task>, at: seq<nat>) {
    |at| == |ts| && forall i | 0 <= i < |ts| :: ShownAt(ds, at[i], ts[i])
  }

  ghost predicate Ascending(at: seq<nat>) {
    forall i, j | 0 <= i < j < |at| :: at[i] < at[j]
  }

  ghost predicate Covers(ds: seq<Detail>, at: seq<nat>) {
    forall k | 0 <= k < |ds| && ds[k].containerId != "" :: k in at
  }

  /** One task for each detail that names a container, in their order: `at` says which is which. */
  ghost predicate ShowsDetails(ds: seq<Detail>, ts: seq<Task>, at: seq<nat>) {
    AllShown(ds, ts, at) && Ascending(at) && Covers(ds, at)
  }

  function Later(at: seq<nat>): seq<nat> {
    seq(|at|, i requires 0 <= i < |at| => at[i] + 1)
  }

  /** Where the details that name a container are. */
  function Positions(ds: seq<Detail>): seq<nat> {
    if ds == [] then [] else (if ds[0].containerId == "" then [] else [0]) + Later(Positions(ds[1..]))
  }

  lemma {:induction false} OnePositionEach(ds: seq<Detail>)
    ensures |Positions(ds)| == |TasksOf(ds)|
  {
    if ds != [] {
      OnePositionEach(ds[1..]);
    }
  }

  lemma {:induction false} PositionShown(ds: seq<Detail>, i: nat)
    requires i < |TasksOf(ds)| && i < |Positions(ds)|
    ensures ShownAt(ds, Positions(ds)[i], TasksOf(ds)[i])
  {
    var first := if ds[0].containerId == "" then 0 else 1;
    if i >= first {
      OnePositionEach(ds[1..]);
      PositionShown(ds[1..], i - first);
      assert TasksOf(ds)[i] == TasksOf(ds[1..])[i - first];
      assert Positions(ds)[i] == Positions(ds[1..])[i - first] + 1;
    }
  }

  lemma {:induction false} PositionsAscend(ds: seq<Detail>)
    ensures Ascending(Positions(ds))
  {
    if ds != [] {
      PositionsAscend(ds[1..]);
    }
  }

  lemma LaterHas(at: seq<nat>, k: nat)
    requires k in at
    ensures k + 1 in Later(at)
  {
    var i :| 0 <= i < |at| && at[i] == k;
    assert Later(at)[i] == k + 1;
  }

  lemma {:induction false} PositionsCover(ds: seq<Detail>, k: nat)
    requires k < |ds| && ds[k].containerId != ""
    ensures k in Positions(ds)
  {
    if k > 0 {
      PositionsCover(ds[1..], k - 1);
      LaterHas(Positions(ds[1..]), k - 1);
    }
  }

  lemma TasksShow(ds: seq<Detail>)
    ensures ShowsDetails(ds, TasksOf(ds), Positions(ds))
  {
    OnePositionEach(ds);
    forall i | 0 <= i < |TasksOf(ds)| ensures ShownAt(ds, Positions(ds)[i], TasksOf(ds)[i]) {
      PositionShown(ds, i);
    }
    PositionsAscend(ds);
    forall k | 0 <= k < |ds| && ds[k].containerId != "" ensures k in Positions(ds) {
      PositionsCover(ds, k);
    }
  }

  lemma BareShows(ds: seq<Detail>, ts: seq<Task>, at: seq<nat>)
    requires ShowsDetails(ds, Bare(ts), at)
    ensures ShowsDetails(ds, ts, at)
  {
    forall i | 0 <= i < |ts| ensures ShownAt(ds, at[i], ts[i]) {
      assert ShownAt(ds, at[i], Bare(ts)[i]);
    }
  }

  /** In every reachable state the tasks are the listed details that name a container, in their order. */
  lemma TasksAreTheDetails(es: seq<Event>, t: System) returns (at: seq<nat>)
    requires Run(START, es, t)
    ensures ShowsDetails(t.w.details, t.w.tasks, at)
  {
    RunKeepsInv(START, es, t);
    at := Positions(t.w.details);
    TasksShow(t.w.details);
    BareShows(t.w.details, t.w.tasks, at);
  }

  // ---------------------------------------------------------------------------------------
  // The active one
  // ---------------------------------------------------------------------------------------

  /** The step puts a new list in place. */
  predicate Rebuilds(w: Workspace, e: Event) {
    || (e.ReloadReply? && e.request.generation == w.generation)
    || (e.ContainersReply? && !e.request.ReloadRequest? && e.request.generation == w.generation
        && e.request.filter == w.filter && w.nextCursor == Some(e.request.cursor))
  }

  predicate ActiveAfter(w: Workspace, e: Event, v: Workspace) {
    if e.Select? then
      v.activeTaskId == (if !e.submitting && Listed(w.tasks, e.taskId) then e.taskId else w.activeTaskId)
    else if Listed(v.tasks, w.activeTaskId) then v.activeTaskId == w.activeTaskId
    else v.activeTaskId == (if v.tasks == [] then "" else v.tasks[0].taskId)
  }

  lemma ReloadKeepsActive(s: System, e: Event)
    requires Enabled(s, e) && TasksInv(s.w) && e.ReloadReply?
    ensures ActiveAfter(s.w, e, Step(s, e).w)
  {
  }

  lemma PageKeepsActive(s: System, e: Event)
    requires Enabled(s, e) && TasksInv(s.w) && e.ContainersReply?
    ensures ActiveAfter(s.w, e, Step(s, e).w)
  {
  }

  lemma VerifyKeepsActive(s: System, e: Event)
    requires TasksInv(s.w) && e.Verify?
    ensures ActiveAfter(s.w, e, Step(s, e).w)
  {
    CaptureKeepsTasks(s.w, e.value);
    assert VerifyEvidence(s.w, e.value).activeTaskId == s.w.activeTaskId;
  }

  lemma RestKeepsActive(s: System, e: Event)
    requires Enabled(s, e) && TasksInv(s.w) && !e.ReloadReply? && !e.ContainersReply? && !e.Verify?
    ensures ActiveAfter(s.w, e, Step(s, e).w)
  {
    assert Step(s, e).w.tasks == s.w.tasks;
  }

  /**
   While the active task stays listed it changes only by a selection, and then to the selected task.
   When it is no longer listed, the first task of the new list is active, or none.
   */
  lemma ActiveTaskStays(es: seq<Event>, s: System, e: Event)
    requires Run(START, es, s) && Enabled(s, e)
    ensures
      var w, v := s.w, Step(s, e).w;
      if e.Select? then
        v.activeTaskId == (if !e.submitting && Listed(w.tasks, e.taskId) then e.taskId else w.activeTaskId)
      else if Listed(v.tasks, w.activeTaskId) then v.activeTaskId == w.activeTaskId
      else v.activeTaskId == (if v.tasks == [] then "" else v.tasks[0].taskId)
  {
    RunKeepsInv(START, es, s);
    match e
    case ReloadReply(_, _) => ReloadKeepsActive(s, e);
    case ContainersReply(_, _) => PageKeepsActive(s, e);
    case Verify(_) => VerifyKeepsActive(s, e);
    case _ => RestKeepsActive(s, e);
  }

  // ---------------------------------------------------------------------------------------
  // The evidence typed in
  // ---------------------------------------------------------------------------------------

  ghost predicate NothingCaptured(ts: seq<Task>) {
    forall t | t in ts :: t.captured == None
  }

  lemma {:induction false} TasksBegin(ds: seq<Detail>)
    ensures NothingCaptured(TasksOf(ds))
  {
    if ds != [] {
      TasksBegin(ds[1..]);
    }
  }

  /** The value was recorded on the task `id`, and nowhere else. */
  predicate Recorded(ts: seq<Task>, id: string, value: Option<string>, us: seq<Task>) {
    |us| == |ts| && forall i | 0 <= i < |ts| ::
      us[i] == if ts[i].taskId == id then ts[i].(captured := value) else ts[i]
  }

  lemma RebuildBegins(s: System, e: Event)
    requires Enabled(s, e) && Rebuilds(s.w, e)
    ensures NothingCaptured(Step(s, e).w.tasks)
  {
    TasksBegin(Step(s, e).w.details);
  }

  lemma DroppedReplyKeepsEvidence(s: System, e: Event)
    requires Enabled(s, e) && !Rebuilds(s.w, e) && (e.ReloadReply? || e.ContainersReply?)
    ensures Step(s, e).w.tasks == s.w.tasks
  {
  }

  lemma RestKeepsEvidence(s: System, e: Event)
    requires Enabled(s, e) && !e.ReloadReply? && !e.ContainersReply? && !e.Verify?
    ensures Step(s, e).w.tasks == s.w.tasks
  {
    AsksKeepTasks(s.w);
    if e.PageReply? {
      PageReplyKeepsTasks(s.w, e.request, e.page);
    }
  }

  lemma AsksKeepTasks(w: Workspace)
    ensures Reload(w).0.tasks == w.tasks && LoadMore(w).0.tasks == w.tasks
  {
  }

  lemma PageReplyKeepsTasks(w: Workspace, r: Waiting, page: Option<Page>)
    requires r.PageRequest?
    ensures PageArrived(w, r, page).0.tasks == w.tasks
  {
  }

  lemma VerifyRecords(s: System, e: Event)
    requires TasksInv(s.w) && e.Verify?
    ensures Recorded(s.w.tasks, s.w.activeTaskId, e.value, Step(s, e).w.tasks)
  {
  }

  /** Evidence is recorded on the active task only, and lost only when a new list is put in place. */
  lemma EvidenceStays(es: seq<Event>, s: System, e: Event)
    requires Run(START, es, s) && Enabled(s, e)
    ensures
      var ts, us := s.w.tasks, Step(s, e).w.tasks;
      if Rebuilds(s.w, e) then NothingCaptured(us)
      else if e.Verify? then Recorded(ts, s.w.activeTaskId, e.value, us)
      else us == ts
  {
    RunKeepsInv(START, es, s);
    if Rebuilds(s.w, e) {
      RebuildBegins(s, e);
    } else if e.Verify? {
      VerifyRecords(s, e);
    } else if e.ReloadReply? || e.ContainersReply? {
      DroppedReplyKeepsEvidence(s, e);
    } else {
      RestKeepsEvidence(s, e);
    }
  }
}
