/**
 `useLiveWorkspace`: the list of tasks, its cursor and its flags, with `reload` and `loadMore` cut at
 their awaits. A request that is waiting is a value holding what its function captured.
 */
module LiveWorkspace {
  import opened Wrappers

  datatype Detail = Detail(id: string, containerId: string)
  datatype Page = Page(items: seq<Detail>, nextCursor: Option<string>, hasNextPage: bool)
  datatype Task = Task(taskId: string, containerId: string, captured: Option<string>)

  datatype Waiting =
    | ReloadRequest(generation: nat, filter: string)
    | PageRequest(generation: nat, filter: string, cursor: string)
    | ContainersRequest(generation: nat, filter: string, cursor: string, page: Page, added: seq<Detail>)

  datatype Workspace = Workspace(
    filter: string, generation: nat, summaries: seq<string>, details: seq<Detail>, tasks: seq<Task>,
    nextCursor: Option<string>, hasMore: bool, loading: bool, loadingMore: bool,
    failed: bool, moreFailed: bool, activeTaskId: string)

  const INITIAL := Workspace("", 0, [], [], [], None, false, true, false, false, false, "")

  function TasksOf(ds: seq<Detail>): seq<Task> {
    if ds == [] then []
    else (if ds[0].containerId == "" then [] else [Task(ds[0].id, ds[0].containerId, None)]) + TasksOf(ds[1..])
  }

  predicate Listed(ts: seq<Task>, id: string) {
    exists i :: 0 <= i < |ts| && ts[i].taskId == id
  }

  function Rebuild(w: Workspace, summaries: seq<string>, details: seq<Detail>): Workspace {
    var tasks := TasksOf(details);
    w.(summaries := summaries, details := details, tasks := tasks,
       activeTaskId := if Listed(tasks, w.activeTaskId) then w.activeTaskId
                       else if tasks == [] then "" else tasks[0].taskId)
  }

  function RememberPage(w: Workspace, p: Page): Workspace {
    w.(nextCursor := p.nextCursor,
       hasMore := p.hasNextPage && p.nextCursor.Some? && p.nextCursor.value != "")
  }

  function Reload(w: Workspace): (Workspace, Waiting) {
    var v := w.(generation := w.generation + 1, loading := true, failed := false, moreFailed := false,
                loadingMore := false, hasMore := false, nextCursor := None);
    (v, ReloadRequest(v.generation, v.filter))
  }

  function Scoped(filter: string, containers: seq<string>): seq<string> {
    if filter == "" || containers == [] then containers
    else (if containers[0] == filter then [filter] else []) + Scoped(filter, containers[1..])
  }

  lemma {:induction false} ScopedTo(filter: string, containers: seq<string>)
    ensures forall c :: c in Scoped(filter, containers) <==> c in containers && (filter == "" || c == filter)
  {
    if containers != [] {
      ScopedTo(filter, containers[1..]);
      assert containers == [containers[0]] + containers[1..];
    }
  }

  /** `reply` is None when either of the two reads failed. */
  function Reloaded(w: Workspace, r: Waiting, reply: Option<(seq<string>, Page)>): Workspace
    requires r.ReloadRequest?
  {
    if r.generation != w.generation then w
    else
      match reply
      case None => Rebuild(w.(failed := true), [], []).(loading := false)
      case Some((containers, page)) =>
        RememberPage(Rebuild(w, Scoped(r.filter, containers), page.items), page).(loading := false)
  }

  function LoadMore(w: Workspace): (Workspace, Option<Waiting>) {
    if !w.hasMore || w.nextCursor.None? || w.nextCursor.value == "" || w.loadingMore || w.loading then (w, None)
    else
      (w.(loadingMore := true, moreFailed := false),
       Some(PageRequest(w.generation, w.filter, w.nextCursor.value)))
  }

  /** `isCurrentPageRequest()` */
  predicate Current(w: Workspace, r: Waiting)
    requires !r.ReloadRequest?
  {
    r.generation == w.generation && r.filter == w.filter && w.nextCursor == Some(r.cursor)
  }

  /** The items whose ids are not among `known`. */
  function Unknown(items: seq<Detail>, known: seq<Detail>): (r: seq<Detail>)
    ensures forall d :: d in r <==> d in items && forall k | k in known :: k.id != d.id
  {
    if items == [] then []
    else if exists k | k in known :: k.id == items[0].id then Unknown(items[1..], known)
    else [items[0]] + Unknown(items[1..], known)
  }

  function PageArrived(w: Workspace, r: Waiting, reply: Option<Page>): (Workspace, Option<Waiting>)
    requires r.PageRequest?
  {
    if !Current(w, r) then (w, None)
    else
      match reply
      case None => (w.(moreFailed := true, loadingMore := false), None)
      case Some(page) =>
        (w, Some(ContainersRequest(r.generation, r.filter, r.cursor, page, Unknown(page.items, w.details))))
  }

  /** `extras` are the containers that could be read. */
  function ContainersArrived(w: Workspace, r: Waiting, extras: seq<string>): Workspace
    requires r.ContainersRequest?
  {
    if !Current(w, r) then w
    else RememberPage(Rebuild(w, w.summaries + extras, w.details + r.added), r.page).(loadingMore := false)
  }

  function SelectTask(w: Workspace, id: string, submitting: bool): Workspace {
    if !submitting && Listed(w.tasks, id) then w.(activeTaskId := id) else w
  }

  /** `activeTask`: the active one, else the first. */
  function ActiveTask(w: Workspace): Option<string> {
    if Listed(w.tasks, w.activeTaskId) then Some(w.activeTaskId)
    else if w.tasks == [] then None else Some(w.tasks[0].taskId)
  }

  function Capture(ts: seq<Task>, id: string, value: Option<string>): seq<Task> {
    seq(|ts|, i requires 0 <= i < |ts| => if ts[i].taskId == id then ts[i].(captured := value) else ts[i])
  }

  function VerifyEvidence(w: Workspace, value: Option<string>): Workspace {
    match ActiveTask(w)
    case None => w
    case Some(id) => w.(tasks := Capture(w.tasks, id, value))
  }

  class LiveWorkspace {
    var containerIdFilter: string
    var reloadGeneration: nat
    var summaries: seq<string>
    var details: seq<Detail>
    var tasks: seq<Task>
    var nextCursor: Option<string>
    var hasMore: bool
    var loading: bool
    var loadingMore: bool
    var failed: bool
    var moreFailed: bool
    var activeTaskId: string

    constructor ()
      ensures View() == INITIAL
    {
      containerIdFilter, reloadGeneration, summaries, details, tasks := "", 0, [], [], [];
      nextCursor, hasMore, loading, loadingMore, failed, moreFailed := None, false, true, false, false, false;
      activeTaskId := "";
    }

    function View(): Workspace
      reads this
    {
      Workspace(containerIdFilter, reloadGeneration, summaries, details, tasks, nextCursor, hasMore,
                loading, loadingMore, failed, moreFailed, activeTaskId)
    }

    /** The request is still about the list that is shown. */
    predicate Fits(r: Waiting)
      requires !r.ReloadRequest?
      reads this
    {
      r.generation == reloadGeneration && r.filter == containerIdFilter && nextCursor == Some(r.cursor)
    }

    method RebuildLists(nextSummaries: seq<string>, nextDetails: seq<Detail>)
      modifies this
      ensures View() == Rebuild(old(View()), nextSummaries, nextDetails)
      ensures Listed(tasks, old(activeTaskId)) ==> activeTaskId == old(activeTaskId)
      ensures !Listed(tasks, old(activeTaskId)) ==> activeTaskId == if tasks == [] then "" else tasks[0].taskId
    {
      summaries, details := nextSummaries, nextDetails;
      tasks := TasksOf(nextDetails);
      if !Listed(tasks, activeTaskId) {
        activeTaskId := if tasks == [] then "" else tasks[0].taskId;
      }
    }

    method Remember(page: Page)
      modifies this
      ensures View() == RememberPage(old(View()), page)
      ensures nextCursor == page.nextCursor
      ensures hasMore <==> page.hasNextPage && page.nextCursor.Some? && page.nextCursor.value != ""
    {
      nextCursor := page.nextCursor;
      hasMore := page.hasNextPage && page.nextCursor.Some? && page.nextCursor.value != "";
    }

    method StartReload() returns (r: Waiting)
      modifies this
      ensures (View(), r) == Reload(old(View()))
      ensures r == ReloadRequest(reloadGeneration, containerIdFilter) && reloadGeneration == old(reloadGeneration) + 1
      ensures loading && !failed && !moreFailed && !loadingMore && !hasMore && nextCursor == None
      ensures (details, tasks, activeTaskId) == old((details, tasks, activeTaskId))
    {
      reloadGeneration := reloadGeneration + 1;
      loading, failed, moreFailed, loadingMore, hasMore, nextCursor := true, false, false, false, false, None;
      r := ReloadRequest(reloadGeneration, containerIdFilter);
    }

    method OnReload(r: Waiting, reply: Option<(seq<string>, Page)>)
      requires r.ReloadRequest?
      modifies this
      ensures View() == Reloaded(old(View()), r, reply)
      ensures r.generation != old(reloadGeneration) ==> View() == old(View())
      ensures r.generation == old(reloadGeneration) ==>
        !loading && (failed <==> old(failed) || reply.None?) && (reply.None? ==> summaries == [] && details == [])
      ensures r.generation == old(reloadGeneration) && reply.Some? ==>
        details == reply.value.1.items
        && forall c :: c in summaries <==> c in reply.value.0 && (r.filter == "" || c == r.filter)
    {
      if r.generation != reloadGeneration { return; }
      ScopedTo(r.filter, if reply.Some? then reply.value.0 else []);
      match reply {
        case None =>
          failed := true;
          RebuildLists([], []);
        case Some((containers, page)) =>
          RebuildLists(Scoped(r.filter, containers), page.items);
          Remember(page);
      }
      loading := false;
    }

    method StartLoadMore() returns (r: Option<Waiting>)
      modifies this
      ensures (View(), r) == LoadMore(old(View()))
      ensures r.Some? <==> old(hasMore && nextCursor.GetOr("") != "" && !loadingMore && !loading)
      ensures r.Some? ==> r == Some(PageRequest(reloadGeneration, containerIdFilter, nextCursor.GetOr("")))
      ensures r.Some? ==> View() == old(View()).(loadingMore := true, moreFailed := false)
      ensures r.None? ==> View() == old(View())
    {
      if !hasMore || nextCursor.None? || nextCursor.value == "" || loadingMore || loading { return None; }
      loadingMore, moreFailed := true, false;
      r := Some(PageRequest(reloadGeneration, containerIdFilter, nextCursor.value));
    }

    method OnPage(r: Waiting, reply: Option<Page>) returns (next: Option<Waiting>)
      requires r.PageRequest?
      modifies this
      ensures (View(), next) == PageArrived(old(View()), r, reply)
      ensures next.Some? <==> reply.Some? && old(Fits(r))
      ensures View() == if reply.None? && old(Fits(r)) then old(View()).(moreFailed := true, loadingMore := false)
                        else old(View())
    {
      next := None;
      if !Current(View(), r) { return; }
      match reply
      case None => moreFailed, loadingMore := true, false;
      case Some(page) =>
        next := Some(ContainersRequest(r.generation, r.filter, r.cursor, page, Unknown(page.items, details)));
    }

    method OnContainers(r: Waiting, extras: seq<string>)
      requires r.ContainersRequest?
      modifies this
      ensures View() == ContainersArrived(old(View()), r, extras)
      ensures !old(Fits(r)) ==> View() == old(View())
      ensures old(Fits(r)) ==>
        && summaries == old(summaries) + extras && details == old(details) + r.added
        && !loadingMore && loading == old(loading) && moreFailed == old(moreFailed) && failed == old(failed)
    {
      if !Current(View(), r) { return; }
      RebuildLists(summaries + extras, details + r.added);
      Remember(r.page);
      loadingMore := false;
    }

    method Select(taskId: string, submitting: bool)
      modifies this
      ensures View() == SelectTask(old(View()), taskId, submitting)
      ensures activeTaskId == if !submitting && Listed(tasks, taskId) then taskId else old(activeTaskId)
    {
      if submitting { return; }
      if Listed(tasks, taskId) {
        activeTaskId := taskId;
      }
    }

    method Verify(value: Option<string>)
      modifies this
      ensures View() == VerifyEvidence(old(View()), value)
    {
      var active := ActiveTask(View());
      if active.None? { return; }
      var next := [];
      for i := 0 to |tasks|
        invariant next == Capture(tasks, active.value, value)[..i]
        invariant View() == old(View())
      {
        next := next + [if tasks[i].taskId == active.value then tasks[i].(captured := value) else tasks[i]];
      }
      tasks := next;
    }
  }
}
