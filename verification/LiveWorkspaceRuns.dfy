/**
 Every interleaving of reloads, further pages and their late replies. The server is unknown; it
 only never lists an id twice on one page. As the page wires it, a changed filter is followed by
 a reload before more is loaded.
 */
module LiveWorkspaceRuns {
  import opened Wrappers
  import opened LiveWorkspace

  /** A page that was applied: the request it answers and what it held. */
  datatype Applied = Applied(generation: nat, filter: string, cursor: Option<string>, page: Page)

  /**
   `waiting` are the requests in flight, `applied` the pages the list was built from since it was
   last emptied, `stale` whether the filter has changed since the last reload.
   */
  datatype System = System(w: Workspace, waiting: multiset<Waiting>, applied: seq<Applied>, stale: bool)

  const START := System(INITIAL, multiset{}, [], true)

  datatype Event =
    | FilterChange(filter: string)
    | StartReload
    | ReloadReply(request: Waiting, containersAndPage: Option<(seq<string>, Page)>)
    | StartLoadMore
    | PageReply(request: Waiting, page: Option<Page>)
    | ContainersReply(request: Waiting, extras: seq<string>)
    | Select(taskId: string, submitting: bool)
    | Verify(value: Option<string>)

  ghost predicate DistinctIds(ds: seq<Detail>) {
    forall i, j | 0 <= i < j < |ds| :: ds[i].id != ds[j].id
  }

  ghost predicate Enabled(s: System, e: Event) {
    match e
    case ReloadReply(r, reply) =>
      r in s.waiting && r.ReloadRequest? && (reply.Some? ==> DistinctIds(reply.value.1.items))
    case StartLoadMore => !s.stale
    case PageReply(r, page) => r in s.waiting && r.PageRequest? && (page.Some? ==> DistinctIds(page.value.items))
    case ContainersReply(r, _) => r in s.waiting && r.ContainersRequest?
    case _ => true
  }

  function Add(waiting: multiset<Waiting>, r: Option<Waiting>): multiset<Waiting> {
    if r.Some? then waiting[r.value := waiting[r.value] + 1] else waiting
  }

  function Remove(waiting: multiset<Waiting>, r: Waiting): multiset<Waiting> {
    if r in waiting then waiting[r := waiting[r] - 1] else waiting
  }

  ghost function Step(s: System, e: Event): System
    requires Enabled(s, e)
  {
    match e
    case FilterChange(f) => s.(w := s.w.(filter := f), stale := true)
    case StartReload =>
      var (w, r) := Reload(s.w);
      s.(w := w, waiting := Add(s.waiting, Some(r)), stale := false)
    case ReloadReply(r, reply) =>
      s.(w := Reloaded(s.w, r, reply), waiting := Remove(s.waiting, r),
         applied := if r.generation != s.w.generation then s.applied
                    else if reply.None? then []
                    else [Applied(r.generation, r.filter, None, reply.value.1)])
    case StartLoadMore =>
      var (w, r) := LoadMore(s.w);
      s.(w := w, waiting := Add(s.waiting, r))
    case PageReply(r, page) =>
      var (w, next) := PageArrived(s.w, r, page);
      s.(w := w, waiting := Add(Remove(s.waiting, r), next))
    case ContainersReply(r, extras) =>
      s.(w := ContainersArrived(s.w, r, extras), waiting := Remove(s.waiting, r),
         applied := if Current(s.w, r) then s.applied + [Applied(r.generation, r.filter, Some(r.cursor), r.page)]
                    else s.applied)
    case Select(id, submitting) => s.(w := SelectTask(s.w, id, submitting))
    case Verify(value) => s.(w := VerifyEvidence(s.w, value))
  }

  ghost predicate Run(s: System, es: seq<Event>, t: System)
    decreases |es|
  {
    if es == [] then s == t else Enabled(s, es[0]) && Run(Step(s, es[0]), es[1..], t)
  }

  // ---------------------------------------------------------------------------------------
  // A consistent view
  // ---------------------------------------------------------------------------------------

  /** The list a chain of pages gives: each page adds the items whose ids it does not hold yet. */
  function Merged(ps: seq<Applied>): seq<Detail> {
    if ps == [] then []
    else
      var before := Merged(ps[..|ps| - 1]);
      before + Unknown(ps[|ps| - 1].page.items, before)
  }

  /** One first page and its successors by cursor, all asked for in one generation with one filter. */
  predicate Chain(ps: seq<Applied>) {
    && (forall i | 0 <= i < |ps| :: ps[i].generation == ps[0].generation && ps[i].filter == ps[0].filter)
    && (|ps| > 0 ==> ps[0].cursor == None)
    && (forall i | 0 < i < |ps| :: ps[i].cursor == ps[i - 1].page.nextCursor && ps[i].cursor.Some?)
  }

  ghost predicate ContentInv(s: System) {
    s.w.details == Merged(s.applied) && Chain(s.applied) && DistinctIds(s.w.details)
  }

  /** Tasks as the pages brought them, without the evidence typed in since. */
  function Bare(ts: seq<Task>): seq<Task> {
    seq(|ts|, i requires 0 <= i < |ts| => ts[i].(captured := None))
  }

  /** Its tasks are the listed details that name a container; the active one is listed, or there is none. */
  ghost predicate TasksInv(w: Workspace) {
    && Bare(w.tasks) == TasksOf(w.details)
    && (if w.tasks == [] then w.activeTaskId == "" else Listed(w.tasks, w.activeTaskId))
  }

  /** The server has a further page, and says how to ask for it. */
  predicate GoesOn(p: Page) {
    p.hasNextPage && p.nextCursor.Some? && p.nextCursor.value != ""
  }

  ghost predicate CursorInv(s: System) {
    && (s.w.hasMore ==> s.w.nextCursor.Some? && s.w.nextCursor.value != "")
    && (s.w.loading ==> s.w.nextCursor == None && !s.w.loadingMore)
    && (!s.w.loading && s.applied != [] ==>
          s.applied[0].generation == s.w.generation && s.w.nextCursor == s.applied[|s.applied| - 1].page.nextCursor)
    && (s.applied == [] ==> s.w.nextCursor == None)
    && (s.w.hasMore <==> !s.w.loading && s.applied != [] && GoesOn(s.applied[|s.applied| - 1].page))
  }

  predicate PageOf(r: Waiting, g: nat) {
    !r.ReloadRequest? && r.generation == g
  }

  predicate ReloadOf(r: Waiting, g: nat) {
    r.ReloadRequest? && r.generation == g
  }

  /** At most one further page is on its way in the present generation, and exactly while the flag says so. */
  ghost predicate FlagInv(s: System) {
    && (forall r | r in s.waiting && PageOf(r, s.w.generation) :: s.waiting[r] == 1 && s.w.loadingMore)
    && (forall q, r | q in s.waiting && r in s.waiting && PageOf(q, s.w.generation) && PageOf(r, s.w.generation) ::
          q == r)
    && (!s.stale && s.w.loadingMore ==> exists r :: r in s.waiting && PageOf(r, s.w.generation))
  }

  /** Exactly one reload is on its way in the present generation, exactly while the flag says so. */
  ghost predicate LoadingInv(s: System) {
    && (forall r | r in s.waiting :: r.generation <= s.w.generation)
    && (forall r | r in s.waiting && ReloadOf(r, s.w.generation) :: s.waiting[r] == 1 && s.w.loading)
    && (forall q, r | q in s.waiting && r in s.waiting && ReloadOf(q, s.w.generation) && ReloadOf(r, s.w.generation) ::
          q == r)
    && (!s.stale && s.w.loading ==> exists r :: r in s.waiting && ReloadOf(r, s.w.generation))
  }

  /** What a further page has captured still fits the list. */
  ghost predicate Fits(s: System, r: Waiting)
    requires !r.ReloadRequest?
  {
    && s.w.nextCursor == Some(r.cursor)
    && s.applied != [] && r.filter == s.applied[0].filter
    && (r.ContainersRequest? ==> r.added == Unknown(r.page.items, s.w.details) && DistinctIds(r.page.items))
  }

  ghost predicate CapturedInv(s: System) {
    forall r | r in s.waiting && PageOf(r, s.w.generation) :: Fits(s, r)
  }

  ghost predicate FilterInv(s: System) {
    !s.stale ==>
      && (forall r | r in s.waiting && ReloadOf(r, s.w.generation) :: r.filter == s.w.filter)
      && (!s.w.loading && s.applied != [] ==> s.applied[0].filter == s.w.filter)
  }

  ghost predicate Inv(s: System) {
    ContentInv(s) && TasksInv(s.w) && CursorInv(s) && FlagInv(s) && LoadingInv(s) && CapturedInv(s) && FilterInv(s)
  }

  // ---------------------------------------------------------------------------------------
  // Every step keeps it
  // ---------------------------------------------------------------------------------------

  lemma {:induction false} UnknownDistinct(items: seq<Detail>, known: seq<Detail>)
    requires DistinctIds(items)
    ensures DistinctIds(Unknown(items, known))
  {
    if items != [] {
      assert DistinctIds(items[1..]);
      UnknownDistinct(items[1..], known);
      var rest := Unknown(items[1..], known);
      forall d | d in rest ensures d.id != items[0].id {
        var k :| 0 <= k < |items[1..]| && items[1..][k] == d;
        assert items[k + 1] == d;
      }
    }
  }

  lemma AppendedDistinct(details: seq<Detail>, items: seq<Detail>)
    requires DistinctIds(details) && DistinctIds(items)
    ensures DistinctIds(details + Unknown(items, details))
  {
    UnknownDistinct(items, details);
    var all, added := details + Unknown(items, details), Unknown(items, details);
    forall i, j | 0 <= i < j < |all|
      ensures all[i].id != all[j].id
    {
      if i < |details| && j >= |details| {
        assert added[j - |details|] in added && details[i] in details;
      }
    }
  }

  lemma {:induction false} UnknownOfNothing(items: seq<Detail>)
    ensures Unknown(items, []) == items
  {
    if items != [] {
      UnknownOfNothing(items[1..]);
    }
  }

  lemma FirstPage(p: Applied)
    requires p.cursor == None
    ensures Merged([p]) == p.page.items && Chain([p])
  {
    assert [p][..0] == [];
    UnknownOfNothing(p.page.items);
  }

  lemma MergedNext(ps: seq<Applied>, p: Applied)
    ensures Merged(ps + [p]) == Merged(ps) + Unknown(p.page.items, Merged(ps))
  {
    assert (ps + [p])[..|ps|] == ps;
  }

  lemma ChainNext(ps: seq<Applied>, p: Applied)
    requires ps != [] && Chain(ps) && p.generation == ps[0].generation && p.filter == ps[0].filter
    requires p.cursor.Some? && p.cursor == ps[|ps| - 1].page.nextCursor
    ensures Chain(ps + [p])
  {
    var qs := ps + [p];
    forall i | 0 < i < |qs|
      ensures qs[i].cursor == qs[i - 1].page.nextCursor && qs[i].cursor.Some?
    {
      assert i < |ps| ==> ps[i].cursor == ps[i - 1].page.nextCursor;
    }
  }

  lemma {:induction false} TasksAreBare(ds: seq<Detail>)
    ensures Bare(TasksOf(ds)) == TasksOf(ds)
  {
    if ds != [] {
      TasksAreBare(ds[1..]);
      var rest := TasksOf(ds[1..]);
      forall i | 0 <= i < |TasksOf(ds)| ensures TasksOf(ds)[i].captured == None {
        var rest := TasksOf(ds[1..]);
        assert forall k | 0 <= k < |rest| :: Bare(rest)[k] == rest[k];
      }
    }
  }

  lemma RebuildKeepsTasks(w: Workspace, summaries: seq<string>, details: seq<Detail>)
    ensures TasksInv(Rebuild(w, summaries, details))
  {
    TasksAreBare(details);
  }

  lemma CaptureKeepsTasks(w: Workspace, value: Option<string>)
    requires TasksInv(w)
    ensures TasksInv(VerifyEvidence(w, value))
  {
    var v := VerifyEvidence(w, value);
    assert forall i | 0 <= i < |w.tasks| :: v.tasks[i].taskId == w.tasks[i].taskId;
    assert Bare(v.tasks) == Bare(w.tasks);
    if w.tasks != [] {
      var i :| 0 <= i < |w.tasks| && w.tasks[i].taskId == w.activeTaskId;
      assert v.tasks[i].taskId == v.activeTaskId;
    }
  }

  lemma FilterChangeKeepsInv(s: System, e: Event)
    requires Inv(s) && e.FilterChange?
    ensures Inv(Step(s, e))
  {
  }

  lemma SelectKeepsInv(s: System, e: Event)
    requires Inv(s) && e.Select?
    ensures Inv(Step(s, e))
  {
  }

  lemma VerifyKeepsInv(s: System, e: Event)
    requires Inv(s) && e.Verify?
    ensures Inv(Step(s, e))
  {
    CaptureKeepsTasks(s.w, e.value);
    assert VerifyEvidence(s.w, e.value) == s.w.(tasks := VerifyEvidence(s.w, e.value).tasks);
  }

  lemma StartReloadKeepsInv(s: System, e: Event)
    requires Inv(s) && e.StartReload?
    ensures Inv(Step(s, e))
  {
    var t := Step(s, e);
    assert ReloadOf(Reload(s.w).1, t.w.generation) && Reload(s.w).1 in t.waiting;
  }

  lemma StartLoadMoreKeepsInv(s: System, e: Event)
    requires Inv(s) && Enabled(s, e) && e.StartLoadMore?
    ensures Inv(Step(s, e))
  {
    var r := LoadMore(s.w).1;
    if r.Some? {
      assert PageOf(r.value, s.w.generation) && r.value in Step(s, e).waiting;
    }
  }

  lemma StaleReloadKeepsInv(s: System, e: Event)
    requires Inv(s) && Enabled(s, e) && e.ReloadReply? && e.request.generation != s.w.generation
    ensures Inv(Step(s, e))
  {
    var t := Step(s, e);
    assert forall r | PageOf(r, s.w.generation) || ReloadOf(r, s.w.generation) :: r in t.waiting <==> r in s.waiting;
  }

  lemma FailedReloadKeepsInv(s: System, e: Event)
    requires Inv(s) && Enabled(s, e) && e.ReloadReply? && e.request.generation == s.w.generation
    requires e.containersAndPage.None?
    ensures Inv(Step(s, e))
  {
    RebuildKeepsTasks(s.w.(failed := true), [], []);
  }

  lemma ReloadKeepsInv(s: System, e: Event)
    requires Inv(s) && Enabled(s, e) && e.ReloadReply? && e.request.generation == s.w.generation
    requires e.containersAndPage.Some?
    ensures Inv(Step(s, e))
  {
    var (containers, page) := e.containersAndPage.value;
    RebuildKeepsTasks(s.w, Scoped(e.request.filter, containers), page.items);
    FirstPage(Applied(e.request.generation, e.request.filter, None, page));
  }

  /** A reply that no longer fits is dropped; the filter has then changed, or a reload was started. */
  lemma DroppedKeepsInv(s: System, r: Waiting)
    requires Inv(s) && r in s.waiting && !r.ReloadRequest? && !Current(s.w, r)
    ensures Inv(s.(waiting := Remove(s.waiting, r)))
  {
    var t := s.(waiting := Remove(s.waiting, r));
    assert forall q | q in t.waiting :: q in s.waiting;
    assert forall q | q in s.waiting && q != r :: t.waiting[q] == s.waiting[q];
    assert PageOf(r, s.w.generation) ==> s.stale;
  }

  lemma FailedPageKeepsInv(s: System, e: Event)
    requires Inv(s) && Enabled(s, e) && e.PageReply? && Current(s.w, e.request) && e.page.None?
    ensures Inv(Step(s, e))
  {
    assert PageOf(e.request, s.w.generation);
    assert forall q | q in Step(s, e).waiting :: q in s.waiting && !PageOf(q, s.w.generation);
  }

  /** What is in flight when `next` takes the place of `r`. */
  lemma Replaced(waiting: multiset<Waiting>, r: Waiting, next: Waiting)
    requires waiting[r] == 1 && next !in waiting
    ensures var after := Add(Remove(waiting, r), Some(next));
      && (forall q :: q in after <==> (q == next || (q in waiting && q != r)))
      && (forall q | q != r && q != next :: after[q] == waiting[q])
      && after[next] == 1
  {
  }

  lemma PageKeepsInv(s: System, e: Event)
    requires Inv(s) && Enabled(s, e) && e.PageReply? && Current(s.w, e.request) && e.page.Some?
    ensures Inv(Step(s, e))
  {
    var r, next := e.request, PageArrived(s.w, e.request, e.page).1.value;
    assert PageOf(r, s.w.generation) && PageOf(next, s.w.generation);
    Replaced(s.waiting, r, next);
  }

  lemma ListGrows(s: System, e: Event)
    requires Inv(s) && Enabled(s, e) && e.ContainersReply? && Current(s.w, e.request)
    ensures ContentInv(Step(s, e)) && TasksInv(Step(s, e).w) && CursorInv(Step(s, e))
  {
    var r := e.request;
    assert PageOf(r, s.w.generation);
    var p := Applied(r.generation, r.filter, Some(r.cursor), r.page);
    ChainNext(s.applied, p);
    MergedNext(s.applied, p);
    AppendedDistinct(s.w.details, r.page.items);
    RebuildKeepsTasks(s.w, s.w.summaries + e.extras, s.w.details + r.added);
  }

  lemma ContainersKeepInv(s: System, e: Event)
    requires Inv(s) && Enabled(s, e) && e.ContainersReply? && Current(s.w, e.request)
    ensures Inv(Step(s, e))
  {
    ListGrows(s, e);
    assert PageOf(e.request, s.w.generation);
    assert forall q | q in Step(s, e).waiting :: q in s.waiting && q != e.request;
  }

  lemma StepKeepsInv(s: System, e: Event)
    requires Inv(s) && Enabled(s, e)
    ensures Inv(Step(s, e))
  {
    match e
    case StartReload => StartReloadKeepsInv(s, e);
    case StartLoadMore => StartLoadMoreKeepsInv(s, e);
    case ReloadReply(r, reply) =>
      if r.generation != s.w.generation {
        StaleReloadKeepsInv(s, e);
      } else if reply.None? {
        FailedReloadKeepsInv(s, e);
      } else {
        ReloadKeepsInv(s, e);
      }
    case PageReply(r, page) =>
      if !Current(s.w, r) {
        DroppedKeepsInv(s, r);
      } else if page.None? {
        FailedPageKeepsInv(s, e);
      } else {
        PageKeepsInv(s, e);
      }
    case ContainersReply(r, _) =>
      if !Current(s.w, r) {
        DroppedKeepsInv(s, r);
      } else {
        ContainersKeepInv(s, e);
      }
    case FilterChange(_) => FilterChangeKeepsInv(s, e);
    case Select(_, _) => SelectKeepsInv(s, e);
    case Verify(_) => VerifyKeepsInv(s, e);
  }

  lemma {:induction false} RunKeepsInv(s: System, es: seq<Event>, t: System)
    requires Inv(s) && Run(s, es, t)
    ensures Inv(t)
    decreases |es|
  {
    if es != [] {
      StepKeepsInv(s, es[0]);
      RunKeepsInv(Step(s, es[0]), es[1..], t);
    }
  }

  // ---------------------------------------------------------------------------------------
  // What every run guarantees
  // ---------------------------------------------------------------------------------------

  ghost predicate DistinctTasks(ts: seq<Task>) {
    forall i, j | 0 <= i < j < |ts| :: ts[i].taskId != ts[j].taskId
  }

  lemma {:induction false} TasksOfDistinct(ds: seq<Detail>)
    requires DistinctIds(ds)
    ensures DistinctTasks(TasksOf(ds))
    ensures forall t | t in TasksOf(ds) :: exists d | d in ds :: d.id == t.taskId
  {
    if ds != [] {
      assert DistinctIds(ds[1..]);
      TasksOfDistinct(ds[1..]);
      forall t | t in TasksOf(ds[1..]) ensures exists k | 0 < k < |ds| :: ds[k].id == t.taskId {
        var d :| d in ds[1..] && d.id == t.taskId;
        var k :| 0 <= k < |ds[1..]| && ds[1..][k] == d;
        assert ds[k + 1].id == t.taskId;
      }
    }
  }

  /**
   Under every interleaving the list is the merge of one chain of pages, each asked for with the
   cursor of the page before it in the same reload generation; its task ids are distinct, the
   active task is listed or absent, and "more" is offered only with a cursor.
   */
  lemma ViewIsConsistent(es: seq<Event>, t: System)
    requires Run(START, es, t)
    ensures t.w.details == Merged(t.applied) && Chain(t.applied)
    ensures Bare(t.w.tasks) == TasksOf(t.w.details) && DistinctTasks(t.w.tasks)
    ensures if t.w.tasks == [] then t.w.activeTaskId == "" else Listed(t.w.tasks, t.w.activeTaskId)
    ensures t.w.hasMore <==> !t.w.loading && t.applied != [] && GoesOn(t.applied[|t.applied| - 1].page)
    ensures !t.w.loading && t.applied != [] ==> t.w.nextCursor == t.applied[|t.applied| - 1].page.nextCursor
  {
    RunKeepsInv(START, es, t);
    TasksOfDistinct(t.w.details);
    assert forall i | 0 <= i < |t.w.tasks| :: t.w.tasks[i].taskId == Bare(t.w.tasks)[i].taskId;
  }

  ghost predicate HasId(ds: seq<Detail>, id: string) {
    exists d | d in ds :: d.id == id
  }

  lemma MergedHasId(before: seq<Detail>, items: seq<Detail>, id: string)
    requires HasId(before, id) || HasId(items, id)
    ensures HasId(before + Unknown(items, before), id)
  {
    if HasId(before, id) {
      var k :| k in before && k.id == id;
      assert k in before + Unknown(items, before);
    } else {
      var d :| d in items && d.id == id;
      assert d in Unknown(items, before);
      assert d in before + Unknown(items, before);
    }
  }

  /** Nothing a page brought is lost: every id on an applied page is listed. */
  lemma {:induction false} MergeLosesNothing(ps: seq<Applied>, i: nat, d: Detail)
    requires i < |ps| && d in ps[i].page.items
    ensures HasId(Merged(ps), d.id)
  {
    var last := |ps| - 1;
    if i < last {
      assert ps[..last][i] == ps[i];
      MergeLosesNothing(ps[..last], i, d);
    } else {
      assert HasId(ps[last].page.items, d.id);
    }
    MergedHasId(Merged(ps[..last]), ps[last].page.items, d.id);
  }

  /** And nothing else is listed: every detail comes from an applied page. */
  lemma {:induction false} MergeInventsNothing(ps: seq<Applied>, d: Detail) returns (i: nat)
    requires d in Merged(ps)
    ensures i < |ps| && d in ps[i].page.items
  {
    var last := |ps| - 1;
    if d in Merged(ps[..last]) {
      i := MergeInventsNothing(ps[..last], d);
    } else {
      i := last;
    }
  }

  /** Everything the pages brought, in the order it came. */
  function Arrived(ps: seq<Applied>): seq<Detail> {
    if ps == [] then [] else Arrived(ps[..|ps| - 1]) + ps[|ps| - 1].page.items
  }

  /** `part` is what is left of `all` when some of it is dropped. */
  predicate IsSubsequence(part: seq<Detail>, all: seq<Detail>) {
    if all == [] then part == []
    else IsSubsequence(part, all[1..]) || (part != [] && part[0] == all[0] && IsSubsequence(part[1..], all[1..]))
  }

  lemma {:induction false} UnknownIsSubsequence(items: seq<Detail>, known: seq<Detail>)
    ensures IsSubsequence(Unknown(items, known), items)
  {
    if items != [] {
      UnknownIsSubsequence(items[1..], known);
      if !exists k | k in known :: k.id == items[0].id {
        assert Unknown(items, known)[1..] == Unknown(items[1..], known);
      }
    }
  }

  lemma {:induction false} SubsequencesJoined(a: seq<Detail>, all: seq<Detail>, b: seq<Detail>, more: seq<Detail>)
    requires IsSubsequence(a, all) && IsSubsequence(b, more)
    ensures IsSubsequence(a + b, all + more)
    decreases |all|
  {
    if all == [] {
      assert a + b == b && all + more == more;
    } else {
      assert (all + more)[1..] == all[1..] + more;
      if IsSubsequence(a, all[1..]) {
        SubsequencesJoined(a, all[1..], b, more);
      } else {
        SubsequencesJoined(a[1..], all[1..], b, more);
        assert (a + b)[1..] == a[1..] + b;
      }
    }
  }

  /** Details are listed in the order in which they came. */
  lemma {:induction false} MergeKeepsOrder(ps: seq<Applied>)
    ensures IsSubsequence(Merged(ps), Arrived(ps))
  {
    if ps != [] {
      var front, items := ps[..|ps| - 1], ps[|ps| - 1].page.items;
      MergeKeepsOrder(front);
      UnknownIsSubsequence(items, Merged(front));
      SubsequencesJoined(Merged(front), Arrived(front), Unknown(items, Merged(front)), items);
    }
  }

  /**
   Unless the filter was changed without a reload, each flag is up exactly while one request of
   the present generation is in flight: a late reply of an older one never clears it.
   */
  lemma FlagsTellTheTruth(es: seq<Event>, t: System)
    requires Run(START, es, t) && !t.stale
    ensures t.w.loadingMore <==> exists r :: r in t.waiting && PageOf(r, t.w.generation)
    ensures t.w.loading <==> exists r :: r in t.waiting && ReloadOf(r, t.w.generation)
    ensures forall q, r | q in t.waiting && r in t.waiting && q.generation == t.w.generation
        && r.generation == t.w.generation ::
              q == r && t.waiting[q] == 1
  {
    RunKeepsInv(START, es, t);
    forall q, r | q in t.waiting && r in t.waiting && q.generation == t.w.generation && r.generation == t.w.generation
      ensures q == r && t.waiting[q] == 1
    {
      assert PageOf(q, t.w.generation) || ReloadOf(q, t.w.generation);
      assert PageOf(r, t.w.generation) || ReloadOf(r, t.w.generation);
    }
  }

  /** A reply to a request of another generation changes nothing that is shown. */
  lemma LateRepliesChangeNothing(s: System, e: Event)
    requires Enabled(s, e) && (e.ReloadReply? || e.PageReply? || e.ContainersReply?)
    requires e.request.generation != s.w.generation
    ensures Step(s, e) == s.(waiting := Remove(s.waiting, e.request))
  {
  }
}
