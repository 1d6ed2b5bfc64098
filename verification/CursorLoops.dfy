/**
 The three loops that follow a server's cursors: `listWorkSessions`, `listProductInitiatives` and
 `listAllProductOpportunities`. `Server(n, cursor)` is the reply to the n-th request, which may
 differ from an earlier reply to the same cursor; a request without a cursor has the empty one,
 and the API client leaves an empty cursor out of the request too.
 */
module CursorLoops {
  import opened Wrappers

  datatype Item = Item(id: string, text: string)
  datatype Page = Page(items: seq<Item>, next: Option<string>)
  type Server = (nat, string) -> Page

  datatype Failure = CursorLoop

  /** Whether a loop goes on: two stop at an empty cursor as at none, the third only at none. */
  predicate GoesOn(next: Option<string>, throughEmpty: bool) {
    next.Some? && (throughEmpty || next.value != "")
  }

  // ---------------------------------------------------------------------------------------
  // Walks
  // ---------------------------------------------------------------------------------------

  /** The pages of a chain of cursors from the first page on. */
  ghost predicate Walk(server: Server, ps: seq<Page>, throughEmpty: bool) {
    && |ps| > 0 && ps[0] == server(0, "")
    && (forall i | 0 <= i < |ps| - 1 ::
          GoesOn(ps[i].next, throughEmpty) && ps[i + 1] == server(i + 1, ps[i].next.value))
  }

  /** No cursor is followed twice. */
  ghost predicate Simple(ps: seq<Page>) {
    forall i, j | 0 <= i < j < |ps| - 1 :: ps[i].next != ps[j].next
  }

  ghost predicate SimpleWalk(server: Server, ps: seq<Page>, throughEmpty: bool) {
    Walk(server, ps, throughEmpty) && Simple(ps)
  }

  /** The last page has no cursor to follow. */
  predicate Ends(ps: seq<Page>, throughEmpty: bool) {
    |ps| > 0 && !GoesOn(ps[|ps| - 1].next, throughEmpty)
  }

  /** The last page leads back to a cursor already followed. */
  ghost predicate Revisits(ps: seq<Page>, throughEmpty: bool) {
    && |ps| > 0 && GoesOn(ps[|ps| - 1].next, throughEmpty)
    && exists i | 0 <= i < |ps| - 1 :: ps[i].next == ps[|ps| - 1].next
  }

  function Concat(ps: seq<Page>): seq<Item> {
    if ps == [] then [] else Concat(ps[..|ps| - 1]) + ps[|ps| - 1].items
  }

  /** The cursors a server can ever give out. */
  ghost predicate GivesOnly(server: Server, cursors: set<string>) {
    forall n, c :: server(n, c).next.Some? ==> server(n, c).next.value in cursors
  }

  /** Of two walks of one server, the shorter is the beginning of the longer. */
  lemma {:induction false} WalksAgree(server: Server, ps: seq<Page>, qs: seq<Page>, throughEmpty: bool, i: nat)
    requires Walk(server, ps, throughEmpty) && Walk(server, qs, throughEmpty) && i < |ps| && i < |qs|
    ensures ps[i] == qs[i]
  {
    if i > 0 {
      WalksAgree(server, ps, qs, throughEmpty, i - 1);
      assert GoesOn(ps[i - 1].next, throughEmpty) && ps[i - 1 + 1] == server(i - 1 + 1, ps[i - 1].next.value);
      assert qs[i - 1 + 1] == server(i - 1 + 1, qs[i - 1].next.value);
    }
  }

  /** No server both ends a chain and revisits a cursor on it. */
  lemma NeverBoth(server: Server, ps: seq<Page>, qs: seq<Page>, throughEmpty: bool)
    requires SimpleWalk(server, ps, throughEmpty) && SimpleWalk(server, qs, throughEmpty) && Revisits(qs, throughEmpty)
    ensures !Ends(ps, throughEmpty)
  {
    if |ps| <= |qs| {
      WalksAgree(server, ps, qs, throughEmpty, |ps| - 1);
    }
    if |ps| > |qs| {
      WalkAgreesUpTo(server, ps, qs, throughEmpty);
    }
  }

  /** A walk that leads back cannot be continued without following a cursor twice. */
  lemma WalkAgreesUpTo(server: Server, ps: seq<Page>, qs: seq<Page>, throughEmpty: bool)
    requires Walk(server, ps, throughEmpty) && Walk(server, qs, throughEmpty) && |ps| > |qs|
        && Revisits(qs, throughEmpty)
    ensures !Simple(ps)
  {
    var last := |qs| - 1;
    var i :| 0 <= i < last && qs[i].next == qs[last].next;
    WalksAgree(server, ps, qs, throughEmpty, i);
    WalksAgree(server, ps, qs, throughEmpty, last);
  }

  lemma SameEnd(server: Server, ps: seq<Page>, qs: seq<Page>, throughEmpty: bool)
    requires Walk(server, ps, throughEmpty) && Ends(ps, throughEmpty) && Walk(server, qs, throughEmpty)
        && Ends(qs, throughEmpty)
    ensures ps == qs
  {
    if |ps| < |qs| {
      WalksAgree(server, ps, qs, throughEmpty, |ps| - 1);
    } else if |qs| < |ps| {
      WalksAgree(server, ps, qs, throughEmpty, |qs| - 1);
    }
    forall i | 0 <= i < |ps| && i < |qs| ensures ps[i] == qs[i] {
      WalksAgree(server, ps, qs, throughEmpty, i);
    }
  }

  /** A simple walk is no longer than the cursors allow. */
  lemma WalkIsShort(server: Server, ps: seq<Page>, throughEmpty: bool, cursors: set<string>)
    requires SimpleWalk(server, ps, throughEmpty) && GivesOnly(server, cursors)
    ensures |ps| <= |cursors| + 1
  {
    var n := |ps| - 1;
    var followed := set i | 0 <= i < n :: ps[i].next.value;
    FollowedCount(ps, n);
    forall i | 0 <= i < n ensures ps[i].next.value in cursors {
      PageIsReply(server, ps, throughEmpty, i);
    }
    assert followed <= cursors;
    SubsetSize(followed, cursors);
  }

  lemma PageIsReply(server: Server, ps: seq<Page>, throughEmpty: bool, i: nat)
    requires Walk(server, ps, throughEmpty) && i < |ps|
    ensures exists n, c :: ps[i] == server(n, c)
  {
    if i > 0 {
      assert ps[i - 1 + 1] == server(i - 1 + 1, ps[i - 1].next.value);
    }
  }

  lemma {:induction false} FollowedCount(ps: seq<Page>, n: nat)
    requires n < |ps| && forall i | 0 <= i < n :: ps[i].next.Some?
    requires forall i, j | 0 <= i < j < n :: ps[i].next != ps[j].next
    ensures |set i | 0 <= i < n :: ps[i].next.value| == n
  {
    if n > 0 {
      FollowedCount(ps, n - 1);
      var before := set i | 0 <= i < n - 1 :: ps[i].next.value;
      assert (set i | 0 <= i < n :: ps[i].next.value) == before + {ps[n - 1].next.value};
    }
  }

  lemma SubsetSize(a: set<string>, b: set<string>)
    requires a <= b
    ensures |a| <= |b|
  {
    assert |b - a| == |b| - |a|;
  }

  // ---------------------------------------------------------------------------------------
  // The loops
  // ---------------------------------------------------------------------------------------

  /** What a loop returns for a chain of pages: an error exactly if it revisits a cursor. */
  ghost predicate Follows(server: Server, throughEmpty: bool, ps: seq<Page>, outcome: Result<seq<Item>, Failure>,
          items: seq<Item>)
  {
    && SimpleWalk(server, ps, throughEmpty)
    && (outcome.Ok? ==> Ends(ps, throughEmpty) && outcome.value == items)
    && (outcome.Err? ==> Revisits(ps, throughEmpty))
  }

  /** The cursor the i-th request carries. */
  function CursorAt(ps: seq<Page>, i: nat): string
    requires i <= |ps|
  {
    if i == 0 then "" else ps[i - 1].next.GetOr("")
  }

  ghost predicate Replies(server: Server, ps: seq<Page>, throughEmpty: bool) {
    forall i | 0 <= i < |ps| :: GoesOn(ps[i].next, throughEmpty) && ps[i] == server(i, CursorAt(ps, i))
  }

  ghost predicate AllFollowed(ps: seq<Page>, seen: set<string>) {
    && (forall i | 0 <= i < |ps| :: ps[i].next.GetOr("") in seen)
    && (forall c | c in seen :: Followed(ps, c))
  }

  ghost predicate NoneTwice(ps: seq<Page>) {
    forall i, j | 0 <= i < j < |ps| :: ps[i].next != ps[j].next
  }

  /** The pages read so far, the cursors seen, and the one to follow next. */
  ghost predicate At(server: Server, ps: seq<Page>, seen: set<string>, cursor: string, throughEmpty: bool) {
    Replies(server, ps, throughEmpty) && AllFollowed(ps, seen) && NoneTwice(ps) && cursor == CursorAt(ps, |ps|)
  }

  ghost predicate Followed(ps: seq<Page>, c: string) {
    exists i | 0 <= i < |ps| :: ps[i].next == Some(c)
  }

  lemma FirstReply(server: Server, ps: seq<Page>, throughEmpty: bool, qs: seq<Page>)
    requires Replies(server, ps, throughEmpty) && qs == ps + [server(|ps|, CursorAt(ps, |ps|))]
    ensures qs[0] == server(0, "")
  {
    if ps != [] {
      assert ps[0] == server(0, CursorAt(ps, 0));
    }
  }

  lemma NextReply(server: Server, ps: seq<Page>, throughEmpty: bool, qs: seq<Page>, i: nat)
    requires Replies(server, ps, throughEmpty) && qs == ps + [server(|ps|, CursorAt(ps, |ps|))] && i < |ps|
    ensures GoesOn(qs[i].next, throughEmpty) && qs[i + 1] == server(i + 1, qs[i].next.value)
  {
    assert qs[i] == ps[i] && CursorAt(ps, i + 1) == qs[i].next.value;
    if i + 1 < |ps| {
      assert qs[i + 1] == ps[i + 1] == server(i + 1, CursorAt(ps, i + 1));
    }
  }

  lemma NoneTwiceIsSimple(ps: seq<Page>, page: Page)
    requires NoneTwice(ps)
    ensures Simple(ps + [page])
  {
  }

  lemma OneMoreStep(server: Server, ps: seq<Page>, throughEmpty: bool, qs: seq<Page>)
    requires Replies(server, ps, throughEmpty) && NoneTwice(ps) && qs == ps + [server(|ps|, CursorAt(ps, |ps|))]
    ensures SimpleWalk(server, qs, throughEmpty)
  {
    FirstReply(server, ps, throughEmpty, qs);
    forall i | 0 <= i < |qs| - 1
      ensures GoesOn(qs[i].next, throughEmpty) && qs[i + 1] == server(i + 1, qs[i].next.value)
    {
      NextReply(server, ps, throughEmpty, qs, i);
    }
    NoneTwiceIsSimple(ps, qs[|ps|]);
  }

  lemma ConcatAppended(ps: seq<Page>, page: Page)
    ensures Concat(ps + [page]) == Concat(ps) + page.items
  {
    assert (ps + [page])[..|ps|] == ps;
  }

  lemma OneMorePage(server: Server, ps: seq<Page>, seen: set<string>, cursor: string, throughEmpty: bool, qs: seq<Page>)
    requires At(server, ps, seen, cursor, throughEmpty) && qs == ps + [server(|ps|, cursor)]
    ensures SimpleWalk(server, qs, throughEmpty)
    ensures Concat(qs) == Concat(ps) + server(|ps|, cursor).items
  {
    OneMoreStep(server, ps, throughEmpty, qs);
    ConcatAppended(ps, server(|ps|, cursor));
  }

  lemma SeenCursor(server: Server, ps: seq<Page>, seen: set<string>, cursor: string, throughEmpty: bool, qs: seq<Page>)
    requires At(server, ps, seen, cursor, throughEmpty) && qs == ps + [server(|ps|, cursor)]
    requires GoesOn(qs[|ps|].next, throughEmpty) && qs[|ps|].next.value in seen
    ensures Revisits(qs, throughEmpty)
  {
    assert Followed(ps, qs[|ps|].next.value);
    var i :| 0 <= i < |ps| && ps[i].next == Some(qs[|ps|].next.value);
    assert qs[i].next == qs[|ps|].next;
  }

  lemma FollowedGrows(ps: seq<Page>, seen: set<string>, page: Page)
    requires AllFollowed(ps, seen) && page.next.Some?
    ensures AllFollowed(ps + [page], seen + {page.next.value})
  {
    var qs := ps + [page];
    forall c | c in seen + {page.next.value} ensures Followed(qs, c) {
      if c in seen {
        assert Followed(ps, c);
        var i :| 0 <= i < |ps| && ps[i].next == Some(c);
        assert qs[i].next == Some(c);
      } else {
        assert qs[|ps|].next == Some(c);
      }
    }
  }

  lemma NewIsNotTwice(ps: seq<Page>, seen: set<string>, page: Page)
    requires AllFollowed(ps, seen) && NoneTwice(ps) && page.next.Some? && page.next.value !in seen
    ensures NoneTwice(ps + [page])
  {
    forall i | 0 <= i < |ps| ensures ps[i].next != page.next {
      assert ps[i].next.GetOr("") in seen;
    }
  }

  lemma RepliesGrow(server: Server, ps: seq<Page>, throughEmpty: bool, qs: seq<Page>)
    requires Replies(server, ps, throughEmpty) && qs == ps + [server(|ps|, CursorAt(ps, |ps|))]
        && GoesOn(qs[|ps|].next, throughEmpty)
    ensures Replies(server, qs, throughEmpty)
  {
    forall i | 0 <= i < |qs| ensures GoesOn(qs[i].next, throughEmpty) && qs[i] == server(i, CursorAt(qs, i)) {
      assert CursorAt(qs, i) == CursorAt(ps, i);
      if i < |ps| {
        assert qs[i] == ps[i];
      }
    }
  }

  lemma NewCursor(server: Server, ps: seq<Page>, seen: set<string>, cursor: string, throughEmpty: bool, qs: seq<Page>)
    requires At(server, ps, seen, cursor, throughEmpty) && qs == ps + [server(|ps|, cursor)]
    requires GoesOn(qs[|ps|].next, throughEmpty) && qs[|ps|].next.value !in seen
    ensures At(server, qs, seen + {qs[|ps|].next.value}, qs[|ps|].next.value, throughEmpty)
  {
    FollowedGrows(ps, seen, qs[|ps|]);
    NewIsNotTwice(ps, seen, qs[|ps|]);
    RepliesGrow(server, ps, throughEmpty, qs);
  }

  method ListWorkSessions(server: Server, ghost cursors: set<string>) returns (outcome: Result<seq<Item>, Failure>)
    requires GivesOnly(server, cursors)
    ensures exists ps :: Follows(server, false, ps, outcome, FirstOccurrences(Concat(ps))) && |ps| <= |cursors| + 1
  {
    var items: seq<Item> := [];
    var seenCursors: set<string> := {};
    var cursor := "";
    var fetched: nat := 0;
    ghost var ps: seq<Page> := [];
    while true
      invariant fetched == |ps| && At(server, ps, seenCursors, cursor, false)
      invariant items == FirstOccurrences(Concat(ps))
      invariant seenCursors <= cursors
      decreases cursors - seenCursors
    {
      var page := server(fetched, cursor);
      fetched := fetched + 1;
      ghost var before := ps;
      ps := ps + [page];
      OneMorePage(server, before, seenCursors, cursor, false, ps);
      WalkIsShort(server, ps, false, cursors);
      FirstOccurrencesSplit(Concat(before), page.items);
      items := AddUnknown(items, page.items);
      if !page.next.Some? || page.next.value == "" {
        outcome := Ok(items);
        assert Follows(server, false, ps, outcome, FirstOccurrences(Concat(ps)));
        return;
      }
      if page.next.value in seenCursors {
        SeenCursor(server, before, seenCursors, cursor, false, ps);
        outcome := Err(CursorLoop);
        assert Follows(server, false, ps, outcome, FirstOccurrences(Concat(ps)));
        return;
      }
      NewCursor(server, before, seenCursors, cursor, false, ps);
      cursor := page.next.value;
      seenCursors := seenCursors + {cursor};
    }
  }

  method ListProductInitiatives(server: Server, ghost cursors: set<string>)
    returns (outcome: Result<seq<Item>, Failure>, firstPage: Page)
    requires GivesOnly(server, cursors)
    ensures exists ps :: Follows(server, false, ps, outcome, Concat(ps)) && |ps| <= |cursors| + 1
    ensures firstPage == server(0, "")
  {
    var items: seq<Item> := [];
    var seenCursors: set<string> := {};
    var cursor := "";
    var fetched: nat := 0;
    firstPage := server(0, "");
    ghost var ps: seq<Page> := [];
    while true
      invariant fetched == |ps| && At(server, ps, seenCursors, cursor, false)
      invariant items == Concat(ps) && firstPage == server(0, "")
      invariant seenCursors <= cursors
      decreases cursors - seenCursors
    {
      var page := server(fetched, cursor);
      fetched := fetched + 1;
      ghost var before := ps;
      ps := ps + [page];
      OneMorePage(server, before, seenCursors, cursor, false, ps);
      WalkIsShort(server, ps, false, cursors);
      items := items + page.items;
      if !page.next.Some? || page.next.value == "" {
        outcome := Ok(items);
        assert Follows(server, false, ps, outcome, Concat(ps));
        return;
      }
      if page.next.value in seenCursors {
        SeenCursor(server, before, seenCursors, cursor, false, ps);
        outcome := Err(CursorLoop);
        assert Follows(server, false, ps, outcome, Concat(ps));
        return;
      }
      NewCursor(server, before, seenCursors, cursor, false, ps);
      cursor := page.next.value;
      seenCursors := seenCursors + {cursor};
    }
  }

  method ListAllProductOpportunities(server: Server, ghost cursors: set<string>)
    returns (outcome: Result<seq<Item>, Failure>)
    requires GivesOnly(server, cursors)
    ensures exists ps :: Follows(server, true, ps, outcome, Concat(ps)) && |ps| <= |cursors| + 1
  {
    var opportunities: seq<Item> := [];
    var seenCursors: set<string> := {};
    var cursor := "";
    var fetched: nat := 0;
    ghost var ps: seq<Page> := [];
    while true
      invariant fetched == |ps| && At(server, ps, seenCursors, cursor, true)
      invariant opportunities == Concat(ps)
      invariant seenCursors <= cursors
      decreases cursors - seenCursors
    {
      var page := server(fetched, cursor);
      fetched := fetched + 1;
      ghost var before := ps;
      ps := ps + [page];
      OneMorePage(server, before, seenCursors, cursor, true, ps);
      WalkIsShort(server, ps, true, cursors);
      opportunities := opportunities + page.items;
      if page.next.None? {
        outcome := Ok(opportunities);
        assert Follows(server, true, ps, outcome, Concat(ps));
        return;
      }
      if page.next.value in seenCursors {
        SeenCursor(server, before, seenCursors, cursor, true, ps);
        outcome := Err(CursorLoop);
        assert Follows(server, true, ps, outcome, Concat(ps));
        return;
      }
      NewCursor(server, before, seenCursors, cursor, true, ps);
      seenCursors := seenCursors + {page.next.value};
      cursor := page.next.value;
    }
  }

  // ---------------------------------------------------------------------------------------
  // First occurrences
  // ---------------------------------------------------------------------------------------

  predicate Knows(xs: seq<Item>, id: string) {
    exists i | 0 <= i < |xs| :: xs[i].id == id
  }

  /** The values of a `Map` to which an item is added only under a new id. */
  function AddUnknown(known: seq<Item>, items: seq<Item>): seq<Item> {
    if items == [] then known
    else
      var before, last := AddUnknown(known, items[..|items| - 1]), items[|items| - 1];
      if Knows(before, last.id) then before else before + [last]
  }

  function FirstOccurrences(items: seq<Item>): seq<Item> {
    AddUnknown([], items)
  }

  lemma {:induction false} FirstOccurrencesSplit(a: seq<Item>, b: seq<Item>)
    ensures FirstOccurrences(a + b) == AddUnknown(FirstOccurrences(a), b)
  {
    if b == [] {
      assert a + b == a;
    } else {
      assert (a + b)[..|a + b| - 1] == a + b[..|b| - 1];
      FirstOccurrencesSplit(a, b[..|b| - 1]);
    }
  }

  /** Some item of `items` is `x`, and none before it has its id. */
  ghost predicate FirstIn(items: seq<Item>, x: Item) {
    exists k | 0 <= k < |items| :: items[k] == x && !Knows(items[..k], x.id)
  }

  ghost predicate DistinctIds(xs: seq<Item>) {
    forall i, j | 0 <= i < j < |xs| :: xs[i].id != xs[j].id
  }

  /** Every id once, each with the first item that carries it. */
  lemma {:induction false} FirstOccurrencesAreFirst(items: seq<Item>)
    ensures DistinctIds(FirstOccurrences(items))
    ensures forall id :: Knows(items, id) <==> Knows(FirstOccurrences(items), id)
    ensures forall x | x in FirstOccurrences(items) :: FirstIn(items, x)
  {
    if items != [] {
      var n := |items| - 1;
      var init, last := items[..n], items[n];
      var before := FirstOccurrences(init);
      FirstOccurrencesAreFirst(init);
      forall x | x in before ensures FirstIn(items, x) {
        var k :| 0 <= k < n && init[k] == x && !Knows(init[..k], x.id);
        assert items[..k] == init[..k] && items[k] == x;
      }
      if !Knows(before, last.id) {
        assert !Knows(init, last.id) && items[..n] == init;
        assert FirstIn(items, last);
      }
      forall id ensures Knows(items, id) <==> Knows(init, id) || last.id == id {
        KnowsAppended(init, last, id);
        assert items == init + [last];
      }
      forall id ensures Knows(before + [last], id) <==> Knows(before, id) || last.id == id {
        KnowsAppended(before, last, id);
      }
    }
  }

  lemma KnowsAppended(xs: seq<Item>, x: Item, id: string)
    ensures Knows(xs + [x], id) <==> Knows(xs, id) || x.id == id
  {
    var ys := xs + [x];
    if Knows(xs, id) {
      var i :| 0 <= i < |xs| && xs[i].id == id;
      assert ys[i].id == id;
    }
    if x.id == id {
      assert ys[|xs|].id == id;
    }
  }

  // ---------------------------------------------------------------------------------------
  // When the loops agree
  // ---------------------------------------------------------------------------------------

  /** On one server, two runs fail together or read the same pages, whatever they make of the items. */
  lemma SamePages(server: Server, throughEmpty: bool, ps: seq<Page>, qs: seq<Page>,
                  a: Result<seq<Item>, Failure>, b: Result<seq<Item>, Failure>, x: seq<Item>, y: seq<Item>)
    requires Follows(server, throughEmpty, ps, a, x) && Follows(server, throughEmpty, qs, b, y)
    ensures a.Ok? == b.Ok? && (a.Ok? ==> ps == qs)
  {
    if a.Ok? && b.Ok? {
      SameEnd(server, ps, qs, throughEmpty);
    } else if a.Ok? && b.Err? {
      NeverBoth(server, ps, qs, throughEmpty);
    } else if a.Err? && b.Ok? {
      NeverBoth(server, qs, ps, throughEmpty);
    }
  }

  /** The last page of a chain has an empty cursor, at which two of the loops stop and the third goes on. */
  predicate LastIsEmpty(ps: seq<Page>) {
    |ps| > 0 && ps[|ps| - 1].next == Some("")
  }

  /** A chain without an empty cursor at its end is the same chain for all loops. */
  lemma SameChain(server: Server, ps: seq<Page>, outcome: Result<seq<Item>, Failure>, items: seq<Item>)
    requires Follows(server, false, ps, outcome, items) && !LastIsEmpty(ps)
    ensures Follows(server, true, ps, outcome, items)
  {
  }

  /** A chain that ends with an empty cursor goes on with the first page, if the server answers alike. */
  lemma BackToTheFirst(server: Server, ps: seq<Page>)
    requires SimpleWalk(server, ps, false) && LastIsEmpty(ps) && server(|ps|, "") == server(0, "")
    ensures SimpleWalk(server, ps + [ps[0]], true) && Revisits(ps + [ps[0]], true)
  {
    var qs := ps + [ps[0]];
    forall i | 0 <= i < |qs| - 1 ensures GoesOn(qs[i].next, true) && qs[i + 1] == server(i + 1, qs[i].next.value) {
      assert qs[i] == ps[i];
      if i + 1 < |ps| {
        assert GoesOn(ps[i].next, false) && ps[i + 1] == server(i + 1, ps[i].next.value);
      }
    }
    forall i | 0 <= i < |ps| - 1 ensures ps[i].next != Some("") {
      assert GoesOn(ps[i].next, false);
    }
    assert qs[0].next == qs[|qs| - 1].next;
  }

  /**
   Where the chain ends with an empty cursor two loops return its pages. The third asks for the first
   page again, and fails if it gets it.
   */
  lemma EmptyCursorDivides(server: Server, qs: seq<Page>, rs: seq<Page>,
                           initiatives: Result<seq<Item>, Failure>, opportunities: Result<seq<Item>, Failure>)
    requires Follows(server, false, qs, initiatives, Concat(qs)) && Follows(server, true, rs, opportunities, Concat(rs))
    requires LastIsEmpty(qs) && server(|qs|, "") == server(0, "")
    ensures initiatives == Ok(Concat(qs)) && opportunities == Err(CursorLoop)
  {
    BackToTheFirst(server, qs);
    if opportunities.Ok? {
      NeverBoth(server, rs, qs + [qs[0]], true);
    }
    assert opportunities.Err? ==> opportunities.error == CursorLoop;
  }

  lemma {:induction false} ConcatSplit(ps: seq<Page>, n: nat)
    requires n <= |ps|
    ensures Concat(ps) == Concat(ps[..n]) + Concat(ps[n..])
  {
    if n == |ps| {
      assert ps[..n] == ps;
    } else {
      var front := ps[..|ps| - 1];
      ConcatSplit(front, n);
      assert front[..n] == ps[..n] && ps[n..][..|ps[n..]| - 1] == front[n..];
    }
  }

  lemma Prefix(server: Server, qs: seq<Page>, rs: seq<Page>)
    requires Walk(server, qs, false) && LastIsEmpty(qs) && Walk(server, rs, true) && Ends(rs, true)
    ensures |qs| < |rs| && qs == rs[..|qs|]
  {
    assert Walk(server, qs, true);
    if |rs| <= |qs| {
      WalksAgree(server, qs, rs, true, |rs| - 1);
    }
    forall i | 0 <= i < |qs| && i < |rs| ensures qs[i] == rs[i] {
      WalksAgree(server, qs, rs, true, i);
    }
  }

  /** Whatever follows the empty cursor, what the third loop returns begins with what the others return. */
  lemma GoingOnAdds(server: Server, qs: seq<Page>, rs: seq<Page>,
                    initiatives: Result<seq<Item>, Failure>, opportunities: Result<seq<Item>, Failure>)
    requires Follows(server, false, qs, initiatives, Concat(qs)) && Follows(server, true, rs, opportunities, Concat(rs))
    requires LastIsEmpty(qs)
    ensures initiatives.Ok?
    ensures opportunities.Ok? ==> |qs| < |rs| && opportunities.value == initiatives.value + Concat(rs[|qs|..])
  {
    if opportunities.Ok? {
      Prefix(server, qs, rs);
      ConcatSplit(rs, |qs|);
    }
  }

  /**
   On any server two loops read the same pages, one keeping first occurrences. The third agrees with
   them exactly if their last page has no empty cursor, or only pages without items follow it.
   */
  lemma LoopsAgree(server: Server, ps: seq<Page>, qs: seq<Page>, rs: seq<Page>, sessions: Result<seq<Item>, Failure>,
                   initiatives: Result<seq<Item>, Failure>, opportunities: Result<seq<Item>, Failure>)
    requires Follows(server, false, ps, sessions, FirstOccurrences(Concat(ps)))
    requires Follows(server, false, qs, initiatives, Concat(qs)) && Follows(server, true, rs, opportunities, Concat(rs))
    ensures sessions == if initiatives.Ok? then Ok(FirstOccurrences(initiatives.value)) else Err(CursorLoop)
    ensures initiatives == opportunities <==>
      !LastIsEmpty(qs) || (opportunities.Ok? && |qs| < |rs| && Concat(rs[|qs|..]) == [])
    ensures server(|qs|, "") == server(0, "") ==> (initiatives == opportunities <==> !LastIsEmpty(qs))
  {
    SamePages(server, false, ps, qs, sessions, initiatives, FirstOccurrences(Concat(ps)), Concat(qs));
    assert initiatives.Err? ==> initiatives.error == CursorLoop && sessions.error == CursorLoop;
    if LastIsEmpty(qs) {
      GoingOnAdds(server, qs, rs, initiatives, opportunities);
      if server(|qs|, "") == server(0, "") {
        EmptyCursorDivides(server, qs, rs, initiatives, opportunities);
      }
    } else {
      SameChain(server, qs, initiatives, Concat(qs));
      SamePages(server, true, qs, rs, initiatives, opportunities, Concat(qs), Concat(rs));
      assert initiatives.Err? ==> opportunities.error == CursorLoop;
    }
  }

  const LAST_EMPTY: Server := (n, c) => Page([Item("a", "")], Some(""))

  /** There is such a server: its one page has an empty cursor. */
  lemma LastIsEmptySomewhere()
    ensures Follows(LAST_EMPTY, false, [LAST_EMPTY(0, "")], Ok([Item("a", "")]), Concat([LAST_EMPTY(0, "")]))
    ensures LastIsEmpty([LAST_EMPTY(0, "")]) && LAST_EMPTY(1, "") == LAST_EMPTY(0, "")
  {
    ConcatAppended([], LAST_EMPTY(0, ""));
    assert [] + [LAST_EMPTY(0, "")] == [LAST_EMPTY(0, "")];
  }
}
