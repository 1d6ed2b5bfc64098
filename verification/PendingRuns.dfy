/**
 Any number of overlapping calls, a network that loses, delays and repeats messages, and a server
 that files what it accepts under the idempotency key. The server may also refuse a request for
 reasons of its own, before it looks at the key or after.
 */
module PendingRuns {
  import opened Wrappers
  import opened PendingText
  import opened PendingCompletion

  /** For what a key was drawn. */
  datatype Issue = Issue(command: Command, uuid: Uuid, occurredAt: nat)

  /**
   `waiting` are the calls between their request and its reply, `reloading` those that go on to
   reload the list; `accepted` is the server's record, `conflict` whether it ever refused a key.
   */
  datatype System = System(
    w: Workbench, waiting: multiset<Request>, reloading: multiset<Kind>, sent: set<Request>,
    issued: map<string, Issue>, accepted: map<string, Request>, answered: set<Request>, conflict: bool)

  const START := System(EMPTY, multiset{}, multiset{}, {}, map[], map[], {}, false)

  datatype Event =
    | Call(command: Command, uuid: Uuid, now: nat)
    | Reply(request: Request, result: Option<nat>)
    | ListReloaded(kind: Kind)
    | ServerReceives(request: Request, refuses: bool)

  ghost predicate FreshUuid(s: System, uuid: Uuid) {
    forall k | k in s.issued :: s.issued[k].uuid != uuid
  }

  /** A success can only be the reply to a request that the server has answered. */
  ghost predicate Enabled(s: System, e: Event) {
    match e
    case Call(_, uuid, _) => FreshUuid(s, uuid)
    case Reply(r, result) => r in s.waiting && (result.Some? ==> r in s.answered)
    case ListReloaded(k) => k in s.reloading
    case ServerReceives(r, _) => r in s.sent
  }

  function Sent(s: System, e: Event): Option<Request>
    requires e.Call?
  {
    Send(s.w.Of(e.command.Kind()), e.command, e.uuid, e.now).1
  }

  /** A key is drawn only when none is saved. */
  function IssuedBy(issued: map<string, Issue>, d: Desk, c: Command, uuid: Uuid, now: nat): map<string, Issue> {
    if NothingEntered(c) || Signature(c) in d.ops then issued else issued[KeyOf(c, uuid) := Issue(c, uuid, now)]
  }

  function CallStep(s: System, e: Event): System
    requires e.Call?
  {
    var k := e.command.Kind();
    var (d, sent) := Send(s.w.Of(k), e.command, e.uuid, e.now);
    match sent
    case None => s.(w := s.w.With(k, d))
    case Some(r) =>
      s.(w := s.w.With(k, d), waiting := s.waiting[r := s.waiting[r] + 1], sent := s.sent + {r},
         issued := IssuedBy(s.issued, s.w.Of(k), e.command, e.uuid, e.now))
  }

  function ServerStep(s: System, r: Request, refuses: bool): System {
    if refuses then s
    else if r.key !in s.accepted then s.(accepted := s.accepted[r.key := r], answered := s.answered + {r})
    else if s.accepted[r.key] == r then s.(answered := s.answered + {r})
    else s.(conflict := true)
  }

  ghost function Step(s: System, e: Event): System
    requires Enabled(s, e)
  {
    match e
    case Call(_, _, _) => CallStep(s, e)
    case Reply(r, result) =>
      var k := r.command.Kind();
      s.(w := s.w.With(k, Replied(s.w.Of(k), r.command, result)), waiting := s.waiting[r := s.waiting[r] - 1],
         reloading := if result.Some? then s.reloading[k := s.reloading[k] + 1] else s.reloading)
    case ListReloaded(k) => s.(w := s.w.With(k, Reloaded(s.w.Of(k))), reloading := s.reloading[k := s.reloading[k] - 1])
    case ServerReceives(r, refuses) => ServerStep(s, r, refuses)
  }

  ghost predicate Run(s: System, es: seq<Event>, t: System)
    decreases |es|
  {
    if es == [] then s == t else Enabled(s, es[0]) && Run(Step(s, es[0]), es[1..], t)
  }

  // ---------------------------------------------------------------------------------------
  // The invariant
  // ---------------------------------------------------------------------------------------

  ghost predicate KeysInv(s: System) {
    forall k | k in s.issued :: k == KeyOf(s.issued[k].command, s.issued[k].uuid)
  }

  /** A saved operation is the one its key was drawn for, and its signature that of its command. */
  predicate Filed(issued: map<string, Issue>, k: Kind, signature: string, op: Operation) {
    && op.idempotencyKey in issued
    && var i := issued[op.idempotencyKey];
    && i.command.Kind() == k && Signature(i.command) == signature && i.occurredAt == op.occurredAt
  }

  ghost predicate AllFiled(issued: map<string, Issue>, k: Kind, ops: Operations) {
    forall signature | signature in ops :: Filed(issued, k, signature, ops[signature])
  }

  ghost predicate OperationsInv(s: System) {
    forall k: Kind :: AllFiled(s.issued, k, s.w.Of(k).ops)
  }

  predicate AsIssued(s: System, r: Request) {
    r.key in s.issued && s.issued[r.key].command == r.command && s.issued[r.key].occurredAt == r.occurredAt
  }

  ghost predicate SentInv(s: System) {
    && (forall r | r in s.sent :: AsIssued(s, r))
    && (forall r | r in s.waiting :: r in s.sent)
  }

  ghost predicate ServerInv(s: System) {
    && (forall k | k in s.accepted :: s.accepted[k] in s.sent && s.accepted[k].key == k)
    && (forall r | r in s.answered :: r.key in s.accepted && s.accepted[r.key] == r)
    && !s.conflict
  }

  ghost predicate Inv(s: System) {
    KeysInv(s) && OperationsInv(s) && SentInv(s) && ServerInv(s)
  }

  // ---------------------------------------------------------------------------------------
  // Every step keeps it
  // ---------------------------------------------------------------------------------------

  lemma FreshKey(s: System, c: Command, uuid: Uuid)
    requires KeysInv(s) && FreshUuid(s, uuid)
    ensures KeyOf(c, uuid) !in s.issued
  {
    if KeyOf(c, uuid) in s.issued {
      var i := s.issued[KeyOf(c, uuid)];
      KeysDiffer(c, uuid, i.command, i.uuid);
    }
  }

  lemma OthersUntouched(w: Workbench, k: Kind, d: Desk)
    ensures forall l: Kind :: w.With(k, d).Of(l) == if l == k then d else w.Of(l)
  {
  }

  /** The request carries the command its key was drawn for. */
  lemma SentAsIssued(s: System, e: Event)
    requires KeysInv(s) && OperationsInv(s) && Enabled(s, e) && e.Call? && Sent(s, e).Some?
    ensures AsIssued(CallStep(s, e), Sent(s, e).value)
  {
    var c := e.command;
    var ops := s.w.Of(c.Kind()).ops;
    if Signature(c) in ops {
      var op := ops[Signature(c)];
      assert AllFiled(s.issued, c.Kind(), ops);
      assert Filed(s.issued, c.Kind(), Signature(c), op);
      SignatureDecides(s.issued[op.idempotencyKey].command, c);
    }
  }

  lemma CallKeepsKeys(s: System, e: Event)
    requires KeysInv(s) && OperationsInv(s) && Enabled(s, e) && e.Call?
    ensures KeysInv(CallStep(s, e))
  {
    FreshKey(s, e.command, e.uuid);
  }

  lemma SendKeepsFiled(issued: map<string, Issue>, d: Desk, c: Command, uuid: Uuid, now: nat)
    requires AllFiled(issued, c.Kind(), d.ops) && KeyOf(c, uuid) !in issued
    ensures AllFiled(IssuedBy(issued, d, c, uuid, now), c.Kind(), Send(d, c, uuid, now).0.ops)
  {
    var ops, after := Send(d, c, uuid, now).0.ops, IssuedBy(issued, d, c, uuid, now);
    forall signature | signature in ops
      ensures Filed(after, c.Kind(), signature, ops[signature])
    {
      if signature in d.ops {
        assert Filed(issued, c.Kind(), signature, d.ops[signature]);
      }
    }
  }

  lemma MoreIssued(issued: map<string, Issue>, d: Desk, c: Command, uuid: Uuid, now: nat, k: Kind, ops: Operations)
    requires AllFiled(issued, k, ops) && KeyOf(c, uuid) !in issued
    ensures AllFiled(IssuedBy(issued, d, c, uuid, now), k, ops)
  {
  }

  lemma CallKeepsOperations(s: System, e: Event)
    requires KeysInv(s) && OperationsInv(s) && Enabled(s, e) && e.Call?
    ensures OperationsInv(CallStep(s, e))
  {
    var c, t := e.command, CallStep(s, e);
    var d := s.w.Of(c.Kind());
    FreshKey(s, c, e.uuid);
    OthersUntouched(s.w, c.Kind(), Send(d, c, e.uuid, e.now).0);
    assert t.issued == IssuedBy(s.issued, d, c, e.uuid, e.now);
    forall k: Kind
      ensures AllFiled(t.issued, k, t.w.Of(k).ops)
    {
      assert AllFiled(s.issued, k, s.w.Of(k).ops);
      if k == c.Kind() {
        SendKeepsFiled(s.issued, d, c, e.uuid, e.now);
      } else {
        MoreIssued(s.issued, d, c, e.uuid, e.now, k, s.w.Of(k).ops);
      }
    }
  }

  lemma CallKeepsSent(s: System, e: Event)
    requires Inv(s) && Enabled(s, e) && e.Call?
    ensures SentInv(CallStep(s, e)) && ServerInv(CallStep(s, e))
  {
    FreshKey(s, e.command, e.uuid);
    if Sent(s, e).Some? {
      SentAsIssued(s, e);
    }
  }

  /** Forgetting operations, and whatever the panel shows, keeps the rest filed. */
  lemma ShrinkKeepsOperations(s: System, t: System, k: Kind, d: Desk)
    requires OperationsInv(s) && t.issued == s.issued && t.w == s.w.With(k, d)
    requires forall signature | signature in d.ops ::
        signature in s.w.Of(k).ops && d.ops[signature] == s.w.Of(k).ops[signature]
    ensures OperationsInv(t)
  {
    OthersUntouched(s.w, k, d);
    assert AllFiled(s.issued, k, s.w.Of(k).ops);
  }

  lemma ReplyKeepsInv(s: System, e: Event)
    requires Inv(s) && Enabled(s, e) && e.Reply?
    ensures Inv(Step(s, e))
  {
    var k := e.request.command.Kind();
    ShrinkKeepsOperations(s, Step(s, e), k, Replied(s.w.Of(k), e.request.command, e.result));
  }

  lemma ReloadKeepsInv(s: System, e: Event)
    requires Inv(s) && Enabled(s, e) && e.ListReloaded?
    ensures Inv(Step(s, e))
  {
    ShrinkKeepsOperations(s, Step(s, e), e.kind, Reloaded(s.w.Of(e.kind)));
  }

  lemma ServerStepKeepsInv(s: System, e: Event)
    requires Inv(s) && Enabled(s, e) && e.ServerReceives?
    ensures Inv(Step(s, e))
  {
    var r := e.request;
    assert AsIssued(s, r);
    if r.key in s.accepted {
      assert AsIssued(s, s.accepted[r.key]);
    }
  }

  lemma StepKeepsInv(s: System, e: Event)
    requires Inv(s) && Enabled(s, e)
    ensures Inv(Step(s, e))
  {
    match e
    case Call(_, _, _) =>
      CallKeepsKeys(s, e);
      CallKeepsOperations(s, e);
      CallKeepsSent(s, e);
    case Reply(_, _) => ReplyKeepsInv(s, e);
    case ListReloaded(_) => ReloadKeepsInv(s, e);
    case ServerReceives(_, _) => ServerStepKeepsInv(s, e);
  }

  lemma {:induction false} RunKeepsInv(s: System, es: seq<Event>, t: System)
    requires Inv(s) && Run(s, es, t)
    ensures Inv(t)
    decreases |es|
  {
    if es != [] {
      StepKeepsInv(s, es[0]);
      RunKeepsInv(Step(s, es[0]), es[1..], t);
    }
  }

  // ---------------------------------------------------------------------------------------
  // What every run guarantees
  // ---------------------------------------------------------------------------------------

  /** Two requests with one key are one request: the same command, version, payload and time. */
  lemma SameKeySameRequest(es: seq<Event>, t: System, q: Request, r: Request)
    requires Run(START, es, t) && q in t.sent && r in t.sent && q.key == r.key
    ensures q == r
  {
    RunKeepsInv(START, es, t);
    assert AsIssued(t, q) && AsIssued(t, r);
  }

  /** The server never meets a known key with another payload, and a success means it holds that request. */
  lemma NeverAConflict(es: seq<Event>, t: System)
    requires Run(START, es, t)
    ensures !t.conflict
    ensures forall r, n | Enabled(t, Reply(r, Some(n))) :: r.key in t.accepted && t.accepted[r.key] == r
  {
    RunKeepsInv(START, es, t);
  }

  predicate Settles(e: Event, c: Command) {
    e.Reply? && e.result.Some? && e.request.command == c
  }

  predicate Saved(w: Workbench, c: Command) {
    Signature(c) in w.Of(c.Kind()).ops
  }

  function SavedOperation(w: Workbench, c: Command): Operation
    requires Saved(w, c)
  {
    w.Of(c.Kind()).ops[Signature(c)]
  }

  lemma StepKeepsOperation(s: System, e: Event, c: Command)
    requires Enabled(s, e) && Saved(s.w, c) && !Settles(e, c)
    ensures Saved(Step(s, e).w, c) && SavedOperation(Step(s, e).w, c) == SavedOperation(s.w, c)
  {
    match e
    case Call(d, uuid, now) => OthersUntouched(s.w, d.Kind(), Send(s.w.Of(d.Kind()), d, uuid, now).0);
    case Reply(r, result) =>
      OthersUntouched(s.w, r.command.Kind(), Replied(s.w.Of(r.command.Kind()), r.command, result));
      if r.command.Kind() == c.Kind() {
        SignatureDecides(r.command, c);
      }
    case ListReloaded(k) => OthersUntouched(s.w, k, Reloaded(s.w.Of(k)));
    case ServerReceives(_, _) =>
  }

  predicate NotUnder(ops: Operations, signature: string, key: string) {
    signature in ops ==> ops[signature].idempotencyKey != key
  }

  /** A key that was drawn, and is not the one a call for `c` would use again. */
  predicate Forgotten(s: System, c: Command, key: string) {
    key in s.issued && NotUnder(s.w.Of(c.Kind()).ops, Signature(c), key)
  }

  lemma SendKeepsNotUnder(d: Desk, c: Command, uuid: Uuid, now: nat, signature: string, key: string)
    requires NotUnder(d.ops, signature, key) && KeyOf(c, uuid) != key
    ensures NotUnder(Send(d, c, uuid, now).0.ops, signature, key)
  {
  }

  lemma DeskKeepsForgotten(s: System, k: Kind, d: Desk, issued: map<string, Issue>, c: Command, key: string)
    requires Forgotten(s, c, key) && key in issued && (k == c.Kind() ==> NotUnder(d.ops, Signature(c), key))
    ensures Forgotten(s.(w := s.w.With(k, d), issued := issued), c, key)
  {
    OthersUntouched(s.w, k, d);
  }

  lemma CallKeepsForgotten(s: System, e: Event, c: Command, key: string)
    requires KeysInv(s) && Enabled(s, e) && e.Call? && Forgotten(s, c, key)
    ensures Forgotten(CallStep(s, e), c, key)
  {
    var k := e.command.Kind();
    var d := s.w.Of(k);
    FreshKey(s, e.command, e.uuid);
    if k == c.Kind() {
      SendKeepsNotUnder(d, e.command, e.uuid, e.now, Signature(c), key);
    }
    DeskKeepsForgotten(s, k, Send(d, e.command, e.uuid, e.now).0, CallStep(s, e).issued, c, key);
  }

  lemma ReplyKeepsForgotten(s: System, e: Event, c: Command, key: string)
    requires Enabled(s, e) && e.Reply? && Forgotten(s, c, key)
    ensures Forgotten(Step(s, e), c, key)
  {
    var k := e.request.command.Kind();
    DeskKeepsForgotten(s, k, Replied(s.w.Of(k), e.request.command, e.result), s.issued, c, key);
  }

  lemma StepKeepsForgotten(s: System, e: Event, c: Command, key: string)
    requires KeysInv(s) && Enabled(s, e) && Forgotten(s, c, key)
    ensures Forgotten(Step(s, e), c, key)
  {
    match e
    case Call(_, _, _) => CallKeepsForgotten(s, e, c, key);
    case Reply(_, _) => ReplyKeepsForgotten(s, e, c, key);
    case ListReloaded(k) => DeskKeepsForgotten(s, k, Reloaded(s.w.Of(k)), s.issued, c, key);
    case ServerReceives(_, _) =>
  }

  lemma {:induction false} RunKeepsForgotten(s: System, es: seq<Event>, t: System, c: Command, key: string)
    requires Inv(s) && Run(s, es, t) && Forgotten(s, c, key)
    ensures Forgotten(t, c, key)
    decreases |es|
  {
    if es != [] {
      StepKeepsForgotten(s, es[0], c, key);
      StepKeepsInv(s, es[0]);
      RunKeepsForgotten(Step(s, es[0]), es[1..], t, c, key);
    }
  }

  lemma SettlingForgets(s: System, e: Event, c: Command, key: string)
    requires Enabled(s, e) && Settles(e, c) && key in s.issued
    ensures Forgotten(Step(s, e), c, key)
  {
    OthersUntouched(s.w, c.Kind(), Replied(s.w.Of(c.Kind()), c, e.result));
  }

  ghost predicate SettledIn(es: seq<Event>, c: Command) {
    exists i | 0 <= i < |es| :: Settles(es[i], c)
  }

  lemma SettledLater(es: seq<Event>, c: Command)
    requires es != [] && !Settles(es[0], c)
    ensures SettledIn(es, c) <==> SettledIn(es[1..], c)
  {
    if SettledIn(es[1..], c) {
      var i :| 0 <= i < |es[1..]| && Settles(es[1..][i], c);
      assert Settles(es[i + 1], c);
    }
    if SettledIn(es, c) {
      var i :| 0 <= i < |es| && Settles(es[i], c);
      assert Settles(es[1..][i - 1], c);
    }
  }

  lemma {:induction false} OperationUntilSettled(s: System, es: seq<Event>, t: System, c: Command)
    requires Inv(s) && Run(s, es, t) && Saved(s.w, c) && SavedOperation(s.w, c).idempotencyKey in s.issued
    ensures if SettledIn(es, c) then Forgotten(t, c, SavedOperation(s.w, c).idempotencyKey)
            else Saved(t.w, c) && SavedOperation(t.w, c) == SavedOperation(s.w, c)
    decreases |es|
  {
    if es != [] {
      var u := Step(s, es[0]);
      StepKeepsInv(s, es[0]);
      if Settles(es[0], c) {
        SettlingForgets(s, es[0], c, SavedOperation(s.w, c).idempotencyKey);
        RunKeepsForgotten(u, es[1..], t, c, SavedOperation(s.w, c).idempotencyKey);
      } else {
        SettledLater(es, c);
        StepKeepsOperation(s, es[0], c);
        StepKeepsIssued(s, es[0], SavedOperation(s.w, c).idempotencyKey);
        OperationUntilSettled(u, es[1..], t, c);
      }
    }
  }

  lemma StepKeepsIssued(s: System, e: Event, key: string)
    requires Enabled(s, e) && key in s.issued
    ensures key in Step(s, e).issued
  {
  }

  /** What a call sends is saved, under the key it was sent with. */
  lemma SentIsSaved(s: System, e: Event)
    requires KeysInv(s) && OperationsInv(s) && Enabled(s, e) && e.Call? && Sent(s, e).Some?
    ensures var t, r := CallStep(s, e), Sent(s, e).value;
            && Saved(t.w, e.command) && SavedOperation(t.w, e.command) == Operation(r.key, r.occurredAt)
            && r.key in t.issued && r.command == e.command
  {
    var k := e.command.Kind();
    SentAsIssued(s, e);
    OthersUntouched(s.w, k, Send(s.w.Of(k), e.command, e.uuid, e.now).0);
  }

  lemma SentAgain(t: System, again: Event, r: Request)
    requires Enabled(t, again) && again.Call? && !NothingEntered(again.command) && again.command == r.command
    requires Saved(t.w, r.command) && SavedOperation(t.w, r.command) == Operation(r.key, r.occurredAt)
    ensures Sent(t, again) == Some(r)
  {
  }

  lemma SentAnew(t: System, again: Event, key: string)
    requires KeysInv(t) && Enabled(t, again) && again.Call? && Forgotten(t, again.command, key)
    ensures Sent(t, again).Some? ==> Sent(t, again).value.key != key
  {
    FreshKey(t, again.command, again.uuid);
  }

  /**
   Whatever else happens in between, and whenever it is retried: a command is sent again as exactly
   the same request until a call for it has succeeded, and never afterwards. Only an empty command
   sends nothing, the first time and any other.
   */
  lemma RetryResendsTheSameRequest(before: seq<Event>, s: System, first: Event, es: seq<Event>, t: System, again: Event)
    requires Run(START, before, s) && first.Call? && again.Call? && again.command == first.command
    requires Enabled(s, first) && Run(Step(s, first), es, t) && Enabled(t, again)
    ensures Sent(s, first).Some? ==> (Sent(t, again) == Sent(s, first) <==> !SettledIn(es, first.command))
    ensures Sent(s, first).None? ==> Sent(t, again).None?
  {
    RunKeepsInv(START, before, s);
    if Sent(s, first).Some? {
      var r := Sent(s, first).value;
      StepKeepsInv(s, first);
      RunKeepsInv(Step(s, first), es, t);
      SentIsSaved(s, first);
      OperationUntilSettled(Step(s, first), es, t, first.command);
      if SettledIn(es, first.command) {
        SentAnew(t, again, r.key);
      } else {
        SentAgain(t, again, r);
      }
    }
  }

  /** And once one has succeeded, the next request for it carries a key never sent before. */
  lemma SuccessForgetsTheKey(es: seq<Event>, t: System, reply: Event, again: Event)
    requires Run(START, es, t) && Enabled(t, reply) && reply.Reply? && reply.result.Some?
    requires again.Call? && again.command == reply.request.command && Enabled(Step(t, reply), again)
    ensures Sent(Step(t, reply), again).Some? ==> forall r | r in t.sent ::
        r.key != Sent(Step(t, reply), again).value.key
  {
    RunKeepsInv(START, es, t);
    FreshKey(t, again.command, again.uuid);
    var c := again.command;
    OthersUntouched(t.w, c.Kind(), Replied(t.w.Of(c.Kind()), c, reply.result));
  }
}
