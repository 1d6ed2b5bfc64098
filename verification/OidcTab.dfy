/**
 A browser tab over any sequence of page loads: the session, the adapter calls in flight and
 the requests of `requestApi` between two of its awaits. Events come in any order the awaits
 allow; an adapter call may fail, and a page load drops whatever is in flight.
 */
module OidcTab {
  import opened Wrappers
  import opened OidcSession

  datatype Stage = AwaitInitialize | AwaitUser | AwaitResponse | AwaitBody | GuardAwaitsInitialize

  datatype Tab = Tab(session: Session, calls: multiset<Call>, waiting: multiset<Stage>)

  const FIRST_PAGE := Tab(NewPage(false), multiset{}, multiset{})

  datatype Reply = Unauthorized | Accepted | NetworkFailure

  datatype Event =
    | PageLoad
    | UserChanged(user: Option<User>)
    | StartRequest
    | RequestInitialized(ok: bool)
    | RequestUser(read: Option<Option<User>>)
    | Response(reply: Reply)
    | BodyRead(ok: bool)
    | StartNavigation
    | NavigationInitialized(ok: bool)
    | CallCompleteSignIn
    | CallSignOut
    | CallCompleteSignOut
    | Resolve(call: Call, ok: bool, user: Option<User>)

  predicate Enabled(t: Tab, e: Event) {
    match e
    case RequestInitialized(ok) => AwaitInitialize in t.waiting && (ok ==> t.session.initializing.Succeeded?)
    case RequestUser(_) => AwaitUser in t.waiting
    case Response(_) => AwaitResponse in t.waiting
    case BodyRead(_) => AwaitBody in t.waiting
    case NavigationInitialized(ok) => GuardAwaitsInitialize in t.waiting && (ok ==> t.session.initializing.Succeeded?)
    case Resolve(call, ok, user) => call in t.calls && (call.SigninCallback? && ok ==> user.Some?)
    case _ => true
  }

  function Continue(t: Tab, next: (Session, Option<Call>)): Tab {
    t.(session := next.0, calls := if next.1.Some? then t.calls[next.1.value := t.calls[next.1.value] + 1] else t.calls)
  }

  function Move(t: Tab, from: Stage, to: Option<Stage>): Tab {
    var w := t.waiting[from := if from in t.waiting then t.waiting[from] - 1 else 0];
    t.(waiting := if to.Some? then w[to.value := w[to.value] + 1] else w)
  }

  function Resolved(t: Tab, call: Call, ok: bool, user: Option<User>): Tab {
    var s := t.session;
    match call
    case InitGetUser => t.(session := Initialized(s, if ok then Some(user) else None))
    case SigninRedirect(_) => if ok then t else t.(session := SignInFailed(s))
    case SigninCallback => t.(session := SignInCompleted(s, if ok then user else None))
    case SignoutRedirect => if ok then t else Continue(t, (s, Some(SignoutGetUser)))
    case SignoutGetUser => t.(session := SignOutFailed(s, if ok then user else None))
    case SignoutCallback => Continue(t, (s, Some(SignoutRemoveUser(!ok))))
    case SignoutRemoveUser(failed) => if ok then t.(session := SignOutCompleted(s, failed)) else t
    case RecoveryRemoveUser => if ok then Continue(t, UserRemovedForRecovery(s)) else t
  }

  /** `requestApi`, from one await to the next. */
  function RequestStep(t: Tab, e: Event): Tab
    requires e.StartRequest? || e.RequestInitialized? || e.RequestUser? || e.Response? || e.BodyRead?
  {
    var s := t.session;
    match e
    case StartRequest =>
      Continue(t.(waiting := t.waiting[AwaitInitialize := t.waiting[AwaitInitialize] + 1]), Initialize(s))
    case RequestInitialized(ok) => Move(t, AwaitInitialize, if ok then Some(AwaitUser) else None)
    case RequestUser(read) =>
      if read.None? then Move(t, AwaitUser, None)
      else if Usable(read.value) && read.value.value.accessToken != "" then Move(t, AwaitUser, Some(AwaitResponse))
      else Continue(Move(t, AwaitUser, None), HandleUnauthorized(s))
    case Response(reply) =>
      (match reply
       case Unauthorized => Move(t, AwaitResponse, Some(AwaitBody))
       case NetworkFailure => Move(t, AwaitResponse, None)
       case Accepted => Move(t, AwaitResponse, None).(session := ConfirmAuthorized(s)))
    case BodyRead(ok) =>
      if ok then Continue(Move(t, AwaitBody, None), HandleUnauthorized(s)) else Move(t, AwaitBody, None)
  }

  /** The route guard and the calls of the callback views. */
  function CallerStep(t: Tab, e: Event): Tab
    requires e.StartNavigation? || e.NavigationInitialized? || e.CallCompleteSignIn? || e.CallSignOut?
        || e.CallCompleteSignOut?
  {
    var s := t.session;
    match e
    case StartNavigation =>
      Continue(t.(waiting := t.waiting[GuardAwaitsInitialize := t.waiting[GuardAwaitsInitialize] + 1]), Initialize(s))
    case NavigationInitialized(ok) =>
      var u := Move(t, GuardAwaitsInitialize, None);
      if ok && s.snapshot.status != Authenticated then Continue(u, SignIn(s, false)) else u
    case CallCompleteSignIn => Continue(t, CompleteSignIn(s))
    case CallSignOut => Continue(t, SignOut(s))
    case CallCompleteSignOut => Continue(t, (s, Some(SignoutCallback)))
  }

  function Step(t: Tab, e: Event): Tab {
    match e
    case PageLoad => Tab(NewPage(t.session.marker), multiset{}, multiset{})
    case UserChanged(user) => t.(session := ApplyUser(t.session, user))
    case Resolve(call, ok, user) =>
      Resolved(t.(calls := t.calls[call := if call in t.calls then t.calls[call] - 1 else 0]), call, ok, user)
    case StartRequest => RequestStep(t, e)
    case RequestInitialized(_) => RequestStep(t, e)
    case RequestUser(_) => RequestStep(t, e)
    case Response(_) => RequestStep(t, e)
    case BodyRead(_) => RequestStep(t, e)
    case _ => CallerStep(t, e)
  }

  ghost predicate Run(t: Tab, es: seq<Event>, u: Tab)
    decreases |es|
  {
    if es == [] then t == u else Enabled(t, es[0]) && Run(Step(t, es[0]), es[1..], u)
  }

  // ---------------------------------------------------------------------------------------
  // What is counted along a run
  // ---------------------------------------------------------------------------------------

  /** The step leaves one more recovery redirect in flight than it found. */
  predicate StartsRecovery(t: Tab, u: Tab) {
    u.calls[SigninRedirect(true)] > t.calls[SigninRedirect(true)]
  }

  predicate ClearsMarker(t: Tab, u: Tab) {
    t.session.marker && !u.session.marker
  }

  predicate StartsInitialization(t: Tab, u: Tab) {
    u.calls[InitGetUser] > t.calls[InitGetUser]
  }

  function Recoveries(t: Tab, es: seq<Event>): nat
    decreases |es|
  {
    if es == [] then 0 else var u := Step(t, es[0]); One(StartsRecovery(t, u)) + Recoveries(u, es[1..])
  }

  function Clearings(t: Tab, es: seq<Event>): nat
    decreases |es|
  {
    if es == [] then 0 else var u := Step(t, es[0]); One(ClearsMarker(t, u)) + Clearings(u, es[1..])
  }

  function Initializations(t: Tab, es: seq<Event>): nat
    decreases |es|
  {
    if es == [] then 0 else var u := Step(t, es[0]); One(StartsInitialization(t, u)) + Initializations(u, es[1..])
  }

  function PageLoads(es: seq<Event>): nat {
    if es == [] then 0 else (if es[0].PageLoad? then 1 else 0) + PageLoads(es[1..])
  }

  function One(b: bool): nat {
    if b then 1 else 0
  }

  predicate Clears(e: Event) {
    e == Response(Accepted) || (e.Resolve? && e.call == SignoutRemoveUser(false) && e.ok)
  }

  predicate FailsInitialization(e: Event) {
    e.Resolve? && e.call.InitGetUser? && !e.ok
  }

  function Failures(es: seq<Event>): nat {
    if es == [] then 0 else One(FailsInitialization(es[0])) + Failures(es[1..])
  }

  /** The recoveries a page can still start. */
  function Budget(t: Tab): nat {
    One(!t.session.recovering) + t.calls[RecoveryRemoveUser]
  }

  predicate Coherent(s: Snapshot) {
    && (s.status == Authenticated ==> s.profile.Some? && s.errorCode.None?)
    && (s.status == Error ==> s.errorCode.Some?)
    && (s.status == SignedOut ==> s.profile.None? && s.errorCode.None?)
  }

  /** A read is in flight exactly while the promise is pending: never two, and none once it has resolved. */
  predicate OneInitialization(t: Tab) {
    t.calls[InitGetUser] == One(t.session.initializing.Outstanding?)
  }

  // ---------------------------------------------------------------------------------------
  // One step
  // ---------------------------------------------------------------------------------------

  /** What a step from `t` to `u` does to everything that is counted. */
  predicate Lawful(t: Tab, e: Event, u: Tab) {
    && One(StartsRecovery(t, u)) + One(t.session.marker) == One(ClearsMarker(t, u)) + One(u.session.marker)
    && (ClearsMarker(t, u) ==> Clears(e))
    && One(StartsRecovery(t, u)) + Budget(u) <= Budget(t) + One(e.PageLoad?)
    && (Coherent(t.session.snapshot) ==> Coherent(u.session.snapshot))
    && (OneInitialization(t) ==> OneInitialization(u))
    && (OneInitialization(t) && !e.PageLoad? ==>
          (One(StartsInitialization(t, u)) + One(!t.session.initializing.NotStarted?)
           == One(FailsInitialization(e)) + One(!u.session.initializing.NotStarted?)))
  }

  lemma RequestStartLawful(t: Tab, e: Event)
    requires Enabled(t, e) && (e.StartRequest? || e.RequestInitialized? || e.RequestUser?)
    ensures Lawful(t, e, RequestStep(t, e))
  {
  }

  lemma RequestReplyLawful(t: Tab, e: Event)
    requires Enabled(t, e) && (e.Response? || e.BodyRead?)
    ensures Lawful(t, e, RequestStep(t, e))
  {
  }

  lemma NavigationLawful(t: Tab, e: Event)
    requires Enabled(t, e) && (e.StartNavigation? || e.NavigationInitialized?)
    ensures Lawful(t, e, CallerStep(t, e))
  {
  }

  lemma SignInCallLawful(t: Tab, e: Event)
    requires Enabled(t, e) && e.CallCompleteSignIn?
    ensures Lawful(t, e, CallerStep(t, e))
  {
  }

  lemma SignOutCallLawful(t: Tab, e: Event)
    requires Enabled(t, e) && (e.CallSignOut? || e.CallCompleteSignOut?)
    ensures Lawful(t, e, CallerStep(t, e))
  {
  }

  lemma SignInResolvedLawful(t: Tab, e: Event)
    requires Enabled(t, e) && e.Resolve? && (e.call.InitGetUser? || e.call.SigninRedirect? || e.call.SigninCallback?)
    ensures Lawful(t, e, Step(t, e))
  {
  }

  lemma SignOutResolvedLawful(t: Tab, e: Event)
    requires Enabled(t, e) && e.Resolve?
    requires e.call.SignoutRedirect? || e.call.SignoutGetUser? || e.call.SignoutCallback? || e.call.SignoutRemoveUser?
    ensures Lawful(t, e, Step(t, e))
  {
  }

  lemma RecoveryResolvedLawful(t: Tab, e: Event)
    requires Enabled(t, e) && e.Resolve? && e.call.RecoveryRemoveUser?
    ensures Lawful(t, e, Step(t, e))
  {
  }

  lemma StepLawful(t: Tab, e: Event)
    requires Enabled(t, e)
    ensures Lawful(t, e, Step(t, e))
  {
    match e
    case PageLoad =>
    case UserChanged(_) =>
    case Resolve(call, _, _) =>
      if call.InitGetUser? || call.SigninRedirect? || call.SigninCallback? {
        SignInResolvedLawful(t, e);
      } else if call.RecoveryRemoveUser? {
        RecoveryResolvedLawful(t, e);
      } else {
        SignOutResolvedLawful(t, e);
      }
    case StartNavigation => NavigationLawful(t, e);
    case NavigationInitialized(_) => NavigationLawful(t, e);
    case StartRequest => RequestStartLawful(t, e);
    case RequestInitialized(_) => RequestStartLawful(t, e);
    case RequestUser(_) => RequestStartLawful(t, e);
    case Response(_) => RequestReplyLawful(t, e);
    case BodyRead(_) => RequestReplyLawful(t, e);
    case CallCompleteSignIn => SignInCallLawful(t, e);
    case _ => SignOutCallLawful(t, e);
  }

  // ---------------------------------------------------------------------------------------
  // Recovery cannot loop
  // ---------------------------------------------------------------------------------------

  /** Recovery redirects are exactly the clearings of the marker, plus one while it is set. */
  lemma {:induction false} RecoveryAccounting(t: Tab, es: seq<Event>, u: Tab)
    requires Run(t, es, u)
    ensures Recoveries(t, es) + One(t.session.marker) == Clearings(t, es) + One(u.session.marker)
    decreases |es|
  {
    if es != [] {
      StepLawful(t, es[0]);
      RecoveryAccounting(Step(t, es[0]), es[1..], u);
    }
  }

  /** Only an accepted reply or a completed sign-out clears the marker. */
  lemma {:induction false} NothingClears(t: Tab, es: seq<Event>, u: Tab)
    requires Run(t, es, u) && forall i | 0 <= i < |es| :: !Clears(es[i])
    ensures Clearings(t, es) == 0
    decreases |es|
  {
    if es != [] {
      StepLawful(t, es[0]);
      assert !Clears(es[0]);
      NothingClears(Step(t, es[0]), es[1..], u);
    }
  }

  /**
   However many pages are loaded and however many requests are answered 401: without an accepted
   reply or a completed sign-out, a tab is sent to sign in again at most once, and not at all
   when the marker is already set.
   */
  lemma NoLoginLoop(t: Tab, es: seq<Event>, u: Tab)
    requires Run(t, es, u) && forall i | 0 <= i < |es| :: !Clears(es[i])
    ensures Recoveries(t, es) <= if t.session.marker then 0 else 1
  {
    NothingClears(t, es, u);
    RecoveryAccounting(t, es, u);
  }

  lemma {:induction false} RecoveriesWithinBudget(t: Tab, es: seq<Event>, u: Tab)
    requires Run(t, es, u)
    ensures Recoveries(t, es) <= Budget(t) + PageLoads(es)
    decreases |es|
  {
    if es != [] {
      StepLawful(t, es[0]);
      RecoveriesWithinBudget(Step(t, es[0]), es[1..], u);
    }
  }

  /** Each page load starts at most one recovery redirect, however many of its requests fail at once. */
  lemma OneRecoveryPerPage(es: seq<Event>, u: Tab)
    requires Run(FIRST_PAGE, es, u)
    ensures Recoveries(FIRST_PAGE, es) <= 1 + PageLoads(es)
  {
    RecoveriesWithinBudget(FIRST_PAGE, es, u);
  }

  lemma {:induction false} NoPageLoads(es: seq<Event>)
    requires forall i | 0 <= i < |es| :: !es[i].PageLoad?
    ensures PageLoads(es) == 0
  {
    if es != [] {
      assert !es[0].PageLoad?;
      NoPageLoads(es[1..]);
    }
  }

  /** A page, from its load to the next, starts at most one, whatever the tab did before. */
  lemma APageRecoversOnce(t: Tab, es: seq<Event>, u: Tab)
    requires Run(Step(t, PageLoad), es, u) && forall i | 0 <= i < |es| :: !es[i].PageLoad?
    ensures Recoveries(Step(t, PageLoad), es) <= 1
  {
    NoPageLoads(es);
    RecoveriesWithinBudget(Step(t, PageLoad), es, u);
  }

  /** An accepted reply and a completed sign-out do clear the marker. */
  lemma ClearingClears(t: Tab, e: Event)
    requires Enabled(t, e) && Clears(e)
    ensures !Step(t, e).session.marker
  {
  }

  /**
   Once the user is removed, recovery starts a sign-in exactly if the marker is not set; set it is in
   the end, and else the session is refused.
   */
  lemma RecoveryStartsExactly(t: Tab, e: Event)
    requires Enabled(t, e) && e.Resolve? && e.call.RecoveryRemoveUser? && e.ok
    ensures StartsRecovery(t, Step(t, e)) <==> !t.session.marker
    ensures Step(t, e).session.marker
    ensures t.session.marker
        ==> Step(t, e).session.snapshot.status == Error && Step(t, e).session.snapshot.profile.None?
  {
  }

  // ---------------------------------------------------------------------------------------
  // The published snapshot and the one initialization
  // ---------------------------------------------------------------------------------------

  lemma {:induction false} RunKeepsCoherence(t: Tab, es: seq<Event>, u: Tab)
    requires Run(t, es, u) && Coherent(t.session.snapshot) && OneInitialization(t)
    ensures Coherent(u.session.snapshot) && OneInitialization(u)
    decreases |es|
  {
    if es != [] {
      StepLawful(t, es[0]);
      RunKeepsCoherence(Step(t, es[0]), es[1..], u);
    }
  }

  /** Under every interleaving, what listeners see is coherent and at most one initialization is outstanding. */
  lemma SnapshotAlwaysCoherent(es: seq<Event>, u: Tab)
    requires Run(FIRST_PAGE, es, u)
    ensures Coherent(u.session.snapshot) && OneInitialization(u)
  {
    RunKeepsCoherence(FIRST_PAGE, es, u);
  }

  /**
   Within a page the stored user is read once more only for each read that failed: a failed
   initialization is forgotten, a successful one is never repeated.
   */
  lemma {:induction false} InitializationsFollowFailures(t: Tab, es: seq<Event>, u: Tab)
    requires Run(t, es, u) && OneInitialization(t) && forall i | 0 <= i < |es| :: !es[i].PageLoad?
    ensures Initializations(t, es) + One(!t.session.initializing.NotStarted?)
         == Failures(es) + One(!u.session.initializing.NotStarted?)
    decreases |es|
  {
    if es != [] {
      StepLawful(t, es[0]);
      assert !es[0].PageLoad?;
      InitializationsFollowFailures(Step(t, es[0]), es[1..], u);
    }
  }
}
