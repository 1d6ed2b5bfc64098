/** What each step does to the requests that wait, the adapter calls in flight and the flags of the session. */
module OidcSteps {
  import opened Wrappers
  import opened OidcSession
  import opened OidcTab
  import opened OidcShown

  // ---------------------------------------------------------------------------------------
  // Requests
  // ---------------------------------------------------------------------------------------

  /** The await that ends. */
  function Ended(e: Event): Option<Stage> {
    match e
    case RequestInitialized(_) => Some(AwaitInitialize)
    case RequestUser(_) => Some(AwaitUser)
    case Response(_) => Some(AwaitResponse)
    case BodyRead(_) => Some(AwaitBody)
    case NavigationInitialized(_) => Some(GuardAwaitsInitialize)
    case _ => None
  }

  /** The await that begins: a request is sent only with a token, and its body read only after a 401. */
  function Begun(e: Event): Option<Stage> {
    match e
    case StartRequest => Some(AwaitInitialize)
    case StartNavigation => Some(GuardAwaitsInitialize)
    case RequestInitialized(ok) => if ok then Some(AwaitUser) else None
    case RequestUser(read) => if HasToken(read) then Some(AwaitResponse) else None
    case Response(reply) => if reply.Unauthorized? then Some(AwaitBody) else None
    case _ => None
  }

  ghost predicate WaitingMoves(t: Tab, e: Event, u: Tab) {
    forall k :: u.waiting[k] ==
      if e.PageLoad? then 0 else t.waiting[k] - One(Ended(e) == Some(k)) + One(Begun(e) == Some(k))
  }

  lemma BeginWaits(t: Tab, e: Event)
    requires Enabled(t, e) && (e.StartRequest? || e.RequestInitialized?)
    ensures WaitingMoves(t, e, Step(t, e))
  {
  }

  lemma UserWaits(t: Tab, e: Event)
    requires Enabled(t, e) && e.RequestUser?
    ensures WaitingMoves(t, e, Step(t, e))
  {
  }

  lemma ReplyWaits(t: Tab, e: Event)
    requires Enabled(t, e) && (e.Response? || e.BodyRead?)
    ensures WaitingMoves(t, e, Step(t, e))
  {
  }

  lemma RequestWaits(t: Tab, e: Event)
    requires Enabled(t, e) && (e.StartRequest? || e.RequestInitialized? || e.RequestUser? || e.Response? || e.BodyRead?)
    ensures WaitingMoves(t, e, Step(t, e))
  {
    if e.StartRequest? || e.RequestInitialized? {
      BeginWaits(t, e);
    } else if e.RequestUser? {
      UserWaits(t, e);
    } else {
      ReplyWaits(t, e);
    }
  }

  lemma OthersWait(t: Tab, e: Event)
    requires Enabled(t, e)
    requires !(e.StartRequest? || e.RequestInitialized? || e.RequestUser? || e.Response? || e.BodyRead? || e.Resolve?)
    ensures WaitingMoves(t, e, Step(t, e))
  {
  }

  /** A step ends the await of its event and begins the next one of the same request, and no other. */
  lemma StepWaits(t: Tab, e: Event)
    requires Enabled(t, e)
    ensures WaitingMoves(t, e, Step(t, e))
  {
    if e.StartRequest? || e.RequestInitialized? || e.RequestUser? || e.Response? || e.BodyRead? {
      RequestWaits(t, e);
    } else if e.Resolve? {
      ResolvedSendsNothing(t, e);
    } else {
      OthersWait(t, e);
    }
  }

  // ---------------------------------------------------------------------------------------
  // Adapter calls
  // ---------------------------------------------------------------------------------------

  /** A request finds no token, or its 401 was read. */
  predicate AsksForRecovery(e: Event) {
    e == BodyRead(true) || (e.RequestUser? && e.read.Some? && !HasToken(e.read))
  }

  /** The adapter call that the step makes. */
  function Made(s: Session, e: Event): Option<Call> {
    if e.StartRequest? || e.StartNavigation? then
      if s.initializing.NotStarted? then Some(InitGetUser) else None
    else if AsksForRecovery(e) then if s.recovering then None else Some(RecoveryRemoveUser)
    else
      match e
      case NavigationInitialized(ok) =>
        if ok && s.snapshot.status != Authenticated then Some(SigninRedirect(false)) else None
      case CallCompleteSignIn => if s.completingSignIn then None else Some(SigninCallback)
      case CallSignOut => Some(SignoutRedirect)
      case CallCompleteSignOut => Some(SignoutCallback)
      case Resolve(call, ok, _) =>
        if call.SignoutRedirect? && !ok then Some(SignoutGetUser)
        else if call.SignoutCallback? then Some(SignoutRemoveUser(!ok))
        else if call.RecoveryRemoveUser? && ok && !s.marker then Some(SigninRedirect(true))
        else None
      case _ => None
  }

  ghost predicate CallsMove(t: Tab, e: Event, u: Tab) {
    forall c :: u.calls[c] ==
      if e.PageLoad? then 0
      else t.calls[c] - One(e.Resolve? && e.call == c) + One(Made(t.session, e) == Some(c))
  }

  lemma BeginCalls(t: Tab, e: Event)
    requires Enabled(t, e) && (e.StartRequest? || e.RequestInitialized?)
    ensures CallsMove(t, e, Step(t, e))
  {
  }

  lemma UserCalls(t: Tab, e: Event)
    requires Enabled(t, e) && e.RequestUser?
    ensures CallsMove(t, e, Step(t, e))
  {
  }

  lemma ReplyCalls(t: Tab, e: Event)
    requires Enabled(t, e) && (e.Response? || e.BodyRead?)
    ensures CallsMove(t, e, Step(t, e))
  {
  }

  lemma RequestCalls(t: Tab, e: Event)
    requires Enabled(t, e) && (e.StartRequest? || e.RequestInitialized? || e.RequestUser? || e.Response? || e.BodyRead?)
    ensures CallsMove(t, e, Step(t, e))
  {
    if e.StartRequest? || e.RequestInitialized? {
      BeginCalls(t, e);
    } else if e.RequestUser? {
      UserCalls(t, e);
    } else {
      ReplyCalls(t, e);
    }
  }

  lemma SignInCalls(t: Tab, e: Event)
    requires Enabled(t, e) && e.Resolve? && (e.call.InitGetUser? || e.call.SigninRedirect? || e.call.SigninCallback?)
    ensures CallsMove(t, e, Step(t, e))
  {
  }

  lemma SignOutCalls(t: Tab, e: Event)
    requires Enabled(t, e) && e.Resolve?
    requires e.call.SignoutRedirect? || e.call.SignoutGetUser? || e.call.SignoutCallback? || e.call.SignoutRemoveUser?
    ensures CallsMove(t, e, Step(t, e))
  {
  }

  lemma RecoveryCalls(t: Tab, e: Event)
    requires Enabled(t, e) && e.Resolve? && e.call.RecoveryRemoveUser?
    ensures CallsMove(t, e, Step(t, e))
  {
  }

  lemma ResolvedCalls(t: Tab, e: Event)
    requires Enabled(t, e) && e.Resolve?
    ensures CallsMove(t, e, Step(t, e))
  {
    if e.call.InitGetUser? || e.call.SigninRedirect? || e.call.SigninCallback? {
      SignInCalls(t, e);
    } else if e.call.RecoveryRemoveUser? {
      RecoveryCalls(t, e);
    } else {
      SignOutCalls(t, e);
    }
  }

  lemma OthersCall(t: Tab, e: Event)
    requires Enabled(t, e)
    requires !(e.StartRequest? || e.RequestInitialized? || e.RequestUser? || e.Response? || e.BodyRead? || e.Resolve?)
    ensures CallsMove(t, e, Step(t, e))
  {
  }

  /** A step ends the call that it resolves and makes at most one: which one, and when, is as listed. */
  lemma StepCalls(t: Tab, e: Event)
    requires Enabled(t, e)
    ensures CallsMove(t, e, Step(t, e))
  {
    if e.StartRequest? || e.RequestInitialized? || e.RequestUser? || e.Response? || e.BodyRead? {
      RequestCalls(t, e);
    } else if e.Resolve? {
      ResolvedCalls(t, e);
    } else {
      OthersCall(t, e);
    }
  }

  // ---------------------------------------------------------------------------------------
  // Flags
  // ---------------------------------------------------------------------------------------

  /** The marker of the tab is set by a recovery, and cleared by an accepted request or a completed sign-out. */
  predicate MarkerMoves(s: Session, e: Event, after: bool) {
    if Clears(e) then !after
    else if e.Resolve? && e.call.RecoveryRemoveUser? && e.ok then after
    else after == s.marker
  }

  /** The read of the stored user is begun once, and begun again only after it failed or on a new page. */
  predicate InitializingMoves(s: Session, e: Event, after: Initialization) {
    if e.PageLoad? then after.NotStarted?
    else if e.Resolve? && e.call.InitGetUser? then if e.ok then after.Succeeded? else after.NotStarted?
    else if (e.StartRequest? || e.StartNavigation?) && s.initializing.NotStarted? then after.Outstanding?
    else after == s.initializing
  }

  ghost predicate FlagsMove(s: Session, e: Event, u: Session) {
    && MarkerMoves(s, e, u.marker) && InitializingMoves(s, e, u.initializing)
    && (u.completingSignIn <==> !e.PageLoad? && (s.completingSignIn || e.CallCompleteSignIn?))
    && (u.recovering <==> !e.PageLoad? && (s.recovering || AsksForRecovery(e)))
  }

  lemma RequestFlags(t: Tab, e: Event)
    requires Enabled(t, e) && (e.StartRequest? || e.RequestInitialized? || e.RequestUser? || e.Response? || e.BodyRead?)
    ensures FlagsMove(t.session, e, Step(t, e).session)
  {
  }

  lemma SignInFlags(t: Tab, e: Event)
    requires Enabled(t, e) && e.Resolve? && (e.call.InitGetUser? || e.call.SigninRedirect? || e.call.SigninCallback?)
    ensures FlagsMove(t.session, e, Step(t, e).session)
  {
  }

  lemma SignOutFlags(t: Tab, e: Event)
    requires Enabled(t, e) && e.Resolve?
    requires e.call.SignoutRedirect? || e.call.SignoutGetUser? || e.call.SignoutCallback? || e.call.SignoutRemoveUser?
    ensures FlagsMove(t.session, e, Step(t, e).session)
  {
  }

  lemma RecoveryFlags(t: Tab, e: Event)
    requires Enabled(t, e) && e.Resolve? && e.call.RecoveryRemoveUser?
    ensures FlagsMove(t.session, e, Step(t, e).session)
  {
  }

  lemma ResolvedFlags(t: Tab, e: Event)
    requires Enabled(t, e) && e.Resolve?
    ensures FlagsMove(t.session, e, Step(t, e).session)
  {
    if e.call.InitGetUser? || e.call.SigninRedirect? || e.call.SigninCallback? {
      SignInFlags(t, e);
    } else if e.call.RecoveryRemoveUser? {
      RecoveryFlags(t, e);
    } else {
      SignOutFlags(t, e);
    }
  }

  lemma CallerFlags(t: Tab, e: Event)
    requires Enabled(t, e)
    requires e.StartNavigation? || e.NavigationInitialized? || e.CallCompleteSignIn? || e.CallSignOut?
        || e.CallCompleteSignOut?
    ensures FlagsMove(t.session, e, Step(t, e).session)
  {
  }

  lemma PageFlags(t: Tab, e: Event)
    requires e.PageLoad? || e.UserChanged?
    ensures FlagsMove(t.session, e, Step(t, e).session)
  {
  }

  /** Every flag after a step, from what it was and the event. */
  lemma StepFlags(t: Tab, e: Event)
    requires Enabled(t, e)
    ensures FlagsMove(t.session, e, Step(t, e).session)
  {
    if e.StartRequest? || e.RequestInitialized? || e.RequestUser? || e.Response? || e.BodyRead? {
      RequestFlags(t, e);
    } else if e.Resolve? {
      ResolvedFlags(t, e);
    } else if e.PageLoad? || e.UserChanged? {
      PageFlags(t, e);
    } else {
      CallerFlags(t, e);
    }
  }
}
