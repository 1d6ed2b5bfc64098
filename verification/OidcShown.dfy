/** Whom the session shows, and when, after any step of a tab. */
module OidcShown {
  import opened Wrappers
  import opened Text
  import opened OidcSession
  import opened OidcTab

  predicate Unexpired(user: Option<User>) {
    user.Some? && !user.value.expired
  }

  /** The user a step hands to the session, if it hands it one or none. */
  function Delivered(e: Event): Option<Option<User>> {
    match e
    case UserChanged(user) => Some(user)
    case Resolve(call, ok, user) =>
      if call.InitGetUser? && ok then Some(user)
      else if call.SigninCallback? && ok then Some(user)
      else if call.SignoutGetUser? then Some(if ok then user else None)
      else None
    case _ => None
  }

  predicate HasText(s: Option<string>) {
    s.Some? && !Blank(s.value)
  }

  /** The first of name and preferred name that is not blank, trimmed. */
  ghost predicate NameOf(u: User, shown: Option<string>) {
    if HasText(u.name) then shown.Some? && TrimmedTo(u.name.value, shown.value)
    else if HasText(u.preferredUsername) then shown.Some? && TrimmedTo(u.preferredUsername.value, shown.value)
    else shown.None?
  }

  ghost predicate Shows(s: Snapshot, u: User) {
    && s.status == Authenticated && s.errorCode.None? && s.profile.Some?
    && s.profile.value.subject == u.sub && NameOf(u, s.profile.value.displayName)
  }

  lemma ShownName(s: Option<string>)
    ensures NonBlank(s).Some? <==> HasText(s)
    ensures HasText(s) ==> TrimmedTo(s.value, NonBlank(s).value)
  {
    if s.Some? {
      TrimmedAwayExactly(s.value);
      TrimIs(s.value, Trim(s.value));
    }
  }

  lemma ProfileShows(u: User)
    ensures Shows(Snapshot(Authenticated, Some(ToProfile(u)), None), u)
  {
    ShownName(u.name);
    ShownName(u.preferredUsername);
  }

  /** What went wrong in a step, if anything did. */
  function Failed(marker: bool, e: Event): Option<ErrorCode> {
    if !e.Resolve? then None
    else
      match e.call
      case InitGetUser => if e.ok then None else Some(SessionInitFailed)
      case SigninRedirect(_) => if e.ok then None else Some(SigninRedirectFailed)
      case SigninCallback => if e.ok then None else Some(SigninCallbackFailed)
      case SignoutRemoveUser(failed) => if e.ok && failed then Some(SignoutCallbackFailed) else None
      case RecoveryRemoveUser => if e.ok && marker then Some(SessionRejected) else None
      case _ => None
  }

  /** The steps that send the browser to the provider. */
  predicate Redirects(before: Snapshot, marker: bool, e: Event) {
    || e == CallSignOut
    || (e == NavigationInitialized(true) && before.status != Authenticated)
    || (e.Resolve? && e.call.RecoveryRemoveUser? && e.ok && !marker)
  }

  predicate SignsOut(e: Event) {
    e.Resolve? && e.call == SignoutRemoveUser(false) && e.ok
  }

  /** What is shown when no usable user was delivered: nobody is signed in, and nothing else is lost. */
  predicate NobodyShown(before: Snapshot, e: Event, after: Snapshot) {
    if e.Resolve? && e.call.InitGetUser? then after == Snapshot(Anonymous, None, None)
    else if e.Resolve? && e.call.SignoutGetUser? then after == Snapshot(Anonymous, None, before.errorCode)
    else if before.status == Authenticated then after == Snapshot(Anonymous, None, before.errorCode)
    else after == before
  }

  /** What a step makes of what is shown. */
  ghost predicate Moves(before: Snapshot, marker: bool, e: Event, after: Snapshot) {
    if Delivered(e).Some? then
      if Unexpired(Delivered(e).value) then Shows(after, Delivered(e).value.value) else NobodyShown(before, e, after)
    else if Failed(marker, e).Some? then
      after == Snapshot(Error, if e.call.SigninRedirect? then before.profile else None, Failed(marker, e))
    else if Redirects(before, marker, e) then
      after == Snapshot(Redirecting, before.profile, if e.CallSignOut? then before.errorCode else None)
    else if SignsOut(e) then after == Snapshot(SignedOut, None, None)
    else if e.PageLoad? then after == Snapshot(Initializing, None, None)
    else after == before
  }

  lemma UserChangeMoves(t: Tab, e: Event)
    requires e.UserChanged? || e.PageLoad?
    ensures Moves(t.session.snapshot, t.session.marker, e, Step(t, e).session.snapshot)
  {
    if e.UserChanged? && e.user.Some? {
      ProfileShows(e.user.value);
    }
  }

  lemma SignInMoves(t: Tab, e: Event)
    requires Enabled(t, e) && e.Resolve? && (e.call.InitGetUser? || e.call.SigninRedirect? || e.call.SigninCallback?)
    ensures Moves(t.session.snapshot, t.session.marker, e, Step(t, e).session.snapshot)
  {
    if e.user.Some? {
      ProfileShows(e.user.value);
    }
  }

  lemma SignOutMoves(t: Tab, e: Event)
    requires Enabled(t, e) && e.Resolve?
    requires e.call.SignoutRedirect? || e.call.SignoutGetUser? || e.call.SignoutCallback? || e.call.SignoutRemoveUser?
    ensures Moves(t.session.snapshot, t.session.marker, e, Step(t, e).session.snapshot)
  {
    if e.user.Some? {
      ProfileShows(e.user.value);
    }
  }

  lemma RecoveryMoves(t: Tab, e: Event)
    requires Enabled(t, e) && e.Resolve? && e.call.RecoveryRemoveUser?
    ensures Moves(t.session.snapshot, t.session.marker, e, Step(t, e).session.snapshot)
  {
  }

  lemma RequestMoves(t: Tab, e: Event)
    requires e.StartRequest? || e.RequestInitialized? || e.RequestUser? || e.Response? || e.BodyRead?
    ensures Step(t, e).session.snapshot == t.session.snapshot
  {
  }

  lemma CallerMoves(t: Tab, e: Event)
    requires Enabled(t, e)
    requires e.StartNavigation? || e.NavigationInitialized? || e.CallCompleteSignIn? || e.CallSignOut?
        || e.CallCompleteSignOut?
    ensures Moves(t.session.snapshot, t.session.marker, e, Step(t, e).session.snapshot)
  {
  }

  /**
   After any step, what is shown is decided by the user it delivered, by what failed, by a redirect or
   sign-out, and else is what was shown before.
   */
  lemma StepMoves(t: Tab, e: Event)
    requires Enabled(t, e)
    ensures Moves(t.session.snapshot, t.session.marker, e, Step(t, e).session.snapshot)
  {
    match e
    case PageLoad => UserChangeMoves(t, e);
    case UserChanged(_) => UserChangeMoves(t, e);
    case Resolve(call, _, _) =>
      if call.InitGetUser? || call.SigninRedirect? || call.SigninCallback? {
        SignInMoves(t, e);
      } else if call.RecoveryRemoveUser? {
        RecoveryMoves(t, e);
      } else {
        SignOutMoves(t, e);
      }
    case StartRequest => RequestMoves(t, e);
    case RequestInitialized(_) => RequestMoves(t, e);
    case RequestUser(_) => RequestMoves(t, e);
    case Response(_) => RequestMoves(t, e);
    case BodyRead(_) => RequestMoves(t, e);
    case _ => CallerMoves(t, e);
  }

  /**
   A step signs somebody in, or changes who is signed in, only by delivering a user that has not
   expired, and then shows that user. An expired or absent one leaves nobody signed in.
   */
  lemma OnlyAnUnexpiredUserIsShown(t: Tab, e: Event)
    requires Enabled(t, e)
    ensures var before, after := t.session.snapshot, Step(t, e).session.snapshot;
      && (after.status == Authenticated && after != before ==>
            Delivered(e).Some? && Unexpired(Delivered(e).value) && Shows(after, Delivered(e).value.value))
      && (Delivered(e).Some? ==> (after.status == Authenticated <==> Unexpired(Delivered(e).value)))
  {
    StepMoves(t, e);
  }

  /** The user of the last sign-in that is still shown: over any run it had not expired when it was delivered. */
  lemma {:induction false} WhoeverIsShownWasDelivered(t: Tab, es: seq<Event>, u: Tab)
    requires Run(t, es, u) && u.session.snapshot.status == Authenticated
    ensures u.session.snapshot == t.session.snapshot || exists i, user: User ::
      0 <= i < |es| && Delivered(es[i]) == Some(Some(user)) && !user.expired && Shows(u.session.snapshot, user)
    decreases |es|
  {
    if es != [] {
      var v := Step(t, es[0]);
      WhoeverIsShownWasDelivered(v, es[1..], u);
      if u.session.snapshot == v.session.snapshot {
        OnlyAnUnexpiredUserIsShown(t, es[0]);
        if u.session.snapshot != t.session.snapshot {
          assert Delivered(es[0]) == Some(Some(Delivered(es[0]).value.value));
        }
      } else {
        var i, user: User :| 0 <= i < |es[1..]| && Delivered(es[1..][i]) == Some(Some(user))
          && !user.expired && Shows(u.session.snapshot, user);
        assert Delivered(es[i + 1]) == Some(Some(user));
      }
    }
  }

  predicate HasToken(read: Option<Option<User>>) {
    read.Some? && Unexpired(read.value) && read.value.value.accessToken != ""
  }

  lemma RequestGoesOn(t: Tab, e: Event)
    requires Enabled(t, e) && (e.StartRequest? || e.RequestInitialized? || e.RequestUser? || e.Response? || e.BodyRead?)
    ensures Step(t, e).waiting[AwaitResponse] > t.waiting[AwaitResponse] <==> e.RequestUser? && HasToken(e.read)
  {
  }

  lemma RequestRecovers(t: Tab, e: Event)
    requires Enabled(t, e) && (e.StartRequest? || e.RequestInitialized? || e.RequestUser? || e.Response? || e.BodyRead?)
    ensures Step(t, e).calls[RecoveryRemoveUser] > t.calls[RecoveryRemoveUser] <==>
      !t.session.recovering && (e == BodyRead(true) || (e.RequestUser? && e.read.Some? && !HasToken(e.read)))
  {
  }

  lemma ResolvedSendsNothing(t: Tab, e: Event)
    requires Enabled(t, e) && e.Resolve?
    ensures Step(t, e).waiting == t.waiting && Step(t, e).calls[RecoveryRemoveUser] <= t.calls[RecoveryRemoveUser]
  {
  }

  lemma CallersSendNothing(t: Tab, e: Event)
    requires Enabled(t, e)
    requires e.StartNavigation? || e.NavigationInitialized? || e.CallCompleteSignIn? || e.CallSignOut?
        || e.CallCompleteSignOut?
    ensures Step(t, e).waiting[AwaitResponse] == t.waiting[AwaitResponse]
    ensures Step(t, e).calls[RecoveryRemoveUser] == t.calls[RecoveryRemoveUser]
  {
  }

  /**
   A request goes out exactly with the token of a user that has not expired. A request without one, or
   one answered by 401, begins the recovery of the page, unless it has begun.
   */
  lemma RequestsCarryAToken(t: Tab, e: Event)
    requires Enabled(t, e)
    ensures Step(t, e).waiting[AwaitResponse] > t.waiting[AwaitResponse] <==> e.RequestUser? && HasToken(e.read)
    ensures Step(t, e).calls[RecoveryRemoveUser] > t.calls[RecoveryRemoveUser] <==>
      !t.session.recovering && (e == BodyRead(true) || (e.RequestUser? && e.read.Some? && !HasToken(e.read)))
  {
    if e.StartRequest? || e.RequestInitialized? || e.RequestUser? || e.Response? || e.BodyRead? {
      RequestGoesOn(t, e);
      RequestRecovers(t, e);
    } else if e.Resolve? {
      ResolvedSendsNothing(t, e);
    } else if !e.PageLoad? && !e.UserChanged? {
      CallersSendNothing(t, e);
    }
  }
}
