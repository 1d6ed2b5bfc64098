/**
 The browser session of `createAuthSession` in OIDC mode. Each asynchronous function is cut at
 its awaits; a function below runs from one cut to the next and says which adapter call it
 leaves pending. The recovery marker lives in the tab's storage and outlives the page.
 */
module OidcSession {
  import opened Wrappers
  import opened Text

  datatype Status = Initializing | Anonymous | Authenticated | Redirecting | SignedOut | Error

  datatype ErrorCode =
    SessionInitFailed | SigninRedirectFailed | SigninCallbackFailed | SignoutCallbackFailed | SessionRejected

  datatype Profile = Profile(subject: string, displayName: Option<string>)

  datatype Snapshot = Snapshot(status: Status, profile: Option<Profile>, errorCode: Option<ErrorCode>)

  datatype User = User(
    accessToken: string, expired: bool, sub: string, name: Option<string>, preferredUsername: Option<string>)

  /** `initializing`: no promise, a pending one, or one that resolved. */
  datatype Initialization = NotStarted | Outstanding | Succeeded

  /** An adapter call in flight together with the function that waits for it. */
  datatype Call =
    | InitGetUser
    | SigninRedirect(recovery: bool)
    | SigninCallback
    | SignoutRedirect
    | SignoutGetUser
    | SignoutCallback
    | SignoutRemoveUser(callbackFailed: bool)
    | RecoveryRemoveUser

  datatype Session = Session(
    snapshot: Snapshot, initializing: Initialization, completingSignIn: bool, recovering: bool, marker: bool)

  function NewPage(marker: bool): Session {
    Session(Snapshot(Initializing, None, None), NotStarted, false, false, marker)
  }

  predicate Usable(user: Option<User>) {
    user.Some? && !user.value.expired
  }

  function NonBlank(s: Option<string>): Option<string> {
    if s.Some? && Trim(s.value) != "" then Some(Trim(s.value)) else None
  }

  function ToProfile(u: User): Profile {
    Profile(u.sub, if NonBlank(u.name).Some? then NonBlank(u.name) else NonBlank(u.preferredUsername))
  }

  function ApplyUser(s: Session, user: Option<User>): Session {
    if Usable(user) then s.(snapshot := Snapshot(Authenticated, Some(ToProfile(user.value)), None))
    else if s.snapshot.status == Authenticated then s.(snapshot := s.snapshot.(status := Anonymous, profile := None))
    else s
  }

  function Publish(s: Session, status: Status, profile: Option<Profile>, errorCode: Option<ErrorCode>): Session {
    s.(snapshot := Snapshot(status, profile, errorCode))
  }

  function SignIn(s: Session, recovery: bool): (Session, Option<Call>) {
    (Publish(s, Redirecting, s.snapshot.profile, None), Some(SigninRedirect(recovery)))
  }

  function SignInFailed(s: Session): Session {
    Publish(s, Error, s.snapshot.profile, Some(SigninRedirectFailed))
  }

  function Initialize(s: Session): (Session, Option<Call>) {
    if s.initializing.NotStarted? then (s.(initializing := Outstanding), Some(InitGetUser)) else (s, None)
  }

  /** `read` is None when reading the stored user failed. */
  function Initialized(s: Session, read: Option<Option<User>>): Session {
    match read
    case None => Publish(s, Error, None, Some(SessionInitFailed)).(initializing := NotStarted)
    case Some(user) =>
      var t := if Usable(user) then ApplyUser(s, user) else Publish(s, Anonymous, None, None);
      t.(initializing := Succeeded)
  }

  function CompleteSignIn(s: Session): (Session, Option<Call>) {
    if s.completingSignIn then (s, None) else (s.(completingSignIn := true), Some(SigninCallback))
  }

  function SignInCompleted(s: Session, user: Option<User>): Session {
    if user.None? then Publish(s, Error, None, Some(SigninCallbackFailed)) else ApplyUser(s, user)
  }

  function SignOut(s: Session): (Session, Option<Call>) {
    (Publish(s, Redirecting, s.snapshot.profile, s.snapshot.errorCode), Some(SignoutRedirect))
  }

  /** Resumes `signOut` after a failed redirect, with what `getUser` (or its `catch`) gave. */
  function SignOutFailed(s: Session, user: Option<User>): Session {
    if Usable(user) then ApplyUser(s, user) else Publish(s, Anonymous, None, s.snapshot.errorCode)
  }

  function SignOutCompleted(s: Session, callbackFailed: bool): Session {
    if callbackFailed then Publish(s, Error, None, Some(SignoutCallbackFailed))
    else Publish(s.(marker := false), SignedOut, None, None)
  }

  function HandleUnauthorized(s: Session): (Session, Option<Call>) {
    if s.recovering then (s, None) else (s.(recovering := true), Some(RecoveryRemoveUser))
  }

  function UserRemovedForRecovery(s: Session): (Session, Option<Call>) {
    if s.marker then (Publish(s, Error, None, Some(SessionRejected)), None)
    else SignIn(s.(marker := true), true)
  }

  function ConfirmAuthorized(s: Session): Session {
    s.(marker := false)
  }

  /** The tab's `sessionStorage`, as far as the session uses it. */
  class TabStorage {
    var marker: bool

    constructor ()
      ensures !marker
    {
      marker := false;
    }
  }

  class AuthSession {
    const storage: TabStorage
    var state: Snapshot
    var initializing: Initialization
    var completingSignIn: bool
    var recovering: bool

    constructor (storage: TabStorage)
      ensures this.storage == storage && View() == NewPage(storage.marker)
    {
      this.storage := storage;
      state := Snapshot(Initializing, None, None);
      initializing, completingSignIn, recovering := NotStarted, false, false;
    }

    function View(): Session
      reads this, storage
    {
      Session(state, initializing, completingSignIn, recovering, storage.marker)
    }

    /** The `adapter.onUserChanged` listener. */
    method OnUserChanged(user: Option<User>)
      modifies this
      ensures View() == ApplyUser(old(View()), user)
    {
      if user.Some? && !user.value.expired {
        state := Snapshot(Authenticated, Some(ToProfile(user.value)), None);
      } else if state.status == Authenticated {
        state := state.(status := Anonymous, profile := None);
      }
    }

    method StartSignIn(recovery: bool) returns (call: Option<Call>)
      modifies this
      ensures (View(), call) == SignIn(old(View()), recovery)
    {
      state := state.(status := Redirecting, errorCode := None);
      call := Some(SigninRedirect(recovery));
    }

    method OnSignInFailed()
      modifies this
      ensures View() == SignInFailed(old(View()))
    {
      state := state.(status := Error, errorCode := Some(SigninRedirectFailed));
    }

    method StartInitialize() returns (call: Option<Call>)
      modifies this
      ensures (View(), call) == Initialize(old(View()))
    {
      call := None;
      if initializing.NotStarted? {
        initializing := Outstanding;
        call := Some(InitGetUser);
      }
    }

    method OnInitialized(read: Option<Option<User>>)
      modifies this
      ensures View() == Initialized(old(View()), read)
    {
      if read.None? {
        initializing := NotStarted;
        state := Snapshot(Error, None, Some(SessionInitFailed));
      } else {
        if Usable(read.value) {
          OnUserChanged(read.value);
        } else {
          state := Snapshot(Anonymous, None, None);
        }
        initializing := Succeeded;
      }
    }

    method StartCompleteSignIn() returns (call: Option<Call>)
      modifies this
      ensures (View(), call) == CompleteSignIn(old(View()))
    {
      call := None;
      if !completingSignIn {
        completingSignIn := true;
        call := Some(SigninCallback);
      }
    }

    method OnSignInCallback(user: Option<User>)
      modifies this
      ensures View() == SignInCompleted(old(View()), user)
    {
      if user.None? {
        state := Snapshot(Error, None, Some(SigninCallbackFailed));
      } else {
        OnUserChanged(user);
      }
    }

    method StartSignOut() returns (call: Option<Call>)
      modifies this
      ensures (View(), call) == SignOut(old(View()))
    {
      state := state.(status := Redirecting);
      call := Some(SignoutRedirect);
    }

    method OnSignOutFailed(user: Option<User>)
      modifies this
      ensures View() == SignOutFailed(old(View()), user)
    {
      if Usable(user) {
        OnUserChanged(user);
      } else {
        state := state.(status := Anonymous, profile := None);
      }
    }

    method OnSignOutUserRemoved(callbackFailed: bool)
      modifies this, storage
      ensures View() == SignOutCompleted(old(View()), callbackFailed)
    {
      if callbackFailed {
        state := Snapshot(Error, None, Some(SignoutCallbackFailed));
      } else {
        storage.marker := false;
        state := Snapshot(SignedOut, None, None);
      }
    }

    method StartRecovery() returns (call: Option<Call>)
      modifies this
      ensures (View(), call) == HandleUnauthorized(old(View()))
    {
      if recovering { return None; }
      recovering := true;
      call := Some(RecoveryRemoveUser);
    }

    method OnRecoveryUserRemoved() returns (call: Option<Call>)
      modifies this, storage
      ensures (View(), call) == UserRemovedForRecovery(old(View()))
    {
      if storage.marker {
        state := Snapshot(Error, None, Some(SessionRejected));
        return None;
      }
      storage.marker := true;
      call := StartSignIn(true);
    }

    method Confirm()
      modifies storage
      ensures View() == ConfirmAuthorized(old(View()))
    {
      if storage.marker {
        storage.marker := false;
      }
    }
  }
}
