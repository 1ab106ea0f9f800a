/** The session store (`AuthProvider`): the signed-in user, whether that user is
    an admin, and whether that is still being worked out. The store's two
    asynchronous handlers (the initial session load and the auth-change
    callback) are each split at their `await` points into steps, so that the
    state between the steps is visible; the remote answers are parameters. */
module Auth {
  import opened Common
  import opened Schema

  /** The signed-in principal (the parts of the backend's `User` the console reads). */
  datatype User = User(id: string, email: string)

  /** An error reported by the backend's sign-in call, and the `Error` handed to the caller. */
  datatype AuthError = AuthError(message: string)
  datatype Error = Error(message: string)

  /** The test the role query applies to a row: `.eq("user_id", uid).eq("role", "admin")`. */
  function IsAdminGrantOf(uid: string): UserRole -> bool {
    (g: UserRole) => g.userId == uid && g.role == "admin"
  }

  /** The `user_roles` rows that grant "admin" to `uid`. */
  function AdminGrants(roles: seq<UserRole>, uid: string): (r: seq<UserRole>)
    ensures forall g :: g in r <==> g in roles && g == UserRole(uid, "admin")
  {
    Filter(roles, IsAdminGrantOf(uid))
  }

  /** `fetchIsAdmin(uid)`: the role query ends in `.maybeSingle()`, which answers with an error
      when more than one row matches; any error (`lookupFailed`, or that one) reads as "not admin". */
  function FetchIsAdmin(roles: seq<UserRole>, uid: string, lookupFailed: bool): (admin: bool)
    ensures lookupFailed ==> !admin
    ensures admin ==> UserRole(uid, "admin") in roles
    ensures UserRole(uid, "admin") !in roles ==> !admin
    ensures admin <==> !lookupFailed && |AdminGrants(roles, uid)| == 1
    ensures |AdminGrants(roles, uid)| >= 2 ==> !admin
  {
    var grants := AdminGrants(roles, uid);
    if lookupFailed then false
    else if |grants| == 1 then (assert grants[0] in grants; true)
    else false
  }

  /** With no lookup error, the flag is set exactly when one "admin" row exists for the user. */
  lemma FetchIsAdminSingleGrant(roles: seq<UserRole>, uid: string)
    requires |AdminGrants(roles, uid)| == 1
    ensures FetchIsAdmin(roles, uid, false)
    ensures !FetchIsAdmin(roles, uid, true)
  {
  }

  /** `signIn`: the backend's error becomes an `Error` with the same message; success gives no error. */
  function SignInResult(backendError: Option<AuthError>): (r: Option<Error>)
    ensures r.None? <==> backendError.None?
    ensures r.Some? ==> r.value.message == backendError.value.message
  {
    match backendError
    case None => None
    case Some(e) => Some(Error(e.message))
  }

  class AuthStore {
    var user: Option<User>
    var isAdmin: bool
    var isLoading: bool
    /** The effect's `mounted` flag; clearing it also removes the auth-change subscription. */
    var mounted: bool
    /** The user whose admin lookup the initial load is waiting for, if any. */
    var initLookupFor: Option<string>
    /** The user whose admin lookup the auth-change callback is waiting for, if any. */
    var changeLookupFor: Option<string>

    /** The provider's initial state. */
    constructor ()
      ensures user.None? && !isAdmin && isLoading && mounted
      ensures initLookupFor.None? && changeLookupFor.None?
    {
      user, isAdmin, isLoading, mounted := None, false, true, true;
      initLookupFor, changeLookupFor := None, None;
    }

    /** `init` up to its first `await`. */
    method InitStart()
      modifies this
      ensures isLoading
      ensures user == old(user) && isAdmin == old(isAdmin) && mounted == old(mounted)
      ensures initLookupFor == old(initLookupFor) && changeLookupFor == old(changeLookupFor)
    {
      isLoading := true;
    }

    /** `init` after `getSession` answered with `session`'s user: nothing happens once unmounted;
        otherwise the user is set and, without one, the store is settled as "not admin". */
    method InitSessionResolved(session: Option<User>)
      modifies this
      ensures !old(mounted) ==>
        user == old(user) && isAdmin == old(isAdmin) && isLoading == old(isLoading) &&
        initLookupFor == old(initLookupFor)
      ensures old(mounted) ==> user == session
      ensures old(mounted) && session.None? ==>
        !isAdmin && !isLoading && initLookupFor == old(initLookupFor)
      ensures old(mounted) && session.Some? ==>
        isAdmin == old(isAdmin) && isLoading == old(isLoading) &&
        initLookupFor == Some(session.value.id)
      ensures mounted == old(mounted) && changeLookupFor == old(changeLookupFor)
    {
      if !mounted {
        return;
      }
      user := session;
      if session.None? {
        isAdmin := false;
        isLoading := false;
      } else {
        initLookupFor := Some(session.value.id);
      }
    }

    /** `init` after the admin lookup answered: the flag and the end of loading are applied
        only while still mounted. */
    method InitLookupResolved(roles: seq<UserRole>, lookupFailed: bool)
      requires initLookupFor.Some?
      modifies this
      ensures old(mounted) ==>
        isAdmin == FetchIsAdmin(roles, old(initLookupFor).value, lookupFailed) && !isLoading
      ensures !old(mounted) ==> isAdmin == old(isAdmin) && isLoading == old(isLoading)
      ensures initLookupFor.None?
      ensures user == old(user) && mounted == old(mounted) && changeLookupFor == old(changeLookupFor)
    {
      var admin := FetchIsAdmin(roles, initLookupFor.value, lookupFailed);
      if mounted {
        isAdmin := admin;
      }
      if mounted {
        isLoading := false;
      }
      initLookupFor := None;
    }

    /** The effect's clean-up: `mounted = false` and the subscription removed. */
    method Unmount()
      modifies this
      ensures !mounted
      ensures user == old(user) && isAdmin == old(isAdmin) && isLoading == old(isLoading)
      ensures initLookupFor == old(initLookupFor) && changeLookupFor == old(changeLookupFor)
    {
      mounted := false;
    }

    /** The auth-change callback up to its `await`: the user is replaced and loading starts;
        without a user the store settles at once as "not admin". Events after unmounting are
        not delivered. */
    method AuthChangeBegin(session: Option<User>)
      modifies this
      ensures !old(mounted) ==>
        user == old(user) && isAdmin == old(isAdmin) && isLoading == old(isLoading) &&
        changeLookupFor == old(changeLookupFor)
      ensures old(mounted) ==> user == session
      ensures old(mounted) && session.None? ==> !isAdmin && !isLoading
      ensures old(mounted) && session.Some? ==>
        isLoading && isAdmin == old(isAdmin) && changeLookupFor == Some(session.value.id)
      ensures old(mounted) && session.None? ==> changeLookupFor == old(changeLookupFor)
      ensures mounted == old(mounted) && initLookupFor == old(initLookupFor)
    {
      if !mounted {
        return;
      }
      user := session;
      isLoading := true;
      if session.None? {
        isAdmin := false;
        isLoading := false;
      } else {
        changeLookupFor := Some(session.value.id);
      }
    }

    /** The auth-change callback after its admin lookup answered. */
    method AuthChangeLookupResolved(roles: seq<UserRole>, lookupFailed: bool)
      requires changeLookupFor.Some?
      modifies this
      ensures isAdmin == FetchIsAdmin(roles, old(changeLookupFor).value, lookupFailed)
      ensures !isLoading && changeLookupFor.None?
      ensures user == old(user) && mounted == old(mounted) && initLookupFor == old(initLookupFor)
    {
      isAdmin := FetchIsAdmin(roles, changeLookupFor.value, lookupFailed);
      isLoading := false;
      changeLookupFor := None;
    }
  }

  /** A complete initial load of a mounted store with no session ends signed out, not admin, not loading. */
  method InitWithoutSession() returns (s: AuthStore)
    ensures s.user.None? && !s.isAdmin && !s.isLoading
  {
    s := new AuthStore();
    s.InitStart();
    s.InitSessionResolved(None);
  }

  /** A complete initial load with a session ends with that user, not loading, and the admin flag
      that the lookup gives for that user; a failed lookup gives "not admin". */
  method InitWithSession(u: User, roles: seq<UserRole>, lookupFailed: bool) returns (s: AuthStore)
    ensures s.user == Some(u) && !s.isLoading
    ensures s.isAdmin == FetchIsAdmin(roles, u.id, lookupFailed)
    ensures lookupFailed ==> !s.isAdmin
  {
    s := new AuthStore();
    s.InitStart();
    s.InitSessionResolved(Some(u));
    s.InitLookupResolved(roles, lookupFailed);
  }

  /** A store unmounted before the session arrived is left exactly as it was. */
  method InitAfterUnmount(u: Option<User>) returns (s: AuthStore)
    ensures s.user.None? && !s.isAdmin && s.isLoading && !s.mounted
  {
    s := new AuthStore();
    s.InitStart();
    s.Unmount();
    s.InitSessionResolved(u);
  }

  /** A sign-in event shows the user and "loading" while the lookup runs, then settles on the
      lookup's answer for that user. */
  method SignInEvent(s: AuthStore, u: User, roles: seq<UserRole>, lookupFailed: bool)
    requires s.mounted
    modifies s
    ensures s.user == Some(u) && !s.isLoading
    ensures s.isAdmin == FetchIsAdmin(roles, u.id, lookupFailed)
  {
    s.AuthChangeBegin(Some(u));
    assert s.isLoading && s.user == Some(u);
    s.AuthChangeLookupResolved(roles, lookupFailed);
  }
}
