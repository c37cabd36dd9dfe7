/** The session store of the client (the `AuthProvider` context of useAuth.tsx): the
    signed-in user with the roles and permissions fetched for it, a loading flag, and
    the browser-storage slot that holds the bearer token.

    Backend calls are not performed: each method is given what the call it makes would
    have produced (a value, or the message of the error it throws) and records the
    request it issues in `calls`, built with the request builder of api.ts. */
module Session {
  import opened Common
  import Api

  /** The profile `/users/me` returns. */
  datatype UserData = UserData(
    id: int, username: string, email: string,
    fullName: Option<string>, bio: Option<string>, avatar: Option<string>, createdAt: string)

  /** What `/me/permissions` returns. */
  datatype Perms = Perms(roles: seq<string>, permissions: seq<string>)

  const NoPerms := Perms([], [])

  /** `{ ...userData, ...permsData }`: the profile with the role and permission lists. */
  datatype AuthUser = AuthUser(data: UserData, roles: seq<string>, permissions: seq<string>)

  /** The value the provider hands to `useAuth` callers. */
  datatype ContextValue = ContextValue(user: Option<AuthUser>, isLoading: bool, isAuthenticated: bool)

  const OutsideProviderMessage := "useAuth must be used within an AuthProvider"

  /** `useAuth()`: the context value, or the error it throws outside an AuthProvider. */
  function UseAuth(context: Option<ContextValue>): (r: Result<ContextValue, string>)
    ensures context.None? ==> r == Err(OutsideProviderMessage)
    ensures context.Some? ==> r == Ok(context.value)
  {
    match context
    case None => Err(OutsideProviderMessage)
    case Some(v) => Ok(v)
  }

  /** The user signed in from a fetched profile: its permission lists, or none when
      their fetch failed. */
  function SignedInUser(data: UserData, perms: Result<Perms, string>): (u: AuthUser)
    ensures u.data == data
    ensures perms.Err? ==> u.roles == [] && u.permissions == []
    ensures perms.Ok? ==> u.roles == perms.value.roles && u.permissions == perms.value.permissions
  {
    var p := if perms.Ok? then perms.value else NoPerms;
    AuthUser(data, p.roles, p.permissions)
  }

  /** The requests made to load a profile with `token`: the profile, then the
      permissions when the profile was fetched. */
  function ProfileCalls(token: Option<string>, currentUser: Result<UserData, string>): (cs: seq<Api.Config>)
    ensures |cs| == (if currentUser.Ok? then 2 else 1)
    ensures cs[0] == Api.AuthedGet(Api.MePath, token)
    ensures currentUser.Ok? ==> cs[1] == Api.AuthedGet(Api.PermissionsPath, token)
  {
    [Api.AuthedGet(Api.MePath, token)] + (if currentUser.Ok? then [Api.AuthedGet(Api.PermissionsPath, token)] else [])
  }

  /** What `login` throws, given what each of its backend steps produced: the first
      error, if any. */
  function LoginFailure(tokenReply: Result<string, string>, currentUser: Result<UserData, string>): (f: Option<string>)
    ensures tokenReply.Err? ==> f == Some(tokenReply.error)
    ensures tokenReply.Ok? ==> (f.None? <==> currentUser.Ok?)
    ensures tokenReply.Ok? && currentUser.Err? ==> f == Some(currentUser.error)
  {
    if tokenReply.Err? then Some(tokenReply.error)
    else if currentUser.Err? then Some(currentUser.error)
    else None
  }

  class AuthProvider {
    /** The 'token' entry of browser storage (None when it is absent). */
    var token: Option<string>
    var user: Option<AuthUser>
    var roles: seq<string>
    var permissions: seq<string>
    var isLoading: bool
    /** The requests issued so far, in order. */
    var calls: seq<Api.Config>

    /** The role and permission lists always mirror those of the signed-in user, and are
        empty when nobody is signed in. */
    predicate Valid()
      reads this
    {
      (user.None? ==> roles == [] && permissions == [])
      && (user.Some? ==> user.value.roles == roles && user.value.permissions == permissions)
    }

    predicate IsAuthenticated()
      reads this
    {
      user.Some?
    }

    function Value(): (v: ContextValue)
      reads this
      ensures v.user == user && v.isLoading == isLoading
      ensures v.isAuthenticated <==> user.Some?
    {
      ContextValue(user, isLoading, IsAuthenticated())
    }

    /** The provider as it is first rendered, before `checkAuthStatus` runs. */
    constructor (stored: Option<string>)
      ensures Valid()
      ensures token == stored && user.None? && roles == [] && permissions == []
      ensures isLoading && calls == []
    {
      token := stored;
      user := None;
      roles := [];
      permissions := [];
      isLoading := true;
      calls := [];
    }

    /** Signs the fetched profile in with its permission lists (empty when their fetch
        failed). */
    method SetSignedIn(data: UserData, perms: Result<Perms, string>)
      modifies this
      ensures Valid()
      ensures user == Some(SignedInUser(data, perms))
      ensures token == old(token) && isLoading == old(isLoading) && calls == old(calls)
    {
      var u := SignedInUser(data, perms);
      user := Some(u);
      roles := u.roles;
      permissions := u.permissions;
    }

    /** `checkAuthStatus`: restores the session from a stored token. `currentUser` and
        `perms` are what `/users/me` and `/me/permissions` would answer. It never throws. */
    method CheckAuthStatus(currentUser: Result<UserData, string>, perms: Result<Perms, string>)
      requires Valid()
      modifies this
      ensures Valid()
      ensures !isLoading
      ensures !Present(old(token)) ==>
                calls == old(calls) && user == old(user) && token == old(token)
                && roles == old(roles) && permissions == old(permissions)
      ensures Present(old(token)) && currentUser.Err? ==>
                token.None? && user.None?
                && calls == old(calls) + [Api.AuthedGet(Api.MePath, old(token))]
      ensures Present(old(token)) && currentUser.Ok? ==>
                token == old(token) && user == Some(SignedInUser(currentUser.value, perms))
                && calls == old(calls) + ProfileCalls(token, currentUser)
    {
      if Present(token) {
        calls := calls + [Api.AuthedGet(Api.MePath, token)];
        if currentUser.Err? {
          token := None;
          user := None;
          roles := [];
          permissions := [];
        } else {
          calls := calls + [Api.AuthedGet(Api.PermissionsPath, token)];
          SetSignedIn(currentUser.value, perms);
        }
      }
      isLoading := false;
    }

    /** The steps of `login` after the token is stored: fetch the profile with it, then
        the permissions (falling back to none). */
    method LoadProfile(currentUser: Result<UserData, string>, perms: Result<Perms, string>)
      returns (thrown: Option<string>)
      requires Valid()
      modifies this
      ensures Valid()
      ensures token == old(token) && isLoading == old(isLoading)
      ensures calls == old(calls) + ProfileCalls(token, currentUser)
      ensures currentUser.Err? ==> thrown == Some(currentUser.error) && user == old(user)
      ensures currentUser.Ok? ==> thrown.None? && user == Some(SignedInUser(currentUser.value, perms))
    {
      calls := calls + [Api.AuthedGet(Api.MePath, token)];
      if currentUser.Err? {
        thrown := Some(currentUser.error);
      } else {
        calls := calls + [Api.AuthedGet(Api.PermissionsPath, token)];
        SetSignedIn(currentUser.value, perms);
        thrown := None;
      }
    }

    /** The first step of `login`: post the credentials and store the token issued. */
    method RequestToken(username: string, password: string, tokenReply: Result<string, string>)
      requires Valid()
      modifies this
      ensures Valid()
      ensures calls == old(calls) + [Api.LoginRequest(username, password)]
      ensures token == (if tokenReply.Ok? then Some(tokenReply.value) else old(token))
      ensures user == old(user) && isLoading == old(isLoading)
    {
      calls := calls + [Api.LoginRequest(username, password)];
      if tokenReply.Ok? {
        token := Some(tokenReply.value);
      }
    }

    /** `login`: `tokenReply` is the access token `/auth/login` issues or the message of
        its error; the error of any failing step is rethrown, as `thrown`. The token is
        stored before the profile is fetched, so it stays stored when that fetch fails. */
    method Login(username: string, password: string, tokenReply: Result<string, string>,
                 currentUser: Result<UserData, string>, perms: Result<Perms, string>)
      returns (thrown: Option<string>)
      requires Valid()
      modifies this
      ensures Valid()
      ensures !isLoading
      ensures thrown == LoginFailure(tokenReply, currentUser)
      ensures tokenReply.Err? ==>
                token == old(token) && user == old(user)
                && calls == old(calls) + [Api.LoginRequest(username, password)]
      ensures tokenReply.Ok? ==>
                token == Some(tokenReply.value)
                && calls == old(calls) + [Api.LoginRequest(username, password)] + ProfileCalls(token, currentUser)
                && user == (if currentUser.Ok? then Some(SignedInUser(currentUser.value, perms)) else old(user))
    {
      isLoading := true;
      RequestToken(username, password, tokenReply);
      if tokenReply.Err? {
        thrown := Some(tokenReply.error);
      } else {
        thrown := LoadProfile(currentUser, perms);
      }
      isLoading := false;
    }

    /** `logout`: forgets the token and the user; no request is made. */
    method Logout()
      modifies this
      ensures Valid()
      ensures token.None? && user.None? && roles == [] && permissions == []
      ensures !IsAuthenticated()
      ensures calls == old(calls) && isLoading == old(isLoading)
    {
      token := None;
      user := None;
      roles := [];
      permissions := [];
    }
  }

  /** The request that fetches the profile after a login carries the token the login
      just stored (when it is not empty), not whatever was stored before. */
  lemma ProfileFetchUsesNewToken(newToken: string)
    requires newToken != ""
    ensures var h := Api.AuthedGet(Api.MePath, Some(newToken)).headers;
            "Authorization" in h && h["Authorization"] == "Bearer " + newToken
  {
  }
}
