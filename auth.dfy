/** The session: who is signed in, whether the stored session is still being read, and the
    browser storage the session lives in. The role checks are pure functions of a snapshot;
    the provider is a class whose methods make the transitions of sign-in, sign-out, account
    deletion, profile update and the forced sign-out the HTTP layer raises on a 401. */
module Auth {
  import opened Wrappers
  import opened Constants
  import opened Records
  import Paths
  import H = Helpers

  /** What the session exposes to guards and pages. `token` is the stored access token. */
  datatype Session = Session(user: Option<Person>, loading: bool, token: Option<string>)

  /** `!!localStorage.getItem(token)`: a stored, non-empty token. */
  predicate TokenPresent(token: Option<string>) {
    token.Some? && token.value != ""
  }

  /** `isAuthenticated()`: a user in state and a token in storage. */
  function IsAuthenticated(s: Session): (r: bool)
    ensures r ==> s.user.Some?
    ensures r ==> TokenPresent(s.token)
    ensures s.user.Some? && TokenPresent(s.token) ==> r
  {
    s.user.Some? && TokenPresent(s.token)
  }

  /** `hasRole(allowedRoles)`: false without a user; otherwise the helper's check on the role. */
  function HasRole(user: Option<Person>, allowed: H.AllowedRoles): (r: bool)
    ensures user.None? ==> !r
    ensures user.Some? && allowed.AnyOf? ==> (r <==> user.value.role in allowed.roles)
    ensures user.Some? && allowed.Only? ==> (r <==> user.value.role == allowed.role)
  {
    user.Some? && H.HasRole(user.value.role, allowed)
  }

  /** `isAdmin()`. */
  function IsAdmin(user: Option<Person>): (r: bool)
    ensures r <==> user.Some? && user.value.role in {RoleAdmin, RoleSuperAdmin}
  {
    user.Some? && H.IsAdminRole(user.value.role)
  }

  function IsSuperAdmin(user: Option<Person>): (r: bool)
    ensures r <==> user.Some? && user.value.role == RoleSuperAdmin
  {
    user.Some? && user.value.role == RoleSuperAdmin
  }

  function IsInstructor(user: Option<Person>): (r: bool)
    ensures r <==> user.Some? && user.value.role == RoleInstructor
  {
    user.Some? && user.value.role == RoleInstructor
  }

  function IsUser(user: Option<Person>): (r: bool)
    ensures r <==> user.Some? && user.value.role == RoleUser
  {
    user.Some? && user.value.role == RoleUser
  }

  /** A super administrator is an administrator. */
  lemma SuperAdminIsAdmin(user: Option<Person>)
    ensures IsSuperAdmin(user) ==> IsAdmin(user)
  {
  }

  /** No account is more than one of super administrator, instructor and customer. */
  lemma RoleChecksExclusive(user: Option<Person>)
    ensures !(IsSuperAdmin(user) && IsInstructor(user))
    ensures !(IsSuperAdmin(user) && IsUser(user))
    ensures !(IsInstructor(user) && IsUser(user))
    ensures !(IsAdmin(user) && (IsInstructor(user) || IsUser(user)))
  {
  }

  /** The role shortcuts are `hasRole` with the corresponding lists. */
  lemma RoleChecksAreHasRole(user: Option<Person>)
    ensures IsAdmin(user) == HasRole(user, H.AnyOf([RoleAdmin, RoleSuperAdmin]))
    ensures IsSuperAdmin(user) == HasRole(user, H.Only(RoleSuperAdmin))
    ensures IsInstructor(user) == HasRole(user, H.Only(RoleInstructor))
    ensures IsUser(user) == HasRole(user, H.Only(RoleUser))
  {
    if user.Some? {
      H.IsAdminIsHasRole(user.value.role);
    }
  }

  /** The response of a successful sign-in. */
  datatype LoginResponse = LoginResponse(accessToken: string, user: Person)

  /** The session provider together with the two storage entries it reads and writes. */
  class AuthProvider {
    var user: Option<Person>
    var loading: bool
    /** Stored access token. */
    var token: Option<string>
    /** Stored user record; `None` also stands for a record that fails to parse. */
    var storedUser: Option<Person>

    function Snapshot(): Session
      reads this
    {
      Session(user, loading, token)
    }

    /** Mounting: nobody signed in yet and the stored session still to be read. */
    constructor (storedToken: Option<string>, stored: Option<Person>)
      ensures user.None? && loading
      ensures token == storedToken && storedUser == stored
    {
      user := None;
      loading := true;
      token := storedToken;
      storedUser := stored;
    }

    /** Reads the stored user into the session, then stops loading. */
    method Init()
      modifies this
      ensures user == (if storedUser.Some? then storedUser else old(user))
      ensures !loading
      ensures token == old(token) && storedUser == old(storedUser)
    {
      if storedUser.Some? {
        user := storedUser;
      }
      loading := false;
    }

    /** The forced sign-out: both storage entries are removed and the user is cleared; the page
        then goes to the returned path. */
    method ForceLogout() returns (redirect: Paths.Path)
      modifies this
      ensures user.None? && token.None? && storedUser.None?
      ensures loading == old(loading)
      ensures redirect == Paths.Login
      ensures !IsAuthenticated(Snapshot())
    {
      token := None;
      storedUser := None;
      user := None;
      redirect := Paths.Login;
    }

    /** Sign-in: `response` is the server's answer, `None` when the request fails, in which case
        the error propagates and nothing changes. */
    method Login(response: Option<LoginResponse>) returns (ok: bool)
      modifies this
      ensures ok <==> response.Some?
      ensures response.None? ==> user == old(user) && token == old(token) && storedUser == old(storedUser)
      ensures response.Some? ==>
        user == Some(response.value.user)
        && token == Some(response.value.accessToken)
        && storedUser == Some(response.value.user)
      ensures loading == old(loading)
    {
      if response.None? {
        return false;
      }
      token := Some(response.value.accessToken);
      storedUser := Some(response.value.user);
      user := Some(response.value.user);
      ok := true;
    }

    /** Sign-out: storage is cleared whether or not the server call succeeds (`serverOk`). When
        it fails the error propagates past the context, so the user stays in state; the session
        is nonetheless no longer authenticated. */
    method Logout(serverOk: bool) returns (ok: bool)
      modifies this
      ensures ok == serverOk
      ensures token.None? && storedUser.None?
      ensures user == (if serverOk then None else old(user))
      ensures loading == old(loading)
      ensures !IsAuthenticated(Snapshot())
    {
      token := None;
      storedUser := None;
      if !serverOk {
        return false;
      }
      user := None;
      ok := true;
    }

    /** Account deletion: only a successful server call clears storage and the user. */
    method DeleteAccount(serverOk: bool) returns (ok: bool)
      modifies this
      ensures ok == serverOk
      ensures serverOk ==> user.None? && token.None? && storedUser.None?
      ensures !serverOk ==> user == old(user) && token == old(token) && storedUser == old(storedUser)
      ensures loading == old(loading)
    {
      if !serverOk {
        return false;
      }
      token := None;
      storedUser := None;
      user := None;
      ok := true;
    }

    /** Profile update: the returned record replaces the stored and the in-state user. */
    method UpdateProfile(response: Option<Person>) returns (ok: bool)
      modifies this
      ensures ok <==> response.Some?
      ensures response.Some? ==> user == response && storedUser == response
      ensures response.None? ==> user == old(user) && storedUser == old(storedUser)
      ensures token == old(token) && loading == old(loading)
    {
      if response.None? {
        return false;
      }
      storedUser := response;
      user := response;
      ok := true;
    }
  }

  /** A successful sign-in with a non-empty token leaves the provider authenticated, with the
      role checks of the returned user, whatever session it held before. */
  method LoginAuthenticates(p: AuthProvider, r: LoginResponse) returns (ok: bool)
    requires r.accessToken != ""
    modifies p
    ensures ok
    ensures IsAuthenticated(p.Snapshot())
    ensures IsAdmin(p.Snapshot().user) == H.IsAdminRole(r.user.role)
  {
    ok := p.Login(Some(r));
  }
}
