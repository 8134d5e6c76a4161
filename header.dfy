/** The page header: who counts as an administrator, the avatar initial and
    display name derived from the signed-in user, and the two menu actions. */
module Header {
  import opened Js
  import opened AuthSlice

  /** `user.role || user.userRole || user.roles?.[0]`. */
  function RoleOf(u: User): (role: Option<string>)
    ensures Truthy(u.role) ==> role == u.role
    ensures !Truthy(u.role) && Truthy(u.userRole) ==> role == u.userRole
    ensures !Truthy(u.role) && !Truthy(u.userRole) ==> role == (if |u.roles| > 0 then Some(u.roles[0]) else None)
  {
    if Truthy(u.role) then u.role
    else if Truthy(u.userRole) then u.userRole
    else if |u.roles| > 0 then Some(u.roles[0])
    else None
  }

  /** The three spellings the header accepts; any other case mix is not an administrator. */
  predicate AdminSpelling(role: Option<string>) {
    role == Some("admin") || role == Some("ADMIN") || role == Some("Admin")
  }

  /** `isAdmin`. */
  function IsAdmin(user: Option<User>): (admin: bool)
    ensures admin ==> user.Some?
    ensures user.Some? ==> (admin <==> AdminSpelling(RoleOf(user.value)))
  {
    user.Some? && AdminSpelling(RoleOf(user.value))
  }

  /** A user built from a decodable token is an administrator exactly when its `role` claim is one
      of the accepted spellings (the token never carries `userRole` or `roles`). */
  lemma TokenUserAdmin(token: string, payloadDecoder: string -> Option<Claims>)
    requires DecodeJwt(token, payloadDecoder).Some?
    ensures IsAdmin(Some(CreateUserFromToken(token, payloadDecoder)))
            <==> AdminSpelling(DecodeJwt(token, payloadDecoder).value.role)
  {
  }

  /** A malformed stored token restores a user with no role, never an administrator. */
  lemma TokenOnlyUserNotAdmin(token: string)
    ensures !IsAdmin(Some(TokenOnly(token)))
  {
  }

  // ------------------------------------------------------------ initial

  /** `s?.charAt(0)?.toUpperCase()`, present only when it is truthy. */
  function UpperFirst(s: Option<string>): (r: Option<string>)
    ensures Truthy(s) <==> Truthy(r)
    ensures r.Some? ==> |r.value| == 1 && r.value[0] == UpperChar(s.value[0])
  {
    if Truthy(s) then Some([UpperChar(s.value[0])]) else None
  }

  /** `getUserInitial`: 'A' for an administrator; otherwise the first truthy initial of
      `firstName`, `firstname`, `name` and `email`, else 'U'. */
  function UserInitial(user: Option<User>): (c: string)
    ensures |c| == 1 && !IsLower(c[0])
    ensures IsAdmin(user) ==> c == "A"
    ensures user.None? ==> c == "U"
    ensures !IsAdmin(user) && user.Some? && Truthy(user.value.firstName) ==> c == [UpperChar(user.value.firstName.value[0])]
  {
    if IsAdmin(user) then "A"
    else if user.None? then "U"
    else
      var u := user.value;
      if Truthy(u.firstName) then UpperFirst(u.firstName).value
      else if Truthy(u.firstname) then UpperFirst(u.firstname).value
      else if Truthy(u.name) then UpperFirst(u.name).value
      else if Truthy(u.email) then UpperFirst(u.email).value
      else "U"
  }

  // ------------------------------------------------------------ display name

  /** The name before the admin suffix: `firstName || firstname || name || email?.split('@')[0] || 'User'`. */
  function BaseName(u: User): (name: string)
    ensures name != ""
    ensures Truthy(u.firstName) ==> name == u.firstName.value
  {
    FirstTruthy([u.firstName, u.firstname, u.name, EmailLocalPart(u.email)], "User")
  }

  /** `getUserDisplayName`: '' without a user; the base name, with ' (Admin)' for administrators. */
  function UserDisplayName(user: Option<User>): (shown: string)
    ensures user.None? <==> shown == ""
    ensures user.Some? && !IsAdmin(user) ==> shown == BaseName(user.value)
    ensures IsAdmin(user) ==> shown == BaseName(user.value) + " (Admin)"
  {
    if user.None? then ""
    else if IsAdmin(user) then BaseName(user.value) + " (Admin)"
    else BaseName(user.value)
  }

  /** A user known only by e-mail address is shown by its local part. */
  lemma DisplayNameFromEmail(u: User, local: string, domain: string)
    requires !Truthy(u.firstName) && !Truthy(u.firstname) && !Truthy(u.name) && !IsAdmin(Some(u))
    requires u.email == Some(local + "@" + domain) && local != "" && '@' !in local
    ensures UserDisplayName(Some(u)) == local
  {
    assert local + "@" + domain == local + ['@'] + domain;
    SplitAfterHead(local, '@', domain);
    var cands := [u.firstName, u.firstname, u.name, EmailLocalPart(u.email)];
    assert cands[3] == Some(local) && Truthy(cands[3]);
    assert !Truthy(cands[0]) && !Truthy(cands[1]) && !Truthy(cands[2]);
  }

  /** For a user who is not an administrator the avatar shows the first letter of the display name,
      upper-cased, unless the only name is an e-mail address that starts with '@'. */
  lemma {:induction false} InitialMatchesDisplayName(u: User)
    requires !IsAdmin(Some(u))
    requires Truthy(u.firstName) || Truthy(u.firstname) || Truthy(u.name) || !Truthy(u.email) || u.email.value[0] != '@'
    ensures UserInitial(Some(u)) == [UpperChar(UserDisplayName(Some(u))[0])]
  {
    var cands := [u.firstName, u.firstname, u.name, EmailLocalPart(u.email)];
    if Truthy(u.firstName) {
      assert Truthy(cands[0]);
    } else if Truthy(u.firstname) {
      assert Truthy(cands[1]) && !Truthy(cands[0]);
    } else if Truthy(u.name) {
      assert Truthy(cands[2]) && !Truthy(cands[0]) && !Truthy(cands[1]);
    } else if Truthy(u.email) {
      var e := u.email.value;
      SplitHead(e, '@');
      var local := Split(e, '@')[0];
      assert local != "" && local[0] == e[0];
      assert Truthy(cands[3]) && !Truthy(cands[0]) && !Truthy(cands[1]) && !Truthy(cands[2]);
    } else {
      assert !Truthy(cands[3]) by {
        if u.email.Some? {
          SplitHead(u.email.value, '@');
        }
      }
      assert forall i :: 0 <= i < |cands| ==> !Truthy(cands[i]);
    }
  }

  /** A user restored from a malformed token is greeted as 'User' with the initial 'U'. */
  lemma TokenOnlyUserGreeting(token: string)
    ensures UserDisplayName(Some(TokenOnly(token))) == "User"
    ensures UserInitial(Some(TokenOnly(token))) == "U"
  {
    var cands := [None, None, None, EmailLocalPart(None)];
    assert forall i :: 0 <= i < |cands| ==> !Truthy(cands[i]);
  }

  // ------------------------------------------------------------ actions

  const LoginRoute: string := "/login"
  const CreateProblemRoute: string := "/admin/create-problem"

  class HeaderMenu {
    var showUserDropdown: bool

    constructor ()
      ensures !showUserDropdown
    {
      showUserDropdown := false;
    }

    /** `handleLogout`: the header's own logout request may fail; either way the slice's logout runs
        and the route is '/login'. Only the success path closes the dropdown. */
    method HandleLogout(store: AuthStore, headerPost: NetResult<()>, slicePost: NetResult<()>)
      returns (navigateTo: string)
      modifies this, store
      ensures navigateTo == LoginRoute
      ensures store.user.None? && !store.isAuthenticated && AuthTokenKey !in store.storage
      ensures store.storage == old(store.storage) - {AuthTokenKey}
      ensures store.initialized == old(store.initialized) && store.error.None? && !store.loading
      ensures headerPost.Ok? ==> !showUserDropdown
      ensures headerPost.Err? ==> showUserDropdown == old(showUserDropdown)
    {
      match headerPost {
        case Ok(_) =>
          store.LogoutUser(slicePost);
          showUserDropdown := false;
          navigateTo := LoginRoute;
        case Err(_) =>
          store.LogoutUser(slicePost);
          navigateTo := LoginRoute;
      }
    }

    /** `handleCreateProblem`: nothing for a user who is not an administrator. */
    method HandleCreateProblem(user: Option<User>) returns (navigateTo: Option<string>)
      modifies this
      ensures !IsAdmin(user) ==> navigateTo.None? && showUserDropdown == old(showUserDropdown)
      ensures IsAdmin(user) ==> navigateTo == Some(CreateProblemRoute) && !showUserDropdown
    {
      if !IsAdmin(user) {
        return None;
      }
      showUserDropdown := false;
      navigateTo := Some(CreateProblemRoute);
    }
  }
}
