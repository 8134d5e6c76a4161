/** The authentication slice of the store: the session record, its reducer
    cases, the five asynchronous actions with their effects on browser storage,
    and the extraction of identity claims from a stored JSON Web Token. */
module AuthSlice {
  import opened Js

  /** The storage key of the bearer token. */
  const AuthTokenKey: string := "authToken"
  /** The storage key `updateUser` writes the merged user to. */
  const UserDataKey: string := "userData"

  type Storage = map<string, string>

  // ------------------------------------------------------------ token claims

  /** The claims the code reads from a decoded token payload. */
  datatype Claims = Claims(id: Option<string>, role: Option<string>, emailId: Option<string>,
                           email: Option<string>, firstName: Option<string>)

  /** A user record as the client reads it; a field the record lacks is None, a missing `roles` is []. */
  datatype User = User(token: Option<string>, id: Option<string>, role: Option<string>,
                       userRole: Option<string>, roles: seq<string>, email: Option<string>,
                       firstName: Option<string>, firstname: Option<string>, name: Option<string>)

  /** The record `{ token }`. */
  function TokenOnly(token: string): User {
    User(Some(token), None, None, None, [], None, None, None, None)
  }

  /** The base64url alphabet of section 5 of RFC 4648 mapped to the standard one: '-' to '+', '_' to '/'. */
  function UrlCharToStd(c: char): char {
    if c == '-' then '+' else if c == '_' then '/' else c
  }

  function StdCharToUrl(c: char): char {
    if c == '+' then '-' else if c == '/' then '_' else c
  }

  function Base64UrlToBase64(s: string): (r: string)
    ensures |r| == |s|
    ensures '-' !in r && '_' !in r
  {
    seq(|s|, i requires 0 <= i < |s| => UrlCharToStd(s[i]))
  }

  function Base64ToBase64Url(s: string): (r: string)
    ensures |r| == |s|
    ensures '+' !in r && '/' !in r
  {
    seq(|s|, i requires 0 <= i < |s| => StdCharToUrl(s[i]))
  }

  /** The alphabet swap loses nothing: a base64url text comes back from the standard alphabet unchanged. */
  lemma Base64UrlRoundTrip(s: string)
    requires '+' !in s && '/' !in s
    ensures Base64ToBase64Url(Base64UrlToBase64(s)) == s
  {
    var r := Base64ToBase64Url(Base64UrlToBase64(s));
    forall i | 0 <= i < |s| ensures r[i] == s[i] {
      assert s[i] != '+' && s[i] != '/' by { assert s[i] in s; }
    }
  }

  /** `decodeJWT`: the second '.'-separated segment of the compact form (section 7.1 of RFC 7515),
      moved to the standard base64 alphabet and handed to `payloadDecoder`, which stands for
      `atob`, percent-decoding and `JSON.parse` (None: one of them threw or the result is falsy).
      An empty token gives None, and so does a token without a second segment, where the source's
      `undefined.replace` throws and the handler returns null. */
  function DecodeJwt(token: string, payloadDecoder: string -> Option<Claims>): (r: Option<Claims>)
    ensures token == "" ==> r == None
    ensures r.Some? ==> '.' in token
  {
    if token == "" then None
    else
      var parts := Split(token, '.');
      SplitHasSecond(token, '.');
      if |parts| < 2 then None else payloadDecoder(Base64UrlToBase64(parts[1]))
  }

  /** For a token of the form header.payload.signature, exactly the payload segment is decoded. */
  lemma DecodeJwtCompact(header: string, payload: string, signature: string,
                         payloadDecoder: string -> Option<Claims>)
    requires '.' !in header && '.' !in payload
    ensures DecodeJwt(header + "." + payload + "." + signature, payloadDecoder)
            == payloadDecoder(Base64UrlToBase64(payload))
  {
    var token := header + "." + payload + "." + signature;
    assert token == header + ['.'] + (payload + ['.'] + signature);
    SplitAfterHead(header, '.', payload + ['.'] + signature);
    SplitAfterHead(payload, '.', signature);
    assert Split(token, '.')[1] == payload;
  }

  /** `emailId || email`. */
  function ClaimedEmail(c: Claims): Option<string> {
    if Truthy(c.emailId) then c.emailId else c.email
  }

  /** The part of the e-mail address before the first '@', when `emailId` is present. */
  function EmailLocalPart(emailId: Option<string>): Option<string> {
    if emailId.Some? then Some(Split(emailId.value, '@')[0]) else None
  }

  /** `firstName || emailId?.split('@')[0] || 'User'`. */
  function ClaimedFirstName(c: Claims): (name: string)
    ensures name != ""
  {
    FirstTruthy([c.firstName, EmailLocalPart(c.emailId)], "User")
  }

  /** A token without a first name is greeted by the local part of its e-mail address. */
  lemma FirstNameFromEmail(c: Claims, local: string, domain: string)
    requires !Truthy(c.firstName)
    requires c.emailId == Some(local + "@" + domain) && local != "" && '@' !in local
    ensures ClaimedFirstName(c) == local
  {
    assert local + "@" + domain == local + ['@'] + domain;
    SplitAfterHead(local, '@', domain);
    var cands := [c.firstName, EmailLocalPart(c.emailId)];
    assert cands[1] == Some(local) && Truthy(cands[1]) && !Truthy(cands[0]);
  }

  /** `createUserFromToken`: the token always; the claims only when the token decodes. */
  function CreateUserFromToken(token: string, payloadDecoder: string -> Option<Claims>): (u: User)
    ensures u.token == Some(token)
    ensures DecodeJwt(token, payloadDecoder).None? ==> u == TokenOnly(token)
    ensures DecodeJwt(token, payloadDecoder).Some? ==>
              var c := DecodeJwt(token, payloadDecoder).value;
              u.id == c.id && u.role == c.role && u.email == ClaimedEmail(c)
              && u.firstName == Some(ClaimedFirstName(c)) && Truthy(u.firstName)
  {
    if token == "" then TokenOnly(token)
    else
      match DecodeJwt(token, payloadDecoder)
      case None => TokenOnly(token)
      case Some(c) => User(Some(token), c.id, c.role, None, [], ClaimedEmail(c), Some(ClaimedFirstName(c)), None, None)
  }

  // ------------------------------------------------------------ the session record

  datatype AuthState = AuthState(user: Option<User>, isAuthenticated: bool, loading: bool,
                                 error: Option<string>, initialized: bool)

  const InitialState: AuthState := AuthState(None, false, false, None, false)

  /** `isAuthenticated` is set exactly when a user is present. */
  predicate Consistent(s: AuthState) {
    s.isAuthenticated == s.user.Some?
  }

  datatype AsyncAction = Register | Login | CheckAuth | Restore | Logout

  /** The value a thunk passes to `rejectWithValue`. */
  datatype RejectPayload = RejectPayload(message: Option<string>, status: Option<int>)

  /** The actions the reducers handle, apart from `updateUser`. */
  datatype Action =
    | Pending(op: AsyncAction)
    | Fulfilled(op: AsyncAction, payload: Option<User>)
    | Rejected(op: AsyncAction, rejection: Option<RejectPayload>)
    | ClearError

  /** `action.payload?.message || 'Something went wrong'`. */
  function RejectionText(p: Option<RejectPayload>): (m: string)
    ensures m != ""
    ensures p.Some? && Truthy(p.value.message) ==> m == p.value.message.value
    ensures !(p.Some? && Truthy(p.value.message)) ==> m == "Something went wrong"
  {
    if p.Some? then FirstTruthy([p.value.message], "Something went wrong") else "Something went wrong"
  }

  /** The `clearError` and `extraReducers` cases, as a function of the old state. */
  function Reduce(s: AuthState, a: Action): (r: AuthState)
    ensures Consistent(s) ==> Consistent(r)
    ensures s.initialized ==> r.initialized
    ensures r.initialized != s.initialized ==>
              (a.Fulfilled? || a.Rejected?) && (a.op == CheckAuth || a.op == Restore)
    ensures a.Pending? ==> r.loading && r.user == s.user && r.isAuthenticated == s.isAuthenticated
    ensures (a.Fulfilled? || a.Rejected?) ==> !r.loading
    ensures a.Rejected? || (a.Fulfilled? && a.op == Logout) ==> r.user.None? && !r.isAuthenticated
    ensures a.Fulfilled? && a.op != Logout ==> r.user == a.payload
    ensures a.Rejected? && a.op in {Register, Login, Logout} ==> r.error == Some(RejectionText(a.rejection))
    ensures a.Rejected? && a.op in {CheckAuth, Restore} ==> r.error == s.error
  {
    match a
    case ClearError => s.(error := None)
    case Pending(op) =>
      if op == CheckAuth || op == Restore then s.(loading := true)
      else s.(loading := true, error := None)
    case Fulfilled(op, payload) =>
      (match op
       case Register | Login | CheckAuth =>
         s.(loading := false, isAuthenticated := payload.Some?, user := payload, error := None,
            initialized := s.initialized || op == CheckAuth)
       case Restore =>
         s.(loading := false, isAuthenticated := payload.Some?, user := payload, initialized := true)
       case Logout =>
         s.(loading := false, user := None, isAuthenticated := false, error := None))
    case Rejected(op, rejection) =>
      (match op
       case Register | Login | Logout =>
         s.(loading := false, error := Some(RejectionText(rejection)), isAuthenticated := false, user := None)
       case CheckAuth | Restore =>
         s.(loading := false, isAuthenticated := false, user := None, initialized := true))
  }

  /** The fields an `updateUser` payload may carry; None leaves a field as it is. */
  datatype UserPatch = UserPatch(token: Option<string>, id: Option<string>, role: Option<string>,
                                 userRole: Option<string>, roles: Option<seq<string>>, email: Option<string>,
                                 firstName: Option<string>, firstname: Option<string>, name: Option<string>)

  function Override<T>(patch: Option<T>, current: T): T {
    if patch.Some? then patch.value else current
  }

  function OverrideField(patch: Option<string>, current: Option<string>): Option<string> {
    if patch.Some? then patch else current
  }

  /** `{ ...user, ...patch }`. */
  function MergeUser(u: User, p: UserPatch): (m: User)
    ensures (p.token.Some? ==> m.token == p.token) && (p.token.None? ==> m.token == u.token)
    ensures (p.id.Some? ==> m.id == p.id) && (p.id.None? ==> m.id == u.id)
    ensures (p.role.Some? ==> m.role == p.role) && (p.role.None? ==> m.role == u.role)
    ensures (p.userRole.Some? ==> m.userRole == p.userRole) && (p.userRole.None? ==> m.userRole == u.userRole)
    ensures (p.email.Some? ==> m.email == p.email) && (p.email.None? ==> m.email == u.email)
    ensures (p.firstName.Some? ==> m.firstName == p.firstName) && (p.firstName.None? ==> m.firstName == u.firstName)
    ensures (p.firstname.Some? ==> m.firstname == p.firstname) && (p.firstname.None? ==> m.firstname == u.firstname)
    ensures (p.name.Some? ==> m.name == p.name) && (p.name.None? ==> m.name == u.name)
    ensures (p.roles.Some? ==> m.roles == p.roles.value) && (p.roles.None? ==> m.roles == u.roles)
  {
    User(OverrideField(p.token, u.token), OverrideField(p.id, u.id), OverrideField(p.role, u.role),
         OverrideField(p.userRole, u.userRole), Override(p.roles, u.roles), OverrideField(p.email, u.email),
         OverrideField(p.firstName, u.firstName), OverrideField(p.firstname, u.firstname),
         OverrideField(p.name, u.name))
  }

  /** The `updateUser` reducer: only a signed-in user is changed. */
  function UpdateUserState(s: AuthState, p: UserPatch): (r: AuthState)
    ensures Consistent(s) ==> Consistent(r)
    ensures s.user.Some? ==> r.user == Some(MergeUser(s.user.value, p))
    ensures s.user.None? ==> r == s
    ensures r.isAuthenticated == s.isAuthenticated && r.loading == s.loading
    ensures r.initialized == s.initialized && r.error == s.error
  {
    if s.user.Some? then s.(user := Some(MergeUser(s.user.value, p))) else s
  }

  /** The patch with no fields: `{ ...user }`. */
  const EmptyPatch: UserPatch := UserPatch(None, None, None, None, None, None, None, None, None)

  /** Spreading an empty patch copies the user, and spreading the same patch twice is spreading it once. */
  lemma MergeUserLaws(u: User, p: UserPatch)
    ensures MergeUser(u, EmptyPatch) == u
    ensures MergeUser(MergeUser(u, p), p) == MergeUser(u, p)
  {
  }

  // ------------------------------------------------------------ the thunks

  /** How a thunk settles: `fulfilled` with its return value, or `rejected` with the value it rejected with. */
  datatype Outcome = Resolved(payload: Option<User>) | RejectedWith(rejection: RejectPayload)

  /** The storage a thunk leaves behind and how it settles. */
  datatype ThunkRun = ThunkRun(storage: Storage, outcome: Outcome)

  /** What a register or login request answers: `data.token`, `data.user`, and `data` itself read as a user record. */
  datatype AuthResponse = AuthResponse(token: Option<string>, user: Option<User>, body: User)

  /** `error.response?.data?.message || error.message || fallback`, with the response status. */
  function RejectionOf(e: HttpError, fallback: string): RejectPayload {
    RejectPayload(Some(FirstTruthy([e.responseMessage, e.message], fallback)), e.status)
  }

  /** The string `localStorage.setItem` stores for a value that may be undefined. */
  function Stringified(v: Option<string>): string {
    if v.Some? then v.value else "undefined"
  }

  function StoredToken(storage: Storage): Option<string> {
    if AuthTokenKey in storage then Some(storage[AuthTokenKey]) else None
  }

  function RegisterThunk(storage: Storage, resp: NetResult<AuthResponse>,
                         payloadDecoder: string -> Option<Claims>): (run: ThunkRun)
    ensures resp.Err? ==> run.storage == storage && run.outcome.RejectedWith?
    ensures resp.Ok? ==> run.outcome.Resolved? && run.outcome.payload.Some?
    ensures resp.Ok? && Truthy(resp.data.token) ==>
              run.storage == storage[AuthTokenKey := resp.data.token.value]
              && run.outcome.payload.value.token == resp.data.token
    ensures resp.Ok? && !Truthy(resp.data.token) ==> run.storage == storage
    ensures resp.Ok? && Truthy(resp.data.token) ==>
              run.outcome == Resolved(Some(CreateUserFromToken(resp.data.token.value, payloadDecoder)))
    ensures resp.Ok? && !Truthy(resp.data.token) ==>
              run == ThunkRun(storage, Resolved(Some(if resp.data.user.Some? then resp.data.user.value else resp.data.body)))
  {
    match resp
    case Err(e) => ThunkRun(storage, RejectedWith(RejectionOf(e, "Registration failed")))
    case Ok(data) =>
      if Truthy(data.token) then
        ThunkRun(storage[AuthTokenKey := data.token.value],
                 Resolved(Some(CreateUserFromToken(data.token.value, payloadDecoder))))
      else
        ThunkRun(storage, Resolved(Some(if data.user.Some? then data.user.value else data.body)))
  }

  function LoginThunk(storage: Storage, resp: NetResult<AuthResponse>,
                      payloadDecoder: string -> Option<Claims>): (run: ThunkRun)
    ensures resp.Err? ==> run.storage == storage && run.outcome.RejectedWith?
    ensures resp.Ok? && Truthy(resp.data.token) ==>
              run.storage == storage[AuthTokenKey := resp.data.token.value]
              && run.outcome == Resolved(Some(CreateUserFromToken(resp.data.token.value, payloadDecoder)))
    ensures resp.Ok? && !Truthy(resp.data.token) && resp.data.user.Some? ==>
              run.storage == storage[AuthTokenKey := Stringified(resp.data.user.value.token)]
              && run.outcome == Resolved(resp.data.user)
    ensures resp.Ok? && !Truthy(resp.data.token) && resp.data.user.None? ==>
              run == ThunkRun(storage, RejectedWith(RejectPayload(Some("No token or user data received"), None)))
  {
    match resp
    case Err(e) => ThunkRun(storage, RejectedWith(RejectionOf(e, "Login failed")))
    case Ok(data) =>
      if Truthy(data.token) then
        ThunkRun(storage[AuthTokenKey := data.token.value],
                 Resolved(Some(CreateUserFromToken(data.token.value, payloadDecoder))))
      else if data.user.Some? then
        ThunkRun(storage[AuthTokenKey := Stringified(data.user.value.token)], Resolved(data.user))
      else
        ThunkRun(storage, RejectedWith(RejectPayload(Some("No token or user data received"), None)))
  }

  /** `checkAuth`: needs a stored token and a successful GET; any failure removes the token. */
  function CheckAuthThunk(storage: Storage, resp: NetResult<()>,
                          payloadDecoder: string -> Option<Claims>): (run: ThunkRun)
    ensures run.outcome.RejectedWith? <==> !Truthy(StoredToken(storage)) || resp.Err?
    ensures run.outcome.RejectedWith? ==> run.storage == storage - {AuthTokenKey}
    ensures run.outcome.Resolved? ==>
              run.storage == storage
              && run.outcome.payload == Some(CreateUserFromToken(storage[AuthTokenKey], payloadDecoder))
  {
    var token := StoredToken(storage);
    if !Truthy(token) then
      ThunkRun(storage - {AuthTokenKey}, RejectedWith(RejectPayload(Some("No token found"), None)))
    else
      match resp
      case Err(e) => ThunkRun(storage - {AuthTokenKey}, RejectedWith(RejectionOf(e, "Auth check failed")))
      case Ok(_) => ThunkRun(storage, Resolved(Some(CreateUserFromToken(token.value, payloadDecoder))))
  }

  /** `logoutUser`: the POST's outcome is swallowed, the token always removed, and the thunk resolves with null. */
  function LogoutThunk(storage: Storage, resp: NetResult<()>): (run: ThunkRun)
    ensures run == ThunkRun(storage - {AuthTokenKey}, Resolved(None))
  {
    match resp
    case Err(_) => ThunkRun(storage - {AuthTokenKey}, Resolved(None))
    case Ok(_) => ThunkRun(storage - {AuthTokenKey}, Resolved(None))
  }

  /** `restoreAuth`: no request; any stored token is trusted, however malformed. */
  function RestoreThunk(storage: Storage, payloadDecoder: string -> Option<Claims>): (run: ThunkRun)
    ensures run.outcome.Resolved? <==> Truthy(StoredToken(storage))
    ensures run.outcome.Resolved? ==>
              run.storage == storage
              && run.outcome.payload == Some(CreateUserFromToken(storage[AuthTokenKey], payloadDecoder))
    ensures run.outcome.RejectedWith? ==>
              run == ThunkRun(storage - {AuthTokenKey}, RejectedWith(RejectPayload(Some("Session expired"), None)))
  {
    var token := StoredToken(storage);
    if !Truthy(token) then
      ThunkRun(storage - {AuthTokenKey}, RejectedWith(RejectPayload(Some("Session expired"), None)))
    else
      ThunkRun(storage, Resolved(Some(CreateUserFromToken(token.value, payloadDecoder))))
  }

  /** The action a thunk's outcome dispatches. */
  function SettleAction(op: AsyncAction, o: Outcome): Action {
    match o
    case Resolved(p) => Fulfilled(op, p)
    case RejectedWith(p) => Rejected(op, Some(p))
  }

  // ------------------------------------------------------------ whole operations

  /** The slice state together with browser storage. */
  datatype Session = Session(state: AuthState, storage: Storage)

  /** One thing that happens to the session; each asynchronous action is taken as one atomic step
      (pending, the thunk's storage effect, then fulfilled or rejected). */
  datatype Event =
    | RegisterEvent(registerResp: NetResult<AuthResponse>)
    | LoginEvent(loginResp: NetResult<AuthResponse>)
    | CheckAuthEvent(checkResp: NetResult<()>)
    | RestoreEvent
    | LogoutEvent(logoutResp: NetResult<()>)
    | ClearErrorEvent
    | UpdateUserEvent(patch: UserPatch)

  function ThunkOf(e: Event, storage: Storage, payloadDecoder: string -> Option<Claims>): ThunkRun
    requires !e.ClearErrorEvent? && !e.UpdateUserEvent?
  {
    match e
    case RegisterEvent(r) => RegisterThunk(storage, r, payloadDecoder)
    case LoginEvent(r) => LoginThunk(storage, r, payloadDecoder)
    case CheckAuthEvent(r) => CheckAuthThunk(storage, r, payloadDecoder)
    case RestoreEvent => RestoreThunk(storage, payloadDecoder)
    case LogoutEvent(r) => LogoutThunk(storage, r)
  }

  function OpOf(e: Event): AsyncAction
    requires !e.ClearErrorEvent? && !e.UpdateUserEvent?
  {
    match e
    case RegisterEvent(_) => Register
    case LoginEvent(_) => Login
    case CheckAuthEvent(_) => CheckAuth
    case RestoreEvent => Restore
    case LogoutEvent(_) => Logout
  }

  function Step(ss: Session, e: Event, payloadDecoder: string -> Option<Claims>,
                stringify: User -> string): (r: Session)
    ensures Consistent(ss.state) ==> Consistent(r.state)
    ensures ss.state.initialized ==> r.state.initialized
    ensures e.RestoreEvent? || e.CheckAuthEvent? ==> r.state.initialized && !r.state.loading
    ensures e.LogoutEvent? ==> r.state.user.None? && !r.state.isAuthenticated && AuthTokenKey !in r.storage
    ensures (e.RestoreEvent? || e.CheckAuthEvent?) && r.state.user.None? ==> AuthTokenKey !in r.storage
    ensures (e.LoginEvent? || e.RegisterEvent?) && !r.state.isAuthenticated ==> r.storage == ss.storage
  {
    match e
    case ClearErrorEvent => ss.(state := Reduce(ss.state, ClearError))
    case UpdateUserEvent(p) =>
      var st := UpdateUserState(ss.state, p);
      if st.user.Some? then Session(st, ss.storage[UserDataKey := stringify(st.user.value)])
      else Session(st, ss.storage)
    case _ =>
      var op := OpOf(e);
      var run := ThunkOf(e, ss.storage, payloadDecoder);
      Session(Reduce(Reduce(ss.state, Pending(op)), SettleAction(op, run.outcome)), run.storage)
  }

  function Run(ss: Session, events: seq<Event>, payloadDecoder: string -> Option<Claims>,
               stringify: User -> string): Session
    decreases |events|
  {
    if |events| == 0 then ss
    else Run(Step(ss, events[0], payloadDecoder, stringify), events[1..], payloadDecoder, stringify)
  }

  /** From the initial state, every sequence of events keeps `isAuthenticated == (user != null)`. */
  lemma {:induction false} RunKeepsConsistent(ss: Session, events: seq<Event>,
                                              payloadDecoder: string -> Option<Claims>,
                                              stringify: User -> string)
    requires Consistent(ss.state)
    ensures Consistent(Run(ss, events, payloadDecoder, stringify).state)
    decreases |events|
  {
    if |events| > 0 {
      RunKeepsConsistent(Step(ss, events[0], payloadDecoder, stringify), events[1..], payloadDecoder, stringify);
    }
  }

  /** Once set, `initialized` stays set for every later sequence of events. */
  lemma {:induction false} RunKeepsInitialized(ss: Session, events: seq<Event>,
                                               payloadDecoder: string -> Option<Claims>,
                                               stringify: User -> string)
    requires ss.state.initialized
    ensures Run(ss, events, payloadDecoder, stringify).state.initialized
    decreases |events|
  {
    if |events| > 0 {
      RunKeepsInitialized(Step(ss, events[0], payloadDecoder, stringify), events[1..], payloadDecoder, stringify);
    }
  }

  /** After a restore attempt, whatever follows, the session counts as initialized. */
  lemma AfterRestoreAlwaysInitialized(ss: Session, later: seq<Event>,
                                      payloadDecoder: string -> Option<Claims>, stringify: User -> string)
    ensures Run(ss, [RestoreEvent] + later, payloadDecoder, stringify).state.initialized
  {
    var after := Step(ss, RestoreEvent, payloadDecoder, stringify);
    assert ([RestoreEvent] + later)[1..] == later;
    RunKeepsInitialized(after, later, payloadDecoder, stringify);
  }

  /** Logging out a second time changes nothing more. */
  lemma LogoutIdempotent(ss: Session, r1: NetResult<()>, r2: NetResult<()>,
                         payloadDecoder: string -> Option<Claims>, stringify: User -> string)
    ensures var once := Step(ss, LogoutEvent(r1), payloadDecoder, stringify);
            Step(once, LogoutEvent(r2), payloadDecoder, stringify) == once
  {
    var once := Step(ss, LogoutEvent(r1), payloadDecoder, stringify);
    assert once.storage - {AuthTokenKey} == once.storage;
  }

  /** A stored token without a second segment cannot be decoded, and is still restored as a signed-in user. */
  lemma MalformedTokenRestoresSignedIn(ss: Session, payloadDecoder: string -> Option<Claims>,
                                       stringify: User -> string)
    requires AuthTokenKey in ss.storage && ss.storage[AuthTokenKey] != "" && '.' !in ss.storage[AuthTokenKey]
    ensures var r := Step(ss, RestoreEvent, payloadDecoder, stringify);
            r.state.isAuthenticated && r.state.user == Some(TokenOnly(ss.storage[AuthTokenKey]))
            && r.storage == ss.storage && r.state.initialized
  {
  }

  /** A failed login leaves a token stored by an earlier session in place while the state says signed out. */
  lemma FailedLoginKeepsStoredToken(ss: Session, e: HttpError, payloadDecoder: string -> Option<Claims>,
                                    stringify: User -> string)
    requires AuthTokenKey in ss.storage
    ensures var r := Step(ss, LoginEvent(Err(e)), payloadDecoder, stringify);
            !r.state.isAuthenticated && r.storage[AuthTokenKey] == ss.storage[AuthTokenKey]
            && r.state.error == Some(FirstTruthy([e.responseMessage, e.message], "Login failed"))
  {
  }

  // ------------------------------------------------------------ the store

  /** The slice's state draft together with `localStorage`. */
  class AuthStore {
    var user: Option<User>
    var isAuthenticated: bool
    var loading: bool
    var error: Option<string>
    var initialized: bool
    var storage: Storage

    function State(): AuthState
      reads this
    {
      AuthState(user, isAuthenticated, loading, error, initialized)
    }

    function CurrentSession(): Session
      reads this
    {
      Session(State(), storage)
    }

    /** `initialState`, over whatever storage the browser already holds. */
    constructor (persisted: Storage)
      ensures State() == InitialState && Consistent(State()) && storage == persisted
    {
      user := None;
      isAuthenticated := false;
      loading := false;
      error := None;
      initialized := false;
      storage := persisted;
    }

    /** Runs the reducer case for `a`, assigning the draft's fields one at a time. */
    method Dispatch(a: Action)
      modifies this
      ensures State() == Reduce(old(State()), a) && storage == old(storage)
      ensures old(Consistent(State())) ==> Consistent(State())
      ensures old(initialized) ==> initialized
    {
      match a
      case ClearError =>
        error := None;
      case Pending(op) =>
        loading := true;
        if op != AsyncAction.CheckAuth && op != Restore {
          error := None;
        }
      case Fulfilled(op, payload) =>
        loading := false;
        if op == Logout {
          user := None;
          isAuthenticated := false;
          error := None;
        } else {
          isAuthenticated := payload.Some?;
          user := payload;
          if op != Restore {
            error := None;
          }
          if op == AsyncAction.CheckAuth || op == Restore {
            initialized := true;
          }
        }
      case Rejected(op, rejection) =>
        loading := false;
        if op == AsyncAction.CheckAuth || op == Restore {
          isAuthenticated := false;
          user := None;
          initialized := true;
        } else {
          error := Some(RejectionText(rejection));
          isAuthenticated := false;
          user := None;
        }
    }

    /** `updateUser`: merges the patch into a present user and writes it to storage under `userData`. */
    method UpdateUser(patch: UserPatch, stringify: User -> string)
      modifies this
      ensures CurrentSession() == Step(old(CurrentSession()), UpdateUserEvent(patch), (_: string) => None, stringify)
    {
      if user.Some? {
        user := Some(MergeUser(user.value, patch));
        storage := storage[UserDataKey := stringify(user.value)];
      }
    }

    /** Dispatches pending, applies the thunk's storage effect, then dispatches how it settled. */
    method Settle(op: AsyncAction, run: ThunkRun)
      modifies this
      ensures State() == Reduce(Reduce(old(State()), Pending(op)), SettleAction(op, run.outcome))
      ensures storage == run.storage
    {
      Dispatch(Pending(op));
      storage := run.storage;
      Dispatch(SettleAction(op, run.outcome));
    }

    method RegisterUser(resp: NetResult<AuthResponse>, payloadDecoder: string -> Option<Claims>)
      modifies this
      ensures CurrentSession() == Step(old(CurrentSession()), RegisterEvent(resp), payloadDecoder, _ => "")
      ensures resp.Ok? ==> isAuthenticated && user.Some?
    {
      Settle(Register, RegisterThunk(storage, resp, payloadDecoder));
    }

    method LoginUser(resp: NetResult<AuthResponse>, payloadDecoder: string -> Option<Claims>)
      modifies this
      ensures CurrentSession() == Step(old(CurrentSession()), LoginEvent(resp), payloadDecoder, _ => "")
      ensures isAuthenticated <==> resp.Ok? && (Truthy(resp.data.token) || resp.data.user.Some?)
    {
      Settle(Login, LoginThunk(storage, resp, payloadDecoder));
    }

    method CheckAuth(resp: NetResult<()>, payloadDecoder: string -> Option<Claims>)
      modifies this
      ensures CurrentSession() == Step(old(CurrentSession()), CheckAuthEvent(resp), payloadDecoder, _ => "")
      ensures initialized
      ensures !isAuthenticated ==> AuthTokenKey !in storage
    {
      Settle(AsyncAction.CheckAuth, CheckAuthThunk(storage, resp, payloadDecoder));
    }

    method LogoutUser(resp: NetResult<()>)
      modifies this
      ensures CurrentSession() == Step(old(CurrentSession()), LogoutEvent(resp), _ => None, _ => "")
      ensures user.None? && !isAuthenticated && !loading && error.None? && AuthTokenKey !in storage
      ensures storage == old(storage) - {AuthTokenKey}
      ensures initialized == old(initialized)
    {
      Settle(Logout, LogoutThunk(storage, resp));
    }

    method RestoreAuth(payloadDecoder: string -> Option<Claims>)
      modifies this
      ensures CurrentSession() == Step(old(CurrentSession()), RestoreEvent, payloadDecoder, _ => "")
      ensures initialized && (isAuthenticated <==> Truthy(StoredToken(old(storage))))
    {
      Settle(Restore, RestoreThunk(storage, payloadDecoder));
    }
  }
}
