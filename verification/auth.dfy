/** The session slice: the stored session and how it is read back defensively, the
    reducers that change it and what each of them writes to storage, and the
    login/register/me thunks. Storage itself is not modelled: a reducer returns the
    storage operation it performs, and reading storage is a parameter. */
module Auth {
  import opened Wrappers
  import opened JsonValues
  import opened Api
  import opened Effects

  datatype User = User(userId: string, email: string, fullName: string, role: string)

  /** `null` is `None`. */
  datatype AuthState = AuthState(
    token: Option<string>,
    expiresAt: Option<string>,
    refreshToken: Option<string>,
    refreshExpiresAt: Option<string>,
    user: Option<User>,
    loading: bool)

  /** `Partial<AuthState>` as far as the session is concerned: the outer `None` is an
      absent field, `Some(None)` an explicit `null`. */
  datatype PartialAuth = PartialAuth(
    token: Option<Option<string>>,
    expiresAt: Option<Option<string>>,
    refreshToken: Option<Option<string>>,
    refreshExpiresAt: Option<Option<string>>,
    user: Option<Option<User>>)

  const SignedOut := AuthState(None, None, None, None, None, false)

  const NoFields := PartialAuth(None, None, None, None, None)

  /** What storage operation a reducer performs on the `auth` key. */
  datatype StorageOp = Keep | Save(shape: Json) | Remove

  // ---------------------------------------------------------------------------
  // The stored shape

  function StringOrNullJson(s: Option<string>): Json
  {
    if s.Some? then JStr(s.value) else JNull
  }

  function UserJson(u: User): Json
  {
    JObj(map["userId" := JStr(u.userId), "email" := JStr(u.email),
             "fullName" := JStr(u.fullName), "role" := JStr(u.role)])
  }

  /** The object `persistAuth` serialises: the session fields, and `loading` always false. */
  function PersistShape(s: AuthState): (j: Json)
    ensures Prop(j, "loading") == Some(JBool(false))
  {
    JObj(map["token" := StringOrNullJson(s.token),
             "expiresAt" := StringOrNullJson(s.expiresAt),
             "refreshToken" := StringOrNullJson(s.refreshToken),
             "refreshExpiresAt" := StringOrNullJson(s.refreshExpiresAt),
             "user" := if s.user.Some? then UserJson(s.user.value) else JNull,
             "loading" := JBool(false)])
  }

  /** Writing the session: the shape above. */
  function Persist(s: AuthState): StorageOp
  {
    Save(PersistShape(s))
  }

  // ---------------------------------------------------------------------------
  // Reading it back

  /** One session string field: kept when the stored value is a string or `null`. */
  function StringOrNull(v: Option<Json>): Option<Option<string>>
  {
    match v
    case Some(JStr(s)) => Some(Some(s))
    case Some(JNull) => Some(None)
    case _ => None
  }

  /** The stored user: kept when it is an object with the four string fields (and then
      only those are copied), kept as `null` when `null`, dropped otherwise. */
  function StoredUser(v: Option<Json>): Option<Option<User>>
  {
    if v.Some? && IsObject(v.value) then
      var id := StringProp(v.value, "userId");
      var email := StringProp(v.value, "email");
      var name := StringProp(v.value, "fullName");
      var role := StringProp(v.value, "role");
      if id.Some? && email.Some? && name.Some? && role.Some? then
        Some(Some(User(id.value, email.value, name.value, role.value)))
      else None
    else if v == Some(JNull) then Some(None)
    else None
  }

  /** The rule for a string-or-null field, stated as acceptance: the field is present
      exactly for a stored string or `null`, and then carries it. */
  predicate ReadsStringOrNull(field: Option<Option<string>>, stored: Option<Json>)
  {
    (field.Some? <==> stored == Some(JNull) || (stored.Some? && stored.value.JStr?))
    && (field == Some(None) <==> stored == Some(JNull))
    && (stored.Some? && stored.value.JStr? ==> field == Some(Some(stored.value.s)))
  }

  /** The rule for the user field, stated the same way. */
  predicate ReadsUser(field: Option<Option<User>>, stored: Option<Json>)
  {
    (field == Some(None) <==> stored == Some(JNull))
    && (field.Some? && field.value.Some? <==>
          stored.Some? && IsObject(stored.value)
          && StringProp(stored.value, "userId").Some? && StringProp(stored.value, "email").Some?
          && StringProp(stored.value, "fullName").Some? && StringProp(stored.value, "role").Some?)
    && (field.Some? && field.value.Some? ==>
          var u := field.value.value;
          StringProp(stored.value, "userId") == Some(u.userId)
          && StringProp(stored.value, "email") == Some(u.email)
          && StringProp(stored.value, "fullName") == Some(u.fullName)
          && StringProp(stored.value, "role") == Some(u.role))
  }

  /** `safeParseAuth(raw)`, where `parsed` is what `JSON.parse(raw)` gives. */
  function SafeParseAuth(raw: Option<string>, parsed: Parse): (r: Option<PartialAuth>)
    ensures r.None? <==>
      raw.None? || raw.value == "" || parsed.Malformed? || !IsObject(parsed.value)
    ensures r.Some? ==>
      var v := parsed.value;
      ReadsStringOrNull(r.value.token, Prop(v, "token"))
      && ReadsStringOrNull(r.value.expiresAt, Prop(v, "expiresAt"))
      && ReadsStringOrNull(r.value.refreshToken, Prop(v, "refreshToken"))
      && ReadsStringOrNull(r.value.refreshExpiresAt, Prop(v, "refreshExpiresAt"))
      && ReadsUser(r.value.user, Prop(v, "user"))
  {
    if raw.None? || raw.value == "" then None
    else match parsed
      case Malformed(_) => None
      case Parsed(v) =>
        if !IsObject(v) then None
        else Some(PartialAuth(StringOrNull(Prop(v, "token")),
                              StringOrNull(Prop(v, "expiresAt")),
                              StringOrNull(Prop(v, "refreshToken")),
                              StringOrNull(Prop(v, "refreshExpiresAt")),
                              StoredUser(Prop(v, "user"))))
  }

  /** `a ?? b` for a field that may be absent or `null`. */
  function OrElse<T>(field: Option<Option<T>>, current: Option<T>): (r: Option<T>)
    ensures field.Some? && field.value.Some? ==> r == field.value
    ensures !(field.Some? && field.value.Some?) ==> r == current
  {
    if field.Some? && field.value.Some? then field.value else current
  }

  /** The stored fields laid over a state, each only where it holds a value. */
  function Overlay(s: AuthState, p: PartialAuth): AuthState
  {
    s.(token := OrElse(p.token, s.token),
       expiresAt := OrElse(p.expiresAt, s.expiresAt),
       refreshToken := OrElse(p.refreshToken, s.refreshToken),
       refreshExpiresAt := OrElse(p.refreshExpiresAt, s.refreshExpiresAt),
       user := OrElse(p.user, s.user))
  }

  /** The slice's initial state: signed out, or the stored session when one reads back. */
  function BuildInitialState(inBrowser: bool, raw: Option<string>, parsed: Parse): (s: AuthState)
    ensures !s.loading
    ensures !inBrowser || SafeParseAuth(raw, parsed).None? ==> s == SignedOut
    ensures inBrowser && SafeParseAuth(raw, parsed).Some? ==>
      var p := SafeParseAuth(raw, parsed).value;
      (s.token.Some? <==> p.token.Some? && p.token.value.Some?)
      && (s.token.Some? ==> s.token == p.token.value)
      && (s.user.Some? <==> p.user.Some? && p.user.value.Some?)
      && (s.user.Some? ==> s.user == p.user.value)
      && s.expiresAt == OrElse(p.expiresAt, None)
      && s.refreshToken == OrElse(p.refreshToken, None)
      && s.refreshExpiresAt == OrElse(p.refreshExpiresAt, None)
  {
    if !inBrowser then SignedOut
    else match SafeParseAuth(raw, parsed)
      case None => SignedOut
      case Some(p) => Overlay(SignedOut, p)
  }

  /** What the persisted shape parses back to: every field present. */
  lemma PersistShapeReadsBack(s: AuthState, text: string)
    requires text != ""
    ensures SafeParseAuth(Some(text), Parsed(PersistShape(s)))
         == Some(PartialAuth(Some(s.token), Some(s.expiresAt), Some(s.refreshToken),
                             Some(s.refreshExpiresAt), Some(s.user)))
  {
    var j := PersistShape(s);
    assert Prop(j, "token") == Some(StringOrNullJson(s.token));
    assert Prop(j, "expiresAt") == Some(StringOrNullJson(s.expiresAt));
    assert Prop(j, "refreshToken") == Some(StringOrNullJson(s.refreshToken));
    assert Prop(j, "refreshExpiresAt") == Some(StringOrNullJson(s.refreshExpiresAt));
    if s.user.Some? {
      var u := UserJson(s.user.value);
      assert Prop(j, "user") == Some(u);
      assert StringProp(u, "userId") == Some(s.user.value.userId);
      assert StringProp(u, "email") == Some(s.user.value.email);
      assert StringProp(u, "fullName") == Some(s.user.value.fullName);
      assert StringProp(u, "role") == Some(s.user.value.role);
    } else {
      assert Prop(j, "user") == Some(JNull);
    }
  }

  /** The round trip: the next page load, reading back what was persisted (the
      serialised text is never empty), starts from the same session, not loading. */
  lemma PersistRoundTrip(s: AuthState, text: string)
    requires text != ""
    ensures BuildInitialState(true, Some(text), Parsed(PersistShape(s))) == s.(loading := false)
  {
    PersistShapeReadsBack(s, text);
  }

  // ---------------------------------------------------------------------------
  // Reducers

  /** `hydrate`: each field is replaced by a present, non-null payload value; the
      result is persisted. */
  function Hydrate(s: AuthState, p: PartialAuth): (r: (AuthState, StorageOp))
    ensures r.0.loading == s.loading
    ensures p.token.Some? && p.token.value.Some? ==> r.0.token == p.token.value
    ensures !(p.token.Some? && p.token.value.Some?) ==> r.0.token == s.token
    ensures p.user.Some? && p.user.value.Some? ==> r.0.user == p.user.value
    ensures !(p.user.Some? && p.user.value.Some?) ==> r.0.user == s.user
    ensures p.expiresAt.Some? && p.expiresAt.value.Some? ==> r.0.expiresAt == p.expiresAt.value
    ensures !(p.expiresAt.Some? && p.expiresAt.value.Some?) ==> r.0.expiresAt == s.expiresAt
    ensures p.refreshToken.Some? && p.refreshToken.value.Some? ==> r.0.refreshToken == p.refreshToken.value
    ensures !(p.refreshToken.Some? && p.refreshToken.value.Some?) ==> r.0.refreshToken == s.refreshToken
    ensures p.refreshExpiresAt.Some? && p.refreshExpiresAt.value.Some? ==> r.0.refreshExpiresAt == p.refreshExpiresAt.value
    ensures !(p.refreshExpiresAt.Some? && p.refreshExpiresAt.value.Some?) ==> r.0.refreshExpiresAt == s.refreshExpiresAt
    ensures r.1 == Persist(r.0)
  {
    var n := Overlay(s, p);
    (n, Persist(n))
  }

  /** `hydrate` can fill a field in but never clear it. */
  lemma HydrateNeverClears(s: AuthState, p: PartialAuth)
    ensures s.token.Some? ==> Hydrate(s, p).0.token.Some?
    ensures s.expiresAt.Some? ==> Hydrate(s, p).0.expiresAt.Some?
    ensures s.refreshToken.Some? ==> Hydrate(s, p).0.refreshToken.Some?
    ensures s.refreshExpiresAt.Some? ==> Hydrate(s, p).0.refreshExpiresAt.Some?
    ensures s.user.Some? ==> Hydrate(s, p).0.user.Some?
  {
  }

  /** Hydrating twice with the same payload is hydrating once. */
  lemma HydrateIdempotent(s: AuthState, p: PartialAuth)
    ensures Hydrate(Hydrate(s, p).0, p) == Hydrate(s, p)
  {
  }

  /** An all-null payload changes nothing in the state (though it still writes it). */
  lemma HydrateWithNullsKeeps(s: AuthState)
    ensures Hydrate(s, PartialAuth(Some(None), Some(None), Some(None), Some(None), Some(None))).0 == s
    ensures Hydrate(s, NoFields).0 == s
  {
  }

  /** `hydrateFromStorage` (in the browser): a no-op when nothing reads back, otherwise
      a `hydrate` with what was read. */
  function HydrateFromStorage(s: AuthState, raw: Option<string>, parsed: Parse): (r: (AuthState, StorageOp))
    ensures SafeParseAuth(raw, parsed).None? ==> r == (s, Keep)
    ensures SafeParseAuth(raw, parsed).Some? ==> r == Hydrate(s, SafeParseAuth(raw, parsed).value)
    ensures SafeParseAuth(raw, parsed).Some? ==> r.0.loading == s.loading && r.1 == Persist(r.0)
  {
    match SafeParseAuth(raw, parsed)
    case None => (s, Keep)
    case Some(p) => Hydrate(s, p)
  }

  /** On the first load, reading storage again changes nothing: the initial state is a
      fixpoint of `hydrateFromStorage` for the same stored text. */
  lemma HydrateFromStorageAfterInitial(raw: Option<string>, parsed: Parse)
    ensures HydrateFromStorage(BuildInitialState(true, raw, parsed), raw, parsed).0
         == BuildInitialState(true, raw, parsed)
  {
  }

  /** `logout`: every session field becomes `null`; `loading` stays; the key is removed. */
  function Logout(s: AuthState): (r: (AuthState, StorageOp))
    ensures r.0 == SignedOut.(loading := s.loading)
    ensures r.1 == Remove
  {
    (s.(token := None, expiresAt := None, refreshToken := None, refreshExpiresAt := None, user := None),
     Remove)
  }

  lemma LogoutIdempotent(s: AuthState)
    ensures Logout(Logout(s).0) == Logout(s)
  {
  }

  /** The shape of a successful login or registration (taken as typed). */
  datatype AuthResponse = AuthResponse(
    accessToken: string, expiresAt: string, refreshToken: string,
    refreshExpiresAt: string, user: User)

  /** `pending` of login and of register. */
  function AuthPending(s: AuthState): (r: AuthState)
    ensures r == s.(loading := true)
  {
    s.(loading := true)
  }

  /** `fulfilled` of login and of register: the session is the response's, and persisted. */
  function AuthFulfilled(s: AuthState, a: AuthResponse): (r: (AuthState, StorageOp))
    ensures !r.0.loading
    ensures r.0.token == Some(a.accessToken) && r.0.user == Some(a.user)
    ensures r.0.expiresAt == Some(a.expiresAt) && r.0.refreshToken == Some(a.refreshToken)
    ensures r.0.refreshExpiresAt == Some(a.refreshExpiresAt)
    ensures r.1 == Persist(r.0)
  {
    var n := AuthState(Some(a.accessToken), Some(a.expiresAt), Some(a.refreshToken),
                       Some(a.refreshExpiresAt), Some(a.user), false);
    (n, Persist(n))
  }

  /** `rejected` of login and of register. */
  function AuthRejected(s: AuthState): (r: AuthState)
    ensures r == s.(loading := false)
  {
    s.(loading := false)
  }

  /** A signed-in session survives a reload: what a successful login writes reads back
      as exactly the state it produced. */
  lemma LoginSurvivesReload(s: AuthState, a: AuthResponse, text: string)
    requires text != ""
    ensures var (n, op) := AuthFulfilled(s, a);
      op.Save? && BuildInitialState(true, Some(text), Parsed(op.shape)) == n
  {
    PersistRoundTrip(AuthFulfilled(s, a).0, text);
  }

  /** `me` fulfilled: the user is replaced and the session persisted. */
  function MeFulfilled(s: AuthState, u: User): (r: (AuthState, StorageOp))
    ensures r.0 == s.(user := Some(u))
    ensures r.1 == Persist(r.0)
  {
    var n := s.(user := Some(u));
    (n, Persist(n))
  }

  // ---------------------------------------------------------------------------
  // Thunks

  const DefaultAuthBase := "http://localhost:5267"

  /** `NEXT_PUBLIC_AUTH_API_BASE_URL ?? "http://localhost:5267"`. */
  function AuthBase(env: Option<string>): (b: string)
    ensures env.Some? ==> b == env.value
    ensures env.None? ==> b == DefaultAuthBase
  {
    env.GetOr(DefaultAuthBase)
  }

  datatype Credentials = Login(email: string, password: string)
                       | Register(email: string, password: string, fullName: string)

  function CredentialsJson(c: Credentials): Json
  {
    match c
    case Login(e, p) => JObj(map["email" := JStr(e), "password" := JStr(p)])
    case Register(e, p, n) => JObj(map["email" := JStr(e), "password" := JStr(p), "fullName" := JStr(n)])
  }

  /** `loginThunk` and `registerThunk`: one unauthenticated POST to the auth service;
      the thunk settles as the request does. */
  function SignInThunk(c: Credentials, env: Option<string>, reply: Outcome<Reply>): (t: Trace<Reply>)
    ensures t.outcome == reply
    ensures |t.effects| == 1 && t.effects[0].Send?
    ensures t.effects[0].opts.verb == Post && t.effects[0].opts.token == None
    ensures t.effects[0].opts.baseUrl == Some(AuthBase(env))
    ensures t.effects[0].path == (if c.Login? then "/api/Auth/login" else "/api/Auth/register")
  {
    var path := if c.Login? then "/api/Auth/login" else "/api/Auth/register";
    Trace([Send(path, [], RequestOptions(Post, [], JsonBody(CredentialsJson(c)), None, Some(AuthBase(env))))],
          reply)
  }

  const MissingToken := "Missing token"

  /** `meThunk`: without a truthy token it fails before any request. */
  function MeThunk(token: Option<string>, env: Option<string>, reply: Outcome<Reply>): (t: Trace<Reply>)
    ensures !TruthyStr(token) ==> t == Trace([], Threw(JsError("Error", MissingToken)))
    ensures TruthyStr(token) ==>
      t.outcome == reply && |t.effects| == 1 && t.effects[0].Send?
      && t.effects[0].path == "/api/Auth/me" && t.effects[0].opts.verb == Get
      && t.effects[0].opts.token == token && t.effects[0].opts.baseUrl == Some(AuthBase(env))
  {
    if !TruthyStr(token) then Trace([], Threw(JsError("Error", MissingToken)))
    else Trace([Send("/api/Auth/me", [], RequestOptions(Get, [], NoBody, token, Some(AuthBase(env))))], reply)
  }

  /** The `me` request carries the session's bearer token. */
  lemma MeSendsBearer(token: Option<string>, env: Option<string>, reply: Outcome<Reply>, apiEnv: Option<string>)
    requires TruthyStr(token)
    ensures var e := MeThunk(token, env, reply).effects[0];
      var call := PrepareRequest(e.path, e.opts, apiEnv);
      AuthorizationKey in call.headers && call.headers[AuthorizationKey] == "Bearer " + token.value
  {
  }
}
