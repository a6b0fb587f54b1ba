/** `AuthProvider` of `src/contexts/auth.context.tsx`: the session kept in
    React state, mirrored under `localStorage['session']` and in the HTTP
    client's default `Authorization` header. Restore, login and logout are
    transitions of one state; the HTTP calls are parameters (their replies
    are given), and so are `JSON.parse`, `JSON.stringify` and JavaScript's
    `String()` of a non-string value. */
module AuthContext {
  import opened Wrappers
  import opened Json
  import opened AuthStorage

  const SessionKey: string := "session"
  const InvalidCredentialsText: string := "Credenciais inválidas"
  const InactiveUserText: string := "Usuário inativo. Entre em contato com o administrador."
  const GenericLoginErrorText: string := "Erro ao fazer login. Tente novamente."
  const OutsideProviderText: string := "useAuth must be used within an AuthProvider"
  const LogoutPath: string := "/auth/logout"

  /** The provider's state: the session (`undefined` is `None`; it holds
      whatever was parsed or received), whether the restore effect is still
      pending, whether a login is in flight, `localStorage`, and the HTTP
      client's default `Authorization` header. */
  datatype AuthState = AuthState(
    session: Option<Json>,
    restoring: bool,
    loginPending: bool,
    local: Store,
    authorization: Option<string>)

  /** The first render: no session, restore pending, no header. */
  function Mount(local: Store): (s: AuthState)
    ensures s.session == None && s.restoring && !s.loginPending && s.authorization == None
  {
    AuthState(None, true, false, local, None)
  }

  /** A template literal's rendering of `v.key`: the string itself, `String()`
      of any other value, `"undefined"` when there is no such field. */
  function FieldText(v: Json, key: string, show: Json -> string): (r: string)
    ensures v.JObj? && key in v.fields && v.fields[key].JStr? ==> r == v.fields[key].s
    ensures !(v.JObj? && key in v.fields) ==> r == "undefined"
  {
    if v.JObj? && key in v.fields then
      match v.fields[key]
      case JStr(t) => t
      case other => show(other)
    else "undefined"
  }

  /** `` `${v.token_type} ${v.token}` ``; reading a field of `null` throws
      (`None`). */
  function AuthorizationFor(v: Json, show: Json -> string): (r: Option<string>)
    ensures r.None? <==> v.JNull?
    ensures r.Some? ==> r.value == FieldText(v, "token_type", show) + " " + FieldText(v, "token", show)
  {
    if v.JNull? then None
    else Some(FieldText(v, "token_type", show) + " " + FieldText(v, "token", show))
  }

  /** The mount effect. Outside a browser it only ends the restore. A stored
      entry that parses is installed with its header; one that does not
      parse, or parses to `null` (whose field read throws after the session
      was set), is removed. */
  function Restore(s: AuthState, isWindow: bool, parse: string -> Option<Json>, show: Json -> string): (r: AuthState)
    ensures !r.restoring && r.loginPending == s.loginPending
    ensures !isWindow ==> r == s.(restoring := false)
    ensures r.local == s.local || r.local == s.local - {SessionKey}
    ensures r.local != s.local ==>
      (isWindow && SessionKey in s.local && s.local[SessionKey] != ""
       && (parse(s.local[SessionKey]).None? || parse(s.local[SessionKey]) == Some(JNull)))
    ensures r.session != s.session ==> isWindow && SessionKey in s.local && r.session == parse(s.local[SessionKey])
  {
    if !isWindow || SessionKey !in s.local || s.local[SessionKey] == "" then s.(restoring := false)
    else match parse(s.local[SessionKey])
      case None => s.(restoring := false, local := s.local - {SessionKey})
      case Some(v) =>
        match AuthorizationFor(v, show)
        case None => s.(session := Some(v), restoring := false, local := s.local - {SessionKey})
        case Some(h) => s.(session := Some(v), restoring := false, authorization := Some(h))
  }

  /** What the login request failed with: axios's `error.response?.status`. */
  datatype LoginFailure = LoginFailure(responseStatus: Option<int>)

  /** `onError`'s mapping to the message of the error it throws, which the
      login's error toast shows. */
  function LoginErrorText(status: Option<int>): (r: string)
    ensures r == InvalidCredentialsText <==> status == Some(401)
    ensures r == InactiveUserText <==> status == Some(403)
    ensures r == GenericLoginErrorText <==> status != Some(401) && status != Some(403)
  {
    if status == Some(401) then InvalidCredentialsText
    else if status == Some(403) then InactiveUserText
    else GenericLoginErrorText
  }

  /** `login` starts the mutation. */
  function LoginStart(s: AuthState): (r: AuthState)
    ensures r.loginPending && r.session == s.session && r.local == s.local && r.authorization == s.authorization
  {
    s.(loginPending := true)
  }

  /** The mutation settles: with the session data the server returned, or
      with a failure. The second component is the text of the error toast
      (`None` when the success toast shows instead). `login` itself never
      rejects: it awaits the toast's id, not the mutation, so it resolves as
      soon as the toast is set up, and the error reaches only the toast. A
      `null` body makes `onSuccess` throw after it set and stored the
      session; `onError` then sees an error without a response. */
  function LoginSettle(s: AuthState, reply: Result<Json, LoginFailure>, stringify: Json -> string, show: Json -> string): (r: (AuthState, Option<string>))
    ensures !r.0.loginPending && r.0.restoring == s.restoring
    ensures reply.Failure? ==> r.0 == s.(loginPending := false) && r.1 == Some(LoginErrorText(reply.error.responseStatus))
    ensures reply.Success? ==>
      (r.0.session == Some(reply.value) && r.0.local == s.local[SessionKey := stringify(reply.value)])
    ensures reply.Success? && !reply.value.JNull? ==> r.1 == None && r.0.authorization == AuthorizationFor(reply.value, show)
    ensures reply.Success? && reply.value.JNull? ==> r.1 == Some(GenericLoginErrorText) && r.0.authorization == s.authorization
  {
    match reply
    case Failure(f) => (s.(loginPending := false), Some(LoginErrorText(f.responseStatus)))
    case Success(data) =>
      var t := s.(session := Some(data), local := s.local[SessionKey := stringify(data)], loginPending := false);
      match AuthorizationFor(data, show)
      case Some(h) => (t.(authorization := Some(h)), None)
      case None => (t, Some(LoginErrorText(None)))
  }

  /** `session?.token` is truthy. */
  predicate HasToken(session: Option<Json>) {
    session.Some? && session.value.JObj? && "token" in session.value.fields && Truthy(session.value.fields["token"])
  }

  /** `logout`: the API is called only with a token, and whatever it
      answers the session, its stored copy and the header are cleared. The
      second component says whether `POST /auth/logout` was sent. */
  function Logout(s: AuthState): (r: (AuthState, bool))
    ensures r.1 <==> HasToken(s.session)
    ensures r.0.session == None && SessionKey !in r.0.local && r.0.authorization == None
    ensures SameExcept(r.0.local, s.local, SessionKey, SessionKey)
    ensures r.0.restoring == s.restoring && r.0.loginPending == s.loginPending
  {
    (s.(session := None, local := s.local - {SessionKey}, authorization := None), HasToken(s.session))
  }

  /** The context value's derived flags. */
  datatype AuthView = AuthView(session: Option<Json>, isAuthenticated: bool, isLoading: bool)

  function View(s: AuthState): (v: AuthView)
    ensures v.isAuthenticated <==> s.session.Some? && Truthy(s.session.value)
    ensures v.isLoading <==> s.restoring || s.loginPending
    ensures v.session == s.session
  {
    AuthView(s.session, s.session.Some? && Truthy(s.session.value), s.restoring || s.loginPending)
  }

  /** `useAuth`: the context, or the error thrown outside a provider. */
  function UseAuth(context: Option<AuthView>): (r: Result<AuthView, string>)
    ensures context.Some? ==> r == Success(context.value)
    ensures context.None? ==> r == Failure(OutsideProviderText)
  {
    match context
    case Some(v) => Success(v)
    case None => Failure(OutsideProviderText)
  }

  /** A stored session object comes back with the header built from its
      `token_type` and `token`, and the app stops loading. */
  lemma RestoreInstallsSession(local: Store, parse: string -> Option<Json>, show: Json -> string,
                               fields: map<string, Json>, tokenType: string, token: string)
    requires SessionKey in local && local[SessionKey] != ""
    requires parse(local[SessionKey]) == Some(JObj(fields))
    requires "token_type" in fields && fields["token_type"] == JStr(tokenType)
    requires "token" in fields && fields["token"] == JStr(token)
    ensures var r := Restore(Mount(local), true, parse, show);
      r.session == Some(JObj(fields)) && r.authorization == Some(tokenType + " " + token)
      && r.local == local && View(r).isAuthenticated && !View(r).isLoading
  {
    var r := Restore(Mount(local), true, parse, show);
    assert r.authorization == AuthorizationFor(JObj(fields), show);
  }

  /** A stored entry that does not parse is dropped, and nobody is signed in. */
  lemma RestoreDropsGarbage(local: Store, parse: string -> Option<Json>, show: Json -> string)
    requires SessionKey in local && local[SessionKey] != "" && parse(local[SessionKey]).None?
    ensures var r := Restore(Mount(local), true, parse, show);
      SessionKey !in r.local && !View(r).isAuthenticated && !View(r).isLoading && r.authorization == None
  {
  }

  /** What a login stores, a later restore brings back: the same session
      and the same header, provided parsing undoes serialisation. */
  lemma LoginThenRestore(s: AuthState, data: Json, stringify: Json -> string, parse: string -> Option<Json>, show: Json -> string)
    requires !data.JNull? && stringify(data) != "" && parse(stringify(data)) == Some(data)
    ensures var after := LoginSettle(s, Success(data), stringify, show).0;
      var restored := Restore(Mount(after.local), true, parse, show);
      restored.session == after.session && restored.authorization == after.authorization
      && restored.local == after.local
  {
    var after := LoginSettle(s, Success(data), stringify, show).0;
    assert after.local[SessionKey] == stringify(data);
  }

  /** Logging out always signs out, whatever was there before. */
  lemma LogoutSignsOut(s: AuthState)
    ensures !View(Logout(s).0).isAuthenticated
    ensures View(Logout(s).0).isLoading == View(s).isLoading
  {
  }

  /** A login the server turns down leaves the session exactly as it was,
      and the error toast shows the text mapped from the status. */
  lemma FailedLoginKeepsSession(s: AuthState, status: Option<int>, stringify: Json -> string, show: Json -> string)
    ensures var r := LoginSettle(LoginStart(s), Failure(LoginFailure(status)), stringify, show);
      r.0 == s.(loginPending := false) && r.1 == Some(LoginErrorText(status))
  {
  }
}
