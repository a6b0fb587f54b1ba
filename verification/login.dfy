/** The login route of `src/routes/login.tsx`: `loginSchema`, the empty
    defaults, and what a submission does to the `auth` store. The request
    goes through `apiRequest`; what `fetch` did is a parameter. */
module Login {
  import opened Wrappers
  import opened Json
  import opened Issues
  import opened Text
  import opened AuthStorage
  import opened Api

  datatype LoginForm = LoginForm(email: string, password: string)

  /** The empty form the page starts with. */
  const Defaults: LoginForm := LoginForm("", "")

  datatype LoginField = Email | Password

  const LoginKeys: seq<LoginField> := [Email, Password]

  datatype LoginMessage = EmailInvalid | EmailRequired | PasswordRequired | PasswordTooShort

  function LoginMessageText(m: LoginMessage): string {
    match m
    case EmailInvalid => "Email inválido"
    case EmailRequired => "Email obrigatório!"
    case PasswordRequired => "Senha obrigatória!"
    case PasswordTooShort => "A senha deve ter pelo menos 6 caracteres"
  }

  /** The key each message is reported under. */
  function LoginMessageField(m: LoginMessage): LoginField {
    match m
    case EmailInvalid | EmailRequired => Email
    case PasswordRequired | PasswordTooShort => Password
  }

  /** Both chains run every rule: the email format first, then the length.
      A chain only carries its own key's messages. The email chain is
      silent exactly for a non-empty address the format check accepts, the
      password chain exactly for six code units or more. */
  function LoginRules(l: LoginForm, isEmail: string -> bool, f: LoginField): (r: seq<Rule<LoginMessage>>)
    ensures forall i :: 0 <= i < |r| ==> LoginMessageField(r[i].message) == f
    ensures f == Email ==> (Failing(r) == [] <==> isEmail(l.email) && l.email != [])
    ensures f == Password ==> (Failing(r) == [] <==> Utf16Length(l.password) >= 6)
  {
    match f
    case Email => [Rule(isEmail(l.email), EmailInvalid), Rule(Utf16Length(l.email) >= 1, EmailRequired)]
    case Password => [Rule(Utf16Length(l.password) >= 1, PasswordRequired), Rule(Utf16Length(l.password) >= 6, PasswordTooShort)]
  }

  function LoginFailing(l: LoginForm, isEmail: string -> bool): LoginField -> seq<LoginMessage> {
    f => Failing(LoginRules(l, isEmail, f))
  }

  function LoginIssues(l: LoginForm, isEmail: string -> bool): seq<Issue<LoginField, LoginMessage>> {
    ObjectIssues(LoginKeys, LoginFailing(l, isEmail))
  }

  /** Credentials the page sends: a non-empty address the email check
      accepts and a password of six UTF-16 code units or more. */
  predicate LoginValid(l: LoginForm, isEmail: string -> bool) {
    isEmail(l.email) && l.email != [] && Utf16Length(l.password) >= 6
  }

  lemma LoginKeysAll()
    ensures Distinct(LoginKeys)
    ensures forall f :: f in LoginKeys
  {
    forall f ensures f in LoginKeys {
      match f
      case Email => assert LoginKeys[0] == f;
      case Password => assert LoginKeys[1] == f;
    }
  }

  /** Each field shows exactly its own failing rules' messages. */
  lemma LoginMessages(l: LoginForm, isEmail: string -> bool, f: LoginField)
    ensures MessagesAt(LoginIssues(l, isEmail), f) == Failing(LoginRules(l, isEmail, f))
  {
    LoginKeysAll();
    MessagesAtObject(LoginKeys, LoginFailing(l, isEmail), f);
  }

  lemma LoginIssuesEmptyIffValid(l: LoginForm, isEmail: string -> bool)
    ensures LoginIssues(l, isEmail) == [] <==> LoginValid(l, isEmail)
  {
    LoginKeysAll();
    var m := LoginFailing(l, isEmail);
    ObjectIssuesEmptyAll(LoginKeys, m);
    var email := LoginRules(l, isEmail, Email);
    var password := LoginRules(l, isEmail, Password);
    FailingShort(email[0], email[1]);
    FailingShort(password[0], password[1]);
    assert m(Email) == Failing(email) && m(Password) == Failing(password);
  }

  /** An empty password carries both password messages, the required one first. */
  lemma EmptyPasswordMessages(l: LoginForm, isEmail: string -> bool)
    requires l.password == []
    ensures MessagesAt(LoginIssues(l, isEmail), Password) == [PasswordRequired, PasswordTooShort]
  {
    LoginMessages(l, isEmail, Password);
  }

  /** A password of one to five UTF-16 code units carries only the length
      message. */
  lemma ShortPasswordMessages(l: LoginForm, isEmail: string -> bool)
    requires 1 <= Utf16Length(l.password) < 6
    ensures MessagesAt(LoginIssues(l, isEmail), Password) == [PasswordTooShort]
  {
    LoginMessages(l, isEmail, Password);
  }

  /** The length is counted in UTF-16 code units, so three emoji make a
      long enough password. */
  lemma AstralPasswordIsLongEnough(l: LoginForm, isEmail: string -> bool)
    requires l.password == "\U{1F600}\U{1F600}\U{1F600}"
    ensures MessagesAt(LoginIssues(l, isEmail), Password) == []
  {
    LoginMessages(l, isEmail, Password);
    var e := "\U{1F600}";
    assert l.password == e + e + e && Utf16Length(e) == 2;
    Utf16LengthConcat(e, e);
    Utf16LengthConcat(e + e, e);
  }

  /** The empty defaults cannot be submitted, whatever the email check
      says of the empty address. */
  lemma DefaultsAreRejected(isEmail: string -> bool)
    ensures MessagesAt(LoginIssues(Defaults, isEmail), Email) == (if isEmail("") then [] else [EmailInvalid]) + [EmailRequired]
    ensures MessagesAt(LoginIssues(Defaults, isEmail), Password) == [PasswordRequired, PasswordTooShort]
  {
    LoginMessages(Defaults, isEmail, Email);
    EmptyPasswordMessages(Defaults, isEmail);
  }

  /** What the success handler reads from the reply: `response.token` and
      `response.user`. */
  datatype LoginReply = LoginReply(user: Json, token: string)

  const LoginPath: string := "/auth/login"
  const HomePath: string := "/"

  const SuccessToast: string := "Login realizado com sucesso!"
  const FailureToast: string := "Falha no login. Verifique suas credenciais."

  /** The object `api.post` serialises as the request body. */
  function Credentials(l: LoginForm): Json {
    JObj(map["email" := JStr(l.email), "password" := JStr(l.password)])
  }

  /** The options `api.post('/auth/login', credentials)` hands to `apiRequest`. */
  function LoginOptions(l: LoginForm, stringify: Json -> string): (o: RequestOptions)
    ensures o.verb == Some(Post) && o.body == Some(stringify(Credentials(l))) && o.headers == None
  {
    HelperOptions(Post, Some(Credentials(l)), None, stringify)
  }

  /** What one submission leaves behind: the request that went out, if any,
      the browser store, where the page goes next (the router's `navigate`
      after a success, `window.location.href` after a 401) and the toast
      finally shown. */
  datatype Submission = Submission(request: Option<Prepared>, local: Store, navigateTo: Option<string>, toast: Option<string>)

  /** The success handler: the token, then the user, then navigation home. */
  function OnSuccess(p: Prepared, isBrowser: bool, local: Store, reply: LoginReply, stringify: Json -> string): (r: Submission)
    ensures r.request == Some(p) && r.navigateTo == Some(HomePath) && r.toast == Some(SuccessToast)
    ensures r.local == SetUser(isBrowser, SetToken(isBrowser, local, reply.token), reply.user, stringify)
  {
    Submission(Some(p), SetUser(isBrowser, SetToken(isBrowser, local, reply.token), reply.user, stringify), Some(HomePath), Some(SuccessToast))
  }

  /** A 401 answered in a browser, which `apiRequest` turns into a logout. */
  predicate LoggedOutBy(env: Env, transport: Transport) {
    env.isBrowser && transport.Responded? && transport.status == 401
  }

  /** A 2xx answer whose body the success handler can read: reading
      `response.token` off a `null` body throws, and the mutation fails. */
  predicate Accepted(transport: Transport) {
    transport.Responded? && IsOk(transport.status) && transport.body != Some(JNull)
  }

  /** A submission: the form's validators run first and block the request
      when they report anything; otherwise `apiRequest` posts the
      credentials, and its outcome decides. How a non-`null` reply body
      yields a token and a user is `read`. */
  function Submit(l: LoginForm, isEmail: string -> bool, env: Env, transport: Transport,
                  read: Json -> LoginReply, stringify: Json -> string): (r: Submission)
    ensures r.request.Some? <==> LoginValid(l, isEmail)
    ensures r.request.Some? ==> r.request.value == Prepare(env, LoginPath, LoginOptions(l, stringify))
    ensures r.request.None? ==> r.local == env.local && r.navigateTo == None && r.toast == None
    ensures r.request.Some? && LoggedOutBy(env, transport) ==>
      r.local == RemoveToken(true, env.local) && r.navigateTo == Some(LoginPage) && r.toast == Some(FailureToast)
    ensures r.request.Some? && !LoggedOutBy(env, transport) && !Accepted(transport) ==>
      r.local == env.local && r.navigateTo == None && r.toast == Some(FailureToast)
    ensures r.request.Some? && Accepted(transport) ==>
      var reply := read(transport.body.GetOr(EmptyObject));
      r.local == SetUser(env.isBrowser, SetToken(env.isBrowser, env.local, reply.token), reply.user, stringify)
      && r.navigateTo == Some(HomePath) && r.toast == Some(SuccessToast)
  {
    LoginIssuesEmptyIffValid(l, isEmail);
    if LoginIssues(l, isEmail) != [] then Submission(None, env.local, None, None)
    else
      var o := ApiRequest(env, LoginPath, LoginOptions(l, stringify), transport);
      match o.result
      case Failure(_) => Submission(Some(o.prepared), o.local, o.location, Some(FailureToast))
      case Success(body) =>
        if body == JNull then Submission(Some(o.prepared), o.local, None, Some(FailureToast))
        else OnSuccess(o.prepared, env.isBrowser, o.local, read(body), stringify)
  }

  /** After a successful login in a browser the store holds the returned
      token and user, so the session is authenticated exactly when the
      token is non-empty. */
  lemma LoginStoresSession(l: LoginForm, isEmail: string -> bool, local: Store, baseUrl: string, status: nat, body: Json,
                           read: Json -> LoginReply, stringify: Json -> string, parse: string -> Option<Json>)
    requires LoginValid(l, isEmail) && IsOk(status) && body != JNull
    requires stringify(read(body).user) != "" && parse(stringify(read(body).user)) == Some(read(body).user)
    ensures var r := Submit(l, isEmail, Env(true, local, baseUrl), Responded(status, Some(body)), read, stringify);
      r.local[TokenKey] == read(body).token
      && GetToken(true, r.local) == Some(read(body).token)
      && GetUser(true, r.local, parse) == Success(Some(read(body).user))
      && (IsAuthenticated(true, r.local) <==> read(body).token != [])
  {
    var reply := read(body);
    var withToken := SetToken(true, local, reply.token);
    var after := SetUser(true, withToken, reply.user, stringify);
    assert Submit(l, isEmail, Env(true, local, baseUrl), Responded(status, Some(body)), read, stringify).local == after;
    TokenRoundTrip(local, reply.token);
    UserRoundTrip(withToken, reply.user, stringify, parse);
    assert after[TokenKey] == withToken[TokenKey];
  }

  /** Wrong credentials answered with 401 in a browser sign out whatever
      session was stored before, and send the page to the login page. */
  lemma WrongPasswordSignsOut(l: LoginForm, isEmail: string -> bool, local: Store, baseUrl: string, body: Option<Json>,
                              read: Json -> LoginReply, stringify: Json -> string)
    requires LoginValid(l, isEmail)
    ensures var r := Submit(l, isEmail, Env(true, local, baseUrl), Responded(401, body), read, stringify);
      TokenKey !in r.local && UserKey !in r.local && !IsAuthenticated(true, r.local)
      && r.navigateTo == Some(LoginPage) && r.toast == Some(FailureToast)
  {
  }

  /** A 2xx reply with a `null` body fails the login: nothing is stored and
      the page stays. */
  lemma NullReplyFailsLogin(l: LoginForm, isEmail: string -> bool, env: Env, status: nat,
                            read: Json -> LoginReply, stringify: Json -> string)
    requires LoginValid(l, isEmail) && IsOk(status)
    ensures var r := Submit(l, isEmail, env, Responded(status, Some(JNull)), read, stringify);
      r.local == env.local && r.navigateTo == None && r.toast == Some(FailureToast)
  {
  }
}
