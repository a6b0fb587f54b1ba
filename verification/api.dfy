/** `apiRequest` and the `api` helpers of `src/lib/api.ts`. The `fetch` call
    is a parameter: what it did (answered with a status and a body, or
    threw) is given, and the model computes the request that was built, the
    value or `ApiError` the promise settles with, and the effects on the
    token store and the page location. */
module Api {
  import opened Wrappers
  import opened Json
  import opened Digits
  import opened AuthStorage

  const DefaultBaseUrl: string := "http://localhost:3000"
  const LoginPage: string := "/login"
  const UnauthorizedText: string := "Não autorizado"
  const NetworkErrorText: string := "Erro de rede"
  const RequestErrorPrefix: string := "Erro na requisição: "
  /** What Node reports when `window` is read outside a browser. */
  const NoWindowText: string := "window is not defined"

  /** `VITE_API_URL || 'http://localhost:3000'`. */
  function BaseUrl(env: Option<string>): (r: string)
    ensures env.Some? && env.value != "" ==> r == env.value
    ensures env.None? || env.value == "" ==> r == DefaultBaseUrl
  {
    if env.Some? && env.value != "" then env.value else DefaultBaseUrl
  }

  /** `ApiError(status, message, data)`; status 0 is the transport's. */
  datatype ApiError = ApiError(status: int, message: string, data: Option<Json>)

  datatype Method = Get | Post | Put | Patch | Delete

  /** The part of `RequestInit` the module reads or writes. */
  datatype RequestOptions = RequestOptions(verb: Option<Method>, headers: Option<Headers>, body: Option<string>)

  const NoOptions: RequestOptions := RequestOptions(None, None, None)

  /** The request `fetch` receives. */
  datatype Prepared = Prepared(url: string, verb: Option<Method>, headers: Headers, body: Option<string>)

  /** `{...auth.getAuthHeaders(), ...options.headers}`: every key of either,
      the caller's value winning a clash. */
  function MergeHeaders(authHeaders: Headers, caller: Option<Headers>): (r: Headers)
    ensures forall k :: k in r <==> k in authHeaders || (caller.Some? && k in caller.value)
    ensures forall k :: caller.Some? && k in caller.value ==> r[k] == caller.value[k]
    ensures forall k :: k in authHeaders && (caller.None? || k !in caller.value) ==> r[k] == authHeaders[k]
  {
    match caller
    case None => authHeaders
    case Some(h) => authHeaders + h
  }

  /** The browser side of a call: whether `window` exists, `localStorage`
      and the configured base URL. */
  datatype Env = Env(isBrowser: bool, local: Store, baseUrl: string)

  function Prepare(env: Env, endpoint: string, options: RequestOptions): (p: Prepared)
    ensures |p.url| == |env.baseUrl| + |endpoint|
    ensures p.url[..|env.baseUrl|] == env.baseUrl && p.url[|env.baseUrl|..] == endpoint
    ensures p.verb == options.verb && p.body == options.body
    ensures p.headers == MergeHeaders(GetAuthHeaders(env.isBrowser, env.local), options.headers)
  {
    Prepared(env.baseUrl + endpoint, options.verb, MergeHeaders(GetAuthHeaders(env.isBrowser, env.local), options.headers), options.body)
  }

  /** What an `Error` thrown inside the `try` carries. */
  datatype Thrown = ErrorObject(message: string) | NonError

  /** What `fetch` did: answered (the body is `None` when `response.json()`
      rejects), or threw. */
  datatype Transport = Responded(status: nat, body: Option<Json>) | Threw(thrown: Thrown)

  /** `response.ok`: a 2xx status. */
  predicate IsOk(status: nat) {
    200 <= status <= 299
  }

  /** `data?.message || data?.error || \`Erro na requisição: ${status}\``. */
  function FailureMessage(data: Json, status: nat): (r: string)
    ensures TextField(data, "message").Some? ==> r == TextField(data, "message").value
    ensures TextField(data, "message").None? && TextField(data, "error").Some? ==> r == TextField(data, "error").value
    ensures TextField(data, "message").None? && TextField(data, "error").None? ==>
      |r| > |RequestErrorPrefix| && r[..|RequestErrorPrefix|] == RequestErrorPrefix && AllDigits(r[|RequestErrorPrefix|..])
      && NumeralValue(r[|RequestErrorPrefix|..]) == status
  {
    match TextField(data, "message")
    case Some(m) => m
    case None =>
      match TextField(data, "error")
      case Some(e) => e
      case None => DecimalRoundTrip(status); RequestErrorPrefix + Decimal(status)
  }

  /** How a call settles, with its side effects. */
  datatype Outcome = Outcome(prepared: Prepared, result: Result<Json, ApiError>, local: Store, location: Option<string>)

  /** The `try` body's verdict on an answer, and the catch's mapping of
      what it throws. */
  function Classify(isBrowser: bool, local: Store, status: nat, body: Option<Json>): (r: (Result<Json, ApiError>, Store, Option<string>))
    ensures r.0.Success? <==> IsOk(status)
    ensures r.0.Success? ==> r.0.value == body.GetOr(EmptyObject)
    ensures r.0.Failure? ==> r.0.error.status == (if status == 401 && !isBrowser then 0 else status)
    ensures r.0.Failure? && r.0.error.data.Some? <==> !IsOk(status) && status != 401
    ensures r.1 == (if status == 401 && isBrowser then RemoveToken(true, local) else local)
    ensures r.2.Some? <==> status == 401 && isBrowser
    ensures r.2.Some? ==> r.2.value == LoginPage
  {
    var data := body.GetOr(EmptyObject);
    if status == 401 then
      if isBrowser then
        (Failure(ApiError(401, TextField(data, "message").GetOr(UnauthorizedText), None)), RemoveToken(true, local), Some(LoginPage))
      else
        (Failure(ApiError(0, NoWindowText, None)), local, None)
    else if !IsOk(status) then
      (Failure(ApiError(status, FailureMessage(data, status), Some(data))), local, None)
    else
      (Success(data), local, None)
  }

  /** `apiRequest(endpoint, options)`. */
  function ApiRequest(env: Env, endpoint: string, options: RequestOptions, transport: Transport): (o: Outcome)
    ensures o.prepared == Prepare(env, endpoint, options)
    ensures o.result.Failure? && o.result.error.status != 0 ==>
      transport.Responded? && o.result.error.status == transport.status && !IsOk(transport.status)
    ensures o.local != env.local ==> transport.Responded? && transport.status == 401 && env.isBrowser
    ensures transport.Threw? ==> o.result.Failure? && o.result.error.status == 0 && o.local == env.local
  {
    var p := Prepare(env, endpoint, options);
    match transport
    case Threw(ErrorObject(m)) => Outcome(p, Failure(ApiError(0, m, None)), env.local, None)
    case Threw(NonError) => Outcome(p, Failure(ApiError(0, NetworkErrorText, None)), env.local, None)
    case Responded(status, body) =>
      var c := Classify(env.isBrowser, env.local, status, body);
      Outcome(p, c.0, c.1, c.2)
  }

  /** A 2xx answer resolves with the parsed body, or `{}` when it does not
      parse; nothing else changes. */
  lemma OkResolves(env: Env, endpoint: string, options: RequestOptions, status: nat, body: Option<Json>)
    requires IsOk(status)
    ensures var o := ApiRequest(env, endpoint, options, Responded(status, body));
      o.result == Success(if body.Some? then body.value else EmptyObject)
      && o.local == env.local && o.location == None
  {
  }

  /** A 401 in a browser logs out and goes to the login page; the error
      carries the server's message or the default, and no data. The check
      comes before the generic one, so a 401 never reads "Erro na
      requisição: 401". */
  lemma UnauthorizedLogsOut(local: Store, baseUrl: string, endpoint: string, options: RequestOptions, body: Option<Json>)
    ensures var o := ApiRequest(Env(true, local, baseUrl), endpoint, options, Responded(401, body));
      var message := TextField(body.GetOr(EmptyObject), "message");
      o.result == Failure(ApiError(401, if message.Some? then message.value else UnauthorizedText, None))
      && o.local == RemoveToken(true, local) && !IsAuthenticated(true, o.local)
      && o.location == Some(LoginPage)
  {
  }

  /** Any other failing status rejects with that status, the message chain
      and the body, and leaves the session alone. */
  lemma FailureRejects(env: Env, endpoint: string, options: RequestOptions, status: nat, body: Option<Json>)
    requires !IsOk(status) && status != 401
    ensures var o := ApiRequest(env, endpoint, options, Responded(status, body));
      var data := body.GetOr(EmptyObject);
      o.result == Failure(ApiError(status, FailureMessage(data, status), Some(data)))
      && o.local == env.local && o.location == None
  {
  }

  /** What the `try` body throws becomes an `ApiError` with status 0: an
      `Error` keeps its message, anything else reads "Erro de rede". */
  lemma ThrownBecomesStatusZero(env: Env, endpoint: string, options: RequestOptions, thrown: Thrown)
    ensures var o := ApiRequest(env, endpoint, options, Threw(thrown));
      o.result == Failure(ApiError(0, if thrown.ErrorObject? then thrown.message else NetworkErrorText, None))
      && o.local == env.local && o.location == None
  {
  }

  /** Outside a browser a 401 cannot redirect: reading `window` throws, and
      the catch turns that into a status-0 error; nothing is stored. */
  lemma UnauthorizedWithoutWindow(local: Store, baseUrl: string, endpoint: string, options: RequestOptions, body: Option<Json>)
    ensures var o := ApiRequest(Env(false, local, baseUrl), endpoint, options, Responded(401, body));
      o.result == Failure(ApiError(0, NoWindowText, None)) && o.local == local && o.location == None
  {
  }

  /** The fallback message names the status, so two statuses never share it. */
  lemma FallbackNamesStatus(s1: nat, s2: nat)
    requires s1 != s2
    ensures FailureMessage(EmptyObject, s1) != FailureMessage(EmptyObject, s2)
  {
  }

  /** The caller's headers override the authorisation defaults. */
  lemma CallerHeadersWin(env: Env, endpoint: string, options: RequestOptions, name: string)
    requires options.headers.Some? && name in options.headers.value
    ensures Prepare(env, endpoint, options).headers[name] == options.headers.value[name]
  {
  }

  /** The `api` helpers: the method is set, overriding any in the options,
      and `post`/`put`/`patch` serialise their payload (`JSON.stringify` of
      `undefined` leaves no body). */
  function HelperOptions(m: Method, payload: Option<Json>, options: Option<RequestOptions>, stringify: Json -> string): (r: RequestOptions)
    ensures r.verb == Some(m)
    ensures r.headers == (if options.Some? then options.value.headers else None)
    ensures (m.Post? || m.Put? || m.Patch?) && payload.Some? ==> r.body == Some(stringify(payload.value))
    ensures (m.Post? || m.Put? || m.Patch?) && payload.None? ==> r.body == None
    ensures (m.Get? || m.Delete?) ==> r.body == (if options.Some? then options.value.body else None)
  {
    var base := options.GetOr(NoOptions);
    if m.Get? || m.Delete? then base.(verb := Some(m))
    else base.(verb := Some(m), body := if payload.Some? then Some(stringify(payload.value)) else None)
  }
}
