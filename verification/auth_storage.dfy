/** `src/lib/auth.ts`: the three token stores. `auth` keeps the token and
    the user in `localStorage` and does nothing outside a browser;
    `sessionAuth` keeps the token in `sessionStorage`; `cookieAuth` reads
    the token back from `document.cookie`. The stores are maps; the
    browser check, `JSON.stringify` and `JSON.parse` are parameters. */
module AuthStorage {
  import opened Wrappers
  import opened Text
  import opened Json

  const TokenKey: string := "authToken"
  const UserKey: string := "user"

  /** A browser key/value store (`localStorage`, `sessionStorage`). */
  type Store = map<string, string>

  /** Request headers by name. */
  type Headers = map<string, string>

  /** Every key other than the given ones holds the same entry in both stores. */
  ghost predicate SameExcept(a: Store, b: Store, k1: string, k2: string) {
    forall k :: k != k1 && k != k2 ==> (k in a <==> k in b) && (k in a ==> a[k] == b[k])
  }

  /** `auth.setToken`. */
  function SetToken(isBrowser: bool, local: Store, token: string): (r: Store)
    ensures isBrowser ==> TokenKey in r && r[TokenKey] == token
    ensures !isBrowser ==> r == local
    ensures SameExcept(r, local, TokenKey, TokenKey)
  {
    if isBrowser then local[TokenKey := token] else local
  }

  /** `auth.getToken`: `null` outside a browser or when nothing is stored. */
  function GetToken(isBrowser: bool, local: Store): (r: Option<string>)
    ensures r.Some? <==> isBrowser && TokenKey in local
    ensures r.Some? ==> r.value == local[TokenKey]
  {
    if isBrowser && TokenKey in local then Some(local[TokenKey]) else None
  }

  /** `auth.removeToken`: drops the token and the user together. */
  function RemoveToken(isBrowser: bool, local: Store): (r: Store)
    ensures isBrowser ==> TokenKey !in r && UserKey !in r
    ensures !isBrowser ==> r == local
    ensures SameExcept(r, local, TokenKey, UserKey)
  {
    if isBrowser then local - {TokenKey, UserKey} else local
  }

  /** JavaScript truthiness of a `string | null`. */
  predicate TruthyText(t: Option<string>) {
    t.Some? && t.value != ""
  }

  /** `auth.isAuthenticated`: `!!localStorage.getItem(TOKEN_KEY)`. */
  predicate IsAuthenticated(isBrowser: bool, local: Store) {
    isBrowser && TokenKey in local && local[TokenKey] != ""
  }

  /** The header object all three stores build from a token:
      `{'Content-Type': 'application/json', ...(token && {Authorization})}`. */
  function AuthHeaders(token: Option<string>): (h: Headers)
    ensures "Content-Type" in h && h["Content-Type"] == "application/json"
    ensures "Authorization" in h <==> TruthyText(token)
    ensures "Authorization" in h ==> h["Authorization"] == "Bearer " + token.value
    ensures forall k :: k in h ==> k == "Content-Type" || k == "Authorization"
  {
    var base := map["Content-Type" := "application/json"];
    if TruthyText(token) then base["Authorization" := "Bearer " + token.value] else base
  }

  /** `auth.getAuthHeaders`. */
  function GetAuthHeaders(isBrowser: bool, local: Store): Headers {
    AuthHeaders(GetToken(isBrowser, local))
  }

  /** `auth.setUser`: stores the serialised user. */
  function SetUser(isBrowser: bool, local: Store, user: Json, stringify: Json -> string): (r: Store)
    ensures isBrowser ==> UserKey in r && r[UserKey] == stringify(user)
    ensures !isBrowser ==> r == local
    ensures SameExcept(r, local, UserKey, UserKey)
  {
    if isBrowser then local[UserKey := stringify(user)] else local
  }

  /** `auth.getUser`: `null` outside a browser or for a missing or empty
      entry; otherwise `JSON.parse` of the entry, which throws on malformed
      text (`parse` answers `None` for those). */
  function GetUser(isBrowser: bool, local: Store, parse: string -> Option<Json>): (r: Result<Option<Json>, string>)
    ensures r.Failure? <==> isBrowser && UserKey in local && local[UserKey] != "" && parse(local[UserKey]).None?
    ensures r.Success? && r.value.Some? ==> isBrowser && UserKey in local && parse(local[UserKey]) == r.value
  {
    if !isBrowser || UserKey !in local || local[UserKey] == "" then Success(None)
    else match parse(local[UserKey])
      case Some(v) => Success(Some(v))
      case None => Failure("SyntaxError")
  }

  /** `auth.removeUser`: drops only the user. */
  function RemoveUser(isBrowser: bool, local: Store): (r: Store)
    ensures isBrowser ==> UserKey !in r
    ensures !isBrowser ==> r == local
    ensures SameExcept(r, local, UserKey, UserKey)
  {
    if isBrowser then local - {UserKey} else local
  }

  /** In a browser, a stored token reads back unchanged. */
  lemma TokenRoundTrip(local: Store, token: string)
    ensures GetToken(true, SetToken(true, local, token)) == Some(token)
    ensures IsAuthenticated(true, SetToken(true, local, token)) <==> token != ""
  {
  }

  /** A stored user reads back when serialisation and parsing agree on it. */
  lemma UserRoundTrip(local: Store, user: Json, stringify: Json -> string, parse: string -> Option<Json>)
    requires stringify(user) != "" && parse(stringify(user)) == Some(user)
    ensures GetUser(true, SetUser(true, local, user, stringify), parse) == Success(Some(user))
  {
  }

  /** Removing the token logs out and forgets the user. */
  lemma RemoveTokenForgetsUser(local: Store, parse: string -> Option<Json>)
    ensures !IsAuthenticated(true, RemoveToken(true, local))
    ensures GetToken(true, RemoveToken(true, local)) == None
    ensures GetUser(true, RemoveToken(true, local), parse) == Success(None)
  {
  }

  /** Removing the user keeps the token and the session. */
  lemma RemoveUserKeepsToken(isBrowser: bool, local: Store)
    ensures GetToken(isBrowser, RemoveUser(isBrowser, local)) == GetToken(isBrowser, local)
    ensures IsAuthenticated(isBrowser, RemoveUser(isBrowser, local)) == IsAuthenticated(isBrowser, local)
  {
  }

  /** Authenticated exactly when the headers carry an Authorization entry. */
  lemma AuthenticatedIffAuthorization(isBrowser: bool, local: Store)
    ensures IsAuthenticated(isBrowser, local) <==> "Authorization" in GetAuthHeaders(isBrowser, local)
  {
  }

  /** Outside a browser nothing is read and nothing is written. */
  lemma ServerSideIsInert(local: Store, token: string, user: Json, stringify: Json -> string, parse: string -> Option<Json>)
    ensures SetToken(false, local, token) == local && SetUser(false, local, user, stringify) == local
    ensures RemoveToken(false, local) == local && RemoveUser(false, local) == local
    ensures GetToken(false, local) == None && !IsAuthenticated(false, local)
    ensures GetUser(false, local, parse) == Success(None)
    ensures GetAuthHeaders(false, local) == map["Content-Type" := "application/json"]
  {
  }

  /** `sessionAuth.setToken`. */
  function SessionSetToken(session: Store, token: string): (r: Store)
    ensures TokenKey in r && r[TokenKey] == token
    ensures SameExcept(r, session, TokenKey, TokenKey)
  {
    session[TokenKey := token]
  }

  /** `sessionAuth.getToken`. */
  function SessionGetToken(session: Store): (r: Option<string>)
    ensures r.Some? <==> TokenKey in session
    ensures r.Some? ==> r.value == session[TokenKey]
  {
    if TokenKey in session then Some(session[TokenKey]) else None
  }

  /** `sessionAuth.removeToken`: unlike `auth.removeToken`, only the token. */
  function SessionRemoveToken(session: Store): (r: Store)
    ensures TokenKey !in r
    ensures SameExcept(r, session, TokenKey, TokenKey)
  {
    session - {TokenKey}
  }

  /** `sessionAuth.isAuthenticated`. */
  predicate SessionIsAuthenticated(session: Store) {
    TruthyText(SessionGetToken(session))
  }

  /** `sessionAuth.getAuthHeaders`. */
  function SessionAuthHeaders(session: Store): Headers {
    AuthHeaders(SessionGetToken(session))
  }

  /** As with `localStorage`, the session store authenticates exactly when
      its headers carry an Authorization entry, and that entry is the
      stored token as a bearer credential. */
  lemma SessionAuthenticatedIffAuthorization(session: Store)
    ensures SessionIsAuthenticated(session) <==> "Authorization" in SessionAuthHeaders(session)
    ensures SessionIsAuthenticated(session) ==> SessionAuthHeaders(session)["Authorization"] == "Bearer " + session[TokenKey]
    ensures SessionAuthHeaders(session)["Content-Type"] == "application/json"
  {
  }

  lemma SessionTokenRoundTrip(session: Store, token: string)
    ensures SessionGetToken(SessionSetToken(session, token)) == Some(token)
    ensures SessionGetToken(SessionRemoveToken(SessionSetToken(session, token))) == None
    ensures SessionIsAuthenticated(SessionSetToken(session, token)) <==> token != ""
  {
  }

  /** The cookie name with its `=`. */
  const CookiePrefix: string := TokenKey + "="

  /** Whether a raw `;`-separated segment, once trimmed, names the token. */
  predicate NamesToken(segment: string) {
    StartsWith(Trim(segment), CookiePrefix)
  }

  /** `cookieAuth.getToken` on the already URI-decoded cookie text: the
      text after `authToken=` in the first trimmed `;`-segment that starts
      with it, found by the loop at lines 107-112. */
  function CookieGetToken(decoded: string): (r: Option<string>)
    ensures r.Some? ==> ';' !in r.value
  {
    var segments := Split(decoded, ';');
    var found := FirstIndex(segments, NamesToken);
    if found.None? then None
    else
      var i := found.value;
      TokenHasNoSeparator(segments[i]);
      Some(Trim(segments[i])[|CookiePrefix|..])
  }

  /** What follows `authToken=` in a segment lies inside that segment, so
      it never holds the separator. */
  lemma TokenHasNoSeparator(segment: string)
    requires ';' !in segment && NamesToken(segment)
    ensures ';' !in Trim(segment)[|CookiePrefix|..]
  {
    var t := Trim(segment);
    var a := |segment| - |TrimStart(segment)|;
    TrimDropsOnlyPadding(segment);
    var token := t[|CookiePrefix|..];
    forall j | 0 <= j < |token| ensures token[j] != ';' {
      assert token[j] == segment[a + |CookiePrefix| + j];
    }
  }

  /** No token exactly when no segment names it. */
  lemma CookieTokenAbsent(decoded: string, segments: seq<string>)
    requires segments == Split(decoded, ';')
    ensures CookieGetToken(decoded).None? <==> forall i :: 0 <= i < |segments| ==> !NamesToken(segments[i])
  {
    var r := FirstIndex(segments, NamesToken);
    assert CookieGetToken(decoded).None? <==> r.None?;
  }

  /** The token comes from the first segment that names it. */
  lemma CookieTokenFromFirstNaming(decoded: string, segments: seq<string>, i: nat)
    requires segments == Split(decoded, ';')
    requires i < |segments| && NamesToken(segments[i])
    requires forall j :: 0 <= j < i ==> !NamesToken(segments[j])
    ensures CookieGetToken(decoded) == Some(Trim(segments[i])[|CookiePrefix|..])
  {
    var r := FirstIndex(segments, NamesToken);
    assert r.Some?;
    assert r.value == i;
  }

  /** A cookie holding only `authToken=<t>` gives `t` back, provided `t`
      has no `;` and does not end in white space. */
  lemma CookieRoundTrip(token: string)
    requires ';' !in token
    requires token == [] || !IsSpace(token[|token| - 1])
    ensures CookieGetToken(CookiePrefix + token) == Some(token)
  {
    var s := CookiePrefix + token;
    assert ';' !in CookiePrefix;
    assert ';' !in s;
    SplitWithoutSeparator(s, ';');
    assert s[|s| - 1] == if token == [] then '=' else token[|token| - 1];
    TrimUnpadded(s);
    assert s[..|CookiePrefix|] == CookiePrefix;
    assert s[|CookiePrefix|..] == token;
  }

  /** `cookieAuth.isAuthenticated`. */
  predicate CookieIsAuthenticated(decoded: string) {
    TruthyText(CookieGetToken(decoded))
  }

  /** `cookieAuth.getAuthHeaders`. */
  function CookieAuthHeaders(decoded: string): Headers {
    AuthHeaders(CookieGetToken(decoded))
  }

  /** The cookie store authenticates exactly when its headers carry an
      Authorization entry; a lone non-empty token cookie does. */
  lemma CookieAuthenticatedIffAuthorization(decoded: string, token: string)
    ensures CookieIsAuthenticated(decoded) <==> "Authorization" in CookieAuthHeaders(decoded)
    ensures CookieIsAuthenticated(decoded) ==> CookieAuthHeaders(decoded)["Authorization"] == "Bearer " + CookieGetToken(decoded).value
    ensures token != [] && ';' !in token && !IsSpace(token[|token| - 1]) ==>
      CookieIsAuthenticated(CookiePrefix + token) && CookieAuthHeaders(CookiePrefix + token)["Authorization"] == "Bearer " + token
  {
    if token != [] && ';' !in token && !IsSpace(token[|token| - 1]) {
      CookieRoundTrip(token);
    }
  }

  /** A leading cookie with another name is skipped. */
  lemma CookieSkipsOtherNames(other: string, rest: string)
    requires ';' !in other && !NamesToken(other)
    ensures CookieGetToken(other + ";" + rest) == CookieGetToken(rest)
  {
    SplitAfterPiece(other, ';', rest);
    var segments := Split(other + ";" + rest, ';');
    var tail := Split(rest, ';');
    assert segments == [other] + tail;
    assert segments[0] == other && segments[1..] == tail;
    assert !NamesToken(segments[0]);
    FirstIndexSkip(segments, NamesToken);
    var found := FirstIndex(tail, NamesToken);
    if found.None? {
      assert FirstIndex(segments, NamesToken).None?;
    } else {
      var i := found.value;
      assert FirstIndex(segments, NamesToken) == Some(i + 1);
      assert segments[i + 1] == tail[i];
    }
  }
}
