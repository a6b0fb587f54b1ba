# proint-front: a Dafny model of the back-office front end's logic

The application is a React back office for clients, contracts, users and
sales. Most of it is rendering and framework glue. This project models the
parts with rules of their own, as pure functions and small state machines
over immutable records:

- **Format validators.** `validateCPF` is the Receita Federal modulo-11
  check-digit rule. `validatePhone` checks the length, the area code and the
  ninth digit. `validateCEP` does the offline part of the postal-code check.
  The ViaCEP lookup is a function parameter that answers the reply's
  `erro` flag or rejects; a rejected lookup rejects the client schema's
  whole parse.
- **Entity schemas.** The zod schemas for clients, contracts, users and
  sales, plus the login form's schema. Each schema is a list of rule chains,
  one per key. The issues come out in key order, and every check of a chain
  runs (zod v4). zod's email check is a predicate parameter.
- **Paginated combobox.** A state machine over `open`, `search`, `options`,
  `isLoading`, `page` and `hasMore`, together with the requests still in
  flight. Its events are open, search, scroll near the bottom, completion of
  a request (success or failure) and select.
- **Sessions.**
  - The token stores in `src/lib/auth.ts` (`localStorage`, `sessionStorage`
    and the cookie).
  - The login page's submission, through `apiRequest`.
  - The `AuthProvider` session lifecycle: restore, login, logout.
  - The root route's redirect guard.
- **HTTP outcomes.** `apiRequest` classifies each answer or failure as a
  value or an `ApiError`. The sales screen maps an error to a toast message.
- **Small screen reducers.** The contracts table (edit, save, deactivate),
  the clients list (append and persist), and the field error display rules of
  `FormComponents`.

How the browser and the outside world appear in the model:

- Browser stores are `map<string, string>`.
- Strings are sequences of Unicode characters. Every length test counts
  what JavaScript's `length` counts: UTF-16 code units, where a character
  beyond U+FFFF counts twice (`Text.Utf16Length`).
- `JSON.parse`, `JSON.stringify`, JavaScript's `String()` of a JSON value,
  `Date.now()`, `confirm()` and the result of each network call are
  parameters.
- Every module is one file. The module name follows the source file it
  models.

## Model

| member | source | states |
|---|---|---|
| Cpf.ValidateCpf | src/utils/validateCPF.ts:1-35 | an accepted input has exactly 11 digits once non-digits are dropped, and they are not all the same digit |
| Cpf.ValidateCpfIsReceitaCpf | src/utils/validateCPF.ts:1-35 | the validator accepts exactly the Receita Federal CPFs: 11 digits, not all equal, and each check digit equal to ten times the dot product of the preceding digits with the descending weights, modulo 11, where 10 counts as 0 |
| Cpf.WeightedSumIsDot | src/utils/validateCPF.ts:16-18 | the loop's running sum over the first n digits equals their dot product with the weights top, top-1, … |
| Cpf.CheckDigitIsReceitaDigit | src/utils/validateCPF.ts:20-21 | the remainder `(sum*10) % 11` never exceeds 10, so the `=== 11` branch is dead, and the computed digit is the reference digit |
| Cpf.CheckDigit | src/utils/validateCPF.ts:20-21 | a check digit is always a single decimal digit |
| Cpf.ValidateCpfIgnoresPunctuation | src/utils/validateCPF.ts:3 | a formatted CPF and its bare digits get the same verdict |
| Cpf.ValidateCpfDigitsOnly | src/utils/validateCPF.ts:3 | two inputs with the same digits get the same verdict, whatever else they contain |
| Cpf.RepeatedDigitsMatchButAreRejected | src/utils/validateCPF.ts:9 | eleven copies of one digit satisfy both check-digit equations and are still rejected |
| Cpf.RejectsShortAndRepeated | src/utils/validateCPF.ts:6-9 | nine digits and `11111111111` are rejected |
| Cpf.AcceptsKnownCpf | src/utils/validateCPF.ts:1-35 | `11144477735` (111.444.777-35) is accepted |
| Cpf.ValidateCpfFromParts | src/utils/validateCPF.ts:12-34 | 11 digits, not all equal, with both check digits right, are accepted |
| Phone.ValidatePhone | src/utils/validatePhone.ts:1-21 | an accepted number has 10 or 11 digits |
| Phone.AreaCode | src/utils/validatePhone.ts:10-13 | the two-digit prefix is at most 99, so the `> 99` test never fires, and it is below 11 exactly when it starts with `0` or is `10` |
| Phone.ValidatePhoneIsPhoneNumber | src/utils/validatePhone.ts:1-21 | the validator accepts exactly 10 digits, or 11 digits whose third is `9`, whose prefix does not start with `0` and is not `10` |
| Phone.ValidatePhoneOfDigits | src/utils/validatePhone.ts:5-18 | the same characterisation on a string of digits |
| Phone.ValidatePhoneIgnoresPunctuation | src/utils/validatePhone.ts:2 | spaces, parentheses and dashes do not change the verdict |
| Phone.ValidatePhoneDigitsOnly | src/utils/validatePhone.ts:2 | two inputs with the same digits get the same verdict |
| Phone.TenDigitThirdDigitIsFree | src/utils/validatePhone.ts:16 | changing the third digit of a 10-digit number never changes the verdict |
| Phone.ElevenDigitsNeedNine | src/utils/validatePhone.ts:16-18 | an 11-digit number whose third digit is not `9` is rejected |
| Cep.CepPreCheck | src/utils/validateCEP.ts:2-5 | the lookup is reached exactly when the input without its hyphens has at least 8 UTF-16 code units, and its key is that string |
| Cep.ValidateCep | src/utils/validateCEP.ts:1-9 | once the lookup has answered: fewer than 8 UTF-16 code units after removing hyphens gives false; otherwise the verdict is the negation of the lookup's `erro` flag for the cleaned key |
| Cep.ShortCepIgnoresLookup | src/utils/validateCEP.ts:3-5 | a key of fewer than 8 UTF-16 code units is rejected whatever the lookup would say |
| Cep.ValidateCepConsultsOnlyTheKey | src/utils/validateCEP.ts:6-8 | two lookups that agree on the cleaned key give the same verdict |
| Cep.HyphenDoesNotMatter | src/utils/validateCEP.ts:2 | inserting a hyphen leaves the pre-check unchanged |
| Cep.SameKeySamePreCheck | src/utils/validateCEP.ts:2 | inputs that agree once hyphens are removed get the same pre-check |
| Cep.UnhyphenatedKey | src/utils/validateCEP.ts:3-6 | any hyphen-free text of 8 or more UTF-16 code units, letters and dots included, is looked up as it is |
| Cep.EightCharactersWithHyphenShortCircuit | src/utils/validateCEP.ts:2-5 | `1234-567` never reaches the lookup |
| Cep.HyphenatedSevenDigitsRejected | src/utils/validateCEP.ts:2-5 | `1234-567` is rejected whatever the lookup says |
| Cep.CleanCep | src/utils/validateCEP.ts:2 | `split('-').join('')` removes every hyphen and keeps every other character in order |
| Cep.AstralCharacterCountsTwice | src/utils/validateCEP.ts:3 | six digits and one emoji make 8 code units, so that text reaches the lookup |
| Cep.ValidateCepAsync | src/utils/validateCEP.ts:1-9 | the promise rejects exactly when the key has 8 or more code units and the request or its JSON decoding rejects; a short key resolves `false` without a request; otherwise it resolves with the negated `erro` flag |
| Cep.AnsweringLookupResolves | src/utils/validateCEP.ts:6-8 | when the lookup answers, the promise resolves with the verdict of `ValidateCep` |
| Cep.MalformedKeyRejects | src/utils/validateCEP.ts:6-7 | a nine-digit key whose reply is not JSON makes the promise reject rather than resolve `false` |
| Digits.DigitsOf | src/utils/validateCPF.ts:3 | dropping non-digits yields only digits and never lengthens the text |
| Digits.DigitsOfConcat | src/utils/validatePhone.ts:2 | dropping non-digits distributes over concatenation |
| Digits.DigitsOfIgnoresNonDigit | src/utils/validatePhone.ts:2 | removing one non-digit character does not change the kept digits |
| Digits.DigitsOfIdempotent | src/utils/validateCPF.ts:3 | cleaning twice is cleaning once |
| Digits.DecimalRoundTrip | src/routes/sales.tsx:41 | the decimal text a template literal gives a sale id reads back as that id |
| Text.SplitJoinEmptyIsWithout | src/utils/validateCEP.ts:2 | `split('-').join('')` removes exactly the hyphens |
| Text.SplitJoin | src/lib/auth.ts:105 | joining the pieces of a split with the separator restores the text |
| Text.TrimStart | src/lib/auth.ts:108 | the result is a suffix of the text, everything dropped is whitespace, and it does not start with whitespace |
| Text.TrimEnd | src/lib/auth.ts:108 | the result is a prefix of the text, everything dropped is whitespace, and it does not end with whitespace |
| Text.Trim | src/lib/auth.ts:108 | a trimmed segment neither starts nor ends with whitespace; `Text.TrimDropsOnlyPadding` states that it is the segment with only that padding removed |
| Text.TrimDropsOnlyPadding | src/lib/auth.ts:108 | the trimmed text is the slice of the segment after its leading whitespace, and every character outside that slice is whitespace |
| Text.TrimUnpadded | src/lib/auth.ts:108 | a segment without surrounding whitespace is its own trim |
| Text.SplitWithoutSeparator | src/lib/auth.ts:105 | a text without the separator splits into itself alone |
| Text.SplitAfterPiece | src/lib/auth.ts:105 | splitting `a;b` gives `a` followed by the pieces of `b` |
| Text.FirstIndex | src/components/ui/combobox.tsx:64 | the result is the first index whose element satisfies the test, or none when no element does |
| Text.FirstIndexSkip | src/lib/auth.ts:107-111 | when the first element fails the test, the search finds the same element one position further along, or none |
| Text.Utf16Length | src/utils/validateCEP.ts:3 | JavaScript's `length` lies between the number of characters and twice that |
| Text.Utf16LengthConcat | src/utils/validateCEP.ts:3 | the code units of a concatenation add up |
| Text.Utf16LengthBmp | src/utils/validateCEP.ts:3 | the code-unit length equals the character count exactly when no character lies beyond U+FFFF |
| Text.Utf16LengthWithout | src/utils/validateCEP.ts:2-3 | removing hyphens never adds code units |
| Issues.Failing | src/schemas/clientSchema.ts:14-17 | a chain reports nothing exactly when every rule in it passes, and at most one message per rule |
| Issues.MessagesAtObject | src/schemas/clientSchema.ts:6-28 | with distinct keys, the messages reported at a key are exactly that key's failing messages |
| Issues.ObjectIssuesEmpty | src/schemas/clientSchema.ts:6-28 | an object parses without issues exactly when every key's chain is silent |
| Issues.ObjectIssuesPointwise | src/schemas/contractSchema.ts:3-8 | two objects whose keys report the same messages get the same issue list |
| ClientSchema.ClientIssuesEmptyIffValid | src/schemas/clientSchema.ts:6-28 | no issue exactly when the name has 2 or more UTF-16 code units, the CPF is a Receita CPF, the birth date, street, number, district and city are non-empty, the email passes, the phone is a valid number, the state code has exactly 2 code units, and the hyphen-free CEP has 8 or more code units and is known to the lookup |
| ClientSchema.ClientMessages | src/schemas/clientSchema.ts:6-28 | each field reports exactly its own failing rules' messages, in rule order |
| ClientSchema.RulesPassIffValid | src/schemas/clientSchema.ts:6-28 | the rule chains all pass exactly for valid clients, lengths counted in UTF-16 code units |
| ClientSchema.FaithfulVerdicts | src/schemas/clientSchema.ts:6-28 | given any validator verdicts, the rules pass exactly when the presence and length rules hold (lengths in UTF-16 code units) and every validator accepts |
| ClientSchema.CpfVerdict | src/schemas/clientSchema.ts:8-11 | the `cpf` rule passes exactly for Receita CPFs |
| ClientSchema.PhoneVerdict | src/schemas/clientSchema.ts:14-17 | the two `telefone` rules pass together exactly for valid phone numbers |
| ClientSchema.CepVerdict | src/schemas/clientSchema.ts:24-27 | the two `end_cep` rules pass together exactly when the hyphen-free CEP has 8 or more code units and the lookup knows it |
| ClientSchema.ComplementIsFree | src/schemas/clientSchema.ts:20 | the complement never changes the issues, whether absent or present |
| ClientSchema.HyphenatedShortCep | src/schemas/clientSchema.ts:24-27 | a CEP that passes the raw length rule but is short once hyphens are removed reports only "CEP não encontrado" |
| ClientSchema.LongCepFailingLookup | src/schemas/clientSchema.ts:24-27 | a long enough CEP that the lookup rejects reports only "CEP não encontrado" |
| ClientSchema.EmptyPhoneGetsBothMessages | src/schemas/clientSchema.ts:14-17 | an empty phone reports "obrigatório" and then the format message |
| ClientSchema.ClientRules | src/schemas/clientSchema.ts:6-28 | each key's chain only carries messages reported under that key, and it is silent exactly when the key's value passes |
| ClientSchema.AstralNameIsLongEnough | src/schemas/clientSchema.ts:7 | a name made of one emoji is two code units long and passes `min(2)` |
| ClientSchema.ParseClient | src/schemas/clientSchema.ts:24-27 | the asynchronous parse rejects exactly when the CEP lookup is reached and rejects; otherwise it resolves with the issues, the CEP verdict being what `validateCEP` resolved with |
| ClientSchema.ParseClientEmptyIffValid | src/schemas/clientSchema.ts:6-28 | the parse resolves without issues exactly for a valid client whose CEP the lookup answered without `erro` |
| ContractSchema.ContractIssuesEmptyIffValid | src/schemas/contractSchema.ts:3-8 | no issue exactly when the name has 2 or more UTF-16 code units and both durations are at least 1 |
| ContractSchema.ContractMessages | src/schemas/contractSchema.ts:3-8 | each field reports exactly its own failing rules' messages |
| ContractSchema.AllRulesReport | src/schemas/contractSchema.ts:4-6 | a form failing all three rules gets three issues, in key order |
| ContractSchema.ThreeIssuesInKeyOrder | src/schemas/contractSchema.ts:3-8 | the issue list follows the schema's key order |
| ContractSchema.ActiveFlagIsFree | src/schemas/contractSchema.ts:7 | `ativo` never changes the issues |
| ContractSchema.ContractRules | src/schemas/contractSchema.ts:3-8 | each key's chain only carries that key's message, and only `ativo` has no rule |
| UserSchema.ParsePerfil | src/schemas/userSchema.ts:7 | a parsed profile's name is the text that was parsed |
| UserSchema.PerfilRoundTrip | src/schemas/userSchema.ts:7 | each profile's name parses back to that profile |
| UserSchema.ParsePerfilIffName | src/schemas/userSchema.ts:7 | a text parses exactly when it is `ADMIN` or `VENDEDOR` |
| UserSchema.ProfileIsCaseSensitive | src/schemas/userSchema.ts:7 | lower-case profile names are rejected |
| UserSchema.UserMessages | src/schemas/userSchema.ts:3-9 | each field reports exactly its own failing rules' messages |
| UserSchema.SilentIffPasses | src/schemas/userSchema.ts:3-9 | a field reports nothing exactly when its own rule holds, the name's length counted in UTF-16 code units |
| UserSchema.NothingFailsIffValid | src/schemas/userSchema.ts:3-9 | no field fails exactly when the name has 2 or more UTF-16 code units, the email passes and the profile is one of the two |
| UserSchema.UserIssuesEmptyIffValid | src/schemas/userSchema.ts:3-9 | no issue exactly for valid users: a name of 2 or more UTF-16 code units, an accepted email and one of the two profiles |
| UserSchema.PasswordAndActiveAreFree | src/schemas/userSchema.ts:6-8 | neither the password (of any length) nor `active` changes the issues |
| UserSchema.UserRules | src/schemas/userSchema.ts:3-9 | each key's chain only carries that key's message, and it is silent exactly when the key's value passes |
| SalesSchema.ParseFormStatus | src/schemas/salesSchema.ts:8 | a parsed status's name is the text that was parsed |
| SalesSchema.FormStatusRoundTrip | src/schemas/salesSchema.ts:8 | each form status's name parses back to that status |
| SalesSchema.ParseFormStatusIffName | src/schemas/salesSchema.ts:8 | a text parses exactly when it is `Ativo`, `Inativo` or `Pendente` |
| SalesSchema.SaleStatusesAreNotFormStatuses | src/sale/types/index.d.ts:8 | no status a stored sale carries is accepted by the form's enum |
| SalesSchema.StoredStatusIsRejected | src/schemas/salesSchema.ts:8 | a form holding a stored sale's status reports "Status inválido" |
| SalesSchema.SalesMessages | src/schemas/salesSchema.ts:3-9 | each field reports exactly its own failing rules' messages |
| SalesSchema.SilentIffPasses | src/schemas/salesSchema.ts:3-9 | a field reports nothing exactly when its own rule holds, the contract type's length counted in UTF-16 code units |
| SalesSchema.NothingFailsIffValid | src/schemas/salesSchema.ts:3-9 | no field fails exactly when the client id is at least 1, the contract type has 2 or more UTF-16 code units, the value is at least 0 (zero included), the date is non-empty and the status is one of the three |
| SalesSchema.SalesIssuesEmptyIffValid | src/schemas/salesSchema.ts:3-9 | no issue exactly for valid sales, the contract type's length counted in UTF-16 code units |
| SalesSchema.SalesRules | src/schemas/salesSchema.ts:3-9 | each key's chain only carries that key's message, and it is silent exactly when the key's value passes |
| Login.LoginIssuesEmptyIffValid | src/routes/login.tsx:12-18 | no issue exactly when the email passes the format check and is non-empty, and the password has at least 6 UTF-16 code units |
| Login.LoginMessages | src/routes/login.tsx:12-18 | each field reports exactly its own failing rules' messages, in rule order |
| Login.EmptyPasswordMessages | src/routes/login.tsx:14-17 | an empty password reports "Senha obrigatória!" and then the length message |
| Login.ShortPasswordMessages | src/routes/login.tsx:17 | a password of 1 to 5 UTF-16 code units reports only the length message |
| Login.AstralPasswordIsLongEnough | src/routes/login.tsx:17 | three emoji are six code units and pass `min(6)` |
| Login.LoginRules | src/routes/login.tsx:12-18 | each chain only carries its own key's messages; the email chain is silent exactly for a non-empty accepted address, the password chain exactly for 6 or more code units |
| Login.DefaultsAreRejected | src/routes/login.tsx:40-43 | the empty defaults report both password messages and at least the email-required message |
| Login.OnSuccess | src/routes/login.tsx:32-36 | a success writes the token, then the user, and navigates to `/` |
| Login.LoginOptions | src/routes/login.tsx:26-30 | the login call is a `POST` whose body is the serialised `{email, password}`, with no extra headers |
| Login.Submit | src/routes/login.tsx:25-61 | the request goes out exactly when the form is valid (password length in UTF-16 code units), built by `apiRequest` from the credentials; a blocked submission changes nothing; a 401 in a browser clears the token and user and goes to `/login`; any other failure, or a `null` reply, keeps the store and the page; a readable 2xx reply stores the token and user and navigates home |
| Login.LoginStoresSession | src/routes/login.tsx:32-36 | after a successful login the store reads back the returned token and user, and the session is authenticated exactly when that token is non-empty |
| Login.WrongPasswordSignsOut | src/lib/api.ts:36-39 | wrong credentials answered with 401 in a browser remove any stored session and send the page to `/login` with the failure toast |
| Login.NullReplyFailsLogin | src/routes/login.tsx:32-34 | a 2xx reply with a `null` body fails the login: nothing is stored and the page stays |
| Combobox.Init | src/components/ui/combobox.tsx:57-62 | the first state is closed, with empty search and options, not loading, page 1, more pages expected, and it satisfies the invariant |
| Combobox.Load | src/components/ui/combobox.tsx:66-76 | without `fetchOptions` nothing changes; otherwise the state is loading with one more request, carrying the search, page and page size, and the invariant is kept |
| Combobox.Refresh | src/components/ui/combobox.tsx:89-94 | while open with `fetchOptions`, page 1 is requested again as a reset for the current text; otherwise nothing changes |
| Combobox.SetOpen | src/components/ui/combobox.tsx:89-94 | opening issues exactly one reset request when `fetchOptions` exists, and closing changes only the flag |
| Combobox.Search | src/components/ui/combobox.tsx:111-115 | the text is set, the page goes back to 1, the options empty, and a request is issued only when the text changed while open |
| Combobox.Scroll | src/components/ui/combobox.tsx:96-109 | when near the bottom with more pages, not loading and with `fetchOptions`, page+1 is requested in append mode; otherwise nothing changes |
| Combobox.Settle | src/components/ui/combobox.tsx:77-84 | a reset page replaces the options and a later page is appended after them; a failure keeps options and `hasMore`; loading always ends and the invariant is kept |
| Combobox.Select | src/components/ui/combobox.tsx:151-154 | choosing the selected value emits `""`, any other emits itself, and the popover closes |
| Combobox.ButtonText | src/components/ui/combobox.tsx:64 | the trigger shows the label of the first loaded option with the selected value, else the placeholder |
| Combobox.RemoveAt | src/components/ui/combobox.tsx:77-84 | a completed request leaves the in-flight list, one shorter, with only requests that were there |
| Combobox.WithoutFetchNothingLoads | src/components/ui/combobox.tsx:68 | without `fetchOptions`, no open, search or scroll event issues a request |
| Combobox.ScrollLoadsIffGate | src/components/ui/combobox.tsx:102-106 | a scroll changes the state exactly when its gate is open |
| Combobox.OpenThenFirstPage | src/components/ui/combobox.tsx:89-94 | opening a fresh combobox and receiving the first page shows exactly that page and stops loading |
| Combobox.NoScrollWhileLoading | src/components/ui/combobox.tsx:102 | while the first page loads, scrolling does nothing |
| Combobox.DefaultPageSizeRequested | src/components/ui/combobox.tsx:55 | without a `pageSize` prop, opening requests page 1 of 20 options for the empty search, in reset mode |
| Combobox.NextPageAppends | src/components/ui/combobox.tsx:78 | the next page lands after the pages already shown, in order |
| Combobox.StalePageOverwrites | src/components/ui/combobox.tsx:78 | a page for an older search text that arrives last replaces the newer results |
| FormComponents.RenderErrors | src/components/FormComponents.tsx:27-44 | one line per error, in list order: the string itself or the object's `message` |
| FormComponents.RenderIssueMessages | src/components/FormComponents.tsx:34-41 | a schema's messages render as themselves, in order |
| FormComponents.RenderErrorsConcat | src/components/FormComponents.tsx:34-41 | rendering distributes over concatenation of error lists |
| FormComponents.Displayed | src/components/FormComponents.tsx:187 | a field shows something exactly when it is touched and has errors, and then shows their rendering |
| FormComponents.DisplayIsTouchedRule | src/components/FormComponents.tsx:67 | every kind of field, including those with the extra non-empty test, shows its rendered errors once touched and nothing before |
| FormComponents.SliderValue | src/components/FormComponents.tsx:205 | the slider writes the first value of the array, and nothing for an empty array |
| FormComponents.SliderRoundTrip | src/components/FormComponents.tsx:204-205 | the value handed to the slider as `[v]` is read back as `v` |
| AuthStorage.SetToken | src/lib/auth.ts:13-17 | in a browser the token is stored under its key; outside one nothing changes; no other key changes |
| AuthStorage.GetToken | src/lib/auth.ts:19-24 | a token is returned exactly in a browser with one stored, and it is the stored one |
| AuthStorage.RemoveToken | src/lib/auth.ts:26-31 | in a browser both the token and the user are gone; no other key changes |
| AuthStorage.AuthHeaders | src/lib/auth.ts:40-46 | the JSON content type is always set, and `Authorization: Bearer <t>` exactly when the token is non-empty; nothing else |
| AuthStorage.SetUser | src/lib/auth.ts:48-52 | in a browser the serialised user is stored; no other key changes |
| AuthStorage.GetUser | src/lib/auth.ts:54-60 | reading throws exactly when a non-empty stored user does not parse; a user returned is the parsed stored text |
| AuthStorage.RemoveUser | src/lib/auth.ts:62-66 | in a browser the user is gone; no other key changes |
| AuthStorage.TokenRoundTrip | src/lib/auth.ts:13-38 | a stored token reads back unchanged and authenticates exactly when non-empty |
| AuthStorage.UserRoundTrip | src/lib/auth.ts:48-60 | a stored user reads back when parsing undoes serialisation |
| AuthStorage.RemoveTokenForgetsUser | src/lib/auth.ts:26-31 | after removing the token, nobody is authenticated and no user is read |
| AuthStorage.RemoveUserKeepsToken | src/lib/auth.ts:62-66 | removing the user keeps the token and the authentication verdict |
| AuthStorage.AuthenticatedIffAuthorization | src/lib/auth.ts:33-46 | authenticated exactly when the headers carry `Authorization` |
| AuthStorage.ServerSideIsInert | src/lib/auth.ts:4 | outside a browser the setters change nothing, the getters give null or false, and the headers hold only the content type |
| AuthStorage.SessionSetToken | src/lib/auth.ts:70-72 | the token is stored in `sessionStorage`; no other key changes |
| AuthStorage.SessionGetToken | src/lib/auth.ts:74-76 | a token is returned exactly when one is stored |
| AuthStorage.SessionRemoveToken | src/lib/auth.ts:78-80 | only the token is removed |
| AuthStorage.SessionTokenRoundTrip | src/lib/auth.ts:69-84 | set then get returns the token, set then remove then get returns null, and a set token authenticates exactly when non-empty |
| AuthStorage.SessionAuthenticatedIffAuthorization | src/lib/auth.ts:82-92 | the session store authenticates exactly when its headers carry `Authorization`, which is `Bearer` and the stored token |
| AuthStorage.CookieTokenAbsent | src/lib/auth.ts:102-114 | no token is found exactly when no `;`-separated segment, once trimmed, starts with `authToken=` |
| AuthStorage.CookieTokenFromFirstNaming | src/lib/auth.ts:107-111 | the token is the rest of the first trimmed segment starting with `authToken=` |
| AuthStorage.CookieRoundTrip | src/lib/auth.ts:102-114 | a cookie holding only `authToken=t` gives `t` back, for a `t` without `;` or trailing space |
| AuthStorage.CookieSkipsOtherNames | src/lib/auth.ts:107-111 | a leading segment naming another cookie is skipped |
| AuthStorage.CookieGetToken | src/lib/auth.ts:102-114 | a token read from the cookie never contains the `;` separator |
| AuthStorage.TokenHasNoSeparator | src/lib/auth.ts:105-110 | what follows `authToken=` in a trimmed segment lies inside that segment |
| AuthStorage.CookieAuthenticatedIffAuthorization | src/lib/auth.ts:120-130 | the cookie store authenticates exactly when its headers carry `Authorization`, and a lone non-empty `authToken` cookie does, with that token |
| Api.BaseUrl | src/lib/api.ts:3 | the configured URL when it is non-empty, else `http://localhost:3000` |
| Api.MergeHeaders | src/lib/api.ts:23-29 | the merged headers have every key of either side, and the caller's value wins on a clash |
| Api.Prepare | src/lib/api.ts:21-29 | the URL is the base URL followed by the endpoint; method and body pass through; headers are the auth headers merged with the caller's |
| Api.FailureMessage | src/lib/api.ts:42-45 | the body's `message`, else its `error`, else `Erro na requisição: ` followed by the status in decimal |
| Api.ApiRequest | src/lib/api.ts:17-58 | a rejection with a non-zero status comes from the server's answer; the store changes only for a 401 in a browser; a thrown failure rejects with status 0 and leaves the store alone |
| Api.Classify | src/lib/api.ts:34-48 | an answer resolves exactly when its status is 2xx, and with the body or `{}`; a failure keeps the status, except a 401 outside a browser, which becomes 0; only a failing non-401 status attaches the body; the store changes and the page goes to `/login` exactly for a 401 in a browser |
| Api.OkResolves | src/lib/api.ts:34 | a 2xx answer resolves with the parsed body, or `{}` when it does not parse, with no side effect |
| Api.UnauthorizedLogsOut | src/lib/api.ts:36-40 | a 401 in a browser removes the token and user, goes to `/login`, and rejects with 401 and the body's message or "Não autorizado" |
| Api.FailureRejects | src/lib/api.ts:42-46 | any other failing status rejects with that status, the message chain and the body attached |
| Api.ThrownBecomesStatusZero | src/lib/api.ts:49-57 | a thrown `Error` rejects with status 0 and its message, anything else thrown with status 0 and "Erro de rede", and nothing is stored |
| Api.UnauthorizedWithoutWindow | src/lib/api.ts:36-40 | outside a browser a 401 rejects with status 0 and the message of the `window` reference error, and nothing is stored |
| Api.FallbackNamesStatus | src/lib/api.ts:44 | the fallback messages of two different statuses differ |
| Api.CallerHeadersWin | src/lib/api.ts:27 | a header the caller sets reaches `fetch` unchanged |
| Api.HelperOptions | src/lib/api.ts:60-87 | each helper sets its method over any in the options; `post`, `put` and `patch` send the serialised payload |
| AuthContext.Mount | src/contexts/auth.context.tsx:31-32 | the provider starts without a session, restoring, with no header |
| AuthContext.FieldText | src/contexts/auth.context.tsx:46 | a string field renders as itself and a missing one as `undefined` |
| AuthContext.AuthorizationFor | src/contexts/auth.context.tsx:46 | the header is `<token_type> <token>`, and building it fails exactly for `null` |
| AuthContext.Restore | src/contexts/auth.context.tsx:34-53 | restoring always ends; outside a browser nothing else changes; the stored entry is removed only when it does not parse or parses to `null`; a new session is the parsed stored entry |
| AuthContext.LoginErrorText | src/contexts/auth.context.tsx:74-80 | the error `onError` throws, and the login's error toast shows, reads "Credenciais inválidas" for 401, the inactive-user text for 403 and the generic text otherwise, each exactly in its case |
| AuthContext.LoginStart | src/contexts/auth.context.tsx:84-86 | starting a login marks it pending and changes nothing else |
| AuthContext.LoginSettle | src/contexts/auth.context.tsx:64-90 | a failure keeps the session and the error toast shows the mapped text; a success sets and stores the session and the header from it, with the success toast; a `null` body is stored but the error toast shows the generic text. `login` itself resolves either way, since line 87 awaits the toast's id rather than the mutation |
| AuthContext.Logout | src/contexts/auth.context.tsx:97-111 | the logout call is made exactly when the session has a token; the session, its stored copy and the header are cleared in every case, and no other key changes |
| AuthContext.View | src/contexts/auth.context.tsx:113-119 | authenticated exactly when the session is truthy; loading exactly while restoring or a login is pending |
| AuthContext.UseAuth | src/contexts/auth.context.tsx:124-130 | inside a provider the context is returned; outside one it fails with the documented text |
| AuthContext.RestoreInstallsSession | src/contexts/auth.context.tsx:40-46 | a stored session object is restored with its `token_type token` header, and the app is authenticated and no longer loading |
| AuthContext.RestoreDropsGarbage | src/contexts/auth.context.tsx:47-50 | an unparsable stored session is removed and nobody is signed in |
| AuthContext.LoginThenRestore | src/contexts/auth.context.tsx:34-69 | what a login stores, a later restore brings back: the same session and header |
| AuthContext.LogoutSignsOut | src/contexts/auth.context.tsx:104-108 | after logout nobody is authenticated, and the loading flag is unchanged |
| AuthContext.FailedLoginKeepsSession | src/contexts/auth.context.tsx:70-90 | a login the server turns down leaves the session as it was, and the error toast shows the text mapped from the status |
| RootRoute.BeforeLoad | src/routes/__root.tsx:28-43 | a redirect happens exactly off `/login` when neither authenticated nor loading, and it goes to `/login` carrying the original href |
| RootRoute.RedirectTargetIsOpen | src/routes/__root.tsx:30-32 | the redirect target itself is always let through |
| RootRoute.HeaderOnGuardedPages | src/routes/__root.tsx:71-75 | a redirect leaves a page with the header for one without it |
| RootRoute.HeaderPagesAreGuarded | src/routes/__root.tsx:28-43 | the page without the header is never redirected, and a page with it is redirected exactly when nobody is signed in and no session is loading |
| SalesRoute.SaleEndpoint | src/routes/sales.tsx:41 | `/vendas/` followed by the decimal id, which reads back as the id |
| SalesRoute.CreateCall | src/routes/sales.tsx:28-32 | a create is `POST /vendas` with the serialised form |
| SalesRoute.UpdateCall | src/routes/sales.tsx:39-43 | an update is `PUT /vendas/<id>` with the fields other than `id` |
| SalesRoute.UpdateDropsOnlyId | src/routes/sales.tsx:40 | the update body keeps every field but `id`, unchanged |
| SalesRoute.CancelCall | src/routes/sales.tsx:49-52 | a cancel is `DELETE /vendas/<id>` without a body |
| SalesRoute.AsToastError | src/lib/api.ts:5-15 | an `ApiError` has no `response` |
| SalesRoute.ValidationMessage | src/routes/sales.tsx:66 | the server's non-empty `message`, else the validation text |
| SalesRoute.ErrorText | src/routes/sales.tsx:61-106 | no `response` gives the generic text; create maps 422 to the server message; update maps 404 to not-found and 422 to the server message; cancel maps only 404; everything else gets the generic text |
| SalesRoute.Finish | src/routes/sales.tsx:28-56 | a success refetches once and closes the dialog only for a create; a failure, or a create or update answered with a `null` body whose `data` cannot be read, leaves the screen alone and toasts the generic text |
| SalesRoute.SpecificMessagesUnreachable | src/routes/sales.tsx:65 | as written, every failure toasts the generic text, even a 422 carrying a message or a 404 |
| SalesRoute.ErrorResponseOf | src/lib/api.ts:5-15 | an `ApiError` with a non-zero status reads as a response with that status and its body |
| SalesRoute.FinishFixed | src/routes/sales.tsx:61-106 | the screen changes as in `Finish`; the toast follows the status the `ApiError` carries, and a `null` reply gets the generic text |
| SalesRoute.FixedMessagesReachable | src/routes/sales.tsx:81-86 | with the corrected reading a 404 says not found and a 422 shows the server's message |
| SalesRoute.CancelIgnoresValidation | src/routes/sales.tsx:100-105 | a cancel answered with 422 gets the generic cancel text |
| SalesRoute.TransportFailureIsGeneric | src/routes/sales.tsx:64-68 | a network failure gets each operation's generic text |
| SalesRoute.ServerValidationEndToEnd | src/routes/sales.tsx:58-73 | a 422 with a message for a new sale toasts the generic text as written and the server's message when corrected |
| SalesRoute.NullReplyFails | src/routes/sales.tsx:30-31 | a create or update answered 2xx with a `null` body fails on screen under either reading, while a cancel answered the same way succeeds |
| ContractsTable.MountIsSynced | src/components/tables/ContractsTable.tsx:27-38 | the effect's run right after mounting, and any later run with the same rows, leave the mounted state as it is |
| ContractsTable.RefetchDuringEditKeepsTarget | src/components/tables/ContractsTable.tsx:34-50 | new rows arriving mid-edit keep the dialog open, and saving still sends the edited row's `id` |
| ContractsTable.Edit | src/components/tables/ContractsTable.tsx:40-43 | the contract is remembered and the dialog opens |
| ContractsTable.Save | src/components/tables/ContractsTable.tsx:45-50 | with `onEdit` and an edited contract, the edited fields are forwarded with that contract's `id` and the dialog closes; otherwise nothing happens |
| ContractsTable.SaveKeepsEditedId | src/components/tables/ContractsTable.tsx:45-50 | saving after editing a row sends that row's `id`, whatever id the fields carry |
| ContractsTable.SaveWithoutCallbackStaysOpen | src/components/tables/ContractsTable.tsx:46 | without `onEdit` the dialog stays open |
| ContractsTable.DeleteNeedsConfirmation | src/components/tables/ContractsTable.tsx:52-58 | nothing is deleted without confirmation, and a confirmed delete keeps the row listed until the parent passes new rows |
| ContractsTable.DeleteDuringEditKeepsTarget | src/components/tables/ContractsTable.tsx:40-58 | a delete during an edit, confirmed or not, leaves the save sending the edited row's `id` |
| ContractsTable.DefaultDataRerendersForever | src/components/tables/ContractsTable.tsx:27-38 | as written, without `initialData` the effect runs after every render, so every render causes another |
| ContractsTable.FixedDefaultSettles | src/components/tables/ContractsTable.tsx:27-38 | with a module-level default the effect runs only after mounting, and a parent-held array behaves as before |
| ClientsRoute.InitialClients | src/routes/clients.tsx:15-18 | nothing stored, or empty text, gives `[]`; otherwise the state is whatever the stored text parses to, and text that does not parse throws |
| ClientsRoute.Mount | src/routes/clients.tsx:14-22 | the first render starts from the initial state with the dialog closed, and the effect's first run writes that state back under `clients`, touching no other key |
| ClientsRoute.Persist | src/routes/clients.tsx:20-22 | the serialised state is written under `clients`, and nothing else changes |
| ClientsRoute.Characters | src/routes/clients.tsx:27 | spreading a string gives one one-character string per character, in order |
| ClientsRoute.Spread | src/routes/clients.tsx:27 | `[...clients]` succeeds exactly for an array, giving its items, or a string, giving its characters |
| ClientsRoute.NewClient | src/routes/clients.tsx:26 | the new client has the given `id` and `ativo: true`, overriding the input, and keeps every other field |
| ClientsRoute.Create | src/routes/clients.tsx:24-30 | the create succeeds exactly when the state can be spread; then the new client follows the spread items, the dialog closes and the store holds the new list |
| ClientsRoute.CreateSurvivesReload | src/routes/clients.tsx:15-30 | what a create writes, the next visit reads back, when parsing undoes serialisation |
| ClientsRoute.MountWritesEmptyList | src/routes/clients.tsx:15-22 | with nothing stored, the first render writes the serialised empty list |
| ClientsRoute.RemountIsStable | src/routes/clients.tsx:15-22 | mounting again over what a mount wrote gives the same screen and store |
| ClientsRoute.StoredStringSpreadsIntoCharacters | src/routes/clients.tsx:15-27 | a stored JSON string loads as is, and the first create turns its characters into clients of their own |
| ClientsRoute.StoredObjectFailsAtCreate | src/routes/clients.tsx:24-27 | a state that is neither an array nor a string makes the first create throw |

## Left out

- Network, `fetch`, axios and its interceptors (`src/http/client.ts`) are parameters. The answer of each call is given, and the model never performs the call.
- Toasts and their loading texts are left out, except for the final message a toast shows. `console` output and `setTimeout` are also left out. A navigation, by the router or by assigning `window.location.href`, appears as the target path.
- React, TanStack Query, Form and Router machinery are left out: hooks, re-renders, context plumbing, `src/router.tsx`, `src/hooks/form.ts` and `src/integrations/auth/provider.tsx`. Only the state each component keeps and the transitions its handlers make are modelled.
- Combobox: the pixel test for "near the bottom" is a boolean of the scroll event. The `total` field, the loading-spinner markup and `cmdk`'s own filtering are left out.
- Combobox: nothing discards a page requested for a superseded search, because the code does not do it. `Combobox.StalePageOverwrites` shows the consequence.
- `NumberField`'s `Number(...)` coercion and NaN are left out. Numbers are `real`, without NaN or infinities.
- The `cookieAuth.setToken` expiry date and `removeToken` are left out: they only write `document.cookie`, whose attributes the browser keeps to itself. `decodeURIComponent` is assumed already applied, and its failure on malformed escapes is not modelled.
- `auth.isAuthenticated` and `auth.getAuthHeaders` are modelled as the predicates `IsAuthenticated` and `GetAuthHeaders`. Their properties are stated by `AuthStorage.AuthenticatedIffAuthorization` and `AuthStorage.AuthHeaders`.
- FormComponents `SubscribeButton` is left out as markup: its one rule is `disabled={isSubmitting}` on the submit button.
- JavaScript strings may hold lone surrogates; Dafny strings cannot, so such texts are not modelled.
- zod's email format, the ViaCEP lookup, `JSON.parse`, `JSON.stringify` and `String()` of a JSON value are parameters.
- Api.FailureMessage: only a non-empty string `message` or `error` is taken from the body. A truthy value of another type, which the source would use as the message, falls through to the next choice.
- Api.UnauthorizedLogsOut: the 401 error's message is the body's `message` only when that is a non-empty string; a truthy value of another type, which `new ApiError(401, data?.message || ...)` would turn into text, reads "Não autorizado" here. Api.Classify has the same simplification.
- SalesRoute.ValidationMessage: the same simplification applies to the server's `message` in the toast.
- AuthContext.FieldText: a field holding a non-string value is rendered by a `String()` parameter. The contract states only the string and missing cases.
- `ClientsTable`, `SalesTable`, the dialogs, `dashboard.tsx`, `index.tsx`, `Header.tsx` and `MenuComponents.tsx` are markup without rules of their own.
- The query that lists sales is left out, and so is what a mutation resolves with, apart from a `null` reply, whose `data` cannot be read. Only the refetch count is modelled.
- Login.Submit: how a non-`null` reply body yields the token and the user (`response.token`, `response.user`, including the text a missing value becomes once stored) is the parameter `read`.

## Findings

| source | as written | input that shows it | evidently intended | confidence | as-written member | corrected member |
|---|---|---|---|---|---|---|
| src/routes/sales.tsx:65 | the toast's `error` callbacks read `error.response?.status`, but `apiRequest` rejects only with an `ApiError`, whose status is a top-level `status` and which has no `response`; every failure toasts the generic text | creating a sale answered `422` with body `{"message": "CPF já cadastrado"}` toasts "Erro ao criar venda. Tente novamente."; updating a sale answered `404` toasts the generic update text | read the status and body the `ApiError` carries, so 404 shows "Venda não encontrada." and 422 shows the server's message | not executed | SalesRoute.SpecificMessagesUnreachable | SalesRoute.FixedMessagesReachable |
| src/components/tables/ContractsTable.tsx:27 | the default `initialData = []` is a new array on every render, and the effect that copies it into state depends on it; `src/routes/contracts.tsx:40` renders the table without `initialData` | rendering `<ContractsTable />`: every render runs the effect, whose `setData` with a new array causes the next render | a default array fixed once, at module level, so the effect runs only after mounting | not executed | ContractsTable.DefaultDataRerendersForever | ContractsTable.FixedDefaultSettles |
