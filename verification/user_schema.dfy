/** `userSchema` of `src/schemas/userSchema.ts`: the user form. zod's email
    format is an oracle. */
module UserSchema {
  import opened Wrappers
  import opened Issues
  import opened Text

  /** The two profiles a user may have. */
  datatype Perfil = Admin | Vendedor

  function PerfilName(p: Perfil): string {
    match p
    case Admin => "ADMIN"
    case Vendedor => "VENDEDOR"
  }

  /** `z.enum(['ADMIN', 'VENDEDOR'])`: exact, case-sensitive match. */
  function ParsePerfil(s: string): (r: Option<Perfil>)
    ensures r.Some? ==> PerfilName(r.value) == s
  {
    if s == "ADMIN" then Some(Admin)
    else if s == "VENDEDOR" then Some(Vendedor)
    else None
  }

  datatype UserForm = UserForm(
    name: string,
    email: string,
    password: Option<string>,
    perfil: string,
    active: Option<bool>)

  /** The schema's keys. */
  datatype UserField = Name | Email | Password | PerfilKey | Active

  const UserKeys: seq<UserField> := [Name, Email, Password, PerfilKey, Active]

  /** The messages the schema reports. */
  datatype UserMessage = NameTooShort | EmailInvalid | PerfilInvalid

  /** The text the form shows for each message. */
  function UserMessageText(m: UserMessage): string {
    match m
    case NameTooShort => "Nome deve ter pelo menos 2 caracteres"
    case EmailInvalid => "Email inválido"
    case PerfilInvalid => "Perfil deve ser ADMIN ou VENDEDOR"
  }

  /** The key each message is reported under. */
  function UserMessageField(m: UserMessage): UserField {
    match m
    case NameTooShort => Name
    case EmailInvalid => Email
    case PerfilInvalid => PerfilKey
  }

  /** The rule chain of each key; the password and the active flag are
      optional and unconstrained. A chain only carries its own key's
      messages and is silent exactly when the key's value passes. */
  function UserRules(u: UserForm, isEmail: string -> bool, f: UserField): (r: seq<Rule<UserMessage>>)
    ensures forall i :: 0 <= i < |r| ==> UserMessageField(r[i].message) == f
    ensures Failing(r) == [] <==> FieldPasses(u, isEmail, f)
  {
    match f
    case Name => [Rule(Utf16Length(u.name) >= 2, NameTooShort)]
    case Email => [Rule(isEmail(u.email), EmailInvalid)]
    case Password => []
    case PerfilKey => [Rule(ParsePerfil(u.perfil).Some?, PerfilInvalid)]
    case Active => []
  }

  function UserFailing(u: UserForm, isEmail: string -> bool): UserField -> seq<UserMessage> {
    f => Failing(UserRules(u, isEmail, f))
  }

  /** The issues `userSchema` reports, in key order. */
  function UserIssues(u: UserForm, isEmail: string -> bool): seq<Issue<UserField, UserMessage>> {
    ObjectIssues(UserKeys, UserFailing(u, isEmail))
  }

  /** A valid user: a name of two UTF-16 code units or more, an email, and the
      name of one of the two profiles. */
  predicate UserValid(u: UserForm, isEmail: string -> bool) {
    Utf16Length(u.name) >= 2 && isEmail(u.email) && exists p :: PerfilName(p) == u.perfil
  }

  /** Parsing a profile's name gives the profile back. */
  lemma PerfilRoundTrip(p: Perfil)
    ensures ParsePerfil(PerfilName(p)) == Some(p)
  {
  }

  /** Exactly the two profile names parse. */
  lemma ParsePerfilIffName(s: string)
    ensures ParsePerfil(s).Some? <==> exists p :: PerfilName(p) == s
  {
    if exists p :: PerfilName(p) == s {
      var p :| PerfilName(p) == s;
      PerfilRoundTrip(p);
    }
  }

  /** Lower-case profile names are rejected. */
  lemma ProfileIsCaseSensitive()
    ensures ParsePerfil("admin") == None && ParsePerfil("vendedor") == None
  {
    assert "admin" != "ADMIN";
    assert "vendedor" != "VENDEDOR";
  }

  lemma UserKeysAll()
    ensures Distinct(UserKeys)
    ensures forall f :: f in UserKeys
  {
    forall f ensures f in UserKeys {
      match f
      case Name => assert UserKeys[0] == f;
      case Email => assert UserKeys[1] == f;
      case Password => assert UserKeys[2] == f;
      case PerfilKey => assert UserKeys[3] == f;
      case Active => assert UserKeys[4] == f;
    }
  }

  /** Each field shows exactly the messages of its own failing rules. */
  lemma UserMessages(u: UserForm, isEmail: string -> bool, f: UserField)
    ensures MessagesAt(UserIssues(u, isEmail), f) == Failing(UserRules(u, isEmail, f))
  {
    UserKeysAll();
    MessagesAtObject(UserKeys, UserFailing(u, isEmail), f);
  }

  /** The schema reports no issue exactly for valid users. */
  lemma UserIssuesEmptyIffValid(u: UserForm, isEmail: string -> bool)
    ensures UserIssues(u, isEmail) == [] <==> UserValid(u, isEmail)
  {
    KeyedIssuesEmpty(UserFailing(u, isEmail));
    NothingFailsIffValid(u, isEmail);
  }

  lemma KeyedIssuesEmpty(messages: UserField -> seq<UserMessage>)
    ensures ObjectIssues(UserKeys, messages) == [] <==> forall f :: messages(f) == []
  {
    UserKeysAll();
    ObjectIssuesEmptyAll(UserKeys, messages);
  }

  /** A per-key message function is silent exactly when each key is. */
  lemma SilentOnEveryKey(m: UserField -> seq<UserMessage>)
    ensures (forall f :: m(f) == []) <==>
      m(Name) == [] && m(Email) == [] && m(Password) == [] && m(PerfilKey) == [] && m(Active) == []
  {
    if m(Name) == [] && m(Email) == [] && m(Password) == [] && m(PerfilKey) == [] && m(Active) == [] {
      forall f ensures m(f) == [] {
        match f
        case Name =>
        case Email =>
        case Password =>
        case PerfilKey =>
        case Active =>
      }
    }
  }

  /** Each key's rules pass: the password and the flag have none. */
  predicate FieldPasses(u: UserForm, isEmail: string -> bool, f: UserField) {
    match f
    case Name => Utf16Length(u.name) >= 2
    case Email => isEmail(u.email)
    case Password => true
    case PerfilKey => ParsePerfil(u.perfil).Some?
    case Active => true
  }

  lemma SilentIffPasses(u: UserForm, isEmail: string -> bool, f: UserField)
    ensures UserFailing(u, isEmail)(f) == [] <==> FieldPasses(u, isEmail, f)
  {
    var rules := UserRules(u, isEmail, f);
    if f.Password? || f.Active? {
      assert rules == [];
    } else {
      assert |rules| == 1 && rules[0].passes == FieldPasses(u, isEmail, f);
    }
  }

  lemma NothingFailsIffValid(u: UserForm, isEmail: string -> bool)
    ensures (forall f :: UserFailing(u, isEmail)(f) == []) <==> UserValid(u, isEmail)
  {
    ParsePerfilIffName(u.perfil);
    SilentOnEveryKey(UserFailing(u, isEmail));
    SilentIffPasses(u, isEmail, Name);
    SilentIffPasses(u, isEmail, Email);
    SilentIffPasses(u, isEmail, Password);
    SilentIffPasses(u, isEmail, PerfilKey);
    SilentIffPasses(u, isEmail, Active);
  }

  /** The password and the active flag never change the verdict. */
  lemma PasswordAndActiveAreFree(u: UserForm, isEmail: string -> bool, password: Option<string>, active: Option<bool>)
    ensures UserIssues(u.(password := password, active := active), isEmail) == UserIssues(u, isEmail)
  {
    var u' := u.(password := password, active := active);
    forall i | 0 <= i < |UserKeys|
      ensures UserFailing(u', isEmail)(UserKeys[i]) == UserFailing(u, isEmail)(UserKeys[i])
    {
    }
    ObjectIssuesPointwise(UserKeys, UserFailing(u', isEmail), UserFailing(u, isEmail));
  }
}
