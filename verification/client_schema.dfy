/** `clientSchema` of `src/schemas/clientSchema.ts`: the client form's field
    rules, composed with the CPF, phone and CEP validators. zod's email
    format and the CEP lookup are oracles. */
module ClientSchema {
  import opened Wrappers
  import opened Issues
  import opened Text
  import Digits
  import Cpf
  import Phone
  import Cep

  datatype ClientForm = ClientForm(
    nome: string,
    cpf: string,
    data_nascimento: string,
    email: string,
    telefone: string,
    end_logradouro: string,
    end_numero: string,
    end_complemento: Option<string>,
    end_bairro: string,
    end_cidade: string,
    end_uf: string,
    end_cep: string)

  /** The two checks the model does not define itself: zod's email format
      and the ViaCEP `erro` flag for a lookup key. */
  datatype Oracles = Oracles(isEmail: string -> bool, cepErro: string -> bool)

  /** The schema's keys. */
  datatype ClientField =
    | Nome | CpfNumber | DataNascimento | Email | Telefone
    | EndLogradouro | EndNumero | EndComplemento | EndBairro | EndCidade | EndUf | EndCep

  const ClientKeys: seq<ClientField> := [
    Nome, CpfNumber, DataNascimento, Email, Telefone,
    EndLogradouro, EndNumero, EndComplemento, EndBairro, EndCidade, EndUf, EndCep]

  /** The messages the schema reports. */
  datatype ClientMessage =
    | NomeTooShort | CpfInvalid | BirthDateRequired | EmailInvalid
    | PhoneRequired | PhoneFormat | StreetRequired | NumberRequired
    | DistrictRequired | CityRequired | UfLength | CepTooShort | CepNotFound

  /** The text the form shows for each message. */
  function ClientMessageText(m: ClientMessage): string {
    match m
    case NomeTooShort => "Nome deve ter pelo menos 2 caracteres"
    case CpfInvalid => "CPF inválido"
    case BirthDateRequired => "Data de nascimento é obrigatória"
    case EmailInvalid => "Email inválido"
    case PhoneRequired => "Telefone é obrigatório"
    case PhoneFormat => "Telefone deve estar no formato (XX) X XXXX-XXXX"
    case StreetRequired => "Logradouro é obrigatório"
    case NumberRequired => "Número é obrigatório"
    case DistrictRequired => "Bairro é obrigatório"
    case CityRequired => "Cidade é obrigatória"
    case UfLength => "UF deve ter 2 caracteres"
    case CepTooShort => "CEP deve ter pelo menos 8 caracteres"
    case CepNotFound => "CEP não encontrado"
  }

  /** The key each message is reported under. */
  function ClientMessageField(m: ClientMessage): ClientField {
    match m
    case NomeTooShort => Nome
    case CpfInvalid => CpfNumber
    case BirthDateRequired => DataNascimento
    case EmailInvalid => Email
    case PhoneRequired | PhoneFormat => Telefone
    case StreetRequired => EndLogradouro
    case NumberRequired => EndNumero
    case DistrictRequired => EndBairro
    case CityRequired => EndCidade
    case UfLength => EndUf
    case CepTooShort | CepNotFound => EndCep
  }

  /** The verdicts of the four rules that call a validator or an oracle. */
  datatype Verdicts = Verdicts(cpf: bool, email: bool, phone: bool, cep: bool)

  function ClientVerdicts(c: ClientForm, o: Oracles): Verdicts {
    Verdicts(
      Cpf.ValidateCpf(c.cpf),
      o.isEmail(c.email),
      Phone.ValidatePhone(c.telefone),
      Cep.ValidateCep(c.end_cep, o.cepErro))
  }

  /** The rule chain of each key, given the validators' verdicts: it only
      carries that key's messages, and it is silent exactly when the key's
      value passes. */
  function ClientRules(c: ClientForm, v: Verdicts, f: ClientField): (r: seq<Rule<ClientMessage>>)
    ensures forall i :: 0 <= i < |r| ==> ClientMessageField(r[i].message) == f
    ensures Failing(r) == [] <==> FieldPasses(c, v, f)
  {
    match f
    case Nome => [Rule(Utf16Length(c.nome) >= 2, NomeTooShort)]
    case CpfNumber => [Rule(v.cpf, CpfInvalid)]
    case DataNascimento => [Rule(Utf16Length(c.data_nascimento) >= 1, BirthDateRequired)]
    case Email => [Rule(v.email, EmailInvalid)]
    case Telefone => [
      Rule(Utf16Length(c.telefone) >= 1, PhoneRequired),
      Rule(v.phone, PhoneFormat)]
    case EndLogradouro => [Rule(Utf16Length(c.end_logradouro) >= 1, StreetRequired)]
    case EndNumero => [Rule(Utf16Length(c.end_numero) >= 1, NumberRequired)]
    case EndComplemento => []
    case EndBairro => [Rule(Utf16Length(c.end_bairro) >= 1, DistrictRequired)]
    case EndCidade => [Rule(Utf16Length(c.end_cidade) >= 1, CityRequired)]
    case EndUf => [Rule(Utf16Length(c.end_uf) == 2, UfLength)]
    case EndCep => [
      Rule(Utf16Length(c.end_cep) >= 8, CepTooShort),
      Rule(v.cep, CepNotFound)]
  }

  /** The messages of each key's failing rules. */
  function FailingAt(c: ClientForm, v: Verdicts): ClientField -> seq<ClientMessage> {
    f => Failing(ClientRules(c, v, f))
  }

  /** The issues `clientSchema` reports, in key order. */
  function ClientIssues(c: ClientForm, o: Oracles): seq<Issue<ClientField, ClientMessage>> {
    ObjectIssues(ClientKeys, FailingAt(c, ClientVerdicts(c, o)))
  }

  /** The oracles as a parse sees them once the lookup has answered: a key
      is flagged exactly when the reply's `erro` is set. */
  function AnsweredOracles(isEmail: string -> bool, lookup: string -> Option<bool>): Oracles {
    Oracles(isEmail, k => lookup(k) == Some(true))
  }

  /** `clientSchema.parseAsync`: the CEP refinement awaits `validateCEP`,
      so when the lookup rejects the whole parse rejects (`None`), whatever
      the other fields hold; otherwise it resolves with the issues. */
  function ParseClient(c: ClientForm, isEmail: string -> bool, lookup: string -> Option<bool>)
    : (r: Option<seq<Issue<ClientField, ClientMessage>>>)
    ensures r.None? <==> Utf16Length(Without(c.end_cep, '-')) >= 8 && lookup(Without(c.end_cep, '-')).None?
    ensures r.Some? ==> r.value == ClientIssues(c, AnsweredOracles(isEmail, lookup))
    ensures r.Some? ==> Cep.ValidateCepAsync(c.end_cep, lookup) == Some(ClientVerdicts(c, AnsweredOracles(isEmail, lookup)).cep)
  {
    if Cep.ValidateCepAsync(c.end_cep, lookup).None? then None
    else Some(ClientIssues(c, AnsweredOracles(isEmail, lookup)))
  }

  /** The rules of one key pass, given the validators' verdicts. */
  predicate FieldPasses(c: ClientForm, v: Verdicts, f: ClientField) {
    match f
    case Nome => Utf16Length(c.nome) >= 2
    case CpfNumber => v.cpf
    case DataNascimento => c.data_nascimento != []
    case Email => v.email
    case Telefone => c.telefone != [] && v.phone
    case EndLogradouro => c.end_logradouro != []
    case EndNumero => c.end_numero != []
    case EndComplemento => true
    case EndBairro => c.end_bairro != []
    case EndCidade => c.end_cidade != []
    case EndUf => Utf16Length(c.end_uf) == 2
    case EndCep => Utf16Length(c.end_cep) >= 8 && v.cep
  }

  /** Every rule passes, given the validators' verdicts. */
  predicate RulesPass(c: ClientForm, v: Verdicts) {
    && FieldPasses(c, v, Nome)
    && FieldPasses(c, v, CpfNumber)
    && FieldPasses(c, v, DataNascimento)
    && FieldPasses(c, v, Email)
    && FieldPasses(c, v, Telefone)
    && FieldPasses(c, v, EndLogradouro)
    && FieldPasses(c, v, EndNumero)
    && FieldPasses(c, v, EndBairro)
    && FieldPasses(c, v, EndCidade)
    && FieldPasses(c, v, EndUf)
    && FieldPasses(c, v, EndCep)
  }

  /** A valid client, stated with the reference definitions of CPF and
      phone numbers: a name of two UTF-16 code units or more, a Receita
      Federal CPF, a birth date, an email, a phone number, a street, number,
      district and city, a state of exactly two code units, and a CEP that
      has at least eight code units once hyphens are removed and that the
      lookup knows. The complement is free. */
  predicate ClientValid(c: ClientForm, o: Oracles) {
    && Utf16Length(c.nome) >= 2
    && Cpf.IsReceitaCpf(c.cpf)
    && c.data_nascimento != []
    && o.isEmail(c.email)
    && Phone.IsPhoneNumber(c.telefone)
    && c.end_logradouro != []
    && c.end_numero != []
    && c.end_bairro != []
    && c.end_cidade != []
    && Utf16Length(c.end_uf) == 2
    && Utf16Length(Without(c.end_cep, '-')) >= 8
    && !o.cepErro(Without(c.end_cep, '-'))
  }

  lemma ClientKeysDistinct()
    ensures Distinct(ClientKeys)
  {
  }

  lemma ClientKeysComplete(f: ClientField)
    ensures f in ClientKeys
  {
    match f
    case Nome => assert ClientKeys[0] == f;
    case CpfNumber => assert ClientKeys[1] == f;
    case DataNascimento => assert ClientKeys[2] == f;
    case Email => assert ClientKeys[3] == f;
    case Telefone => assert ClientKeys[4] == f;
    case EndLogradouro => assert ClientKeys[5] == f;
    case EndNumero => assert ClientKeys[6] == f;
    case EndComplemento => assert ClientKeys[7] == f;
    case EndBairro => assert ClientKeys[8] == f;
    case EndCidade => assert ClientKeys[9] == f;
    case EndUf => assert ClientKeys[10] == f;
    case EndCep => assert ClientKeys[11] == f;
  }

  lemma ClientKeysAll()
    ensures forall f :: f in ClientKeys
  {
    forall f ensures f in ClientKeys {
      ClientKeysComplete(f);
    }
  }

  /** Each field shows exactly the messages of its own failing rules. */
  lemma FieldMessages(c: ClientForm, v: Verdicts, f: ClientField)
    ensures MessagesAt(ObjectIssues(ClientKeys, FailingAt(c, v)), f) == Failing(ClientRules(c, v, f))
  {
    ClientKeysDistinct();
    ClientKeysComplete(f);
    MessagesAtObject(ClientKeys, FailingAt(c, v), f);
  }

  lemma ClientMessages(c: ClientForm, o: Oracles, f: ClientField)
    ensures MessagesAt(ClientIssues(c, o), f) == Failing(ClientRules(c, ClientVerdicts(c, o), f))
  {
    FieldMessages(c, ClientVerdicts(c, o), f);
  }

  /** Given the verdicts, the schema reports nothing exactly when every rule
      passes. */
  lemma NoIssuesIffRulesPass(c: ClientForm, v: Verdicts)
    ensures ObjectIssues(ClientKeys, FailingAt(c, v)) == [] <==> RulesPass(c, v)
  {
    NoIssuesIffNothingFails(c, v);
    NothingFailsIffRulesPass(c, v);
  }

  lemma NoIssuesIffNothingFails(c: ClientForm, v: Verdicts)
    ensures ObjectIssues(ClientKeys, FailingAt(c, v)) == [] <==> forall f :: FailingAt(c, v)(f) == []
  {
    KeyedIssuesEmpty(FailingAt(c, v));
  }

  lemma KeyedIssuesEmpty(messages: ClientField -> seq<ClientMessage>)
    ensures ObjectIssues(ClientKeys, messages) == [] <==> forall f :: messages(f) == []
  {
    ClientKeysAll();
    ObjectIssuesEmptyAll(ClientKeys, messages);
  }

  lemma NothingFailsIffRulesPass(c: ClientForm, v: Verdicts)
    ensures (forall f :: FailingAt(c, v)(f) == []) <==> RulesPass(c, v)
  {
    if RulesPass(c, v) {
      forall f ensures FailingAt(c, v)(f) == [] {
        RulesPassFailNothing(c, v, f);
      }
    } else if forall f :: FailingAt(c, v)(f) == [] {
      NothingFailingMeansRulesPass(c, v);
    }
  }

  lemma RulesPassFailNothing(c: ClientForm, v: Verdicts, f: ClientField)
    requires RulesPass(c, v)
    ensures Failing(ClientRules(c, v, f)) == []
  {
  }

  lemma NothingFailingMeansRulesPass(c: ClientForm, v: Verdicts)
    requires forall f :: FailingAt(c, v)(f) == []
    ensures RulesPass(c, v)
  {
    PassesIfNothingFails(c, v, Nome);
    PassesIfNothingFails(c, v, CpfNumber);
    PassesIfNothingFails(c, v, DataNascimento);
    PassesIfNothingFails(c, v, Email);
    PassesIfNothingFails(c, v, Telefone);
    PassesIfNothingFails(c, v, EndLogradouro);
    PassesIfNothingFails(c, v, EndNumero);
    PassesIfNothingFails(c, v, EndBairro);
    PassesIfNothingFails(c, v, EndCidade);
    PassesIfNothingFails(c, v, EndUf);
    PassesIfNothingFails(c, v, EndCep);
  }

  lemma PassesIfNothingFails(c: ClientForm, v: Verdicts, f: ClientField)
    requires FailingAt(c, v)(f) == []
    ensures FieldPasses(c, v, f)
  {
    if f == Telefone || f == EndCep {
      assert ClientRules(c, v, f)[1].passes;
    }
  }

  /** With the validators' actual verdicts, the rules pass exactly for valid
      clients. The separate "required" rules on `telefone` and `end_cep`
      never decide anything on their own: the phone and CEP validators
      already imply them. */
  lemma RulesPassIffValid(c: ClientForm, o: Oracles)
    ensures RulesPass(c, ClientVerdicts(c, o)) <==> ClientValid(c, o)
  {
    CpfVerdict(c, o);
    PhoneVerdict(c, o);
    CepVerdict(c, o);
    var key := Without(c.end_cep, '-');
    FaithfulVerdicts(c, ClientVerdicts(c, o), Cpf.IsReceitaCpf(c.cpf), o.isEmail(c.email),
      Phone.IsPhoneNumber(c.telefone), Utf16Length(key) >= 8 && !o.cepErro(key));
  }

  /** Whatever the validators decide, the rules pass exactly when the
      plain presence and length rules hold and every validator accepts. */
  lemma FaithfulVerdicts(c: ClientForm, v: Verdicts, cpfOk: bool, emailOk: bool, phoneOk: bool, cepOk: bool)
    requires v.cpf == cpfOk && v.email == emailOk
    requires (c.telefone != [] && v.phone) == phoneOk
    requires (Utf16Length(c.end_cep) >= 8 && v.cep) == cepOk
    ensures RulesPass(c, v) <==>
      && Utf16Length(c.nome) >= 2 && cpfOk && c.data_nascimento != [] && emailOk && phoneOk
      && c.end_logradouro != [] && c.end_numero != [] && c.end_bairro != []
      && c.end_cidade != [] && Utf16Length(c.end_uf) == 2 && cepOk
  {
  }

  lemma CpfVerdict(c: ClientForm, o: Oracles)
    ensures ClientVerdicts(c, o).cpf == Cpf.IsReceitaCpf(c.cpf)
  {
    Cpf.ValidateCpfIsReceitaCpf(c.cpf);
  }

  lemma PhoneVerdict(c: ClientForm, o: Oracles)
    ensures (c.telefone != [] && ClientVerdicts(c, o).phone) == Phone.IsPhoneNumber(c.telefone)
  {
    Phone.ValidatePhoneIsPhoneNumber(c.telefone);
    assert |Digits.DigitsOf(c.telefone)| <= |c.telefone|;
  }

  lemma CepVerdict(c: ClientForm, o: Oracles)
    ensures (Utf16Length(c.end_cep) >= 8 && ClientVerdicts(c, o).cep)
      == (Utf16Length(Without(c.end_cep, '-')) >= 8 && !o.cepErro(Without(c.end_cep, '-')))
  {
    Utf16LengthWithout(c.end_cep, '-');
  }

  /** The schema reports no issue exactly for valid clients. */
  lemma ClientIssuesEmptyIffValid(c: ClientForm, o: Oracles)
    ensures ClientIssues(c, o) == [] <==> ClientValid(c, o)
  {
    NoIssuesIffRulesPass(c, ClientVerdicts(c, o));
    RulesPassIffValid(c, o);
  }

  /** The complement never produces an issue: absent, empty or anything else. */
  lemma ComplementIsFree(c: ClientForm, o: Oracles, complement: Option<string>)
    ensures ClientIssues(c.(end_complemento := complement), o) == ClientIssues(c, o)
  {
    var c' := c.(end_complemento := complement);
    var v := ClientVerdicts(c, o);
    assert ClientVerdicts(c', o) == v;
    forall i | 0 <= i < |ClientKeys| ensures FailingAt(c', v)(ClientKeys[i]) == FailingAt(c, v)(ClientKeys[i]) {
      ComplementDoesNotChangeRules(c, v, complement, ClientKeys[i]);
    }
    ObjectIssuesPointwise(ClientKeys, FailingAt(c', v), FailingAt(c, v));
  }

  lemma ComplementDoesNotChangeRules(c: ClientForm, v: Verdicts, complement: Option<string>, f: ClientField)
    ensures ClientRules(c.(end_complemento := complement), v, f) == ClientRules(c, v, f)
  {
  }

  /** A CEP with eight characters or more but fewer than eight once its
      hyphens are removed (such as `1234-567`) passes the length rule and
      fails the lookup rule offline, whatever the lookup would say. */
  lemma HyphenatedShortCep(c: ClientForm, o: Oracles)
    requires Utf16Length(c.end_cep) >= 8 && Utf16Length(Without(c.end_cep, '-')) < 8
    ensures MessagesAt(ClientIssues(c, o), EndCep) == [CepNotFound]
  {
    ClientMessages(c, o, EndCep);
    LongCepFailingLookup(c, ClientVerdicts(c, o));
  }

  lemma LongCepFailingLookup(c: ClientForm, v: Verdicts)
    requires Utf16Length(c.end_cep) >= 8 && !v.cep
    ensures Failing(ClientRules(c, v, EndCep)) == [CepNotFound]
  {
  }

  /** An empty phone number gets both the "required" and the format message. */
  lemma EmptyPhoneGetsBothMessages(c: ClientForm, o: Oracles)
    requires c.telefone == []
    ensures MessagesAt(ClientIssues(c, o), Telefone) == [PhoneRequired, PhoneFormat]
  {
    ClientMessages(c, o, Telefone);
    EmptyPhoneFailsBoth(c, ClientVerdicts(c, o));
  }

  lemma EmptyPhoneFailsBoth(c: ClientForm, v: Verdicts)
    requires c.telefone == [] && !v.phone
    ensures Failing(ClientRules(c, v, Telefone)) == [PhoneRequired, PhoneFormat]
  {
  }

  /** zod measures `nome` in UTF-16 code units, so a single astral
      character such as an emoji is a long enough name. */
  lemma AstralNameIsLongEnough(c: ClientForm, o: Oracles)
    requires c.nome == "\U{1F600}"
    ensures MessagesAt(ClientIssues(c, o), Nome) == []
  {
    ClientMessages(c, o, Nome);
    assert Utf16Length(c.nome) == 2;
  }

  /** A parse resolves without issues exactly for a client that is valid
      and whose CEP the lookup answered without `erro`: a rejected lookup
      never lets a client through. */
  lemma ParseClientEmptyIffValid(c: ClientForm, isEmail: string -> bool, lookup: string -> Option<bool>)
    ensures ParseClient(c, isEmail, lookup) == Some([]) <==>
      ClientValid(c, AnsweredOracles(isEmail, lookup)) && lookup(Without(c.end_cep, '-')) == Some(false)
  {
    ClientIssuesEmptyIffValid(c, AnsweredOracles(isEmail, lookup));
  }
}
