/** `salesSchema` of `src/schemas/salesSchema.ts`: the sale form. The client
    id and the amount are JavaScript numbers, modelled as reals. */
module SalesSchema {
  import opened Wrappers
  import opened Issues
  import opened Text

  /** The statuses the form offers. */
  datatype FormStatus = Ativo | Inativo | Pendente

  function FormStatusName(s: FormStatus): string {
    match s
    case Ativo => "Ativo"
    case Inativo => "Inativo"
    case Pendente => "Pendente"
  }

  /** `z.enum(['Ativo', 'Inativo', 'Pendente'])`: exact, case-sensitive. */
  function ParseFormStatus(s: string): (r: Option<FormStatus>)
    ensures r.Some? ==> FormStatusName(r.value) == s
  {
    if s == "Ativo" then Some(Ativo)
    else if s == "Inativo" then Some(Inativo)
    else if s == "Pendente" then Some(Pendente)
    else None
  }

  /** The statuses a stored sale carries (`Sale.status` of
      `src/sale/types/index.d.ts`). */
  datatype SaleStatus = Criada | Ativa | Quitada | Cancelada

  function SaleStatusName(s: SaleStatus): string {
    match s
    case Criada => "CRIADA"
    case Ativa => "ATIVA"
    case Quitada => "QUITADA"
    case Cancelada => "CANCELADA"
  }

  datatype SalesForm = SalesForm(
    clienteId: real,
    tipoContrato: string,
    valor: real,
    data: string,
    status: string)

  /** The schema's keys. */
  datatype SalesField = ClienteId | TipoContrato | Valor | Data | Status

  const SalesKeys: seq<SalesField> := [ClienteId, TipoContrato, Valor, Data, Status]

  /** The messages the schema reports. */
  datatype SalesMessage = ClientRequired | ContractTypeTooShort | AmountNegative | DateRequired | StatusInvalid

  /** The text the form shows for each message. */
  function SalesMessageText(m: SalesMessage): string {
    match m
    case ClientRequired => "Cliente é obrigatório"
    case ContractTypeTooShort => "Tipo do contrato deve ter pelo menos 2 caracteres"
    case AmountNegative => "Valor deve ser um número positivo"
    case DateRequired => "Data é obrigatória"
    case StatusInvalid => "Status inválido"
  }

  /** The key each message is reported under. */
  function SalesMessageField(m: SalesMessage): SalesField {
    match m
    case ClientRequired => ClienteId
    case ContractTypeTooShort => TipoContrato
    case AmountNegative => Valor
    case DateRequired => Data
    case StatusInvalid => Status
  }

  /** The rule chain of each key: it only carries that key's message, and
      it is silent exactly when the key's value passes. */
  function SalesRules(s: SalesForm, f: SalesField): (r: seq<Rule<SalesMessage>>)
    ensures forall i :: 0 <= i < |r| ==> SalesMessageField(r[i].message) == f
    ensures Failing(r) == [] <==> FieldPasses(s, f)
  {
    match f
    case ClienteId => [Rule(s.clienteId >= 1.0, ClientRequired)]
    case TipoContrato => [Rule(Utf16Length(s.tipoContrato) >= 2, ContractTypeTooShort)]
    case Valor => [Rule(s.valor >= 0.0, AmountNegative)]
    case Data => [Rule(Utf16Length(s.data) >= 1, DateRequired)]
    case Status => [Rule(ParseFormStatus(s.status).Some?, StatusInvalid)]
  }

  function SalesFailing(s: SalesForm): SalesField -> seq<SalesMessage> {
    f => Failing(SalesRules(s, f))
  }

  /** The issues `salesSchema` reports, in key order. */
  function SalesIssues(s: SalesForm): seq<Issue<SalesField, SalesMessage>> {
    ObjectIssues(SalesKeys, SalesFailing(s))
  }

  /** A valid sale form: a client id of at least 1, a contract type of two
      UTF-16 code units or more, a non-negative amount (zero passes, although the
      message says "positive"), a date, and one of the three form statuses. */
  predicate SalesValid(s: SalesForm) {
    && s.clienteId >= 1.0
    && Utf16Length(s.tipoContrato) >= 2
    && s.valor >= 0.0
    && s.data != []
    && exists st :: FormStatusName(st) == s.status
  }

  lemma FormStatusRoundTrip(st: FormStatus)
    ensures ParseFormStatus(FormStatusName(st)) == Some(st)
  {
  }

  /** Exactly the three form status names parse. */
  lemma ParseFormStatusIffName(s: string)
    ensures ParseFormStatus(s).Some? <==> exists st :: FormStatusName(st) == s
  {
    if exists st :: FormStatusName(st) == s {
      var st :| FormStatusName(st) == s;
      FormStatusRoundTrip(st);
    }
  }

  /** No status a stored sale carries is accepted by the form: the form's
      vocabulary and the sale records' vocabulary are disjoint. */
  lemma SaleStatusesAreNotFormStatuses(st: SaleStatus)
    ensures ParseFormStatus(SaleStatusName(st)) == None
  {
    match st
    case Criada => assert SaleStatusName(st)[0] == 'C';
    case Ativa => assert SaleStatusName(st)[1] == 'T';
    case Quitada => assert SaleStatusName(st)[0] == 'Q';
    case Cancelada => assert SaleStatusName(st)[0] == 'C';
  }

  lemma SalesKeysAll()
    ensures Distinct(SalesKeys)
    ensures forall f :: f in SalesKeys
  {
    forall f ensures f in SalesKeys {
      match f
      case ClienteId => assert SalesKeys[0] == f;
      case TipoContrato => assert SalesKeys[1] == f;
      case Valor => assert SalesKeys[2] == f;
      case Data => assert SalesKeys[3] == f;
      case Status => assert SalesKeys[4] == f;
    }
  }

  /** Each field shows exactly the messages of its own failing rules. */
  lemma SalesMessages(s: SalesForm, f: SalesField)
    ensures MessagesAt(SalesIssues(s), f) == Failing(SalesRules(s, f))
  {
    SalesKeysAll();
    MessagesAtObject(SalesKeys, SalesFailing(s), f);
  }

  /** The schema reports no issue exactly for valid sale forms. */
  lemma SalesIssuesEmptyIffValid(s: SalesForm)
    ensures SalesIssues(s) == [] <==> SalesValid(s)
  {
    KeyedIssuesEmpty(SalesFailing(s));
    NothingFailsIffValid(s);
  }

  lemma KeyedIssuesEmpty(messages: SalesField -> seq<SalesMessage>)
    ensures ObjectIssues(SalesKeys, messages) == [] <==> forall f :: messages(f) == []
  {
    SalesKeysAll();
    ObjectIssuesEmptyAll(SalesKeys, messages);
  }

  /** A per-key message function is silent exactly when each key is. */
  lemma SilentOnEveryKey(m: SalesField -> seq<SalesMessage>)
    ensures (forall f :: m(f) == []) <==>
      m(ClienteId) == [] && m(TipoContrato) == [] && m(Valor) == [] && m(Data) == [] && m(Status) == []
  {
    if m(ClienteId) == [] && m(TipoContrato) == [] && m(Valor) == [] && m(Data) == [] && m(Status) == [] {
      forall f ensures m(f) == [] {
        match f
        case ClienteId =>
        case TipoContrato =>
        case Valor =>
        case Data =>
        case Status =>
      }
    }
  }

  /** The one rule of each key passes. */
  predicate FieldPasses(s: SalesForm, f: SalesField) {
    match f
    case ClienteId => s.clienteId >= 1.0
    case TipoContrato => Utf16Length(s.tipoContrato) >= 2
    case Valor => s.valor >= 0.0
    case Data => s.data != []
    case Status => ParseFormStatus(s.status).Some?
  }

  lemma SilentIffPasses(s: SalesForm, f: SalesField)
    ensures SalesFailing(s)(f) == [] <==> FieldPasses(s, f)
  {
    var rules := SalesRules(s, f);
    assert |rules| == 1 && rules[0].passes == FieldPasses(s, f);
  }

  lemma NothingFailsIffValid(s: SalesForm)
    ensures (forall f :: SalesFailing(s)(f) == []) <==> SalesValid(s)
  {
    ParseFormStatusIffName(s.status);
    SilentOnEveryKey(SalesFailing(s));
    SilentIffPasses(s, ClienteId);
    SilentIffPasses(s, TipoContrato);
    SilentIffPasses(s, Valor);
    SilentIffPasses(s, Data);
    SilentIffPasses(s, Status);
  }

  /** A sale record's own status, copied into the form, always draws
      "Status inválido". */
  lemma StoredStatusIsRejected(s: SalesForm, st: SaleStatus)
    requires s.status == SaleStatusName(st)
    ensures MessagesAt(SalesIssues(s), Status) == [StatusInvalid]
  {
    SalesMessages(s, Status);
    SaleStatusesAreNotFormStatuses(st);
  }
}
