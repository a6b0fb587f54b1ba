/** `contractSchema` of `src/schemas/contractSchema.ts`: the contract type
    form. The two durations are JavaScript numbers, modelled as reals. */
module ContractSchema {
  import opened Wrappers
  import opened Issues
  import opened Text

  datatype ContractForm = ContractForm(
    nome: string,
    prazo_meses: real,
    tempo_nova_oportunidade_dias: real,
    ativo: Option<bool>)

  /** The schema's keys. */
  datatype ContractField = Nome | PrazoMeses | TempoNovaOportunidadeDias | Ativo

  const ContractKeys: seq<ContractField> := [Nome, PrazoMeses, TempoNovaOportunidadeDias, Ativo]

  /** The messages the schema reports. */
  datatype ContractMessage = NomeTooShort | PrazoTooShort | TempoTooShort

  /** The text the form shows for each message. */
  function ContractMessageText(m: ContractMessage): string {
    match m
    case NomeTooShort => "Nome do contrato deve ter pelo menos 2 caracteres"
    case PrazoTooShort => "Prazo deve ser pelo menos 1 mês"
    case TempoTooShort => "Tempo deve ser pelo menos 1 dia"
  }

  /** The key each message is reported under. */
  function ContractMessageField(m: ContractMessage): ContractField {
    match m
    case NomeTooShort => Nome
    case PrazoTooShort => PrazoMeses
    case TempoTooShort => TempoNovaOportunidadeDias
  }

  /** The rule chain of each key; `ativo` is optional and unconstrained.
      A chain only carries its own key's message. */
  function ContractRules(c: ContractForm, f: ContractField): (r: seq<Rule<ContractMessage>>)
    ensures forall i :: 0 <= i < |r| ==> ContractMessageField(r[i].message) == f
    ensures r == [] <==> f == Ativo
  {
    match f
    case Nome => [Rule(Utf16Length(c.nome) >= 2, NomeTooShort)]
    case PrazoMeses => [Rule(c.prazo_meses >= 1.0, PrazoTooShort)]
    case TempoNovaOportunidadeDias => [Rule(c.tempo_nova_oportunidade_dias >= 1.0, TempoTooShort)]
    case Ativo => []
  }

  function ContractFailing(c: ContractForm): ContractField -> seq<ContractMessage> {
    f => Failing(ContractRules(c, f))
  }

  /** The issues `contractSchema` reports, in key order. */
  function ContractIssues(c: ContractForm): seq<Issue<ContractField, ContractMessage>> {
    ObjectIssues(ContractKeys, ContractFailing(c))
  }

  /** A valid contract type: a name of two UTF-16 code units or more, and a term
      and a renewal window of at least one (month, day). Fractions pass. */
  predicate ContractValid(c: ContractForm) {
    Utf16Length(c.nome) >= 2 && c.prazo_meses >= 1.0 && c.tempo_nova_oportunidade_dias >= 1.0
  }

  lemma ContractKeysAll()
    ensures Distinct(ContractKeys)
    ensures forall f :: f in ContractKeys
  {
    forall f ensures f in ContractKeys {
      match f
      case Nome => assert ContractKeys[0] == f;
      case PrazoMeses => assert ContractKeys[1] == f;
      case TempoNovaOportunidadeDias => assert ContractKeys[2] == f;
      case Ativo => assert ContractKeys[3] == f;
    }
  }

  /** Each field shows exactly the messages of its own failing rules. */
  lemma ContractMessages(c: ContractForm, f: ContractField)
    ensures MessagesAt(ContractIssues(c), f) == Failing(ContractRules(c, f))
  {
    ContractKeysAll();
    MessagesAtObject(ContractKeys, ContractFailing(c), f);
  }

  /** The schema reports no issue exactly for valid contract types. */
  lemma ContractIssuesEmptyIffValid(c: ContractForm)
    ensures ContractIssues(c) == [] <==> ContractValid(c)
  {
    ContractKeysAll();
    ObjectIssuesEmptyAll(ContractKeys, ContractFailing(c));
    assert ContractFailing(c)(Nome) == [] <==> Utf16Length(c.nome) >= 2;
    assert ContractFailing(c)(PrazoMeses) == [] <==> c.prazo_meses >= 1.0;
    assert ContractFailing(c)(TempoNovaOportunidadeDias) == [] <==> c.tempo_nova_oportunidade_dias >= 1.0;
    assert ContractFailing(c)(Ativo) == [];
  }

  /** Every rule runs: a form failing all three rules gets all three
      messages, in key order. */
  lemma AllRulesReport(c: ContractForm)
    requires Utf16Length(c.nome) < 2 && c.prazo_meses < 1.0 && c.tempo_nova_oportunidade_dias < 1.0
    ensures ContractIssues(c) == [
      Issue(Nome, NomeTooShort),
      Issue(PrazoMeses, PrazoTooShort),
      Issue(TempoNovaOportunidadeDias, TempoTooShort)]
  {
    var m := ContractFailing(c);
    assert m(Nome) == [NomeTooShort] && m(PrazoMeses) == [PrazoTooShort];
    assert m(TempoNovaOportunidadeDias) == [TempoTooShort] && m(Ativo) == [];
    ThreeIssuesInKeyOrder(m);
  }

  lemma ThreeIssuesInKeyOrder(m: ContractField -> seq<ContractMessage>)
    requires m(Nome) == [NomeTooShort] && m(PrazoMeses) == [PrazoTooShort]
    requires m(TempoNovaOportunidadeDias) == [TempoTooShort] && m(Ativo) == []
    ensures ObjectIssues(ContractKeys, m) == [
      Issue(Nome, NomeTooShort),
      Issue(PrazoMeses, PrazoTooShort),
      Issue(TempoNovaOportunidadeDias, TempoTooShort)]
  {
    var k := ContractKeys;
    FieldIssuesSmall(Ativo, NomeTooShort);
    FieldIssuesSmall(Nome, NomeTooShort);
    FieldIssuesSmall(PrazoMeses, PrazoTooShort);
    FieldIssuesSmall(TempoNovaOportunidadeDias, TempoTooShort);
    ObjectIssuesStep(k[3..], m, []);
    ObjectIssuesStep(k[2..], m, []);
    ObjectIssuesStep(k[1..], m, [Issue(TempoNovaOportunidadeDias, TempoTooShort)]);
    ObjectIssuesStep(k, m, [Issue(PrazoMeses, PrazoTooShort), Issue(TempoNovaOportunidadeDias, TempoTooShort)]);
  }

  /** The `ativo` flag never changes the verdict: absent, true or false. */
  lemma ActiveFlagIsFree(c: ContractForm, ativo: Option<bool>)
    ensures ContractIssues(c.(ativo := ativo)) == ContractIssues(c)
  {
    forall i | 0 <= i < |ContractKeys|
      ensures ContractFailing(c.(ativo := ativo))(ContractKeys[i]) == ContractFailing(c)(ContractKeys[i])
    {
    }
    ObjectIssuesPointwise(ContractKeys, ContractFailing(c.(ativo := ativo)), ContractFailing(c));
  }
}
