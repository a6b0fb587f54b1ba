/** The sales screen of `src/routes/sales.tsx`: the requests its three
    mutations send, what a success does to the screen, and the message the
    error toast shows. Every mutation calls the `api` helpers, which reject
    only with an `ApiError`. */
module SalesRoute {
  import opened Wrappers
  import opened Json
  import opened Digits
  import opened Api

  const SalesEndpoint: string := "/vendas"

  const CreatedText: string := "Venda criada com sucesso!"
  const UpdatedText: string := "Venda atualizada com sucesso!"
  const CancelledText: string := "Venda cancelada com sucesso!"
  const NotFoundText: string := "Venda não encontrada."
  const ValidationText: string := "Erro de validação. Verifique os dados."
  const CreateFailedText: string := "Erro ao criar venda. Tente novamente."
  const UpdateFailedText: string := "Erro ao atualizar venda. Tente novamente."
  const CancelFailedText: string := "Erro ao cancelar venda. Tente novamente."

  datatype SalesOp = Create | Update | Cancel

  /** `/vendas/${id}`. */
  function SaleEndpoint(id: nat): (r: string)
    ensures |r| > |SalesEndpoint| + 1
    ensures r[..|SalesEndpoint|] == SalesEndpoint && r[|SalesEndpoint|] == '/'
    ensures AllDigits(r[|SalesEndpoint| + 1..]) && NumeralValue(r[|SalesEndpoint| + 1..]) == id
  {
    DecimalRoundTrip(id);
    SalesEndpoint + "/" + Decimal(id)
  }

  /** A call as handed to `apiRequest`: the endpoint and the options. */
  datatype Call = Call(endpoint: string, options: RequestOptions)

  /** `createSaleMutation`: `POST /vendas` with the form's fields. */
  function CreateCall(sale: map<string, Json>, stringify: Json -> string): (c: Call)
    ensures c.endpoint == SalesEndpoint && c.options.verb == Some(Post)
    ensures c.options.body == Some(stringify(JObj(sale)))
  {
    Call(SalesEndpoint, HelperOptions(Post, Some(JObj(sale)), None, stringify))
  }

  /** `updateSaleMutation`: `PUT /vendas/<id>` with every field but `id`. */
  function UpdateCall(id: nat, sale: map<string, Json>, stringify: Json -> string): (c: Call)
    ensures c.endpoint == SaleEndpoint(id) && c.options.verb == Some(Put)
    ensures c.options.body == Some(stringify(JObj(sale - {"id"})))
  {
    Call(SaleEndpoint(id), HelperOptions(Put, Some(JObj(sale - {"id"})), None, stringify))
  }

  /** `cancelSaleMutation`: `DELETE /vendas/<id>` without a body. */
  function CancelCall(id: nat): (c: Call)
    ensures c.endpoint == SaleEndpoint(id) && c.options.verb == Some(Delete) && c.options.body == None
  {
    Call(SaleEndpoint(id), HelperOptions(Delete, None, None, x => ""))
  }

  /** The update body keeps every field except `id`, unchanged. */
  lemma UpdateDropsOnlyId(sale: map<string, Json>, key: string)
    ensures key in sale - {"id"} <==> key in sale && key != "id"
    ensures key in sale && key != "id" ==> (sale - {"id"})[key] == sale[key]
  {
  }

  /** The screen state a mutation touches: whether the create dialog is
      open, and how many list refetches were issued. */
  datatype Screen = Screen(dialogOpen: bool, refetches: nat)

  /** The error as the toast's `error` callback reads it:
      `error.response?.status` and `error.response?.data?.message`. */
  datatype ToastError = ToastError(response: Option<ErrorResponse>)
  datatype ErrorResponse = ErrorResponse(status: int, data: Json)

  /** An `ApiError` has no `response` property. */
  function AsToastError(e: ApiError): (t: ToastError)
    ensures t.response.None?
  {
    ToastError(None)
  }

  /** `error.response?.data?.message || 'Erro de validação…'`. */
  function ValidationMessage(r: ErrorResponse): (m: string)
    ensures TextField(r.data, "message").Some? ==> m == TextField(r.data, "message").value
    ensures TextField(r.data, "message").None? ==> m == ValidationText
  {
    TextField(r.data, "message").GetOr(ValidationText)
  }

  /** The three `error` callbacks, as written. */
  function ErrorText(op: SalesOp, e: ToastError): (m: string)
    ensures e.response.None? ==> m == FailedText(op)
    ensures op.Create? && e.response.Some? ==>
      m == (if e.response.value.status == 422 then ValidationMessage(e.response.value) else CreateFailedText)
    ensures op.Update? && e.response.Some? ==>
      m == (if e.response.value.status == 404 then NotFoundText
            else if e.response.value.status == 422 then ValidationMessage(e.response.value)
            else UpdateFailedText)
    ensures op.Cancel? && e.response.Some? ==>
      m == (if e.response.value.status == 404 then NotFoundText else CancelFailedText)
  {
    match e.response
    case None => FailedText(op)
    case Some(r) =>
      match op
      case Create => if r.status == 422 then ValidationMessage(r) else CreateFailedText
      case Update =>
        if r.status == 404 then NotFoundText
        else if r.status == 422 then ValidationMessage(r)
        else UpdateFailedText
      case Cancel => if r.status == 404 then NotFoundText else CancelFailedText
  }

  /** The generic message of each operation. */
  function FailedText(op: SalesOp): string {
    match op
    case Create => CreateFailedText
    case Update => UpdateFailedText
    case Cancel => CancelFailedText
  }

  function SucceededText(op: SalesOp): string {
    match op
    case Create => CreatedText
    case Update => UpdatedText
    case Cancel => CancelledText
  }

  /** Whether the mutation function throws on a resolved value: create and
      update return `response.data`, which throws a `TypeError` when the
      reply's body is `null`; cancel reads nothing. */
  predicate ReadThrows(op: SalesOp, value: Json) {
    !op.Cancel? && value == JNull
  }

  /** How a mutation ends on screen, as written: a success refetches the
      list (and a create also closes the dialog); a failure, including the
      `TypeError` of reading `data` off a `null` reply, leaves the screen
      alone. The second component is the toast. */
  function Finish(op: SalesOp, s: Screen, outcome: Result<Json, ApiError>): (r: (Screen, string))
    ensures outcome.Success? && !ReadThrows(op, outcome.value) ==> r.0.refetches == s.refetches + 1 && r.1 == SucceededText(op)
    ensures outcome.Success? && !ReadThrows(op, outcome.value) ==> (r.0.dialogOpen <==> s.dialogOpen && !op.Create?)
    ensures outcome.Success? && ReadThrows(op, outcome.value) ==> r.0 == s && r.1 == FailedText(op)
    ensures outcome.Failure? ==> r.0 == s && r.1 == FailedText(op)
  {
    match outcome
    case Success(v) =>
      if ReadThrows(op, v) then (s, ErrorText(op, ToastError(None)))
      else (Screen(if op.Create? then false else s.dialogOpen, s.refetches + 1), SucceededText(op))
    case Failure(e) => (s, ErrorText(op, AsToastError(e)))
  }

  /** As written, the specific messages never show: a 422 from the server,
      with a message of its own, still gets the generic create text, and a
      404 on update or cancel gets the generic text too. */
  lemma SpecificMessagesUnreachable(op: SalesOp, s: Screen, status: int, data: Json)
    ensures Finish(op, s, Failure(ApiError(status, "", Some(data)))).1 == FailedText(op)
    ensures Finish(Create, s, Failure(ApiError(422, "", Some(JObj(map["message" := JStr("CPF já cadastrado")]))))).1 == CreateFailedText
    ensures Finish(Update, s, Failure(ApiError(404, "", None))).1 == UpdateFailedText
  {
  }

  /** The mapping the callbacks evidently mean, read from the `ApiError`
      itself: its `status`, and the body it carries as `data`. */
  function ErrorResponseOf(e: ApiError): (r: Option<ErrorResponse>)
    ensures e.status == 0 <==> r.None?
    ensures r.Some? ==> r.value.status == e.status && r.value.data == e.data.GetOr(EmptyObject)
  {
    if e.status == 0 then None else Some(ErrorResponse(e.status, e.data.GetOr(EmptyObject)))
  }

  function FixedErrorText(op: SalesOp, e: ApiError): string {
    ErrorText(op, ToastError(ErrorResponseOf(e)))
  }

  /** `Finish` with the corrected reading. */
  function FinishFixed(op: SalesOp, s: Screen, outcome: Result<Json, ApiError>): (r: (Screen, string))
    ensures r.0 == Finish(op, s, outcome).0
    ensures outcome.Success? && !ReadThrows(op, outcome.value) ==> r.1 == SucceededText(op)
    ensures outcome.Success? && ReadThrows(op, outcome.value) ==> r.1 == FailedText(op)
    ensures outcome.Failure? ==> r.1 == FixedErrorText(op, outcome.error)
  {
    match outcome
    case Success(_) => Finish(op, s, outcome)
    case Failure(e) => (s, FixedErrorText(op, e))
  }

  /** With the corrected reading a 404 on update or cancel says the sale
      was not found, and a 422 shows the server's message when it sent one
      and the validation text otherwise. */
  lemma FixedMessagesReachable(s: Screen, message: string, data: Option<Json>)
    ensures FinishFixed(Update, s, Failure(ApiError(404, message, data))).1 == NotFoundText
    ensures FinishFixed(Cancel, s, Failure(ApiError(404, message, data))).1 == NotFoundText
    ensures var d := data.GetOr(EmptyObject);
      FinishFixed(Create, s, Failure(ApiError(422, message, data))).1
        == (if TextField(d, "message").Some? then TextField(d, "message").value else ValidationText)
  {
  }

  /** Cancelling treats 422 like any other failure, under either reading. */
  lemma CancelIgnoresValidation(s: Screen, message: string, data: Option<Json>)
    ensures FinishFixed(Cancel, s, Failure(ApiError(422, message, data))).1 == CancelFailedText
  {
  }

  /** A transport failure (status 0) gets the generic text under either reading. */
  lemma TransportFailureIsGeneric(op: SalesOp, s: Screen, message: string)
    ensures FinishFixed(op, s, Failure(ApiError(0, message, None))).1 == FailedText(op)
  {
  }

  /** End to end: when the server rejects a new sale with 422 and a
      message, the screen as written shows the generic text, while the
      corrected reading shows the server's message. */
  lemma ServerValidationEndToEnd(env: Env, sale: map<string, Json>, stringify: Json -> string, s: Screen, body: Json)
    requires TextField(body, "message").Some?
    ensures var c := CreateCall(sale, stringify);
      var o := ApiRequest(env, c.endpoint, c.options, Responded(422, Some(body)));
      Finish(Create, s, o.result).1 == CreateFailedText
      && FinishFixed(Create, s, o.result).1 == TextField(body, "message").value
  {
    var c := CreateCall(sale, stringify);
    FailureRejects(env, c.endpoint, c.options, 422, Some(body));
  }

  /** A create or update answered 2xx with a `null` body fails on screen
      under either reading: the `TypeError` has no status, the dialog stays
      as it was and nothing is refetched. A cancel answered the same way
      succeeds. */
  lemma NullReplyFails(env: Env, sale: map<string, Json>, stringify: Json -> string, s: Screen, status: nat, id: nat)
    requires IsOk(status)
    ensures var c := CreateCall(sale, stringify);
      var o := ApiRequest(env, c.endpoint, c.options, Responded(status, Some(JNull)));
      Finish(Create, s, o.result) == (s, CreateFailedText) && FinishFixed(Create, s, o.result) == (s, CreateFailedText)
    ensures var c := UpdateCall(id, sale, stringify);
      var o := ApiRequest(env, c.endpoint, c.options, Responded(status, Some(JNull)));
      Finish(Update, s, o.result) == (s, UpdateFailedText)
    ensures var c := CancelCall(id);
      var o := ApiRequest(env, c.endpoint, c.options, Responded(status, Some(JNull)));
      Finish(Cancel, s, o.result) == (Screen(s.dialogOpen, s.refetches + 1), CancelledText)
  {
    OkResolves(env, CreateCall(sale, stringify).endpoint, CreateCall(sale, stringify).options, status, Some(JNull));
    OkResolves(env, UpdateCall(id, sale, stringify).endpoint, UpdateCall(id, sale, stringify).options, status, Some(JNull));
    OkResolves(env, CancelCall(id).endpoint, CancelCall(id).options, status, Some(JNull));
  }
}
