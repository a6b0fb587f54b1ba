/** The display rules of `src/components/FormComponents.tsx`: how a field's
    error list renders, when it is shown, what the submit button does while
    the form submits, and what the slider writes back. */
module FormComponents {
  import opened Wrappers

  /** An entry of a field's `meta.errors`: a bare string or an object with
      a `message` (zod issues arrive as the latter). */
  datatype FieldError = Plain(text: string) | WithMessage(message: string)

  function ErrorText(e: FieldError): string {
    match e
    case Plain(t) => t
    case WithMessage(m) => m
  }

  /** `ErrorMessages`: one line per error, in list order. */
  function RenderErrors(errors: seq<FieldError>): (r: seq<string>)
    ensures |r| == |errors|
    ensures forall i :: 0 <= i < |r| ==> r[i] == ErrorText(errors[i])
  {
    seq(|errors|, i requires 0 <= i < |errors| => ErrorText(errors[i]))
  }

  /** The errors a schema's messages become on a field. */
  function IssueErrors(messages: seq<string>): (r: seq<FieldError>)
    ensures |r| == |messages|
    ensures forall i :: 0 <= i < |r| ==> r[i].WithMessage?
  {
    seq(|messages|, i requires 0 <= i < |messages| => WithMessage(messages[i]))
  }

  /** A schema's messages render as themselves, in the same order. */
  lemma RenderIssueMessages(messages: seq<string>)
    ensures RenderErrors(IssueErrors(messages)) == messages
  {
  }

  /** Rendering distributes over concatenation, so each error renders
      independently of its neighbours. */
  lemma RenderErrorsConcat(a: seq<FieldError>, b: seq<FieldError>)
    ensures RenderErrors(a + b) == RenderErrors(a) + RenderErrors(b)
  {
  }

  datatype FieldKind =
    | TextInput | NumberInput | TextAreaInput | SelectInput | SliderInput | SwitchInput
    | SelectFieldInput | ComboboxFieldInput

  /** What a field shows under itself. `SelectField` and `ComboboxField`
      also ask for a non-empty list; the others only for `isTouched`. */
  function Displayed(kind: FieldKind, isTouched: bool, errors: seq<FieldError>): (r: seq<string>)
    ensures r != [] <==> isTouched && errors != []
    ensures r != [] ==> r == RenderErrors(errors)
  {
    if kind.SelectFieldInput? || kind.ComboboxFieldInput? then
      if isTouched && |errors| > 0 then RenderErrors(errors) else []
    else if isTouched then RenderErrors(errors) else []
  }

  /** The extra non-empty test changes nothing: every kind of field shows
      the same thing, its rendered errors once touched and nothing before. */
  lemma DisplayIsTouchedRule(kind: FieldKind, isTouched: bool, errors: seq<FieldError>)
    ensures Displayed(kind, isTouched, errors) == if isTouched then RenderErrors(errors) else []
  {
  }

  /** The slider's `onValueChange` writes the first thumb's value; an empty
      array reads as `undefined` (`None`). */
  function SliderValue(values: seq<real>): (r: Option<real>)
    ensures r.None? <==> values == []
    ensures r.Some? ==> values == [r.value] + values[1..]
  {
    if values == [] then None else Some(values[0])
  }

  /** The slider hands `[value]` to its thumb and reads the same value back. */
  lemma SliderRoundTrip(v: real)
    ensures SliderValue([v]) == Some(v)
  {
  }
}
