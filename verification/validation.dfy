/** The `{ isValid, errors }` object returned by every `validate()` method,
    and the one-line summary the gateways throw when it is not valid. */
module Validation {
  import opened Js

  /** One entry of the `errors` object: the field name and its message. */
  datatype FieldError = FieldError(field: string, message: string)

  /** `errors` keeps its entries in the order the fields were assigned, which
      is the order `Object.values` reports them in. */
  datatype Verdict = Verdict(isValid: bool, errors: seq<FieldError>)

  /** `{ isValid: Object.keys(errors).length === 0, errors }`. */
  function FromErrors(errors: seq<FieldError>): (r: Verdict)
    ensures r.errors == errors
    ensures r.isValid <==> errors == []
  {
    Verdict(|errors| == 0, errors)
  }

  /** At most one entry for `field`, present exactly when `fails`. */
  function ErrorIf(fails: bool, field: string, message: string): (r: seq<FieldError>)
    ensures |r| <= 1
    ensures r == [] <==> !fails
    ensures forall i :: 0 <= i < |r| ==> r[i] == FieldError(field, message)
  {
    if fails then [FieldError(field, message)] else []
  }

  /** `Object.values(errors)`. */
  function Messages(errors: seq<FieldError>): (r: seq<string>)
    ensures |r| == |errors|
    ensures forall i :: 0 <= i < |r| ==> r[i] == errors[i].message
  {
    seq(|errors|, i requires 0 <= i < |errors| => errors[i].message)
  }

  /** `Object.values(validation.errors).join(', ')`: the message of the
      error a gateway throws for an invalid request. */
  function Summary(v: Verdict): string {
    Join(Messages(v.errors), ", ")
  }
}
