/**
 * The two declarative field rules the forms hand to react-hook-form, in the
 * order the library applies them: `required` (the empty string fails; white
 * space does not), then `minLength` on the value's length.
 */
module FormRules {
  import opened Remote

  /** `required: message`. */
  function RequiredError(value: string, message: string): (r: Option<string>)
    ensures r.None? <==> value != []
    ensures r.Some? ==> r.value == message
  {
    if value == "" then Some(message) else None
  }

  /** `required: requiredMessage, minLength: { value: min, message: minMessage }`. */
  function RequiredMinLengthError(value: string, min: nat, requiredMessage: string, minMessage: string): (r: Option<string>)
    ensures value == [] ==> r == Some(requiredMessage)
    ensures value != [] ==> (r.None? <==> |value| >= min)
    ensures value != [] && |value| < min ==> r == Some(minMessage)
  {
    if value == "" then Some(requiredMessage)
    else if |value| < min then Some(minMessage)
    else None
  }
}
