/** `validateField` of the served script (static/js/script.js), run when a form input
    loses focus. */
module ServedScript {
  import opened JsText
  import opened FieldRules
  import opened FieldErrors

  /** The rule for field `name` applied to its raw value: `None` when the value passes,
      otherwise the error message to show.  Fields other than the four known ones pass. */
  function Verdict(name: string, raw: string): (r: Option<string>)
    ensures name == "name" ==> (r.None? <==> 2 <= Utf16Len(Trim(raw)) <= 100)
    ensures name == "email" ==> (r.None? <==> EmailShape(Trim(raw)))
    ensures name == "phone" ==> (r.None? <==> Trim(raw) == [] || Count(Trim(raw), IsDigitOrPlus) >= 10)
    ensures name == "message" ==> (r.None? <==> 10 <= Utf16Len(Trim(raw)) <= 1000)
    ensures name !in {"name", "email", "phone", "message"} ==> r.None?
  {
    var value := Trim(raw);
    match name
    case "name" => NameRule(value)
    case "email" => EmailRule(value)
    case "phone" => PhoneRule(value)
    case "message" => MessageRule(value)
    case _ => None
  }

  /** `validateField(field)`: shows the error when the value fails its rule and clears it
      otherwise; the result says whether the value passed. */
  method ValidateField(field: FormField) returns (isValid: bool)
    modifies field, field.parent
    ensures isValid <==> Verdict(field.name, old(field.value)).None?
    ensures field.value == old(field.value)
    ensures match Verdict(field.name, old(field.value))
            case None =>
              field.borderColor == "" && field.parent.children == WithoutFirstError(old(field.parent.children))
            case Some(message) =>
              field.borderColor == ErrorBorder
              && field.parent.children == WithoutFirstError(old(field.parent.children)) + [ErrorDiv(message)]
  {
    var verdict := Verdict(field.name, field.value);
    isValid := verdict.None?;
    if !isValid {
      ShowFieldError(field, verdict.value);
    } else {
      ClearFieldError(field);
    }
  }
}
