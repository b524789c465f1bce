/** `validateField` of the application copy of the script (app/static/js/script.js).
    Its name, email and message rules are those of the served copy; its phone branch
    holds a pasted copy of the mask code that reads the undeclared `el` first, so any
    non-empty phone throws a ReferenceError before the field or the page is touched. */
module AppScript {
  import opened JsText
  import opened FieldRules
  import opened FieldErrors
  import ServedScript

  /** How a call of `validateField` ends. */
  datatype Completion = Returned(isValid: bool) | ReferenceErrorThrown

  /** The outcome for field `name` with raw value `raw`: `Some(None)` when the value
      passes, `Some(Some(message))` when it fails, `None` when the call throws. */
  function Verdict(name: string, raw: string): (r: Option<Option<string>>)
    ensures r.None? <==> name == "phone" && Trim(raw) != []
    ensures name == "name" ==> r == Some(NameRule(Trim(raw)))
    ensures name == "email" ==> (r == Some(None) <==> EmailShape(Trim(raw)))
    ensures name == "phone" && Trim(raw) == [] ==> r == Some(None)
    ensures name == "message" ==> r == Some(MessageRule(Trim(raw)))
    ensures name !in {"name", "email", "phone", "message"} ==> r == Some(None)
  {
    var value := Trim(raw);
    match name
    case "name" => Some(NameRule(value))
    case "email" => Some(EmailRule(value))
    case "phone" => if value != [] then None else Some(None)
    case "message" => Some(MessageRule(value))
    case _ => Some(None)
  }

  /** `validateField(field)` of the application copy. */
  method ValidateField(field: FormField) returns (c: Completion)
    modifies field, field.parent
    ensures c.ReferenceErrorThrown? <==> Verdict(field.name, old(field.value)).None?
    ensures c.Returned? ==> (c.isValid <==> Verdict(field.name, old(field.value)) == Some(None))
    ensures field.value == old(field.value)
    ensures match Verdict(field.name, old(field.value))
            case None =>
              field.borderColor == old(field.borderColor) && field.parent.children == old(field.parent.children)
            case Some(None) =>
              field.borderColor == "" && field.parent.children == WithoutFirstError(old(field.parent.children))
            case Some(Some(message)) =>
              field.borderColor == ErrorBorder
              && field.parent.children == WithoutFirstError(old(field.parent.children)) + [ErrorDiv(message)]
  {
    var verdict := Verdict(field.name, field.value);
    if verdict.None? {
      return ReferenceErrorThrown;
    }
    var isValid := verdict.value.None?;
    if !isValid {
      ShowFieldError(field, verdict.value.value);
    } else {
      ClearFieldError(field);
    }
    c := Returned(isValid);
  }

  /** The two copies agree on every field but a non-empty phone, on which the served copy
      applies its digit count and this copy throws. */
  lemma CopiesAgreeExceptPhone(name: string, raw: string)
    requires name != "phone" || Trim(raw) == []
    ensures Verdict(name, raw) == Some(ServedScript.Verdict(name, raw))
  {
  }
}
