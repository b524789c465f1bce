/** `showFieldError` and `clearFieldError`: the red border of a form field and the
    `.field-error` element appended to the field's parent. */
module FieldErrors {
  import opened JsText

  /** A child of the field's parent: an error element with its text, or any other node
      (the field itself among them). */
  datatype Child = ErrorDiv(text: string) | Other(key: nat)

  const ErrorBorder: string := "#ff6b6b"

  /** The field's `parentNode`. */
  class FieldGroup {
    var children: seq<Child>

    constructor (children: seq<Child>)
      ensures this.children == children
    {
      this.children := children;
    }
  }

  /** An `input` or `textarea` of the contact form. */
  class FormField {
    const name: string
    var value: string
    var borderColor: string
    const parent: FieldGroup

    constructor (name: string, value: string, parent: FieldGroup)
      ensures this.name == name && this.value == value && this.borderColor == "" && this.parent == parent
    {
      this.name := name;
      this.value := value;
      this.borderColor := "";
      this.parent := parent;
    }
  }

  function ErrorCount(cs: seq<Child>): nat {
    if cs == [] then 0 else (if cs[0].ErrorDiv? then 1 else 0) + ErrorCount(cs[1..])
  }

  /** The children that are not error elements, in order. */
  function Others(cs: seq<Child>): seq<Child> {
    if cs == [] then [] else (if cs[0].ErrorDiv? then [] else [cs[0]]) + Others(cs[1..])
  }

  lemma {:induction false} CountsOfConcat(a: seq<Child>, b: seq<Child>)
    ensures ErrorCount(a + b) == ErrorCount(a) + ErrorCount(b)
    ensures Others(a + b) == Others(a) + Others(b)
  {
    if a == [] {
      assert a + b == b;
    } else {
      assert (a + b)[1..] == a[1..] + b;
      CountsOfConcat(a[1..], b);
    }
  }

  /** `parentNode.querySelector('.field-error')`: the position of the first error element. */
  function FirstError(cs: seq<Child>): (r: Option<nat>)
    ensures r.None? <==> ErrorCount(cs) == 0
    ensures r.Some? ==> r.value < |cs| && cs[r.value].ErrorDiv?
                        && forall k :: 0 <= k < r.value ==> !cs[k].ErrorDiv?
  {
    if cs == [] then None
    else if cs[0].ErrorDiv? then Some(0)
    else match FirstError(cs[1..])
      case None => None
      case Some(k) => Some(k + 1)
  }

  /** The children after `existingError.remove()`, if there was one. */
  function WithoutFirstError(cs: seq<Child>): (r: seq<Child>)
    ensures FirstError(cs).None? ==> r == cs
    ensures FirstError(cs).Some? ==>
              var k := FirstError(cs).value;
              && |r| == |cs| - 1
              && (forall j :: 0 <= j < k ==> r[j] == cs[j])
              && (forall j :: k <= j < |r| ==> r[j] == cs[j + 1])
  {
    match FirstError(cs)
    case None => cs
    case Some(k) => cs[..k] + cs[k + 1..]
  }

  /** Clearing removes one error element, if any, and leaves every other child in place. */
  lemma WithoutFirstErrorCounts(cs: seq<Child>)
    ensures ErrorCount(WithoutFirstError(cs)) == if ErrorCount(cs) == 0 then 0 else ErrorCount(cs) - 1
    ensures Others(WithoutFirstError(cs)) == Others(cs)
    ensures |WithoutFirstError(cs)| == |cs| - (if ErrorCount(cs) == 0 then 0 else 1)
  {
    match FirstError(cs)
    case None =>
    case Some(k) =>
      assert cs == cs[..k] + ([cs[k]] + cs[k + 1..]);
      CountsOfConcat(cs[..k], [cs[k]] + cs[k + 1..]);
      CountsOfConcat([cs[k]], cs[k + 1..]);
      CountsOfConcat(cs[..k], cs[k + 1..]);
      assert [cs[k]][1..] == [];
  }

  /** After `showFieldError(field, m)` on a parent holding at most one error element,
      exactly one error element is left, it carries `m`, and it is the last child. */
  lemma ShowLeavesOneError(cs: seq<Child>, m: string)
    requires ErrorCount(cs) <= 1
    ensures var r := WithoutFirstError(cs) + [ErrorDiv(m)];
            && ErrorCount(r) == 1
            && Others(r) == Others(cs)
            && forall k :: 0 <= k < |r| && r[k].ErrorDiv? ==> r[k] == ErrorDiv(m)
  {
    var w := WithoutFirstError(cs);
    WithoutFirstErrorCounts(cs);
    CountsOfConcat(w, [ErrorDiv(m)]);
    assert [ErrorDiv(m)][1..] == [];
    forall k | 0 <= k < |w| ensures !w[k].ErrorDiv? {
      if w[k].ErrorDiv? {
        NoErrorMeansNone(w, k);
      }
    }
  }

  lemma {:induction false} NoErrorMeansNone(cs: seq<Child>, k: nat)
    requires k < |cs| && cs[k].ErrorDiv?
    ensures ErrorCount(cs) > 0
  {
    if k > 0 {
      NoErrorMeansNone(cs[1..], k - 1);
    }
  }

  /** `clearFieldError(field)`. */
  method ClearFieldError(field: FormField)
    modifies field, field.parent
    ensures field.borderColor == ""
    ensures field.parent.children == WithoutFirstError(old(field.parent.children))
    ensures field.value == old(field.value)
  {
    field.borderColor := "";
    var existing := FirstError(field.parent.children);
    if existing.Some? {
      var k := existing.value;
      field.parent.children := field.parent.children[..k] + field.parent.children[k + 1..];
    }
  }

  /** `showFieldError(field, message)`. */
  method ShowFieldError(field: FormField, message: string)
    modifies field, field.parent
    ensures field.borderColor == ErrorBorder
    ensures field.parent.children == WithoutFirstError(old(field.parent.children)) + [ErrorDiv(message)]
    ensures field.value == old(field.value)
  {
    ClearFieldError(field);
    field.borderColor := ErrorBorder;
    field.parent.children := field.parent.children + [ErrorDiv(message)];
  }
}
