/** The rules that `validateField` applies to the trimmed value of the contact-form
    fields `name`, `email` and `message` (identical in both copies of the script), the
    phone rule of the served copy, and the error messages shown with them. */
module FieldRules {
  import opened JsText

  const NameTooShort: string := "Имя должно содержать минимум 2 символа"
  const NameTooLong: string := "Имя слишком длинное"
  const EmailInvalid: string := "Введите корректный email адрес"
  const PhoneTooShort: string := "Номер телефона слишком короткий"
  const MessageTooShort: string := "Сообщение должно содержать минимум 10 символов"
  const MessageTooLong: string := "Сообщение слишком длинное"

  /** Length bounds on the trimmed value: the message for the first bound it breaks. */
  function LengthRule(value: string, min: nat, max: nat, tooShort: string, tooLong: string): (r: Option<string>)
    ensures r == None <==> min <= Utf16Len(value) <= max
    ensures r == Some(tooShort) <== Utf16Len(value) < min
    ensures r == Some(tooLong) <== min <= Utf16Len(value) && max < Utf16Len(value)
  {
    if Utf16Len(value) < min then Some(tooShort)
    else if Utf16Len(value) > max then Some(tooLong)
    else None
  }

  /** The name: 2 to 100 UTF-16 code units. */
  function NameRule(value: string): (r: Option<string>)
    ensures r.None? <==> 2 <= Utf16Len(value) <= 100
    ensures r.Some? ==> r.value == (if Utf16Len(value) < 2 then NameTooShort else NameTooLong)
  {
    LengthRule(value, 2, 100, NameTooShort, NameTooLong)
  }

  /** The message: 10 to 1000 UTF-16 code units. */
  function MessageRule(value: string): (r: Option<string>)
    ensures r.None? <==> 10 <= Utf16Len(value) <= 1000
    ensures r.Some? ==> r.value == (if Utf16Len(value) < 10 then MessageTooShort else MessageTooLong)
  {
    LengthRule(value, 10, 1000, MessageTooShort, MessageTooLong)
  }

  // ---------------------------------------------------------------------------
  // The email regex /^[^\s@]+@[^\s@]+\.[^\s@]+$/

  /** The class `[^\s@]`. */
  predicate LocalChar(c: char) {
    !IsJsSpace(c) && c != '@'
  }

  predicate AllLocal(s: string) {
    forall k :: 0 <= k < |s| ==> LocalChar(s[k])
  }

  /** The regex read literally: some split into three non-empty runs of `[^\s@]`, the
      first two separated by `@` and the last two by `.`. */
  predicate EmailRegexMatches(s: string)
    ensures EmailRegexMatches(s) ==> 5 <= |s| && '@' in s[1..|s| - 3] && !IsJsSpace(s[0])
  {
    exists a, d | 0 < a && a + 1 < d && d + 1 < |s| :: EmailSplit(s, a, d)
  }

  predicate EmailSplit(s: string, a: nat, d: nat)
    requires 0 < a && a + 1 < d && d + 1 < |s|
  {
    s[a] == '@' && s[d] == '.' && AllLocal(s[..a]) && AllLocal(s[a + 1..d]) && AllLocal(s[d + 1..])
  }

  /** Index of the first occurrence of `c` in `s`. */
  function IndexOf(s: string, c: char): (k: nat)
    requires c in s
    ensures k < |s| && s[k] == c && c !in s[..k]
  {
    if s[0] == c then 0
    else
      assert s == [s[0]] + s[1..];
      assert s[1..][..IndexOf(s[1..], c)] == s[1..IndexOf(s[1..], c) + 1];
      1 + IndexOf(s[1..], c)
  }

  /** A `.` that is neither the first nor the last character. */
  predicate HasInnerDot(d: string) {
    exists k :: 0 < k < |d| - 1 && d[k] == '.'
  }

  /** The shape an address must have: no whitespace, exactly one `@`, a non-empty part
      before it, and after it a domain holding a `.` that is neither its first nor its
      last character. */
  predicate EmailShape(s: string) {
    && (forall k :: 0 <= k < |s| ==> !IsJsSpace(s[k]))
    && '@' in s
    && multiset(s)['@'] == 1
    && 0 < IndexOf(s, '@')
    && HasInnerDot(s[IndexOf(s, '@') + 1..])
  }

  /** The regex accepts exactly the addresses of that shape. */
  lemma EmailRegexIff(s: string)
    ensures EmailRegexMatches(s) <==> EmailShape(s)
  {
    if EmailRegexMatches(s) {
      var a, d :| 0 < a && a + 1 < d && d + 1 < |s| && EmailSplit(s, a, d);
      RegexGivesShape(s, a, d);
    }
    if EmailShape(s) {
      ShapeGivesRegex(s);
    }
  }

  lemma RegexGivesShape(s: string, a: nat, d: nat)
    requires 0 < a && a + 1 < d && d + 1 < |s| && EmailSplit(s, a, d)
    ensures EmailShape(s)
  {
    var front, mid, back := s[..a], s[a + 1..d], s[d + 1..];
    assert s == front + [s[a]] + mid + [s[d]] + back;
    forall k | 0 <= k < |s| ensures !IsJsSpace(s[k]) {
      if k < a {
        assert s[k] == front[k];
      } else if a < k < d {
        assert s[k] == mid[k - a - 1];
      } else if d < k {
        assert s[k] == back[k - d - 1];
      }
    }
    assert '@' !in front && '@' !in mid && '@' !in back;
    assert multiset(s)['@'] == 1;
    assert IndexOf(s, '@') == a;
    assert s[a + 1..][d - a - 1] == '.';
  }

  lemma ShapeGivesRegex(s: string)
    requires EmailShape(s)
    ensures EmailRegexMatches(s)
  {
    var a := IndexOf(s, '@');
    var dom := s[a + 1..];
    var k :| 0 < k < |dom| - 1 && dom[k] == '.';
    var d := a + 1 + k;
    assert s == s[..a + 1] + dom;
    assert s[a] in s[..a + 1];
    assert multiset(s[..a + 1])['@'] >= 1;
    assert multiset(dom)['@'] == 0;
    assert '@' !in dom;
    var front, mid, back := s[..a], s[a + 1..d], s[d + 1..];
    forall j | 0 <= j < |front| ensures LocalChar(front[j]) {
      assert front[j] == s[j];
    }
    forall j | 0 <= j < |mid| ensures LocalChar(mid[j]) {
      assert mid[j] == s[a + 1 + j] == dom[j];
    }
    forall j | 0 <= j < |back| ensures LocalChar(back[j]) {
      assert back[j] == s[d + 1 + j] == dom[k + 1 + j];
    }
    assert EmailSplit(s, a, d);
  }

  /** The email rule, tested on the trimmed value. */
  function EmailRule(value: string): (r: Option<string>)
    ensures r == None <==> EmailShape(value)
    ensures r == None || r == Some(EmailInvalid)
  {
    EmailRegexIff(value);
    if !EmailRegexMatches(value) then Some(EmailInvalid) else None
  }

  // ---------------------------------------------------------------------------
  // The phone rule of the served copy

  predicate IsDigitOrPlus(c: char) {
    IsDigit(c) || c == '+'
  }

  /** An empty phone passes; otherwise `value.replace(/[^\d+]/g, '')` must keep at least
      10 characters. */
  function PhoneRule(value: string): (r: Option<string>)
    ensures r == None <==> value == [] || Count(value, IsDigitOrPlus) >= 10
    ensures r == None || r == Some(PhoneTooShort)
  {
    if value != [] && |Keep(value, IsDigitOrPlus)| < 10 then Some(PhoneTooShort) else None
  }
}
