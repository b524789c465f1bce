/** The phone-number input mask of the contact form (the `input`, `blur` and `focus`
    listener on every element carrying `data-phone-pattern`).

    The handler pours the digits of the field's value into a pattern in which `_` and
    digits are slots: the regex `.` visits the pattern character by character, a slot
    takes the next digit while digits remain, a literal is kept while digits remain, and
    once the digits are used up every further character is dropped.  Line terminators
    are not matched by `.`, so `replace` leaves them where they are. */
module PhoneMask {
  import opened JsText

  /** The pattern used when `data-phone-pattern` is absent or empty. */
  const DefaultPattern: string := "+7(___) ___-__-__"

  datatype EventKind = Input | Blur | Focus

  /** The regex class `[_\d]`: a pattern position that takes a digit. */
  predicate IsSlot(c: char) {
    c == '_' || IsDigit(c)
  }

  /** The characters that the regex `.` does not match. */
  predicate IsLineTerminator(c: char) {
    c == '\n' || c == '\r' || c == '\U{2028}' || c == '\U{2029}'
  }

  predicate NoLineBreaks(p: string) {
    forall k :: 0 <= k < |p| ==> !IsLineTerminator(p[k])
  }

  /** `matrix.match(/([\_\d])/g).length`, when the match is not null. */
  function SlotCount(p: string): (n: nat)
    ensures n <= |p|
  {
    Count(p, IsSlot)
  }

  /** `pattern ? pattern : matrix_def`. */
  function Matrix(pattern: Option<string>): (m: string)
    ensures m != ""
    ensures m == DefaultPattern || (pattern.Some? && m == pattern.value)
  {
    if pattern.Some? && pattern.value != "" then pattern.value else DefaultPattern
  }

  /** The replace callback applied across the whole pattern, consuming digits of `v`
      as slots are met: the reference that the loop in `ApplyMask` is proved against. */
  function Fill(p: string, v: string): (r: string)
    ensures |r| <= |p|
  {
    if p == [] then []
    else if IsLineTerminator(p[0]) then [p[0]] + Fill(p[1..], v)
    else if IsSlot(p[0]) && v != [] then [v[0]] + Fill(p[1..], v[1..])
    else if v == [] then Fill(p[1..], v)
    else [p[0]] + Fill(p[1..], v)
  }

  /** One step of the fill, from pattern position `j` with `i` digits used. */
  lemma FillStep(p: string, v: string, j: nat, i: nat)
    requires j < |p| && i <= |v|
    ensures Fill(p[j..], v[i..]) ==
              if IsLineTerminator(p[j]) then [p[j]] + Fill(p[j + 1..], v[i..])
              else if IsSlot(p[j]) && i < |v| then [v[i]] + Fill(p[j + 1..], v[i + 1..])
              else if i >= |v| then Fill(p[j + 1..], v[i..])
              else [p[j]] + Fill(p[j + 1..], v[i..])
  {
    assert p[j..][0] == p[j] && p[j..][1..] == p[j + 1..];
    assert i < |v| ==> v[i..][0] == v[i] && v[i..][1..] == v[i + 1..];
  }

  /** `matrix.replace(/./g, a => …)` with the counter `i` into `val`. */
  method ApplyMask(matrix: string, val: string) returns (out: string)
    ensures out == Fill(matrix, val)
  {
    var i := 0;
    var j := 0;
    out := [];
    while j < |matrix|
      invariant 0 <= j <= |matrix|
      invariant 0 <= i <= |val|
      invariant out + Fill(matrix[j..], val[i..]) == Fill(matrix, val)
    {
      var a := matrix[j];
      FillStep(matrix, val, j, i);
      if IsLineTerminator(a) {
        EmitOne(out, a, Fill(matrix[j + 1..], val[i..]));
        out := out + [a];
      } else if IsSlot(a) && i < |val| {
        EmitOne(out, val[i], Fill(matrix[j + 1..], val[i + 1..]));
        out := out + [val[i]];
        i := i + 1;
      } else if i >= |val| {
      } else {
        EmitOne(out, a, Fill(matrix[j + 1..], val[i..]));
        out := out + [a];
      }
      j := j + 1;
    }
    assert matrix[j..] == [];
  }

  /** Emitting character `c` moves it from the part of the fill still to come onto the
      end of the output built so far. */
  lemma EmitOne(out: string, c: char, rest: string)
    ensures out + ([c] + rest) == (out + [c]) + rest
  {
  }

  /** Lines 131-134: the value's digits, or the pattern's own digits when the value has no
      more digits than the pattern, poured into the pattern. */
  function Pour(matrix: string, val: string): (r: string)
    ensures |r| <= |matrix|
  {
    Fill(matrix, if |Digits(matrix)| >= |val| then Digits(matrix) else val)
  }

  /** What one event does to the field. */
  datatype MaskStep =
    | Cleared                 // the value is set to '' (blur with too few digits)
    | Masked(value: string)   // the value is set to the filled pattern
    | MatchWasNull            // `matrix.match(...)` found no slot: reading `.length` throws

  /** The listener, given the field's `data-phone-pattern`, `data-phone-clear`, the event
      type and the field's value. */
  function OnEvent(pattern: Option<string>, clear: Option<string>, kind: EventKind, value: string): (r: MaskStep)
    ensures r == MatchWasNull <==> kind == Blur && clear != Some("false") && SlotCount(Matrix(pattern)) == 0
    ensures r.Masked? ==> |r.value| <= |Matrix(pattern)|
  {
    var matrix := Matrix(pattern);
    var val := Digits(value);
    if clear != Some("false") && kind == Blur && SlotCount(matrix) == 0 then MatchWasNull
    else if clear != Some("false") && kind == Blur && |val| < SlotCount(matrix) then Cleared
    else Masked(Pour(matrix, val))
  }

  /** An input element with a phone mask. */
  class PhoneInput {
    var value: string
    const phonePattern: Option<string>
    const phoneClear: Option<string>

    constructor (value: string, phonePattern: Option<string>, phoneClear: Option<string>)
      ensures this.value == value && this.phonePattern == phonePattern && this.phoneClear == phoneClear
    {
      this.value := value;
      this.phonePattern := phonePattern;
      this.phoneClear := phoneClear;
    }

    /** Runs the listener for one event; `threw` reports the TypeError of a pattern
        without slots, in which case the value is left as it was. */
    method Handle(kind: EventKind) returns (threw: bool)
      modifies this
      ensures threw <==> OnEvent(phonePattern, phoneClear, kind, old(value)) == MatchWasNull
      ensures value == match OnEvent(phonePattern, phoneClear, kind, old(value))
                       case Cleared => ""
                       case Masked(v) => v
                       case MatchWasNull => old(value)
    {
      var matrix := Matrix(phonePattern);
      var def := Digits(matrix);
      var val := Digits(value);
      threw := false;
      if phoneClear != Some("false") && kind == Blur {
        var slots := SlotCount(matrix);
        if slots == 0 {
          threw := true;
          return;
        }
        if |val| < slots {
          value := "";
          return;
        }
      }
      if |def| >= |val| {
        val := def;
      }
      value := ApplyMask(matrix, val);
    }
  }

  // ---------------------------------------------------------------------------
  // Properties of the fill

  /** With no digits left, a pattern without line breaks contributes nothing. */
  lemma {:induction false} FillExhausted(p: string)
    requires NoLineBreaks(p)
    ensures Fill(p, []) == []
  {
    if p != [] {
      FillExhausted(p[1..]);
    }
  }

  lemma SlotCountCons(c: char, p: string)
    ensures SlotCount([c] + p) == (if IsSlot(c) then 1 else 0) + SlotCount(p)
  {
    KeepConcat([c], p, IsSlot);
  }

  /** Position `k` of the output is the pattern's character there, or, on a slot, the
      digit numbered by the slots before it. */
  lemma {:induction false} FillAligned(p: string, v: string)
    requires NoLineBreaks(p)
    ensures forall k :: 0 <= k < |Fill(p, v)| ==>
              if IsSlot(p[k]) then SlotCount(p[..k]) < |v| && Fill(p, v)[k] == v[SlotCount(p[..k])]
              else Fill(p, v)[k] == p[k]
  {
    if p == [] {
    } else if v == [] {
      FillExhausted(p);
    } else {
      var c, rest := p[0], p[1..];
      var v' := if IsSlot(c) then v[1..] else v;
      FillAligned(rest, v');
      var r := Fill(p, v);
      assert r == [if IsSlot(c) then v[0] else c] + Fill(rest, v');
      forall k | 0 < k < |r|
        ensures if IsSlot(p[k]) then SlotCount(p[..k]) < |v| && r[k] == v[SlotCount(p[..k])]
                else r[k] == p[k]
      {
        assert p[..k] == [c] + rest[..k - 1];
        SlotCountCons(c, rest[..k - 1]);
      }
      assert p[..0] == [];
    }
  }

  /** Where the output stops: after the whole pattern when there are more digits than
      slots, otherwise right after the slot that received the last digit (nothing at all
      when there are no digits). */
  lemma {:induction false} FillLength(p: string, v: string)
    requires NoLineBreaks(p)
    ensures |v| > SlotCount(p) ==> |Fill(p, v)| == |p|
    ensures |v| <= SlotCount(p) ==> SlotCount(p[..|Fill(p, v)|]) == |v|
    ensures 0 < |v| <= SlotCount(p) ==> IsSlot(p[|Fill(p, v)| - 1])
    ensures |v| == 0 ==> Fill(p, v) == []
  {
    if p == [] {
      assert p[..0] == [];
    } else if v == [] {
      FillExhausted(p);
      assert p[..0] == [];
    } else {
      var c, rest := p[0], p[1..];
      var v' := if IsSlot(c) then v[1..] else v;
      FillLength(rest, v');
      SlotCountCons(c, rest);
      var n := |Fill(rest, v')|;
      assert |Fill(p, v)| == n + 1;
      assert p[..n + 1] == [c] + rest[..n];
      SlotCountCons(c, rest[..n]);
      if |v'| == 0 {
        assert p[..n + 1] == [c];
      }
    }
  }

  /** The digits written into the slots are, in order, the first
      min(|v|, number of slots) digits of `v`. */
  lemma {:induction false} FillDigits(p: string, v: string)
    requires NoLineBreaks(p)
    requires forall k :: 0 <= k < |v| ==> IsDigit(v[k])
    ensures Digits(Fill(p, v)) == v[..if |v| < SlotCount(p) then |v| else SlotCount(p)]
  {
    if p == [] {
    } else if v == [] {
      FillExhausted(p);
    } else {
      var c, rest := p[0], p[1..];
      SlotCountCons(c, rest);
      assert p == [c] + rest;
      if IsSlot(c) {
        var tail := Fill(rest, v[1..]);
        assert Fill(p, v) == [v[0]] + tail;
        FillDigits(rest, v[1..]);
        DigitsSlotStep(v, tail, if |v| < SlotCount(p) then |v| else SlotCount(p));
      } else {
        var tail := Fill(rest, v);
        assert Fill(p, v) == [c] + tail;
        FillDigits(rest, v);
        KeepConcat([c], tail, IsDigit);
        assert Digits([c]) == [];
      }
    }
  }

  lemma DigitsSlotStep(v: string, tail: string, m: nat)
    requires 1 <= m <= |v| && IsDigit(v[0])
    requires Digits(tail) == v[1..][..m - 1]
    ensures Digits([v[0]] + tail) == v[..m]
  {
    KeepConcat([v[0]], tail, IsDigit);
    assert Digits([v[0]]) == [v[0]];
    assert v[..m] == [v[0]] + v[1..][..m - 1];
  }

  /** A pattern whose last character is a slot. */
  predicate EndsWithSlot(p: string) {
    p != [] && IsSlot(p[|p| - 1])
  }

  /** Digits beyond the slots never show: when the pattern ends with a slot, keeping
      only as many digits as there are slots gives the same output. */
  lemma {:induction false} FillSaturated(p: string, v: string)
    requires NoLineBreaks(p) && EndsWithSlot(p)
    requires SlotCount(p) <= |v|
    ensures Fill(p, v[..SlotCount(p)]) == Fill(p, v)
  {
    var c, rest := p[0], p[1..];
    assert p == [c] + rest;
    SlotCountCons(c, rest);
    var s := SlotCount(p);
    if |p| == 1 {
      assert IsSlot(c) && rest == [];
      assert v[..s][1..] == [];
    } else {
      assert rest[|rest| - 1] == p[|p| - 1];
      if IsSlot(c) {
        FillSaturated(rest, v[1..]);
        assert v[..s][1..] == v[1..][..s - 1];
        assert Fill(p, v) == [v[0]] + Fill(rest, v[1..]);
      } else {
        assert SlotCount(rest) > 0 by {
          CountPositive(rest, |rest| - 1);
        }
        FillSaturated(rest, v);
        assert Fill(p, v) == [c] + Fill(rest, v);
      }
    }
  }

  lemma {:induction false} CountPositive(s: string, k: nat)
    requires k < |s| && IsSlot(s[k])
    ensures SlotCount(s) > 0
  {
    if k > 0 {
      CountPositive(s[1..], k - 1);
      SlotCountCons(s[0], s[1..]);
      assert s == [s[0]] + s[1..];
    }
  }

  /** Every digit of a pattern is a slot, so a pattern has at least as many slots as
      fixed digits. */
  lemma PatternDigitsAreSlots(p: string)
    ensures |Digits(p)| <= SlotCount(p)
  {
    CountMonotone(p, IsDigit, IsSlot);
  }

  // ---------------------------------------------------------------------------
  // Properties of the listener

  /** The default pattern is used exactly when `data-phone-pattern` is absent or empty. */
  lemma DefaultWhenAbsentOrEmpty(pattern: Option<string>)
    ensures pattern.None? || pattern.value == "" ==> Matrix(pattern) == DefaultPattern
    ensures pattern.Some? && pattern.value != "" ==> Matrix(pattern) == pattern.value
  {
  }

  /** Only a blur clears, and only when clearing is not disabled and the value has fewer
      digits than the pattern has slots. */
  lemma ClearingRule(pattern: Option<string>, clear: Option<string>, kind: EventKind, value: string)
    ensures OnEvent(pattern, clear, kind, value) == Cleared <==>
              && kind == Blur && clear != Some("false")
              && 0 < SlotCount(Matrix(pattern)) && |Digits(value)| < SlotCount(Matrix(pattern))
    ensures kind != Blur ==> OnEvent(pattern, clear, kind, value).Masked?
  {
  }

  /** When the value has no more digits than the pattern's own fixed digits, the pattern's
      digits are poured in instead. */
  lemma PatternDigitsWin(pattern: Option<string>, clear: Option<string>, kind: EventKind, value: string)
    requires |Digits(value)| <= |Digits(Matrix(pattern))|
    requires OnEvent(pattern, clear, kind, value).Masked?
    ensures OnEvent(pattern, clear, kind, value) == Masked(Fill(Matrix(pattern), Digits(Matrix(pattern))))
  {
  }

  /** Pouring the digits of a poured value again gives the same value, for a pattern
      without line breaks that ends with a slot and has more slots than fixed digits. */
  lemma {:induction false} PourStable(m: string, v: string)
    requires NoLineBreaks(m) && EndsWithSlot(m)
    requires |Digits(m)| < SlotCount(m)
    requires forall k :: 0 <= k < |v| ==> IsDigit(v[k])
    ensures Pour(m, Digits(Pour(m, v))) == Pour(m, v)
  {
    var def, s := Digits(m), SlotCount(m);
    var v1 := if |def| >= |v| then def else v;
    FillDigits(m, v1);
    PatternDigitsAreSlots(m);
    if |v1| <= s {
      assert v1[..|v1|] == v1;
      assert Digits(Pour(m, v)) == v1;
    } else {
      assert v1 == v;
      assert Digits(Pour(m, v)) == v[..s];
      FillSaturated(m, v);
    }
  }

  /** Re-running the listener on its own output (the next `input` or `focus` event)
      changes nothing, under the conditions of `PourStable`, which the default pattern
      meets. */
  lemma MaskStable(pattern: Option<string>, clear: Option<string>, kind: EventKind, value: string, again: EventKind)
    requires NoLineBreaks(Matrix(pattern)) && EndsWithSlot(Matrix(pattern))
    requires |Digits(Matrix(pattern))| < SlotCount(Matrix(pattern))
    requires OnEvent(pattern, clear, kind, value).Masked?
    requires again != Blur
    ensures OnEvent(pattern, clear, again, OnEvent(pattern, clear, kind, value).value)
            == OnEvent(pattern, clear, kind, value)
  {
    var m := Matrix(pattern);
    var v := Pour(m, Digits(value));
    assert OnEvent(pattern, clear, kind, value) == Masked(v);
    assert OnEvent(pattern, clear, again, v) == Masked(Pour(m, Digits(v)));
    PourStable(m, Digits(value));
  }

  lemma DefaultPatternShape()
    ensures NoLineBreaks(DefaultPattern) && EndsWithSlot(DefaultPattern)
    ensures Digits(DefaultPattern) == "7"
    ensures SlotCount(DefaultPattern) == 11
  {
    DefaultPatternBreaks();
    DefaultPatternDigits();
    DefaultPatternSlots();
  }

  lemma DefaultPatternBreaks()
    ensures NoLineBreaks(DefaultPattern) && EndsWithSlot(DefaultPattern)
  {
    var p := DefaultPattern;
    forall k | 0 <= k < |p| ensures !IsLineTerminator(p[k]) {
      assert p[k] in {'+', '7', '(', '_', ')', ' ', '-'};
    }
  }

  /** The default pattern "+7(___) ___-__-__" as its country code with the opening of the
      area code, the rest of the area code, and the two pairs, with the digits and slots
      of each part. */
  lemma DefaultPatternPieces()
    ensures DefaultPattern == "+7(___" + ") ___" + "-__" + "-__"
    ensures Keep("+7(___", IsDigit) == "7" && Count("+7(___", IsSlot) == 4
    ensures Keep(") ___", IsDigit) == "" && Count(") ___", IsSlot) == 3
    ensures Keep("-__", IsDigit) == "" && Count("-__", IsSlot) == 2
  {
    CodePiece();
    AreaPiece();
    PairPiece();
  }

  lemma CodePiece()
    ensures Keep("+7(___", IsDigit) == "7" && Count("+7(___", IsSlot) == 4
  {
    KeepConcat("+7(", "___", IsDigit);
    KeepConcat("+7(", "___", IsSlot);
    assert "+7(" + "___" == "+7(___";
  }

  lemma AreaPiece()
    ensures Keep(") ___", IsDigit) == "" && Count(") ___", IsSlot) == 3
  {
    KeepConcat(") ", "___", IsDigit);
    KeepConcat(") ", "___", IsSlot);
    assert ") " + "___" == ") ___";
  }

  lemma PairPiece()
    ensures Keep("-__", IsDigit) == "" && Count("-__", IsSlot) == 2
  {
  }

  lemma DefaultPatternDigits()
    ensures Digits(DefaultPattern) == "7"
  {
    var a, b, c := "+7(___", ") ___", "-__";
    DefaultPatternPieces();
    KeepConcat(a, b, IsDigit);
    KeepConcat(a + b, c, IsDigit);
    KeepConcat(a + b + c, c, IsDigit);
  }

  lemma DefaultPatternSlots()
    ensures SlotCount(DefaultPattern) == 11
  {
    var a, b, c := "+7(___", ") ___", "-__";
    DefaultPatternPieces();
    KeepConcat(a, b, IsSlot);
    KeepConcat(a + b, c, IsSlot);
    KeepConcat(a + b + c, c, IsSlot);
  }

  /** A single digit after a leading literal: the literal, the digit, and nothing more. */
  lemma OneDigitAfterLiteral(p: string, d: char)
    requires NoLineBreaks(p) && |p| >= 2 && !IsSlot(p[0]) && IsSlot(p[1])
    ensures Fill(p, [d]) == [p[0], d]
  {
    assert p[1..][0] == p[1] && p[1..][1..] == p[2..];
    assert NoLineBreaks(p[2..]) by {
      forall k | 0 <= k < |p[2..]| ensures !IsLineTerminator(p[2..][k]) {
        assert p[2..][k] == p[k + 2];
      }
    }
    FillExhausted(p[2..]);
    assert [d][1..] == [];
    assert Fill(p[1..], [d]) == [d] + Fill(p[2..], []);
    assert Fill(p, [d]) == [p[0]] + Fill(p[1..], [d]);
  }

  /** An empty field shows "+7" after `input` or `focus` with the default pattern. */
  lemma EmptyFieldShowsPrefix(clear: Option<string>, kind: EventKind)
    requires kind != Blur
    ensures OnEvent(None, clear, kind, "") == Masked("+7")
  {
    DefaultPatternShape();
    var p := DefaultPattern;
    assert Digits("") == [];
    assert OnEvent(None, clear, kind, "") == Masked(Fill(p, "7"));
    assert p[0] == '+' && p[1] == '7';
    OneDigitAfterLiteral(p, '7');
  }

  /** With the default pattern, a blur clears a value with fewer than 11 digits unless
      `data-phone-clear` is 'false'. */
  lemma DefaultBlurThreshold(clear: Option<string>, value: string)
    ensures OnEvent(None, clear, Blur, value) == Cleared <==>
              clear != Some("false") && |Digits(value)| < 11
  {
    DefaultPatternSlots();
    assert Matrix(None) == DefaultPattern;
    ClearingRule(None, clear, Blur, value);
  }

  /** When the digits exactly fill a pattern that ends with a literal, the literal is
      dropped: "(123)" masks to "(123". */
  lemma TrailingLiteralDropped()
    ensures OnEvent(Some("(___)"), None, Input, "(123)") == Masked("(123")
  {
    assert Digits("(___)") == "";
    assert Digits("(123)") == "123";
    assert Fill(")", "") == "";
  }

  /** With one digit more than there are slots the trailing literal is shown. */
  lemma TrailingLiteralShownWhenOverfull()
    ensures OnEvent(Some("(___)"), None, Input, "(1234)") == Masked("(123)")
  {
    assert Digits("(___)") == "";
    assert Digits("(1234)") == "1234";
    assert Fill(")", "4") == ")";
    assert Fill("_)", "34") == "3)";
  }
}
