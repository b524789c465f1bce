/** String operations of the JavaScript runtime that the browser scripts rely on:
    the `\s`/`trim` whitespace class, the `\d` digit class, filtering a string by a
    character class (`replace(/[^…]/g, '')`), and `length` in UTF-16 code units. */
module JsText {

  datatype Option<T> = None | Some(value: T)

  /** WhiteSpace or LineTerminator of ECMAScript: what `String.prototype.trim` removes
      and what the regex class `\s` matches. */
  predicate IsJsSpace(c: char) {
    || c == '\t' || c == '\n' || c == '\U{000B}' || c == '\U{000C}' || c == '\r' || c == ' '
    || c == '\U{00A0}' || c == '\U{1680}' || ('\U{2000}' <= c <= '\U{200A}')
    || c == '\U{2028}' || c == '\U{2029}' || c == '\U{202F}' || c == '\U{205F}'
    || c == '\U{3000}' || c == '\U{FEFF}'
  }

  /** The regex class `\d`: ASCII digits only. */
  predicate IsDigit(c: char) {
    '0' <= c <= '9'
  }

  /** The characters of `s` that satisfy `p`, in order: `s.replace(/[^class]/g, '')`. */
  function Keep(s: string, p: char -> bool): (r: string)
    ensures |r| <= |s|
    ensures forall k :: 0 <= k < |r| ==> p(r[k])
  {
    if s == [] then []
    else
      assert s == [s[0]] + s[1..];
      (if p(s[0]) then [s[0]] else []) + Keep(s[1..], p)
  }

  /** Number of characters of `s` that satisfy `p`. */
  function Count(s: string, p: char -> bool): nat {
    |Keep(s, p)|
  }

  /** Filtering distributes over concatenation. */
  lemma {:induction false} KeepConcat(a: string, b: string, p: char -> bool)
    ensures Keep(a + b, p) == Keep(a, p) + Keep(b, p)
  {
    if a == [] {
      assert a + b == b;
    } else {
      assert (a + b)[1..] == a[1..] + b;
      KeepConcat(a[1..], b, p);
    }
  }

  /** Every character that satisfies `p` is kept, at the position given by the number of
      such characters before it: the filter keeps all of them, in their original order. */
  lemma {:induction false} KeepRank(s: string, p: char -> bool, k: nat)
    requires k < |s| && p(s[k])
    ensures Count(s[..k], p) < Count(s, p)
    ensures Keep(s, p)[Count(s[..k], p)] == s[k]
  {
    assert s == [s[0]] + s[1..];
    if k == 0 {
      assert s[..0] == [];
    } else {
      KeepRank(s[1..], p, k - 1);
      assert s[..k] == [s[0]] + s[1..][..k - 1];
      KeepConcat([s[0]], s[1..][..k - 1], p);
      assert [s[0]][1..] == [];
    }
  }

  /** `KeepRank` for every position of `s`. */
  lemma KeepRanks(s: string, p: char -> bool)
    ensures forall k | 0 <= k < |s| && p(s[k]) ::
              Count(s[..k], p) < Count(s, p) && Keep(s, p)[Count(s[..k], p)] == s[k]
  {
    forall k | 0 <= k < |s| && p(s[k])
      ensures Count(s[..k], p) < Count(s, p) && Keep(s, p)[Count(s[..k], p)] == s[k]
    {
      KeepRank(s, p, k);
    }
  }

  /** A stricter class never keeps more characters than a looser one. */
  lemma {:induction false} CountMonotone(s: string, p: char -> bool, q: char -> bool)
    requires forall c :: p(c) ==> q(c)
    ensures Count(s, p) <= Count(s, q)
  {
    if s != [] {
      CountMonotone(s[1..], p, q);
    }
  }

  /** `s.replace(/\D/g, '')`. */
  function Digits(s: string): (r: string)
    ensures forall k :: 0 <= k < |r| ==> IsDigit(r[k])
  {
    Keep(s, IsDigit)
  }

  /** A character outside the Basic Multilingual Plane: a surrogate pair in UTF-16. */
  predicate IsAstral(c: char) {
    c as int >= 0x10000
  }

  /** `length` of a JavaScript string: characters outside the Basic Multilingual Plane
      take two UTF-16 code units. */
  function Utf16Len(s: string): (n: nat)
    ensures n == |s| + Count(s, IsAstral)
    ensures |s| <= n <= 2 * |s|
  {
    if s == [] then 0
    else (if IsAstral(s[0]) then 2 else 1) + Utf16Len(s[1..])
  }

  predicate AllSpace(s: string) {
    forall k :: 0 <= k < |s| ==> IsJsSpace(s[k])
  }

  /** Drops leading whitespace. */
  function TrimStart(s: string): (r: string)
    ensures |r| <= |s| && r == s[|s| - |r|..]
    ensures AllSpace(s[..|s| - |r|])
    ensures r == [] || !IsJsSpace(r[0])
  {
    if s != [] && IsJsSpace(s[0]) then TrimStart(s[1..]) else s
  }

  /** Drops trailing whitespace. */
  function TrimEnd(s: string): (r: string)
    ensures |r| <= |s| && r == s[..|r|]
    ensures AllSpace(s[|r|..])
    ensures r == [] || !IsJsSpace(r[|r| - 1])
  {
    if s != [] && IsJsSpace(s[|s| - 1]) then TrimEnd(s[..|s| - 1]) else s
  }

  /** `String.prototype.trim`. */
  function Trim(s: string): (r: string)
    ensures r == [] || (!IsJsSpace(r[0]) && !IsJsSpace(r[|r| - 1]))
    ensures exists i | 0 <= i <= |s| - |r| :: Trimmed(s, r, i)
  {
    var t := TrimStart(s);
    var r := TrimEnd(t);
    TrimParts(s, t, r);
    r
  }

  /** Trimming the end of the trimmed start leaves a piece of `s` with whitespace on
      both sides of it. */
  lemma TrimParts(s: string, t: string, r: string)
    requires |t| <= |s| && t == s[|s| - |t|..] && AllSpace(s[..|s| - |t|])
    requires |r| <= |t| && r == t[..|r|] && AllSpace(t[|r|..])
    ensures Trimmed(s, r, |s| - |t|)
  {
    SliceOfSuffix(s, |s| - |t|, |r|);
  }

  /** Taking `m` characters, or dropping them, after position `i` of `s` is one slice of `s`. */
  lemma SliceOfSuffix(s: string, i: nat, m: nat)
    requires i + m <= |s|
    ensures s[i..][..m] == s[i..i + m] && s[i..][m..] == s[i + m..]
  {
  }

  /** `r` is `s` with the all-whitespace prefix `s[..i]` and an all-whitespace suffix removed. */
  predicate Trimmed(s: string, r: string, i: nat)
    requires i <= |s| - |r|
  {
    r == s[i..i + |r|] && AllSpace(s[..i]) && AllSpace(s[i + |r|..])
  }
}
