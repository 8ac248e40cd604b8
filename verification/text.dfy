/** The few JavaScript string operations the scripts rely on: `trim()`,
    `length` (UTF-16 code units), `includes` and `startsWith`. */
module JsText {

  /** ECMAScript WhiteSpace and LineTerminator code points: exactly the
      characters `String.prototype.trim` strips from either end. */
  predicate IsTrimmable(c: char) {
    || c == '\t' || c == '\n' || c == '\U{000B}' || c == '\U{000C}' || c == '\r'
    || c == ' ' || c == '\U{00A0}' || c == '\U{1680}'
    || ('\U{2000}' <= c <= '\U{200A}')
    || c == '\U{2028}' || c == '\U{2029}' || c == '\U{202F}' || c == '\U{205F}'
    || c == '\U{3000}' || c == '\U{FEFF}'
  }

  /** Every character of `s` is whitespace (this includes the empty string). */
  predicate IsBlank(s: string) {
    forall i :: 0 <= i < |s| ==> IsTrimmable(s[i])
  }

  function TrimStart(s: string): (r: string)
    ensures |r| <= |s| && r == s[|s| - |r|..]
    ensures forall i :: 0 <= i < |s| - |r| ==> IsTrimmable(s[i])
    ensures |r| > 0 ==> !IsTrimmable(r[0])
    decreases |s|
  {
    if |s| > 0 && IsTrimmable(s[0]) then TrimStart(s[1..]) else s
  }

  function TrimEnd(s: string): (r: string)
    ensures |r| <= |s| && r == s[..|r|]
    ensures forall i :: |r| <= i < |s| ==> IsTrimmable(s[i])
    ensures |r| > 0 ==> !IsTrimmable(r[|r| - 1])
    decreases |s|
  {
    if |s| > 0 && IsTrimmable(s[|s| - 1]) then TrimEnd(s[..|s| - 1]) else s
  }

  /** `s.trim()`: `s` with its leading and trailing whitespace removed. */
  function Trim(s: string): (r: string)
    ensures |r| <= |s|
    ensures |r| > 0 ==> !IsTrimmable(r[0]) && !IsTrimmable(r[|r| - 1])
  {
    TrimEnd(TrimStart(s))
  }

  /** The trimmed string is empty exactly when the input is blank; this is
      what every `if (!name)` and `name.length === 0` test decides. */
  lemma {:induction false} TrimEmptyIffBlank(s: string)
    ensures Trim(s) == [] <==> IsBlank(s)
  {
    var t := TrimStart(s);
    var k := |s| - |t|;
    if Trim(s) == [] {
      assert |t| == 0;
    } else {
      var r := Trim(s);
      assert !IsTrimmable(r[0]);
      assert r[0] == t[0] == s[k];
    }
  }

  /** Trimming an already trimmed string changes nothing. */
  lemma {:induction false} TrimIdempotent(s: string)
    ensures Trim(Trim(s)) == Trim(s)
  {
    var r := Trim(s);
    if |r| == 0 {
    } else {
      assert TrimStart(r) == r;
      assert TrimEnd(r) == r;
    }
  }

  /** The string's `length` in JavaScript: the number of UTF-16 code units,
      two for every code point outside the Basic Multilingual Plane. */
  function Utf16Length(s: string): (n: nat)
    ensures |s| <= n <= 2 * |s|
    ensures (forall i :: 0 <= i < |s| ==> s[i] < '\U{10000}') ==> n == |s|
  {
    if |s| == 0 then 0
    else (if s[0] < '\U{10000}' then 1 else 2) + Utf16Length(s[1..])
  }

  /** `part` occurs in `text` starting at index `k`. */
  predicate OccursAt(text: string, part: string, k: int) {
    0 <= k <= |text| - |part| && text[k..k + |part|] == part
  }

  /** `text.includes(part)`. */
  predicate Includes(text: string, part: string) {
    exists k | 0 <= k <= |text| - |part| :: OccursAt(text, part, k)
  }

  /** A string built around `part` includes it. */
  lemma IncludesInfix(before: string, part: string, after: string)
    ensures Includes(before + part + after, part)
  {
    var text := before + part + after;
    assert text[|before|..|before| + |part|] == part;
    assert OccursAt(text, part, |before|);
  }

  /** `text.startsWith(prefix)`. */
  predicate StartsWith(text: string, prefix: string) {
    |prefix| <= |text| && text[..|prefix|] == prefix
  }
}
