/** Text primitives the app relies on: Kotlin's `lowercase()`, `contains(…, ignoreCase = true)`,
    `equals(…, ignoreCase = true)`, `isBlank()`, `capitalize()` and `Int.toString()`. Case
    mapping covers the ASCII letters only; `isBlank()` uses Kotlin's full whitespace test. */
module Text {

  predicate IsUpper(c: char) { 'A' <= c <= 'Z' }

  function LowerChar(c: char): char {
    if IsUpper(c) then (c as int + 32) as char else c
  }

  function UpperChar(c: char): char {
    if 'a' <= c <= 'z' then (c as int - 32) as char else c
  }

  /** ASCII `lowercase()`. */
  function ToLower(s: string): string {
    seq(|s|, i requires 0 <= i < |s| => LowerChar(s[i]))
  }

  /** `t` occurs in `s` starting at index `i`. */
  predicate OccursAt(s: string, t: string, i: int) {
    0 <= i && i + |t| <= |s| && s[i..i + |t|] == t
  }

  /** Kotlin `s.contains(t)`: `t` is a substring of `s` (the empty string is in every string). */
  predicate Contains(s: string, t: string) {
    exists i | 0 <= i <= |s| - |t| :: OccursAt(s, t, i)
  }

  /** Kotlin `s.contains(t, ignoreCase = true)`. */
  predicate ContainsIgnoreCase(s: string, t: string) {
    Contains(ToLower(s), ToLower(t))
  }

  /** Kotlin `a.equals(b, ignoreCase = true)`. */
  predicate EqualsIgnoreCase(a: string, b: string) {
    ToLower(a) == ToLower(b)
  }

  /** True when `s` contains one of `words`. */
  predicate ContainsAny(s: string, words: seq<string>) {
    exists k :: 0 <= k < |words| && Contains(s, words[k])
  }

  /** Kotlin `Char.isWhitespace()` on the JVM (`Character.isWhitespace || Character.isSpaceChar`):
      tab, line feed, vertical tab, form feed, carriage return, the four separators U+001C to
      U+001F, and the Unicode space, line and paragraph separators (including the no-break
      spaces). */
  predicate IsWhitespace(c: char) {
    ('\t' <= c <= '\r') || ('\U{1C}' <= c <= ' ') ||
    c == '\U{A0}' || c == '\U{1680}' || ('\U{2000}' <= c <= '\U{200A}') ||
    c == '\U{2028}' || c == '\U{2029}' || c == '\U{202F}' || c == '\U{205F}' || c == '\U{3000}'
  }

  /** Kotlin `isBlank()`: empty or whitespace only. */
  predicate IsBlank(s: string) {
    forall i :: 0 <= i < |s| ==> IsWhitespace(s[i])
  }
  /** The information separators U+001C to U+001F are blank, as in Kotlin; the next-line
      control U+0085 and the zero-width space U+200B are not. */
  lemma SeparatorsAreBlank()
    ensures IsBlank("\U{1C}\U{1D}\U{1E}\U{1F}")
    ensures IsBlank(" \U{A0}\U{3000}")
    ensures !IsBlank("\U{85}") && !IsBlank("\U{200B}")
  {
    assert "\U{85}"[0] == '\U{85}';
    assert "\U{200B}"[0] == '\U{200B}';
  }


  /** Kotlin `capitalize()`: the first character upper-cased. */
  function Capitalize(s: string): (r: string)
    ensures |r| == |s|
    ensures s != [] ==> r[0] == UpperChar(s[0]) && r[1..] == s[1..]
  {
    if s == [] then s else [UpperChar(s[0])] + s[1..]
  }

  function DigitChar(d: int): char
    requires 0 <= d < 10
  {
    ('0' as int + d) as char
  }

  /** Decimal text of a non-negative integer, as Kotlin's `Int.toString()` prints it. */
  function NatToString(n: nat): (r: string)
    ensures |r| >= 1
    ensures forall i :: 0 <= i < |r| ==> '0' <= r[i] <= '9'
    decreases n
  {
    if n < 10 then [DigitChar(n)] else NatToString(n / 10) + [DigitChar(n % 10)]
  }

  /** The value a decimal digit string denotes. */
  function DigitsValue(s: string): int
    requires forall i :: 0 <= i < |s| ==> '0' <= s[i] <= '9'
  {
    if s == [] then 0 else 10 * DigitsValue(s[..|s| - 1]) + (s[|s| - 1] as int - '0' as int)
  }

  /** Reading back the decimal text gives the number: the text is the decimal numeral of `n`. */
  lemma {:induction false} NatToStringValue(n: nat)
    ensures DigitsValue(NatToString(n)) == n
    decreases n
  {
    var r := NatToString(n);
    if n >= 10 {
      NatToStringValue(n / 10);
      assert r[..|r| - 1] == NatToString(n / 10);
    }
  }

  /** Lower-casing is idempotent. */
  lemma ToLowerIdempotent(s: string)
    ensures ToLower(ToLower(s)) == ToLower(s)
  {
    assert forall i :: 0 <= i < |s| ==> LowerChar(LowerChar(s[i])) == LowerChar(s[i]);
  }

  /** A string without upper-case letters is its own lower-case form. */
  lemma ToLowerOfLower(s: string)
    requires forall c :: c in s ==> !IsUpper(c)
    ensures ToLower(s) == s
  {
    assert forall i :: 0 <= i < |s| ==> s[i] in s;
  }

  /** `c` occurs in `ToLower(s)` only if `c` or its upper-case form occurs in `s`. */
  lemma LowerMembership(s: string, c: char)
    requires c in ToLower(s)
    ensures c in s || (IsUpper(UpperChar(c)) && UpperChar(c) in s)
  {
    var i :| 0 <= i < |s| && ToLower(s)[i] == c;
    assert s[i] in s;
  }

  /** `c` in `s` implies its lower-case form is in `ToLower(s)`. */
  lemma LowerKeepsMembership(s: string, c: char)
    requires c in s
    ensures LowerChar(c) in ToLower(s)
  {
    var i :| 0 <= i < |s| && s[i] == c;
    assert ToLower(s)[i] == LowerChar(c);
  }

  /** Every character of a substring occurs in the enclosing string. */
  lemma ContainsChars(s: string, t: string, c: char)
    requires Contains(s, t) && c in t
    ensures c in s
  {
    var i :| 0 <= i <= |s| - |t| && OccursAt(s, t, i);
    assert OccursAt(s, t, i);
    var k :| 0 <= k < |t| && t[k] == c;
    assert s[i + k] == s[i..i + |t|][k];
  }

  /** A character of `t` missing from `s` shows that `t` does not occur in `s`. */
  lemma MissingChar(s: string, t: string, c: char)
    requires c in t && c !in s
    ensures !Contains(s, t)
  {
    if Contains(s, t) {
      ContainsChars(s, t, c);
    }
  }

  /** Case-insensitive form of `MissingChar`: a lower-case letter of `t` that `s` has in neither case. */
  lemma MissingCharIgnoreCase(s: string, t: string, c: char)
    requires 'a' <= c <= 'z' && c in t && c !in s && UpperChar(c) !in s
    ensures !ContainsIgnoreCase(s, t)
  {
    LowerKeepsMembership(t, c);
    if c in ToLower(s) {
      LowerMembership(s, c);
    }
    MissingChar(ToLower(s), ToLower(t), c);
  }

  lemma ContainsSelf(s: string)
    ensures Contains(s, s)
  {
    assert OccursAt(s, s, 0);
  }

  /** A string contains each part of a concatenation it is made of. */
  lemma ContainsMiddle(a: string, t: string, b: string)
    ensures Contains(a + t + b, t)
  {
    var s := a + t + b;
    assert s[|a|..|a| + |t|] == t;
    assert OccursAt(s, t, |a|);
  }

  /** Containment survives widening the text on either side. */
  lemma ContainsWiden(s: string, t: string, a: string, b: string)
    requires Contains(s, t)
    ensures Contains(a + s + b, t)
  {
    var i :| 0 <= i <= |s| - |t| && OccursAt(s, t, i);
    assert OccursAt(s, t, i);
    var w := a + s + b;
    assert w[|a| + i..|a| + i + |t|] == s[i..i + |t|];
    assert OccursAt(w, t, |a| + i);
  }

  /** None of `words` occurs in `s`, shown by naming for each word one of its characters that
      `s` lacks. */
  lemma NoneContained(s: string, words: seq<string>, missing: seq<char>)
    requires |missing| == |words|
    requires forall k :: 0 <= k < |words| ==> missing[k] in words[k] && missing[k] !in s
    ensures !ContainsAny(s, words)
  {
    forall k | 0 <= k < |words| ensures !Contains(s, words[k]) {
      MissingChar(s, words[k], missing[k]);
    }
  }

  /** `x` to the nearest tenth, ties away from zero, as a count of tenths. */
  function RoundTenths(x: real): (n: nat)
    requires x >= 0.0
    ensures (n as real) - 0.5 <= 10.0 * x < (n as real) + 0.5
  {
    (10.0 * x + 0.5).Floor
  }

  /** The text of `n` tenths with one decimal place: `n / 10`, a point, the last digit. */
  function TenthsText(n: nat): (r: string)
    ensures |r| >= 3 && r[|r| - 2] == '.' && '0' <= r[|r| - 1] <= '9'
  {
    NatToString(n / 10) + "." + [DigitChar(n % 10)]
  }

  /** `String.format("%.1f", x)` in a locale whose decimal separator is a point. */
  function OneDecimal(x: real): string {
    if x < 0.0 then "-" + TenthsText(RoundTenths(-x)) else TenthsText(RoundTenths(x))
  }

  /** Reading back the digits of `TenthsText(n)` around the point gives `n` again. */
  lemma {:induction false} TenthsTextValue(n: nat)
    ensures var r := TenthsText(n);
      (forall i :: 0 <= i < |r| - 2 ==> '0' <= r[i] <= '9') &&
      10 * DigitsValue(r[..|r| - 2]) + (r[|r| - 1] as int - '0' as int) == n
  {
    var r := TenthsText(n);
    assert r[..|r| - 2] == NatToString(n / 10);
    NatToStringValue(n / 10);
  }

  lemma ContainsAnyOfTwo(s: string, a: string, b: string)
    ensures ContainsAny(s, [a, b]) <==> Contains(s, a) || Contains(s, b)
  {
    var w := [a, b];
    assert w[0] == a && w[1] == b;
  }

  lemma ContainsAnyOfThree(s: string, a: string, b: string, c: string)
    ensures ContainsAny(s, [a, b, c]) <==> Contains(s, a) || Contains(s, b) || Contains(s, c)
  {
    var w := [a, b, c];
    assert w[0] == a && w[1] == b && w[2] == c;
  }

  lemma ContainsAnyOfFour(s: string, a: string, b: string, c: string, d: string)
    ensures ContainsAny(s, [a, b, c, d]) <==> Contains(s, a) || Contains(s, b) || Contains(s, c) || Contains(s, d)
  {
    var w := [a, b, c, d];
    assert w[0] == a && w[1] == b && w[2] == c && w[3] == d;
  }

  /** A string contains its own beginning. */
  lemma ContainsFront(t: string, b: string)
    ensures Contains(t + b, t)
  {
    assert (t + b)[0..|t|] == t;
    assert OccursAt(t + b, t, 0);
  }

  /** Containment survives putting text in front. */
  lemma ContainsPrepend(s: string, t: string, a: string)
    requires Contains(s, t)
    ensures Contains(a + s, t)
  {
    var i :| 0 <= i <= |s| - |t| && OccursAt(s, t, i);
    assert OccursAt(s, t, i);
    assert (a + s)[|a| + i..|a| + i + |t|] == s[i..i + |t|];
    assert OccursAt(a + s, t, |a| + i);
  }
}
