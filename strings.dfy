/**
 * The parts of Kotlin's String and Char library the core relies on:
 * `isWhitespace`/`isBlank`, `contains`, `substringAfter`/`substringBefore`,
 * `Int.toString` and `String.toIntOrNull` on digit strings.
 */
module Strings {
  import opened Wrappers

  const IntMax: int := 0x7FFF_FFFF
  const IntMin: int := -0x8000_0000

  /** Kotlin's `Char.isWhitespace` on the JVM: Java's `isWhitespace` or `isSpaceChar`. */
  predicate IsWhitespace(c: char) {
    ('\t' <= c <= '\r') || ('\U{1C}' <= c <= '\U{20}') || c == '\U{A0}' || c == '\U{1680}'
    || ('\U{2000}' <= c <= '\U{200A}') || c == '\U{2028}' || c == '\U{2029}' || c == '\U{202F}'
    || c == '\U{205F}' || c == '\U{3000}'
  }

  /** Kotlin's `CharSequence.isBlank`: empty or whitespace only. */
  predicate IsBlank(s: string) {
    forall i | 0 <= i < |s| :: IsWhitespace(s[i])
  }

  /**
   * Kotlin's `String.length`: the number of UTF-16 code units, two for each character
   * outside the Basic Multilingual Plane.
   */
  function Utf16Length(s: string): (n: nat)
    ensures |s| <= n <= 2 * |s|
  {
    if s == [] then 0
    else (if s[0] as int > 0xFFFF then 2 else 1) + Utf16Length(s[1..])
  }

  /** Text inside the Basic Multilingual Plane has one UTF-16 unit per character. */
  lemma {:induction false} BasicPlaneLength(s: string)
    requires forall i | 0 <= i < |s| :: s[i] as int <= 0xFFFF
    ensures Utf16Length(s) == |s|
  {
    if s != [] {
      BasicPlaneLength(s[1..]);
    }
  }

  /** Each character outside the Basic Multilingual Plane counts twice. */
  lemma {:induction false} AstralLength(s: string)
    requires forall i | 0 <= i < |s| :: s[i] as int > 0xFFFF
    ensures Utf16Length(s) == 2 * |s|
  {
    if s != [] {
      AstralLength(s[1..]);
    }
  }

  /** `sub` occurs in `s` starting at index `i`. */
  predicate OccursAt(s: string, sub: string, i: nat) {
    i + |sub| <= |s| && s[i..i + |sub|] == sub
  }

  /** The first occurrence of `sub` in `s` at or after `from` (Kotlin's `indexOf`). */
  function IndexOfFrom(s: string, sub: string, from: nat): (r: Option<nat>)
    requires from <= |s|
    ensures r.Some? ==> from <= r.value && OccursAt(s, sub, r.value)
    ensures r.Some? ==> forall j: nat :: from <= j < r.value ==> !OccursAt(s, sub, j)
    ensures r.None? ==> forall j: nat :: from <= j ==> !OccursAt(s, sub, j)
    decreases |s| - from
  {
    if OccursAt(s, sub, from) then Some(from)
    else if from == |s| then None
    else IndexOfFrom(s, sub, from + 1)
  }

  function IndexOf(s: string, sub: string): (r: Option<nat>)
    ensures r.Some? ==> OccursAt(s, sub, r.value) && forall j: nat :: j < r.value ==> !OccursAt(s, sub, j)
    ensures r.None? ==> forall j: nat :: !OccursAt(s, sub, j)
  {
    IndexOfFrom(s, sub, 0)
  }

  /** Kotlin's `CharSequence.contains(other)`. */
  predicate Contains(s: string, sub: string) {
    IndexOf(s, sub).Some?
  }

  lemma ContainsAt(s: string, sub: string, i: nat)
    requires OccursAt(s, sub, i)
    ensures Contains(s, sub)
  {
  }

  lemma ContainsAppend(a: string, b: string, sub: string)
    requires Contains(a, sub)
    ensures Contains(a + b, sub)
  {
    var i := IndexOf(a, sub).value;
    assert (a + b)[i..i + |sub|] == a[i..i + |sub|];
    ContainsAt(a + b, sub, i);
  }

  function LowerChar(c: char): char {
    if 'A' <= c <= 'Z' then (c as int + 32) as char else c
  }

  function Lower(s: string): (r: string)
    ensures |r| == |s| && forall i | 0 <= i < |s| :: r[i] == LowerChar(s[i])
  {
    seq(|s|, i requires 0 <= i < |s| => LowerChar(s[i]))
  }

  /** Kotlin's `contains(other, ignoreCase = true)`, with ASCII case folding. */
  predicate ContainsIgnoreCase(s: string, sub: string) {
    Contains(Lower(s), Lower(sub))
  }

  /** Kotlin's `substringAfter(delimiter)`: the whole string when the delimiter is missing. */
  function SubstringAfter(s: string, delimiter: string): (r: string)
    ensures !Contains(s, delimiter) ==> r == s
    ensures Contains(s, delimiter) ==> exists i: nat :: OccursAt(s, delimiter, i) && r == s[i + |delimiter|..]
  {
    match IndexOf(s, delimiter)
    case Some(i) => s[i + |delimiter|..]
    case None => s
  }

  /** Kotlin's `substringBefore(delimiter)`: the whole string when the delimiter is missing. */
  function SubstringBefore(s: string, delimiter: string): (r: string)
    ensures !Contains(s, delimiter) ==> r == s
    ensures Contains(s, delimiter) ==> |r| <= |s| && r == s[..|r|] && OccursAt(s, delimiter, |r|)
    ensures Contains(s, delimiter) ==> forall j: nat :: j < |r| ==> !OccursAt(s, delimiter, j)
  {
    match IndexOf(s, delimiter)
    case Some(i) => s[..i]
    case None => s
  }

  /** Once the first occurrence is known, `indexOf`, `substringAfter` and `substringBefore` follow. */
  lemma FirstOccurrence(s: string, delimiter: string, k: nat)
    requires OccursAt(s, delimiter, k)
    requires forall j: nat :: j < k ==> !OccursAt(s, delimiter, j)
    ensures IndexOf(s, delimiter) == Some(k)
    ensures SubstringAfter(s, delimiter) == s[k + |delimiter|..]
    ensures SubstringBefore(s, delimiter) == s[..k]
  {
    var r := IndexOf(s, delimiter);
    assert r.Some?;
    assert !(r.value < k);
  }

  /** A delimiter cannot start where its first character does not appear. */
  lemma NoOccurrenceWithoutFirstChar(s: string, delimiter: string, k: nat)
    requires |delimiter| > 0
    requires forall j | 0 <= j < k && j < |s| :: s[j] != delimiter[0]
    ensures forall j: nat :: j < k ==> !OccursAt(s, delimiter, j)
  {
    forall j: nat | j < k
      ensures !OccursAt(s, delimiter, j)
    {
      if j + |delimiter| <= |s| {
        assert s[j..j + |delimiter|][0] == s[j];
      }
    }
  }

  predicate IsDigit(c: char) {
    '0' <= c <= '9'
  }

  predicate AllDigits(s: string) {
    forall i | 0 <= i < |s| :: IsDigit(s[i])
  }

  function DigitChar(d: nat): char
    requires d < 10
  {
    ('0' as int + d) as char
  }

  /** The decimal numeral of `n`, no leading zeros (Kotlin's `Int.toString` for n >= 0). */
  function NatToString(n: nat): (r: string)
    ensures |r| > 0 && AllDigits(r)
    ensures |r| > 1 ==> r[0] != '0'
  {
    if n < 10 then [DigitChar(n)] else NatToString(n / 10) + [DigitChar(n % 10)]
  }

  /** Kotlin's `Int.toString`. */
  function IntToString(n: int): (r: string)
    ensures |r| > 0 && (n < 0 <==> r[0] == '-')
    ensures n >= 0 ==> r == NatToString(n)
  {
    if n < 0 then "-" + NatToString(-n) else NatToString(n)
  }

  /** The value of a string of decimal digits, read left to right. */
  function DigitsValue(s: string): nat
    requires AllDigits(s)
  {
    if s == [] then 0 else DigitsValue(s[..|s| - 1]) * 10 + (s[|s| - 1] as int - '0' as int)
  }

  /** Reading back the numeral of `n` gives `n`. */
  lemma {:induction false} DigitsValueOfNatToString(n: nat)
    ensures DigitsValue(NatToString(n)) == n
  {
    var s := NatToString(n);
    if n >= 10 {
      DigitsValueOfNatToString(n / 10);
      assert s[..|s| - 1] == NatToString(n / 10);
    }
  }

  /** Kotlin's `toIntOrNull` on a string of decimal digits: null when empty or above `Int.MAX_VALUE`. */
  function DigitsToIntOrNull(s: string): (r: Option<int>)
    requires AllDigits(s)
    ensures r.Some? <==> s != [] && DigitsValue(s) <= IntMax
    ensures r.Some? ==> r.value == DigitsValue(s) && 0 <= r.value
  {
    if s == [] || DigitsValue(s) > IntMax then None else Some(DigitsValue(s))
  }
}
