/**
 * The JavaScript string built-ins the components rely on, restated over
 * `seq<char>`: `trim`, `toLowerCase` (ASCII letters only), `includes`,
 * `replace` with a string pattern (first occurrence only), `slice` with
 * ECMAScript's index clamping, and the decimal rendering of a non-negative
 * integer in a template literal.
 */
module Strings {
  import opened Wrappers

  function Min(a: int, b: int): int { if a <= b then a else b }
  function Max(a: int, b: int): int { if a >= b then a else b }

  // ---------------------------------------------------------------- trim

  /** The code points ECMAScript counts as WhiteSpace or LineTerminator. */
  predicate IsSpace(c: char) {
    ('\t' <= c <= '\r') || c == ' ' || c == '\U{00A0}' || c == '\U{1680}'
    || ('\U{2000}' <= c <= '\U{200A}') || c == '\U{2028}' || c == '\U{2029}'
    || c == '\U{202F}' || c == '\U{205F}' || c == '\U{3000}' || c == '\U{FEFF}'
  }

  /** True when every character of `s` is whitespace (the empty string included). */
  predicate Blank(s: string) {
    forall i :: 0 <= i < |s| ==> IsSpace(s[i])
  }

  /** The length of the longest all-whitespace prefix of `s`. */
  function LeadingSpaces(s: string): (k: nat)
    ensures k <= |s|
    ensures Blank(s[..k])
    ensures k < |s| ==> !IsSpace(s[k])
  {
    if s == [] || !IsSpace(s[0]) then 0
    else
      var k := 1 + LeadingSpaces(s[1..]);
      assert s[..k] == [s[0]] + s[1..][..k - 1];
      k
  }

  /** The length of the longest all-whitespace suffix of `s`. */
  function TrailingSpaces(s: string): (k: nat)
    ensures k <= |s|
    ensures Blank(s[|s| - k..])
    ensures k < |s| ==> !IsSpace(s[|s| - 1 - k])
  {
    if s == [] || !IsSpace(s[|s| - 1]) then 0
    else
      var t := s[..|s| - 1];
      var k := 1 + TrailingSpaces(t);
      assert s[|s| - k..] == t[|t| - (k - 1)..] + [s[|s| - 1]];
      k
  }

  /**
   * `String.prototype.trim`: `s` with its leading and trailing whitespace
   * removed. The result is the slice of `s` that starts after the leading
   * whitespace; it is empty exactly when `s` is blank, and otherwise starts
   * and ends with a non-whitespace character.
   */
  function Trim(s: string): (r: string)
    ensures LeadingSpaces(s) + |r| <= |s|
    ensures r == s[LeadingSpaces(s)..LeadingSpaces(s) + |r|]
    ensures Blank(s[LeadingSpaces(s) + |r|..])
    ensures r == [] <==> Blank(s)
    ensures r != [] ==> !IsSpace(r[0]) && !IsSpace(r[|r| - 1])
  {
    var t := s[LeadingSpaces(s)..];
    TrimParts(s);
    t[..|t| - TrailingSpaces(t)]
  }

  /** The facts behind `Trim`'s contract, stated on its two cut points. */
  lemma TrimParts(s: string)
    ensures var a := LeadingSpaces(s); var t := s[a..]; var b := TrailingSpaces(t);
      var r := t[..|t| - b];
      a + |r| <= |s| && r == s[a..a + |r|] && Blank(s[a + |r|..]) &&
      (r == [] <==> Blank(s)) &&
      (r != [] ==> !IsSpace(r[0]) && !IsSpace(r[|r| - 1]))
  {
    var a := LeadingSpaces(s);
    var t := s[a..];
    var b := TrailingSpaces(t);
    var r := t[..|t| - b];
    assert r == s[a..|s| - b];
    assert s[a + |r|..] == t[|t| - b..];
    if r == [] {
      assert |t| == b && t[|t| - b..] == t;
      assert s[..a] == s;
    } else {
      assert r[0] == s[a];
      assert r[|r| - 1] == t[|t| - 1 - b];
    }
    assert Blank(s) ==> a == |s|;
  }

  /** Trimming twice is trimming once. */
  lemma TrimIdempotent(s: string)
    ensures Trim(Trim(s)) == Trim(s)
  {
    var r := Trim(s);
    if r != [] {
      assert LeadingSpaces(r) == 0;
      assert TrailingSpaces(r) == 0;
    }
  }

  // -------------------------------------------------------------- length

  /** The UTF-16 code units of one character: two for a character outside the Basic Multilingual Plane. */
  function CodeUnits(c: char): nat {
    if c as int > 0xFFFF then 2 else 1
  }

  /** `String.prototype.length`, which counts UTF-16 code units rather than characters. */
  function Utf16Length(s: string): (n: nat)
    ensures |s| <= n <= 2 * |s|
    ensures (forall i :: 0 <= i < |s| ==> s[i] as int <= 0xFFFF) ==> n == |s|
  {
    if s == [] then 0 else CodeUnits(s[0]) + Utf16Length(s[1..])
  }

  // --------------------------------------------------------- toLowerCase

  predicate IsUpper(c: char) { 'A' <= c <= 'Z' }

  predicate NoUpper(s: string) {
    forall i :: 0 <= i < |s| ==> !IsUpper(s[i])
  }

  function LowerChar(c: char): (d: char)
    ensures !IsUpper(d)
    ensures IsUpper(c) ==> d as int == c as int + 32
    ensures !IsUpper(c) ==> d == c
  {
    if IsUpper(c) then (c as int + 32) as char else c
  }

  /** `String.prototype.toLowerCase`, restricted to the ASCII letters. */
  function Lower(s: string): (r: string)
    ensures |r| == |s|
    ensures forall i :: 0 <= i < |s| ==> r[i] == LowerChar(s[i])
    ensures NoUpper(r)
  {
    if s == [] then [] else [LowerChar(s[0])] + Lower(s[1..])
  }

  /** Lowercasing keeps the `length` a script sees. */
  lemma {:induction false} LowerKeepsUtf16Length(s: string)
    ensures Utf16Length(Lower(s)) == Utf16Length(s)
  {
    if s != [] {
      LowerKeepsUtf16Length(s[1..]);
      assert Lower(s)[1..] == Lower(s[1..]);
    }
  }

  /** Lowercasing an already lowercased string changes nothing. */
  lemma LowerIdempotent(s: string)
    ensures Lower(Lower(s)) == Lower(s)
  {
  }

  // ------------------------------------------------- includes / replace

  /** `pat` occurs in `s` starting at index `i`. */
  predicate OccursAt(s: string, pat: string, i: int) {
    0 <= i && i + |pat| <= |s| && s[i..i + |pat|] == pat
  }

  /** The first index at or after `from` where `pat` occurs in `s`. */
  function FindFrom(s: string, pat: string, from: nat): (r: Option<nat>)
    ensures r.Some? ==> from <= r.value && OccursAt(s, pat, r.value)
    ensures r.Some? ==> forall j :: from <= j < r.value ==> !OccursAt(s, pat, j)
    ensures r.None? ==> forall j :: from <= j ==> !OccursAt(s, pat, j)
    decreases |s| - from
  {
    if from + |pat| > |s| then None
    else if s[from..from + |pat|] == pat then Some(from)
    else FindFrom(s, pat, from + 1)
  }

  /** `String.prototype.indexOf`, with `None` for -1: the first index where `pat` occurs. */
  function IndexOf(s: string, pat: string): (r: Option<nat>)
    ensures r.Some? ==> OccursAt(s, pat, r.value) && forall j :: 0 <= j < r.value ==> !OccursAt(s, pat, j)
    ensures r.None? ==> forall j :: !OccursAt(s, pat, j)
  {
    FindFrom(s, pat, 0)
  }

  /** `String.prototype.includes`: `pat` occurs somewhere in `s`. */
  predicate Contains(s: string, pat: string)
    ensures Contains(s, pat) <==> exists i :: OccursAt(s, pat, i)
  {
    IndexOf(s, pat).Some?
  }

  /**
   * `String.prototype.replace` with a string pattern: only the FIRST
   * occurrence of `pat` is replaced by `rep`; without one `s` is returned.
   */
  function ReplaceFirst(s: string, pat: string, rep: string): (r: string)
    ensures !Contains(s, pat) ==> r == s
    ensures Contains(s, pat) ==> |r| == |s| - |pat| + |rep|
    ensures Contains(s, pat) ==>
      var k := IndexOf(s, pat).value;
      r[..k] == s[..k] && r[k..k + |rep|] == rep && r[k + |rep|..] == s[k + |pat|..]
  {
    match IndexOf(s, pat)
    case None => s
    case Some(k) => s[..k] + rep + s[k + |pat|..]
  }

  predicate EndsWith(s: string, suffix: string) {
    |suffix| <= |s| && s[|s| - |suffix|..] == suffix
  }

  // --------------------------------------------------------------- slice

  /** ECMAScript's treatment of a `slice` bound: negative counts from the end, both clamp to the string. */
  function ClampIndex(len: nat, i: int): (k: nat)
    ensures k <= len
    ensures i < 0 ==> k == Max(len + i, 0)
    ensures 0 <= i ==> k == Min(i, len)
  {
    if i < 0 then (if len + i < 0 then 0 else len + i) else if i < len then i else len
  }

  /**
   * `String.prototype.slice(start, end)`: the characters from the clamped
   * start up to the clamped end; an inverted range gives the empty string.
   */
  function Slice(s: string, start: int, end: int): (r: string)
    ensures |r| == Max(0, ClampIndex(|s|, end) - ClampIndex(|s|, start))
    ensures forall i :: 0 <= i < |r| ==> r[i] == s[ClampIndex(|s|, start) + i]
  {
    var from := ClampIndex(|s|, start);
    var to := ClampIndex(|s|, end);
    if from < to then s[from..to] else []
  }

  // ------------------------------------------------- decimal rendering

  predicate IsDigit(c: char) { '0' <= c <= '9' }

  predicate IsDigits(s: string) {
    forall i :: 0 <= i < |s| ==> IsDigit(s[i])
  }

  function DigitChar(d: nat): (c: char)
    requires d < 10
    ensures IsDigit(c) && c as int - '0' as int == d
  {
    ('0' as int + d) as char
  }

  /** The decimal value of a digit string (empty means 0). */
  function DigitsValue(s: string): nat
    requires IsDigits(s)
  {
    if s == [] then 0 else 10 * DigitsValue(s[..|s| - 1]) + (s[|s| - 1] as int - '0' as int)
  }

  /** How a template literal renders a non-negative integer: its decimal digits, without leading zeros. */
  function NatToString(n: nat): (r: string)
    ensures |r| >= 1 && IsDigits(r)
    ensures r[0] == '0' ==> n == 0
    decreases n
  {
    if n < 10 then [DigitChar(n)] else NatToString(n / 10) + [DigitChar(n % 10)]
  }

  /** Reading the rendered digits back gives the number. */
  lemma {:induction false} NatToStringRoundTrip(n: nat)
    ensures DigitsValue(NatToString(n)) == n
    decreases n
  {
    if n >= 10 {
      NatToStringRoundTrip(n / 10);
      var r := NatToString(n);
      assert r[..|r| - 1] == NatToString(n / 10);
    }
  }
}
