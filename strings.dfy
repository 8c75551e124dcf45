/**
 * The handful of JavaScript string operations the transpiler relies on, with
 * JavaScript's own edge cases (charAt past the end, substring with its
 * arguments clamped and swapped, join, includes).
 */
module Strings {

  /** `s.charAt(i)`: the one-character string at `i`, or "" outside the string. */
  function CharAt(s: string, i: int): (c: string)
    ensures |c| <= 1
    ensures c != "" <==> 0 <= i < |s|
    ensures c != "" ==> c[0] == s[i]
  {
    if 0 <= i < |s| then [s[i]] else ""
  }

  /**
   * `charAt` is the one-character `substring` at `i`, and reading it off the
   * front of the rest of the string leaves the rest after it.
   */
  lemma CharAtSubstring(s: string, i: int)
    ensures 0 <= i < |s| ==> CharAt(s, i) == Substring(s, i, i + 1)
    ensures 0 <= i <= |s| ==> CharAt(s, i) + Substring(s, i + 1, |s|) == Substring(s, i, |s|)
  {
    if 0 <= i < |s| {
      assert s[i..] == [s[i]] + s[i + 1..];
    }
  }

  function Clamp(i: int, n: nat): (r: nat)
    ensures r <= n
  {
    if i < 0 then 0 else if i > n then n else i
  }

  /** `s.substring(a, b)`: both ends clamped to the string, swapped when out of order. */
  function Substring(s: string, a: int, b: int): (r: string)
    ensures 0 <= a <= b <= |s| ==> r == s[a..b]
  {
    var x, y := Clamp(a, |s|), Clamp(b, |s|);
    if x <= y then s[x..y] else s[y..x]
  }

  function UpperChar(c: char): char {
    if 'a' <= c <= 'z' then (c as int - 32) as char else c
  }

  /**
   * `s.toUpperCase()` on ASCII. The scanner only ever upper-cases its word
   * lexemes, which consist of ASCII letters, digits, '_' and leading newlines, so
   * ASCII case mapping agrees with JavaScript's full Unicode mapping there.
   */
  function Upper(s: string): (r: string)
    ensures |r| == |s|
  {
    seq(|s|, i requires 0 <= i < |s| => UpperChar(s[i]))
  }

  function LowerChar(c: char): char {
    if 'A' <= c <= 'Z' then (c as int + 32) as char else c
  }

  /** `s.toLowerCase()` on ASCII. */
  function Lower(s: string): (r: string)
    ensures |r| == |s|
  {
    seq(|s|, i requires 0 <= i < |s| => LowerChar(s[i]))
  }

  /** Upper-casing undoes lower-casing on text without lower-case letters. */
  lemma UpperLower(s: string)
    requires forall i :: 0 <= i < |s| ==> !('a' <= s[i] <= 'z')
    ensures Upper(Lower(s)) == s
  {
  }

  /** `parts.join(sep)`. */
  function Join(parts: seq<string>, sep: string): string {
    if parts == [] then ""
    else if |parts| == 1 then parts[0]
    else parts[0] + sep + Join(parts[1..], sep)
  }

  /** Joining two non-empty lists puts exactly one separator between them. */
  lemma {:induction false} JoinConcat(a: seq<string>, b: seq<string>, sep: string)
    requires a != [] && b != []
    ensures Join(a + b, sep) == Join(a, sep) + sep + Join(b, sep)
  {
    if |a| == 1 {
      assert (a + b)[0] == a[0];
      assert (a + b)[1..] == b;
    } else {
      assert (a + b)[0] == a[0];
      assert (a + b)[1..] == a[1..] + b;
      JoinConcat(a[1..], b, sep);
    }
  }

  /** `sub` occurs in `s` starting at `i`. */
  predicate OccursAt(s: string, sub: string, i: int) {
    0 <= i && i + |sub| <= |s| && s[i..i + |sub|] == sub
  }

  /** `s.includes(sub)`: `sub` occurs somewhere in `s`. */
  predicate Includes(s: string, sub: string) {
    exists i | 0 <= i <= |s| :: OccursAt(s, sub, i)
  }

  function DigitChar(d: nat): char
    requires d < 10
  {
    "0123456789"[d]
  }

  function NatText(n: nat): (r: string)
    ensures |r| > 0
    decreases n
  {
    if n < 10 then [DigitChar(n)] else NatText(n / 10) + [DigitChar(n % 10)]
  }

  /** The decimal form JavaScript prints for an integer in a template string. */
  function IntText(n: int): string {
    if n < 0 then "-" + NatText(-n) else NatText(n)
  }
}
