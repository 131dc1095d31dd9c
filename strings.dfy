/**
 * Character and string helpers shared by the routes and the API client:
 * ASCII lower-casing (the part of `String.prototype.toLowerCase` the routes
 * rely on), prefix and substring tests (`startsWith`, `includes`, Python's
 * `in`), and digit strings in base 10 (Python's `str.isdigit` / `int`) and
 * base 36 (JavaScript's `Number.prototype.toString(36)`).
 */
module Strings {

  // ---------------------------------------------------------------------
  // Lower-casing

  /** `toLowerCase` on one ASCII character: only 'A'..'Z' change. */
  function LowerChar(c: char): char {
    if 'A' <= c <= 'Z' then (c as int + 32) as char else c
  }

  predicate IsLower(s: string) {
    forall i :: 0 <= i < |s| ==> !('A' <= s[i] <= 'Z')
  }

  function ToLower(s: string): (r: string)
    ensures |r| == |s|
    ensures forall i :: 0 <= i < |s| ==> r[i] == LowerChar(s[i])
    ensures IsLower(r)
  {
    if s == [] then [] else [LowerChar(s[0])] + ToLower(s[1..])
  }

  /** Lower-casing a lower-case string changes nothing. */
  lemma LowerOfLower(s: string)
    requires IsLower(s)
    ensures ToLower(s) == s
  {
    assert forall i :: 0 <= i < |s| ==> ToLower(s)[i] == s[i];
  }

  // ---------------------------------------------------------------------
  // Prefixes and substrings

  /** `s.startsWith(p)`. */
  predicate StartsWith(s: string, p: string) {
    |p| <= |s| && s[..|p|] == p
  }

  /** `p` occurs in `s` starting at offset `i`. */
  predicate OccursAt(s: string, p: string, i: int) {
    0 <= i <= |s| - |p| && s[i..i + |p|] == p
  }

  /** `s.includes(p)` / Python's `p in s`: `p` occurs at some offset of `s`. */
  predicate Contains(s: string, p: string) {
    exists i | 0 <= i <= |s| - |p| :: OccursAt(s, p, i)
  }

  /** Whatever contains `p` contains every prefix of `p`. */
  lemma ContainsPrefixOf(s: string, p: string, q: string)
    requires Contains(s, p) && StartsWith(p, q)
    ensures Contains(s, q)
  {
    var i :| 0 <= i <= |s| - |p| && OccursAt(s, p, i);
    assert s[i..i + |q|] == p[..|q|];
    assert OccursAt(s, q, i);
  }

  // ---------------------------------------------------------------------
  // Digit strings

  /** The digits '0'..'9' followed by 'a'..'z', as `toString(36)` writes them. */
  function DigitChar(d: nat): (c: char)
    requires d < 36
  {
    if d < 10 then ('0' as int + d) as char else ('a' as int + d - 10) as char
  }

  predicate IsDigitIn(c: char, base: nat) {
    ('0' <= c <= '9' && (c as int - '0' as int) < base)
    || ('a' <= c <= 'z' && (c as int - 'a' as int) + 10 < base)
  }

  function DigitValue(c: char, base: nat): (d: nat)
    requires IsDigitIn(c, base)
    ensures d < base && d < 36 && DigitChar(d) == c
  {
    if '0' <= c <= '9' then c as int - '0' as int else c as int - 'a' as int + 10
  }

  predicate AllDigits(s: string, base: nat) {
    forall i :: 0 <= i < |s| ==> IsDigitIn(s[i], base)
  }

  /** `n.toString(base)` for a non-negative integer (no leading zeros). */
  function Render(n: nat, base: nat): (r: string)
    requires 2 <= base <= 36
    ensures |r| >= 1 && AllDigits(r, base)
    ensures r[0] == '0' ==> n == 0
    decreases n
  {
    if n < base then [DigitChar(n)]
    else
      DivModBounds(n, base);
      Render(n / base, base) + [DigitChar(n % base)]
  }

  lemma DivModBounds(n: nat, base: nat)
    requires 2 <= base <= n
    ensures 1 <= n / base < n && n % base < base
    ensures n == (n / base) * base + n % base
  {
  }

  /** The value of a digit string (`int(s)` in Python for a decimal `s`). */
  function Parse(s: string, base: nat): nat
    requires AllDigits(s, base)
  {
    if s == [] then 0 else Parse(s[..|s| - 1], base) * base + DigitValue(s[|s| - 1], base)
  }

  /** Parsing what `Render` wrote gives back the number. */
  lemma {:induction false} ParseRender(n: nat, base: nat)
    requires 2 <= base <= 36
    ensures Parse(Render(n, base), base) == n
    decreases n
  {
    var r := Render(n, base);
    if n < base {
      assert r[..0] == [];
    } else {
      DivModBounds(n, base);
      ParseRender(n / base, base);
      assert r[..|r| - 1] == Render(n / base, base);
      assert DigitValue(r[|r| - 1], base) == n % base;
    }
  }

  /** Python's `str.isdigit()` on ASCII text: non-empty and all of '0'..'9'. */
  predicate IsDecimal(s: string) {
    |s| > 0 && AllDigits(s, 10)
  }
}
