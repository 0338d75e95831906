/**
 * Referral codes: the first eight characters of the canonical text of a
 * random UUID, upper-cased.
 */
module Codes {

  const CodeLength: nat := 8

  predicate IsLowerHex(c: char) {
    '0' <= c <= '9' || 'a' <= c <= 'f'
  }

  predicate IsUpperHex(c: char) {
    '0' <= c <= '9' || 'A' <= c <= 'F'
  }

  /** The canonical 8-4-4-4-12 text of a UUID: lower-case hex digits and four dashes. */
  predicate IsUuidText(u: string) {
    && |u| == 36
    && forall i :: 0 <= i < |u| ==>
         if i == 8 || i == 13 || i == 18 || i == 23 then u[i] == '-' else IsLowerHex(u[i])
  }

  /** The shape of every code the service hands out. */
  predicate IsCodeShape(code: string) {
    |code| == CodeLength && forall i :: 0 <= i < |code| ==> IsUpperHex(code[i])
  }

  /** Upper-casing of one character, for the ASCII letters (all a hex digit can be). */
  function UpperChar(c: char): char {
    if 'a' <= c <= 'z' then (c as int - 32) as char else c
  }

  /**
   * `str.upper()` on ASCII text: no lower-case letter is left, a lower-case
   * hex digit becomes an upper-case one, and what is already an upper-case
   * hex digit stays as it is.
   */
  function Upper(s: string): (r: string)
    ensures |r| == |s|
    ensures forall i :: 0 <= i < |r| ==> !('a' <= r[i] <= 'z')
    ensures forall i :: 0 <= i < |s| && IsLowerHex(s[i]) ==> IsUpperHex(r[i])
    ensures forall i :: 0 <= i < |s| && IsUpperHex(s[i]) ==> r[i] == s[i]
  {
    seq(|s|, i requires 0 <= i < |s| => UpperChar(s[i]))
  }

  /** A slice `s[:n]`: the whole string when it is shorter than `n`. */
  function Prefix(s: string, n: nat): string {
    if |s| < n then s else s[..n]
  }

  /** The code derived from the text of a UUID. */
  function CodeFromUuid(u: string): (code: string)
    ensures |code| <= CodeLength
    ensures IsUuidText(u) ==> IsCodeShape(code)
  {
    var code := Upper(Prefix(u, CodeLength));
    assert IsUuidText(u) ==> Prefix(u, CodeLength) == u[..CodeLength];
    code
  }
}
