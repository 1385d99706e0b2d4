/** Character classes and the anchored regular expressions the core tests strings against. */
module Text {

  /** `\d` in a JavaScript regular expression: an ASCII decimal digit. */
  predicate IsDigit(c: char) {
    '0' <= c <= '9'
  }

  /** `[0-9a-fA-F]`. */
  predicate IsHexDigit(c: char) {
    IsDigit(c) || 'a' <= c <= 'f' || 'A' <= c <= 'F'
  }

  predicate AllDigits(s: string) {
    forall i :: 0 <= i < |s| ==> IsDigit(s[i])
  }

  /** `\d+`, anchored at both ends. */
  predicate IsDigits(s: string) {
    |s| > 0 && AllDigits(s)
  }

  predicate AllHex(s: string) {
    forall i :: 0 <= i < |s| ==> IsHexDigit(s[i])
  }

  /** `s.startsWith("0x")`: the prefix is case-sensitive. */
  predicate HasHexPrefix(s: string) {
    |s| >= 2 && s[0] == '0' && s[1] == 'x'
  }

  /** `/^0x[0-9a-fA-F]{n}$/.test(s)`. JavaScript's `$` without the `m` flag
      matches only at the very end, so nothing may follow the digits. */
  predicate IsPrefixedHex(s: string, n: nat) {
    |s| == n + 2 && HasHexPrefix(s) && AllHex(s[2..])
  }

  /** A string matching `^0x[0-9a-fA-F]{n}$` is exactly "0x" followed by n hex digits,
      whatever their case. */
  lemma PrefixedHexShape(s: string, n: nat)
    ensures IsPrefixedHex(s, n) <==>
              (exists digits: string :: |digits| == n && AllHex(digits) && s == "0x" + digits)
  {
    if IsPrefixedHex(s, n) {
      assert s == "0x" + s[2..];
    }
  }
}
