/**
 * The character classes and the `\b` assertion of the two identifier
 * patterns, for ASCII input.
 */
module CharClasses {

  const DidWebPrefix: string := "did:web:"

  predicate IsLowerLetter(c: char) { 'a' <= c <= 'z' }

  /** `\d` */
  predicate IsDigit(c: char) { '0' <= c <= '9' }

  /** `[0-9a-f]` */
  predicate IsLowerHex(c: char) { IsDigit(c) || 'a' <= c <= 'f' }

  /** `[a-z\\.]`: a lower-case letter, a backslash or a dot. */
  predicate IsHostChar(c: char) { IsLowerLetter(c) || c == '\\' || c == '.' }

  /** A word character for `\b`: `[a-zA-Z0-9_]`. */
  predicate IsWordChar(c: char) { 'a' <= c <= 'z' || 'A' <= c <= 'Z' || IsDigit(c) || c == '_' }

  predicate AllHostChars(s: string) { forall i :: 0 <= i < |s| ==> IsHostChar(s[i]) }

  predicate AllDigits(s: string) { forall i :: 0 <= i < |s| ==> IsDigit(s[i]) }

  predicate AllLowerHex(s: string) { forall i :: 0 <= i < |s| ==> IsLowerHex(s[i]) }

  /** Position i of s holds a word character (outside s there is none). */
  predicate IsWordAt(s: string, i: int) { 0 <= i < |s| && IsWordChar(s[i]) }

  /** `\b` at position i: a word character on exactly one side of i. */
  predicate WordBoundary(s: string, i: int) { IsWordAt(s, i - 1) != IsWordAt(s, i) }
}
