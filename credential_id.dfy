/**
 * `CredentialId`: a DID URL whose fragment is a lower-case RFC 4122 UUID
 * string (DID Core section 3.2), or null for "no credential id".
 */
module CredentialIds {
  import opened Wrappers
  import opened CharClasses

  /** `:BPNL`, twelve hex digits, `#` and a 36-character UUID. */
  const CredentialTailLength: nat := 54

  /** The dash positions of an 8-4-4-4-12 UUID string. */
  predicate IsUuidDash(i: int) { i == 8 || i == 13 || i == 18 || i == 23 }

  /** A lower-case UUID string (section 3 of RFC 4122): 8-4-4-4-12 hex digits. */
  predicate IsUuid(u: string)
  {
    |u| == 36 && forall i :: 0 <= i < 36 ==> if IsUuidDash(i) then u[i] == '-' else IsLowerHex(u[i])
  }

  /** Everything after the host: `:BPNL`, twelve hex digits, `#` and a UUID. */
  predicate IsCredentialTail(t: string)
  {
    |t| == CredentialTailLength && t[..5] == ":BPNL" && AllLowerHex(t[5..17]) && t[17] == '#' && IsUuid(t[18..])
  }

  /**
   * The recogniser: whether `new CredentialId(s)` accepts a non-null s.
   * The host may be empty and may end in any host character; there is no port.
   */
  predicate IsCredentialId(s: string)
  {
    && |s| >= |DidWebPrefix| + CredentialTailLength
    && s[..|DidWebPrefix|] == DidWebPrefix
    && AllHostChars(s[|DidWebPrefix|..|s| - CredentialTailLength])
    && IsCredentialTail(s[|s| - CredentialTailLength..])
  }

  /*
   * The pattern as written,
   * `^did:web:([a-z\\.]*):BPNL[0-9a-f]{12}\b#[0-9a-f]{8}\b-[0-9a-f]{4}\b-[0-9a-f]{4}\b-[0-9a-f]{4}\b-([0-9a-f]{12})$`,
   * split into its characters (ShapeAt) and its five `\b` (BoundariesAt),
   * the host class ending at h.
   */
  ghost predicate ShapeAt(s: string, h: int)
  {
    && |DidWebPrefix| <= h && h + CredentialTailLength == |s|
    && s[..|DidWebPrefix|] == DidWebPrefix
    && AllHostChars(s[|DidWebPrefix|..h])
    && s[h..h + 5] == ":BPNL" && AllLowerHex(s[h + 5..h + 17])
    && s[h + 17] == '#' && AllLowerHex(s[h + 18..h + 26])
    && s[h + 26] == '-' && AllLowerHex(s[h + 27..h + 31])
    && s[h + 31] == '-' && AllLowerHex(s[h + 32..h + 36])
    && s[h + 36] == '-' && AllLowerHex(s[h + 37..h + 41])
    && s[h + 41] == '-' && AllLowerHex(s[h + 42..])
  }

  ghost predicate BoundariesAt(s: string, h: int)
  {
    && WordBoundary(s, h + 17)
    && WordBoundary(s, h + 26)
    && WordBoundary(s, h + 31)
    && WordBoundary(s, h + 36)
    && WordBoundary(s, h + 41)
  }

  ghost predicate MatchesPattern(s: string)
  {
    exists h: int :: ShapeAt(s, h) && BoundariesAt(s, h)
  }

  lemma HexIsWord(s: string, i: int)
    requires 0 <= i < |s| && IsLowerHex(s[i])
    ensures IsWordAt(s, i)
  {
  }

  /** Each `\b` sits between a hex digit and `#` or `-`, so each always holds. */
  lemma BoundariesAlwaysHold(s: string, h: int)
    requires ShapeAt(s, h)
    ensures BoundariesAt(s, h)
  {
    assert s[h + 16] == s[h + 5..h + 17][11];
    assert s[h + 25] == s[h + 18..h + 26][7];
    assert s[h + 30] == s[h + 27..h + 31][3];
    assert s[h + 35] == s[h + 32..h + 36][3];
    assert s[h + 40] == s[h + 37..h + 41][3];
  }

  /** The recogniser accepts exactly the strings whose characters fit the pattern at h = |s| - 54. */
  lemma ShapeIffRecogniser(s: string)
    ensures IsCredentialId(s) <==> |s| >= |DidWebPrefix| + CredentialTailLength && ShapeAt(s, |s| - CredentialTailLength)
  {
    if |s| >= |DidWebPrefix| + CredentialTailLength {
      var h := |s| - CredentialTailLength;
      var t := s[h..];
      var u := t[18..];
      assert t[..5] == s[h..h + 5];
      assert t[5..17] == s[h + 5..h + 17];
      assert t[17] == s[h + 17];
      assert u[..8] == s[h + 18..h + 26];
      assert u[9..13] == s[h + 27..h + 31];
      assert u[14..18] == s[h + 32..h + 36];
      assert u[19..23] == s[h + 37..h + 41];
      assert u[24..] == s[h + 42..];
      if ShapeAt(s, h) {
        forall i | 0 <= i < 36
          ensures if IsUuidDash(i) then u[i] == '-' else IsLowerHex(u[i])
        {
          if i < 8 { assert u[i] == u[..8][i]; }
          else if 8 < i < 13 { assert u[i] == u[9..13][i - 9]; }
          else if 13 < i < 18 { assert u[i] == u[14..18][i - 14]; }
          else if 18 < i < 23 { assert u[i] == u[19..23][i - 19]; }
          else if 23 < i { assert u[i] == u[24..][i - 24]; }
        }
      }
    }
  }

  /** A recogniser without the `\b` assertions accepts the pattern's language. */
  lemma PatternIffRecogniser(s: string)
    ensures MatchesPattern(s) <==> IsCredentialId(s)
  {
    ShapeIffRecogniser(s);
    if IsCredentialId(s) {
      BoundariesAlwaysHold(s, |s| - CredentialTailLength);
    }
  }

  /** A credential id: null, or a string the recogniser accepts. `value()` is the wrapped string. */
  type CredentialId = o: Option<string> | o.None? || IsCredentialId(o.value) witness None

  /**
   * `new CredentialId(s)`: null skips validation and yields a null value; a
   * non-null string is kept unchanged when accepted, and otherwise throws
   * IllegalArgumentException.
   */
  function NewCredentialId(s: Option<string>): (r: Result<CredentialId>)
    ensures s.None? ==> r == Ok(None)
    ensures s.Some? ==> (r.Ok? <==> IsCredentialId(s.value))
    ensures r.Ok? ==> r.value == s
    ensures r.Err? ==> r.error == IllegalArgument
  {
    match s
    case None => Ok(None)
    case Some(v) => if IsCredentialId(v) then Ok(Some(v)) else Err(IllegalArgument)
  }
}
