/**
 * `Identifier`: a wallet identifier, which must be a did:web DID whose last
 * path segment is a BPNL business partner number (DID Core section 3.1).
 */
module Identifiers {
  import opened Wrappers
  import opened CharClasses

  /** Length of the fixed tail `:BPNL` followed by twelve hex digits. */
  const BpnlTailLength: nat := 17

  /**
   * The host as the pattern admits it once its `\b` assertions are taken
   * into account: non-empty, from `[a-z\\.]`, and ending in a letter.
   */
  predicate IsHost(h: string)
  {
    |h| > 0 && AllHostChars(h) && IsLowerLetter(h[|h| - 1])
  }

  /** The optional port: `%3A` (upper-case A) and two to five digits. */
  predicate IsPort(p: string)
  {
    5 <= |p| <= 8 && p[..3] == "%3A" && AllDigits(p[3..])
  }

  /** t is a host followed by a port of k characters. */
  predicate IsHostWithPort(t: string, k: nat)
  {
    k <= |t| && IsHost(t[..|t| - k]) && IsPort(t[|t| - k..])
  }

  /** What may stand between `did:web:` and `:BPNL`. */
  predicate IsHostAndPort(t: string)
  {
    IsHost(t) || IsHostWithPort(t, 5) || IsHostWithPort(t, 6) || IsHostWithPort(t, 7) || IsHostWithPort(t, 8)
  }

  /** `:BPNL` followed by exactly twelve lower-case hex digits. */
  predicate IsBpnlTail(t: string)
  {
    |t| == BpnlTailLength && t[..5] == ":BPNL" && AllLowerHex(t[5..])
  }

  /** The recogniser: whether `new Identifier(s)` accepts s. */
  predicate IsIdentifier(s: string)
  {
    && |s| >= |DidWebPrefix| + BpnlTailLength
    && s[..|DidWebPrefix|] == DidWebPrefix
    && IsHostAndPort(s[|DidWebPrefix|..|s| - BpnlTailLength])
    && IsBpnlTail(s[|s| - BpnlTailLength..])
  }

  /*
   * The pattern as written, `^did:web:([a-z\\.]*\b(%3A\d{2,5})?\b)\b:BPNL[0-9a-f]{12}$`,
   * with its word-boundary assertions kept: the host class `[a-z\\.]*` ends
   * at h, the optional port group ends at e, and the two `\b` after the group
   * both sit at e.
   */
  ghost predicate PatternMatchesAt(s: string, h: int, e: int)
  {
    && |DidWebPrefix| <= h <= e
    && e + BpnlTailLength == |s|
    && s[..|DidWebPrefix|] == DidWebPrefix
    && AllHostChars(s[|DidWebPrefix|..h])
    && WordBoundary(s, h)
    && (h == e || IsPort(s[h..e]))
    && WordBoundary(s, e)
    && IsBpnlTail(s[e..])
  }

  ghost predicate MatchesPattern(s: string)
  {
    exists h: int, e: int :: PatternMatchesAt(s, h, e)
  }

  /** An accepted string matches the pattern, with the port group ending where `:BPNL` begins. */
  lemma RecogniserMatchesPattern(s: string)
    requires IsIdentifier(s)
    ensures MatchesPattern(s)
  {
    var e := |s| - BpnlTailLength;
    var t := s[8..e];
    var k := PortLength(t);
    var h := e - k;
    assert s[8..h] == t[..|t| - k];
    assert IsWordAt(s, h - 1) by { assert s[h - 1] == t[..|t| - k][h - 9]; }
    assert s[e] == s[e..][0];
    if k != 0 {
      var p := s[h..e];
      assert p == t[|t| - k..];
      assert s[h] == p[0];
      assert s[e - 1] == p[3..][k - 4];
    }
    assert PatternMatchesAt(s, h, e);
  }

  /** A match of the pattern is accepted: its `\b` force a non-empty host ending in a letter. */
  lemma PatternMatchIsAccepted(s: string, h: int, e: int)
    requires PatternMatchesAt(s, h, e)
    ensures IsIdentifier(s)
  {
    assert s[e] == s[e..][0];
    if h != e {
      assert s[h] == s[h..e][0];
    }
    assert !IsWordAt(s, h);
    assert s[7] == s[..8][7];
    assert h > 8;
    var host := s[8..h];
    assert s[h - 1] == host[h - 9];
    assert IsHost(host);
    var t := s[8..e];
    assert t[..h - 8] == host;
    if h != e {
      assert t[h - 8..] == s[h..e];
      assert IsHostWithPort(t, e - h);
    }
  }

  /**
   * The recogniser accepts exactly the strings the pattern matches: the
   * word boundaries amount to "the host is non-empty and ends in a letter".
   */
  lemma PatternIffRecogniser(s: string)
    ensures MatchesPattern(s) <==> IsIdentifier(s)
  {
    if IsIdentifier(s) {
      RecogniserMatchesPattern(s);
    }
    if MatchesPattern(s) {
      var h: int, e: int :| PatternMatchesAt(s, h, e);
      PatternMatchIsAccepted(s, h, e);
    }
  }

  /** The parts of an accepted identifier. */
  datatype DidWeb = DidWeb(host: string, port: Option<string>, bpnSuffix: string)

  /** A port number as the pattern admits it: two to five digits. */
  predicate IsPortNumber(port: Option<string>)
  {
    port.Some? ==> 2 <= |port.value| <= 5 && AllDigits(port.value)
  }

  predicate WellFormed(d: DidWeb)
  {
    IsHost(d.host) && IsPortNumber(d.port) && |d.bpnSuffix| == 12 && AllLowerHex(d.bpnSuffix)
  }

  function PortText(port: Option<string>): string
  {
    if port.Some? then "%3A" + port.value else ""
  }

  /** `did:web:` + host + optional `%3A` port + `:BPNL` + twelve hex digits. */
  function Render(d: DidWeb): string
  {
    DidWebPrefix + (d.host + PortText(d.port)) + (":BPNL" + d.bpnSuffix)
  }

  /** The length of the port text at the end of t, 0 when there is none. */
  function PortLength(t: string): (k: nat)
    requires IsHostAndPort(t)
    ensures k <= |t|
    ensures k == 0 ==> IsHost(t)
    ensures k != 0 ==> IsHostWithPort(t, k)
  {
    if IsHost(t) then 0
    else if IsHostWithPort(t, 5) then 5
    else if IsHostWithPort(t, 6) then 6
    else if IsHostWithPort(t, 7) then 7
    else 8
  }

  function HostOf(t: string): string
    requires IsHostAndPort(t)
  {
    t[..|t| - PortLength(t)]
  }

  function PortOf(t: string): Option<string>
    requires IsHostAndPort(t)
  {
    var k := PortLength(t);
    if k == 0 then None else Some(t[|t| - k + 3..])
  }

  function Parse(s: string): DidWeb
    requires IsIdentifier(s)
  {
    var t := s[8..|s| - BpnlTailLength];
    DidWeb(HostOf(t), PortOf(t), s[|s| - 12..])
  }

  lemma HostAndPortSplit(t: string)
    requires IsHostAndPort(t)
    ensures IsHost(HostOf(t)) && IsPortNumber(PortOf(t))
    ensures HostOf(t) + PortText(PortOf(t)) == t
  {
    var k := PortLength(t);
    if k != 0 {
      var p := t[|t| - k..];
      assert p[3..] == PortOf(t).value;
      assert p == "%3A" + p[3..];
      assert t == HostOf(t) + p;
    }
  }

  /** In host + port text, the port text starts exactly after the host. */
  lemma PortSplitUnique(host: string, port: Option<string>, k: nat)
    requires IsHost(host) && IsPortNumber(port)
    requires IsHostWithPort(host + PortText(port), k)
    ensures port.Some? && k == |PortText(port)|
  {
    var t := host + PortText(port);
    var n := |t| - k;
    PortStartsWithPercent(t, k);
    if n < |host| {
      assert false;
    } else if n > |host| {
      assert false;
    }
  }

  lemma PortStartsWithPercent(t: string, k: nat)
    requires IsHostWithPort(t, k)
    ensures t[|t| - k] == '%'
  {
    assert t[|t| - k..][0] == t[|t| - k];
  }

  lemma HostAndPortJoin(host: string, port: Option<string>)
    requires IsHost(host) && IsPortNumber(port)
    ensures IsHostAndPort(host + PortText(port))
    ensures HostOf(host + PortText(port)) == host && PortOf(host + PortText(port)) == port
  {
    var pt := PortText(port);
    var t := host + pt;
    if port.Some? {
      assert t[..|t| - |pt|] == host;
      assert t[|t| - |pt|..] == pt;
      assert pt[3..] == port.value;
      assert IsHostWithPort(t, |pt|);
      assert !IsHost(t) by { assert t[|t| - 1] == pt[|pt| - 1]; }
      PortSplitUnique(host, port, PortLength(t));
    } else {
      assert t == host;
    }
  }

  lemma BpnlTailSplit(t: string)
    requires IsBpnlTail(t)
    ensures t == ":BPNL" + t[5..]
  {
  }

  /** Every accepted string is the rendering of well-formed parts. */
  lemma ParseThenRender(s: string)
    requires IsIdentifier(s)
    ensures WellFormed(Parse(s)) && Render(Parse(s)) == s
  {
    var t := s[8..|s| - BpnlTailLength];
    var tail := s[|s| - BpnlTailLength..];
    HostAndPortSplit(t);
    BpnlTailSplit(tail);
    assert tail[5..] == s[|s| - 12..];
    assert s == s[..8] + t + tail;
  }

  /** Every rendering of well-formed parts is accepted, and parses back. */
  lemma RenderThenParse(d: DidWeb)
    requires WellFormed(d)
    ensures IsIdentifier(Render(d)) && Parse(Render(d)) == d
  {
    var s := Render(d);
    var t := d.host + PortText(d.port);
    var tail := ":BPNL" + d.bpnSuffix;
    HostAndPortJoin(d.host, d.port);
    assert s[..8] == DidWebPrefix;
    assert s[8..|s| - BpnlTailLength] == t;
    assert s[|s| - BpnlTailLength..] == tail;
    assert tail[5..] == d.bpnSuffix;
    assert s[|s| - 12..] == d.bpnSuffix;
  }

  /** An identifier: a string the recogniser accepts. `value()` is the string itself. */
  type Identifier = s: string | IsIdentifier(s) witness "did:web:a:BPNL000000000000"

  /**
   * `new Identifier(s)`: accepted iff the recogniser accepts s, and the
   * value is then s unchanged; otherwise IllegalArgumentException and no
   * object.
   */
  function NewIdentifier(s: string): (r: Result<Identifier>)
    ensures r.Ok? <==> IsIdentifier(s)
    ensures r.Ok? ==> r.value == s
    ensures r.Err? ==> r.error == IllegalArgument
  {
    if IsIdentifier(s) then Ok(s) else Err(IllegalArgument)
  }
}
