/**
 * Strings the identifier pattern accepts and rejects, one lemma each: the
 * edge cases its character classes and word boundaries decide. Each string
 * is written as `did:web:` + middle + `:BPNL` tail.
 */
module IdentifierExamples {
  import opened Wrappers
  import opened CharClasses
  import opened Identifiers

  /** Whether an identifier is accepted is decided by its middle and its tail. */
  lemma Decompose(middle: string, tail: string)
    requires |tail| == BpnlTailLength
    ensures IsIdentifier(DidWebPrefix + middle + tail) <==> IsHostAndPort(middle) && IsBpnlTail(tail)
  {
    var s := DidWebPrefix + middle + tail;
    assert s[..8] == DidWebPrefix;
    assert s[8..|s| - BpnlTailLength] == middle;
    assert s[|s| - BpnlTailLength..] == tail;
  }

  /** A middle without `%` carries no port, so it must be a host. */
  lemma NoPercentMeansHost(t: string)
    requires forall i :: 0 <= i < |t| ==> t[i] != '%'
    ensures IsHostAndPort(t) <==> IsHost(t)
  {
    forall k: nat | IsHostWithPort(t, k)
      ensures false
    {
      PortStartsWithPercent(t, k);
    }
  }

  lemma AcceptsPlainHost()
    ensures IsIdentifier(DidWebPrefix + "localhost" + ":BPNL000000000000")
  {
    Decompose("localhost", ":BPNL000000000000");
  }

  lemma AcceptsHostWithPort()
    ensures IsIdentifier(DidWebPrefix + "localhost%3A8080" + ":BPNL00000000000a")
  {
    var t, tail := "localhost%3A8080", ":BPNL00000000000a";
    assert IsPort("%3A8080") by {
      assert "%3A8080"[..3] == "%3A";
      assert "%3A8080"[3..] == "8080";
    }
    assert IsHostWithPort(t, 7) by {
      assert t[..|t| - 7] == "localhost";
      assert t[|t| - 7..] == "%3A8080";
    }
    assert IsBpnlTail(tail) by {
      assert tail[..5] == ":BPNL";
      assert tail[5..] == "00000000000a";
    }
    Decompose(t, tail);
  }

  /** `\b` before `:` needs a word character before it: an empty host fails. */
  lemma RejectsEmptyHost()
    ensures !IsIdentifier(DidWebPrefix + "" + ":BPNL000000000000")
  {
    Decompose("", ":BPNL000000000000");
  }

  /** For the same reason a host ending in a dot fails. */
  lemma RejectsHostEndingInDot()
    ensures !IsIdentifier(DidWebPrefix + "a." + ":BPNL000000000000")
  {
    Decompose("a.", ":BPNL000000000000");
  }

  lemma RejectsDigitInHost()
    ensures !IsIdentifier(DidWebPrefix + "host1" + ":BPNL000000000000")
  {
    Decompose("host1", ":BPNL000000000000");
    NoPercentMeansHost("host1");
  }

  lemma RejectsDashInHost()
    ensures !IsIdentifier(DidWebPrefix + "local-host" + ":BPNL000000000000")
  {
    Decompose("local-host", ":BPNL000000000000");
    NoPercentMeansHost("local-host");
    assert "local-host"[5] == '-';
  }

  lemma RejectsUpperCaseHost()
    ensures !IsIdentifier(DidWebPrefix + "Localhost" + ":BPNL000000000000")
  {
    Decompose("Localhost", ":BPNL000000000000");
    NoPercentMeansHost("Localhost");
    assert "Localhost"[0] == 'L';
  }

  /** The port escape is `%3A` with an upper-case A only. */
  lemma RejectsLowerCasePortEscape()
    ensures !IsIdentifier(DidWebPrefix + "localhost%3a8080" + ":BPNL000000000000")
  {
    var t := "localhost%3a8080";
    Decompose(t, ":BPNL000000000000");
    assert t[|t| - 7..][..3] == "%3a";
  }

  lemma RejectsOneDigitPort()
    ensures !IsIdentifier(DidWebPrefix + "localhost%3A8" + ":BPNL000000000000")
  {
    var t := "localhost%3A8";
    Decompose(t, ":BPNL000000000000");
    assert t[|t| - 5..][..3] == "t%3";
    assert t[|t| - 6..][..3] == "st%";
    assert t[|t| - 7..][..3] == "ost";
    assert t[|t| - 8..][..3] == "hos";
  }

  lemma RejectsSixDigitPort()
    ensures !IsIdentifier(DidWebPrefix + "localhost%3A123456" + ":BPNL000000000000")
  {
    var t := "localhost%3A123456";
    Decompose(t, ":BPNL000000000000");
    assert t[|t| - 5..][..3] == "234";
    assert t[|t| - 6..][..3] == "123";
    assert t[|t| - 7..][..3] == "A12";
    assert t[|t| - 8..][..3] == "3A1";
  }

  /** A bare BPN is not an identifier: only the DID form is accepted. */
  lemma RejectsBareBpn()
    ensures !IsIdentifier("BPNL000000000001")
  {
  }

  /** Only a legal-entity BPN (`BPNL`) is accepted: site and address BPNs are not. */
  lemma RejectsOtherBpnPrefixes()
    ensures !IsIdentifier(DidWebPrefix + "localhost" + ":BPNS000000000000")
    ensures !IsIdentifier(DidWebPrefix + "localhost" + ":BPNA000000000000")
  {
    Decompose("localhost", ":BPNS000000000000");
    assert ":BPNS000000000000"[..5] == ":BPNS";
    Decompose("localhost", ":BPNA000000000000");
    assert ":BPNA000000000000"[..5] == ":BPNA";
  }

  lemma RejectsUpperCaseHex()
    ensures !IsIdentifier(DidWebPrefix + "localhost" + ":BPNL00000000000A")
  {
    Decompose("localhost", ":BPNL00000000000A");
    assert ":BPNL00000000000A"[5..][11] == 'A';
  }
}
