/** Concrete strings `new CredentialId(..)` accepts or rejects. */
module CredentialIdExamples {
  import opened Wrappers
  import opened CharClasses
  import opened CredentialIds
  import Identifiers

  const SampleBpn := "000000000000"
  const SampleUuid := "12528899-160a-48bd-ba15-f396c3959ae9"

  lemma Decompose(host: string, tail: string)
    requires |tail| == CredentialTailLength
    ensures IsCredentialId(DidWebPrefix + host + tail) <==> AllHostChars(host) && IsCredentialTail(tail)
  {
    var s := DidWebPrefix + host + tail;
    assert s[..|DidWebPrefix|] == DidWebPrefix;
    assert s[|DidWebPrefix|..|s| - CredentialTailLength] == host;
    assert s[|s| - CredentialTailLength..] == tail;
  }

  lemma TailDecompose(bpn: string, uuid: string)
    requires |bpn| == 12 && |uuid| == 36
    ensures IsCredentialTail(":BPNL" + bpn + "#" + uuid) <==> AllLowerHex(bpn) && IsUuid(uuid)
  {
    var t := ":BPNL" + bpn + "#" + uuid;
    assert t[..5] == ":BPNL";
    assert t[5..17] == bpn;
    assert t[17] == '#';
    assert t[18..] == uuid;
  }

  lemma SampleUuidIsUuid()
    ensures IsUuid(SampleUuid)
  {
  }

  /** The id used in `CredentialIdTest` is accepted and kept as given. */
  lemma AcceptsTestId()
    ensures NewCredentialId(Some(DidWebPrefix + "localhost" + (":BPNL" + SampleBpn + "#" + SampleUuid)))
         == Ok(Some(DidWebPrefix + "localhost" + (":BPNL" + SampleBpn + "#" + SampleUuid)))
  {
    SampleUuidIsUuid();
    TailDecompose(SampleBpn, SampleUuid);
    Decompose("localhost", ":BPNL" + SampleBpn + "#" + SampleUuid);
  }

  /** "hallo" is rejected with IllegalArgumentException. */
  lemma RejectsHallo()
    ensures NewCredentialId(Some("hallo")) == Err(IllegalArgument)
  {
  }

  /** null is not validated: it yields a credential id without a value. */
  lemma AcceptsNull()
    ensures NewCredentialId(None) == Ok(None)
  {
  }

  /**
   * Unlike an Identifier, the host of a credential id may be empty:
   * `did:web::BPNL…#…` is a credential id but `did:web::BPNL…` is no identifier.
   */
  lemma AcceptsEmptyHost()
    ensures IsCredentialId(DidWebPrefix + "" + (":BPNL" + SampleBpn + "#" + SampleUuid))
    ensures !Identifiers.IsIdentifier(DidWebPrefix + "" + (":BPNL" + SampleBpn))
  {
    SampleUuidIsUuid();
    TailDecompose(SampleBpn, SampleUuid);
    Decompose("", ":BPNL" + SampleBpn + "#" + SampleUuid);
    var s := DidWebPrefix + "" + (":BPNL" + SampleBpn);
    assert s[|DidWebPrefix|..|s| - Identifiers.BpnlTailLength] == "";
  }

  /** Unlike an Identifier, a credential id's host may end in a dot. */
  lemma AcceptsHostEndingInDot()
    ensures IsCredentialId(DidWebPrefix + "localhost." + (":BPNL" + SampleBpn + "#" + SampleUuid))
  {
    SampleUuidIsUuid();
    TailDecompose(SampleBpn, SampleUuid);
    Decompose("localhost.", ":BPNL" + SampleBpn + "#" + SampleUuid);
  }

  /** A credential id carries no port: `%3A8080` after the host is rejected. */
  lemma RejectsPort()
    ensures !IsCredentialId(DidWebPrefix + "localhost%3A8080" + (":BPNL" + SampleBpn + "#" + SampleUuid))
  {
    Decompose("localhost%3A8080", ":BPNL" + SampleBpn + "#" + SampleUuid);
    assert !IsHostChar("localhost%3A8080"[9]);
  }

  /** An upper-case hex digit in the UUID is rejected. */
  lemma RejectsUpperCaseUuid()
    ensures !IsCredentialId(DidWebPrefix + "localhost" + (":BPNL" + SampleBpn + "#" + "12528899-160A-48bd-ba15-f396c3959ae9"))
  {
    var u := "12528899-160A-48bd-ba15-f396c3959ae9";
    assert !IsLowerHex(u[12]);
    TailDecompose(SampleBpn, u);
    Decompose("localhost", ":BPNL" + SampleBpn + "#" + u);
  }

  /** A UUID without its dashes is rejected. */
  lemma RejectsMissingDash()
    ensures !IsCredentialId(DidWebPrefix + "localhost" + (":BPNL" + SampleBpn + "#" + "12528899x160a-48bd-ba15-f396c3959ae9"))
  {
    var u := "12528899x160a-48bd-ba15-f396c3959ae9";
    assert u[8] != '-';
    TailDecompose(SampleBpn, u);
    Decompose("localhost", ":BPNL" + SampleBpn + "#" + u);
  }
}
