/**
 * `IssueFrameworkCredentialCommand`: the request to issue a framework
 * credential, assembled through a builder whose setters reject null and
 * whose `build()` requires all five fields.
 */
module IssueFrameworkCredentialCommands {
  import opened Wrappers
  import opened DomainTypes
  import Vocabulary

  datatype FrameworkCredentialType =
    | Resiliency
    | BehaviourTwin
    | Pcf
    | Sustainability
    | Quality
    | Traceability

  /** The constant's `value` label. */
  function Value(t: FrameworkCredentialType): string
  {
    match t
    case Resiliency => "ResiliencyCredential"
    case BehaviourTwin => "BehaviorTwinCredential"
    case Pcf => "PcfCredential"
    case Sustainability => "SustainabilityCredential"
    case Quality => "QualityCredential"
    case Traceability => "TraceabilityCredential"
  }

  /** `values()`: the constants in declaration order. */
  const Values: seq<FrameworkCredentialType> := [Resiliency, BehaviourTwin, Pcf, Sustainability, Quality, Traceability]

  /** `ordinal()`: the constant's position in `values()`. */
  function Ordinal(t: FrameworkCredentialType): (i: nat)
    ensures i < |Values| && Values[i] == t
  {
    match t
    case Resiliency => 0
    case BehaviourTwin => 1
    case Pcf => 2
    case Sustainability => 3
    case Quality => 4
    case Traceability => 5
  }

  /** A label belongs to some constant exactly when it belongs to a listed one. */
  lemma LabelListed(text: string)
    ensures (exists t :: Value(t) == text) <==> exists i :: 0 <= i < |Values| && Value(Values[i]) == text
  {
    if exists t :: Value(t) == text {
      var t :| Value(t) == text;
      var i := Ordinal(t);
    }
  }

  /** The six labels are pairwise distinct. */
  lemma LabelsDistinct()
    ensures Vocabulary.LabelsDistinct(Values, Value)
  {
  }

  /**
   * `FrameworkCredentialType.valueOfType`: the constant whose label equals the
   * argument exactly; an unknown label or null throws IllegalArgumentException.
   */
  function ValueOfType(text: Option<string>): (r: Result<FrameworkCredentialType>)
    ensures r.Ok? <==> text.Some? && exists t :: Value(t) == text.value
    ensures r.Ok? ==> Value(r.value) == text.value
    ensures r.Err? ==> r.error == IllegalArgument
  {
    match text
    case None => Err(IllegalArgument)
    case Some(s) =>
      LabelListed(s);
      match Vocabulary.Find(Values, Value, s)
      case Some(t) => Ok(t)
      case None => Err(IllegalArgument)
  }

  /** The lookup is the inverse of the label: `valueOfType(t.value) == t`. */
  lemma ValueOfTypeInverse(t: FrameworkCredentialType)
    ensures ValueOfType(Some(Value(t))) == Ok(t)
  {
    var _ := Ordinal(t);
    LabelsDistinct();
    Vocabulary.FindInverse(Values, Value, t);
  }

  /** A label outside the six is rejected. */
  lemma RejectsUnknownLabel(s: string)
    requires s !in {"ResiliencyCredential", "BehaviorTwinCredential", "PcfCredential",
                    "SustainabilityCredential", "QualityCredential", "TraceabilityCredential"}
    ensures ValueOfType(Some(s)) == Err(IllegalArgument)
  {
  }

  /** The British spelling of the constant's name is not its label. */
  lemma RejectsBritishSpelling()
    ensures ValueOfType(Some("BehaviourTwinCredential")) == Err(IllegalArgument)
    ensures ValueOfType(Some("BehaviorTwinCredential")) == Ok(BehaviourTwin)
  {
    RejectsUnknownLabel("BehaviourTwinCredential");
    ValueOfTypeInverse(BehaviourTwin);
  }

  /** A built command: every field is present. */
  datatype IssueFrameworkCredentialCommand = IssueFrameworkCredentialCommand(
    holderIdentifier: BPN,
    caller: BPN,
    contractTemplate: string,
    contractVersion: string,
    credentialType: FrameworkCredentialType)

  /** The builder; an unset field (Java null) is `None`. */
  class Builder {
    var holderIdentifier: Option<BPN>
    var caller: Option<BPN>
    var contractTemplate: Option<string>
    var contractVersion: Option<string>
    var credentialType: Option<FrameworkCredentialType>

    constructor()
      ensures holderIdentifier == None && caller == None
      ensures contractTemplate == None && contractVersion == None && credentialType == None
    {
      holderIdentifier := None;
      caller := None;
      contractTemplate := None;
      contractVersion := None;
      credentialType := None;
    }

    method SetHolderIdentifier(x: Option<BPN>) returns (o: Outcome)
      modifies this`holderIdentifier
      ensures o == if x.Some? then Pass else Fail(NullPointer("holderIdentifier"))
      ensures holderIdentifier == if x.Some? then x else old(holderIdentifier)
    {
      if x.None? {
        return Fail(NullPointer("holderIdentifier"));
      }
      holderIdentifier := x;
      return Pass;
    }

    method SetContractTemplate(x: Option<string>) returns (o: Outcome)
      modifies this`contractTemplate
      ensures o == if x.Some? then Pass else Fail(NullPointer("contractTemplate"))
      ensures contractTemplate == if x.Some? then x else old(contractTemplate)
    {
      if x.None? {
        return Fail(NullPointer("contractTemplate"));
      }
      contractTemplate := x;
      return Pass;
    }

    method SetContractVersion(x: Option<string>) returns (o: Outcome)
      modifies this`contractVersion
      ensures o == if x.Some? then Pass else Fail(NullPointer("contractVersion"))
      ensures contractVersion == if x.Some? then x else old(contractVersion)
    {
      if x.None? {
        return Fail(NullPointer("contractVersion"));
      }
      contractVersion := x;
      return Pass;
    }

    method SetType(x: Option<FrameworkCredentialType>) returns (o: Outcome)
      modifies this`credentialType
      ensures o == if x.Some? then Pass else Fail(NullPointer("type"))
      ensures credentialType == if x.Some? then x else old(credentialType)
    {
      if x.None? {
        return Fail(NullPointer("type"));
      }
      credentialType := x;
      return Pass;
    }

    method SetCaller(x: Option<BPN>) returns (o: Outcome)
      modifies this`caller
      ensures o == if x.Some? then Pass else Fail(NullPointer("caller"))
      ensures caller == if x.Some? then x else old(caller)
    {
      if x.None? {
        return Fail(NullPointer("caller"));
      }
      caller := x;
      return Pass;
    }

    /**
     * `build()`: IllegalStateException naming the first unset field in the
     * order holderIdentifier, type, contractTemplate, contractVersion, caller;
     * otherwise a command holding the builder's values. Only presence is
     * checked, so empty strings are accepted.
     */
    method Build() returns (r: Result<IssueFrameworkCredentialCommand>)
      ensures r.Ok? <==> holderIdentifier.Some? && credentialType.Some? && contractTemplate.Some?
                         && contractVersion.Some? && caller.Some?
      ensures holderIdentifier.None? ==> r == Err(IllegalState("holderIdentifier"))
      ensures holderIdentifier.Some? && credentialType.None? ==> r == Err(IllegalState("type"))
      ensures holderIdentifier.Some? && credentialType.Some? && contractTemplate.None?
              ==> r == Err(IllegalState("contractTemplate"))
      ensures holderIdentifier.Some? && credentialType.Some? && contractTemplate.Some? && contractVersion.None?
              ==> r == Err(IllegalState("contractVersion"))
      ensures holderIdentifier.Some? && credentialType.Some? && contractTemplate.Some? && contractVersion.Some? && caller.None?
              ==> r == Err(IllegalState("caller"))
      ensures r.Err? ==> r.error.IllegalState?
      ensures r.Ok? ==> r.value == IssueFrameworkCredentialCommand(holderIdentifier.value, caller.value,
                                    contractTemplate.value, contractVersion.value, credentialType.value)
    {
      if holderIdentifier.None? { return Err(IllegalState("holderIdentifier")); }
      if credentialType.None? { return Err(IllegalState("type")); }
      if contractTemplate.None? { return Err(IllegalState("contractTemplate")); }
      if contractVersion.None? { return Err(IllegalState("contractVersion")); }
      if caller.None? { return Err(IllegalState("caller")); }
      return Ok(IssueFrameworkCredentialCommand(holderIdentifier.value, caller.value,
                contractTemplate.value, contractVersion.value, credentialType.value));
    }
  }

  /** Empty contract template and version strings build a command. */
  method BuildWithEmptyContract(holder: BPN, caller: BPN, t: FrameworkCredentialType)
    returns (r: Result<IssueFrameworkCredentialCommand>)
    ensures r == Ok(IssueFrameworkCredentialCommand(holder, caller, "", "", t))
  {
    var b := new Builder();
    var _ := b.SetHolderIdentifier(Some(holder));
    var _ := b.SetType(Some(t));
    var _ := b.SetContractTemplate(Some(""));
    var _ := b.SetContractVersion(Some(""));
    var _ := b.SetCaller(Some(caller));
    r := b.Build();
  }

  /**
   * A null passed to a setter fails and keeps the earlier value, so the
   * built command holds the last non-null value given to each setter.
   */
  method NullSetterKeepsValue(holder: BPN, caller: BPN, template: string, version: string, t: FrameworkCredentialType)
    returns (failed: Outcome, r: Result<IssueFrameworkCredentialCommand>)
    ensures failed == Fail(NullPointer("contractTemplate"))
    ensures r == Ok(IssueFrameworkCredentialCommand(holder, caller, template, version, t))
  {
    var b := new Builder();
    var _ := b.SetHolderIdentifier(Some(holder));
    var _ := b.SetType(Some(t));
    var _ := b.SetContractTemplate(Some(template));
    failed := b.SetContractTemplate(None);
    var _ := b.SetContractVersion(Some(version));
    var _ := b.SetCaller(Some(caller));
    r := b.Build();
  }
}
