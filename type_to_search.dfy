/** `TypeToSearch`: the credential types a search may be restricted to. */
module TypesToSearch {
  import opened Wrappers
  import Vocabulary

  datatype TypeToSearch = BpnCredential | SummaryCredential | MembershipCredential

  /** The constant's `value` label. */
  function Value(t: TypeToSearch): string
  {
    match t
    case BpnCredential => "BpnCredential"
    case SummaryCredential => "SummaryCredential"
    case MembershipCredential => "MembershipCredential"
  }

  /** `values()`: the constants in declaration order. */
  const Values: seq<TypeToSearch> := [BpnCredential, SummaryCredential, MembershipCredential]

  /** `ordinal()`: the constant's position in `values()`. */
  function Ordinal(t: TypeToSearch): (i: nat)
    ensures i < |Values| && Values[i] == t
  {
    match t
    case BpnCredential => 0
    case SummaryCredential => 1
    case MembershipCredential => 2
  }

  /** A label belongs to some constant exactly when it belongs to a listed one. */
  lemma LabelListed(text: string)
    ensures (exists t :: Value(t) == text) <==> exists i :: 0 <= i < |Values| && Value(Values[i]) == text
  {
    if exists t :: Value(t) == text {
      var t :| Value(t) == text;
      var i := Ordinal(t);
    }
  }

  /** The three labels are pairwise distinct. */
  lemma LabelsDistinct()
    ensures Vocabulary.LabelsDistinct(Values, Value)
  {
  }

  /**
   * `valueOfType`: the constant whose label equals the argument exactly
   * (case-sensitive); an unknown label or null throws IllegalArgumentException.
   */
  function ValueOfType(text: Option<string>): (r: Result<TypeToSearch>)
    ensures r.Ok? <==> text.Some? && exists t :: Value(t) == text.value
    ensures r.Ok? ==> Value(r.value) == text.value
    ensures r.Err? ==> r.error == IllegalArgument
  {
    match text
    case None => Err(IllegalArgument)
    case Some(s) =>
      LabelListed(s);
      match Vocabulary.Find(Values, Value, s)
      case Some(t) => Ok(t)
      case None => Err(IllegalArgument)
  }

  /** The lookup is the inverse of the label: `valueOfType(t.value) == t`. */
  lemma ValueOfTypeInverse(t: TypeToSearch)
    ensures ValueOfType(Some(Value(t))) == Ok(t)
  {
    var _ := Ordinal(t);
    LabelsDistinct();
    Vocabulary.FindInverse(Values, Value, t);
  }

  /** A label outside the three is rejected. */
  lemma RejectsUnknownLabel(s: string)
    requires s !in {"BpnCredential", "SummaryCredential", "MembershipCredential"}
    ensures ValueOfType(Some(s)) == Err(IllegalArgument)
  {
  }

  /** Matching is case-sensitive. */
  lemma RejectsLowerCaseLabel()
    ensures ValueOfType(Some("bpnCredential")) == Err(IllegalArgument)
  {
    RejectsUnknownLabel("bpnCredential");
  }
}
