/** `SortColumn`: the credential columns a search may be sorted by. */
module SortColumns {
  import opened Wrappers
  import Vocabulary

  datatype SortColumn = CreatedAt | IssuerDid | HolderDid | Type | CredentialId | SelfIssued | Stored

  /** The constant's `value` label. */
  function Value(c: SortColumn): string
  {
    match c
    case CreatedAt => "createdAt"
    case IssuerDid => "issuerDid"
    case HolderDid => "holderDid"
    case Type => "type"
    case CredentialId => "credentialId"
    case SelfIssued => "selfIssued"
    case Stored => "stored"
  }

  /** `values()`: the constants in declaration order. */
  const Values: seq<SortColumn> := [CreatedAt, IssuerDid, HolderDid, Type, CredentialId, SelfIssued, Stored]

  /** `ordinal()`: the constant's position in `values()`. */
  function Ordinal(c: SortColumn): (i: nat)
    ensures i < |Values| && Values[i] == c
  {
    match c
    case CreatedAt => 0
    case IssuerDid => 1
    case HolderDid => 2
    case Type => 3
    case CredentialId => 4
    case SelfIssued => 5
    case Stored => 6
  }

  /** A label belongs to some constant exactly when it belongs to a listed one. */
  lemma LabelListed(text: string)
    ensures (exists c :: Value(c) == text) <==> exists i :: 0 <= i < |Values| && Value(Values[i]) == text
  {
    if exists c :: Value(c) == text {
      var c :| Value(c) == text;
      var i := Ordinal(c);
    }
  }

  /** The seven labels are pairwise distinct. */
  lemma LabelsDistinct()
    ensures Vocabulary.LabelsDistinct(Values, Value)
  {
  }

  /**
   * `valueOfColumn`: the constant whose label equals the argument exactly
   * (case-sensitive); an unknown label or null throws IllegalArgumentException.
   */
  function ValueOfColumn(text: Option<string>): (r: Result<SortColumn>)
    ensures r.Ok? <==> text.Some? && exists c :: Value(c) == text.value
    ensures r.Ok? ==> Value(r.value) == text.value
    ensures r.Err? ==> r.error == IllegalArgument
  {
    match text
    case None => Err(IllegalArgument)
    case Some(t) =>
      LabelListed(t);
      match Vocabulary.Find(Values, Value, t)
      case Some(c) => Ok(c)
      case None => Err(IllegalArgument)
  }

  /** The lookup is the inverse of the label: `valueOfColumn(c.value) == c`. */
  lemma ValueOfColumnInverse(c: SortColumn)
    ensures ValueOfColumn(Some(Value(c))) == Ok(c)
  {
    var _ := Ordinal(c);
    LabelsDistinct();
    Vocabulary.FindInverse(Values, Value, c);
  }

  /** A label outside the seven is rejected; there is no default. */
  lemma RejectsUnknownLabel(t: string)
    requires t !in {"createdAt", "issuerDid", "holderDid", "type", "credentialId", "selfIssued", "stored"}
    ensures ValueOfColumn(Some(t)) == Err(IllegalArgument)
  {
  }

  /** Matching is case-sensitive. */
  lemma RejectsCapitalisedLabel()
    ensures ValueOfColumn(Some("CreatedAt")) == Err(IllegalArgument)
  {
    RejectsUnknownLabel("CreatedAt");
  }
}
