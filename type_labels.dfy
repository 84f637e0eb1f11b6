/**
 * The type label stored with a holder's credential: the credential's types
 * without the first "VerifiableCredential", joined by commas.
 */
module TypeLabels {

  /** The base type every verifiable credential lists. */
  const VerifiableCredentialType: string := "VerifiableCredential"

  /** `List.remove(Object)`: drop the first element equal to `x`, if any. */
  function RemoveFirst(s: seq<string>, x: string): (r: seq<string>)
    ensures x !in s ==> r == s
    ensures x in s ==> |r| == |s| - 1
    ensures multiset(r) == multiset(s) - multiset{x}
  {
    if |s| == 0 then []
    else
      assert s == [s[0]] + s[1..];
      if s[0] == x then s[1..] else [s[0]] + RemoveFirst(s[1..], x)
  }

  /** Only the first occurrence goes; the elements around it keep their order. */
  lemma {:induction false} RemoveFirstAt(s: seq<string>, x: string, i: nat)
    requires i < |s| && s[i] == x && x !in s[..i]
    ensures RemoveFirst(s, x) == s[..i] + s[i + 1..]
  {
    if i > 0 {
      assert s[0] in s[..i];
      assert s[1..][..i - 1] == s[1..i];
      RemoveFirstAt(s[1..], x, i - 1);
      assert s[..i] == [s[0]] + s[1..i];
    }
  }

  /** `String.join(sep, parts)`. */
  function Join(parts: seq<string>, sep: char): (r: string)
    ensures |parts| == 0 ==> r == ""
  {
    if |parts| == 0 then ""
    else if |parts| == 1 then parts[0]
    else parts[0] + [sep] + Join(parts[1..], sep)
  }

  /** Splitting at every `sep`, the inverse of Join on parts free of `sep`. */
  function Split(s: string, sep: char): (r: seq<string>)
    ensures |r| >= 1
  {
    if |s| == 0 then [""]
    else
      var rest := Split(s[1..], sep);
      if s[0] == sep then [""] + rest
      else [[s[0]] + rest[0]] + rest[1..]
  }

  lemma {:induction false} SplitNoSeparator(p: string, sep: char)
    requires sep !in p
    ensures Split(p, sep) == [p]
  {
    if |p| > 0 {
      assert sep !in p[1..];
      SplitNoSeparator(p[1..], sep);
      assert [p[0]] + p[1..] == p;
    }
  }

  lemma {:induction false} SplitAfterPart(p: string, sep: char, t: string)
    requires sep !in p
    ensures Split(p + [sep] + t, sep) == [p] + Split(t, sep)
  {
    if |p| == 0 {
      assert p + [sep] + t == [sep] + t;
      assert ([sep] + t)[1..] == t;
    } else {
      var s := p + [sep] + t;
      assert s[1..] == p[1..] + [sep] + t;
      assert sep !in p[1..];
      SplitAfterPart(p[1..], sep, t);
      assert [p[0]] + p[1..] == p;
    }
  }

  /** Splitting a joined list gives the parts back when no part contains the separator. */
  lemma {:induction false} SplitJoin(parts: seq<string>, sep: char)
    requires |parts| >= 1
    requires forall i :: 0 <= i < |parts| ==> sep !in parts[i]
    ensures Split(Join(parts, sep), sep) == parts
  {
    if |parts| == 1 {
      SplitNoSeparator(parts[0], sep);
    } else {
      SplitJoin(parts[1..], sep);
      SplitAfterPart(parts[0], sep, Join(parts[1..], sep));
      assert parts == [parts[0]] + parts[1..];
    }
  }

  /** The stored type label of a credential with these types. */
  function TypeLabel(types: seq<string>): string
  {
    Join(RemoveFirst(types, VerifiableCredentialType), ',')
  }

  /**
   * The label lists the types other than the first "VerifiableCredential",
   * each once per occurrence and in their original order.
   */
  lemma TypeLabelParts(types: seq<string>)
    requires forall i :: 0 <= i < |types| ==> ',' !in types[i]
    requires |RemoveFirst(types, VerifiableCredentialType)| >= 1
    ensures Split(TypeLabel(types), ',') == RemoveFirst(types, VerifiableCredentialType)
  {
    var kept := RemoveFirst(types, VerifiableCredentialType);
    forall i | 0 <= i < |kept|
      ensures ',' !in kept[i]
    {
      assert kept[i] in multiset(kept);
      assert kept[i] in types;
    }
    SplitJoin(kept, ',');
  }

  /** A credential typed only "VerifiableCredential" is stored with an empty label. */
  lemma BaseTypeOnlyGivesEmptyLabel()
    ensures TypeLabel([VerifiableCredentialType]) == ""
  {
    assert RemoveFirst([VerifiableCredentialType], VerifiableCredentialType) == [];
  }

  /** The usual `["VerifiableCredential", t]` is stored as just `t`. */
  lemma LeadingBaseTypeDropped(t: string)
    ensures TypeLabel([VerifiableCredentialType, t]) == t
  {
    assert RemoveFirst([VerifiableCredentialType, t], VerifiableCredentialType) == [t];
  }

  /** A second "VerifiableCredential" stays in the label. */
  lemma SecondBaseTypeKept(t: string)
    requires t != VerifiableCredentialType
    ensures TypeLabel([t, VerifiableCredentialType, VerifiableCredentialType]) == t + [','] + VerifiableCredentialType
  {
    var s := [t, VerifiableCredentialType, VerifiableCredentialType];
    assert s[1..] == [VerifiableCredentialType, VerifiableCredentialType];
    assert RemoveFirst(s, VerifiableCredentialType) == [t, VerifiableCredentialType];
    assert [t, VerifiableCredentialType][1..] == [VerifiableCredentialType];
    assert Join([VerifiableCredentialType], ',') == VerifiableCredentialType;
  }
}
