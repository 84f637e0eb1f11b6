/**
 * The label search shared by the closed vocabularies (`SortColumn`,
 * `TypeToSearch`, `FrameworkCredentialType`): walk the constants in
 * declaration order and return the first whose label equals the given one.
 */
module Vocabulary {
  import opened Wrappers

  /** The first element of `values`, in order, whose label is exactly `text`. */
  function Find<E>(values: seq<E>, labelOf: E -> string, text: string): (r: Option<E>)
    ensures r.Some? ==> r.value in values && labelOf(r.value) == text
    ensures r.None? <==> forall i :: 0 <= i < |values| ==> labelOf(values[i]) != text
    ensures r.Some? ==> exists i :: 0 <= i < |values| && values[i] == r.value
                                    && forall j :: 0 <= j < i ==> labelOf(values[j]) != text
  {
    if |values| == 0 then None
    else if labelOf(values[0]) == text then Some(values[0])
    else
      var r := Find(values[1..], labelOf, text);
      assert r.Some? ==> var i :| 0 <= i < |values| - 1 && values[1..][i] == r.value
                                  && forall j :: 0 <= j < i ==> labelOf(values[1..][j]) != text;
                           values[i + 1] == r.value && forall j :: 0 <= j < i + 1 ==> labelOf(values[j]) != text;
      r
  }

  /** No two constants share a text. */
  predicate LabelsDistinct<E>(values: seq<E>, labelOf: E -> string)
  {
    forall i, j :: 0 <= i < j < |values| ==> labelOf(values[i]) != labelOf(values[j])
  }

  /** With distinct labels, the search is the inverse of the text function. */
  lemma FindInverse<E>(values: seq<E>, labelOf: E -> string, e: E)
    requires LabelsDistinct(values, labelOf)
    requires e in values
    ensures Find(values, labelOf, labelOf(e)) == Some(e)
  {
    var k :| 0 <= k < |values| && values[k] == e;
    var r := Find(values, labelOf, labelOf(e));
    assert r.Some? by { assert labelOf(values[k]) == labelOf(e); }
    var i :| 0 <= i < |values| && values[i] == r.value
             && forall j :: 0 <= j < i ==> labelOf(values[j]) != labelOf(e);
    assert !(k < i);
    assert !(i < k);
  }
}
