/**
 * `WalletAggregate`: the wallet being created for a BPN on a host. It owns
 * a key pair, a key id and the did:web DID, and renders the DID document
 * whose JSON-LD context lists the default context followed by the
 * configured context URLs.
 */
module WalletAggregates {
  import opened Wrappers

  type Uri = string

  /**
   * How `URI.equals` compares: two URIs are equal exactly when their keys
   * are. Java's comparison ignores the case of the scheme, of the host and of
   * the hex digits in percent-escapes, and compares the rest exactly; the
   * model takes it as a parameter `key: UriKey`.
   */
  type UriKey = Uri -> string

  /** A generated key pair; its encoding is not modelled. */
  datatype KeyPair = KeyPair(publicKey: seq<bv8>, privateKey: seq<bv8>)

  /** A built aggregate; every field is fixed at construction. */
  datatype WalletAggregate = WalletAggregate(
    host: string,
    bpn: string,
    contextUrls: seq<Uri>,
    keyPair: KeyPair,
    keyId: string,
    did: string)

  /** The parts of the DID document the wallet logic decides: its id, its key's id and its context. */
  datatype DidDocument = DidDocument(id: string, keyId: string, context: seq<Uri>)

  /** The keys of the URIs in `s`: what `contains` on a list of URIs can tell apart. */
  function Keys(s: seq<Uri>, key: UriKey): (r: set<string>)
    ensures forall i :: 0 <= i < |s| ==> key(s[i]) in r
    ensures forall k :: k in r ==> exists i :: 0 <= i < |s| && key(s[i]) == k
  {
    if |s| == 0 then {}
    else Keys(s[..|s| - 1], key) + {key(s[|s| - 1])}
  }

  /** The keys of a concatenation are the keys of its parts. */
  lemma KeysAppend(a: seq<Uri>, b: seq<Uri>, key: UriKey)
    ensures Keys(a + b, key) == Keys(a, key) + Keys(b, key)
  {
    forall k | k in Keys(a + b, key)
      ensures k in Keys(a, key) + Keys(b, key)
    {
      var i :| 0 <= i < |a + b| && key((a + b)[i]) == k;
      if i < |a| {
        assert (a + b)[i] == a[i];
      } else {
        assert (a + b)[i] == b[i - |a|];
      }
    }
    forall k | k in Keys(a, key) + Keys(b, key)
      ensures k in Keys(a + b, key)
    {
      if k in Keys(a, key) {
        var i :| 0 <= i < |a| && key(a[i]) == k;
        assert (a + b)[i] == a[i];
      } else {
        var i :| 0 <= i < |b| && key(b[i]) == k;
        assert (a + b)[|a| + i] == b[i];
      }
    }
  }

  /** No two URIs of `s` are equal under `key`. */
  predicate DistinctKeys(s: seq<Uri>, key: UriKey)
  {
    forall i, j :: 0 <= i < j < |s| ==> key(s[i]) != key(s[j])
  }

  /**
   * The URLs of `urls` that equal no URI of `context` and no earlier URL of
   * `urls`, in the order of `urls`.
   */
  function Fresh(context: seq<Uri>, urls: seq<Uri>, key: UriKey): seq<Uri>
  {
    if |urls| == 0 then []
    else
      var init, last := urls[..|urls| - 1], urls[|urls| - 1];
      Fresh(context, init, key)
        + (if key(last) in Keys(context, key) || key(last) in Keys(init, key) then [] else [last])
  }

  /** Every fresh URL is one of `urls` and equals no URI of `context`. */
  lemma {:induction false} FreshMembership(context: seq<Uri>, urls: seq<Uri>, key: UriKey, x: Uri)
    requires x in Fresh(context, urls, key)
    ensures x in urls && key(x) !in Keys(context, key)
  {
    var init, last := urls[..|urls| - 1], urls[|urls| - 1];
    if x in Fresh(context, init, key) {
      FreshMembership(context, init, key, x);
    }
  }

  /** Up to `URI.equals`, the fresh URLs are exactly the URLs not in the context. */
  lemma {:induction false} FreshKeys(context: seq<Uri>, urls: seq<Uri>, key: UriKey)
    ensures Keys(Fresh(context, urls, key), key) == Keys(urls, key) - Keys(context, key)
  {
    if |urls| > 0 {
      var init, last := urls[..|urls| - 1], urls[|urls| - 1];
      FreshKeys(context, init, key);
      var added := if key(last) in Keys(context, key) || key(last) in Keys(init, key) then [] else [last];
      KeysAppend(Fresh(context, init, key), added, key);
      assert Keys(added, key) == if added == [] then {} else {key(last)} by {
        if added != [] { assert added[..0] == []; }
      }
    }
  }

  /** No two fresh URLs are equal, however often a URL occurs in `urls`. */
  lemma {:induction false} FreshHasNoDuplicates(context: seq<Uri>, urls: seq<Uri>, key: UriKey)
    ensures DistinctKeys(Fresh(context, urls, key), key)
  {
    if |urls| > 0 {
      var init, last := urls[..|urls| - 1], urls[|urls| - 1];
      FreshHasNoDuplicates(context, init, key);
      FreshKeys(context, init, key);
    }
  }

  /** Once every URL equals one of the context, nothing is fresh. */
  lemma {:induction false} NothingFreshWhenPresent(context: seq<Uri>, urls: seq<Uri>, key: UriKey)
    requires forall i :: 0 <= i < |urls| ==> key(urls[i]) in Keys(context, key)
    ensures Fresh(context, urls, key) == []
  {
    if |urls| > 0 {
      NothingFreshWhenPresent(context, urls[..|urls| - 1], key);
    }
  }

  /** URLs that are pairwise unequal and new to the context are all appended, in their own order. */
  lemma {:induction false} DistinctNewUrlsAllFresh(context: seq<Uri>, urls: seq<Uri>, key: UriKey)
    requires DistinctKeys(urls, key)
    requires forall i :: 0 <= i < |urls| ==> key(urls[i]) !in Keys(context, key)
    ensures Fresh(context, urls, key) == urls
  {
    if |urls| > 0 {
      var init, last := urls[..|urls| - 1], urls[|urls| - 1];
      DistinctNewUrlsAllFresh(context, init, key);
      assert urls == init + [last];
    }
  }

  /** `List.contains` on a list of URIs: whether some element equals `u`. */
  method Contains(list: seq<Uri>, u: Uri, key: UriKey) returns (found: bool)
    ensures found <==> key(u) in Keys(list, key)
  {
    found := false;
    var j := 0;
    while j < |list| && !found
      invariant 0 <= j <= |list|
      invariant found <==> exists i :: 0 <= i < j && key(list[i]) == key(u)
    {
      found := key(list[j]) == key(u);
      j := j + 1;
    }
  }

  /**
   * The context merge of `getDocument`: start from the default context and
   * append each configured URL the growing list does not yet contain.
   */
  method MergeContext(context: seq<Uri>, urls: seq<Uri>, key: UriKey) returns (merged: seq<Uri>)
    ensures merged == context + Fresh(context, urls, key)
  {
    merged := context;
    var i := 0;
    while i < |urls|
      invariant 0 <= i <= |urls|
      invariant merged == context + Fresh(context, urls[..i], key)
    {
      var present := Contains(merged, urls[i], key);
      KeysAppend(context, Fresh(context, urls[..i], key), key);
      FreshKeys(context, urls[..i], key);
      assert urls[..i + 1][..i] == urls[..i];
      if !present {
        merged := merged + [urls[i]];
      }
      i := i + 1;
    }
    assert urls[..|urls|] == urls;
  }

  /**
   * Merging keeps the default context as an unchanged prefix, adds only
   * configured URLs, leaves every default and configured URL represented,
   * and appends no URL equal to another or to one of the default context.
   */
  lemma MergedContextProperties(context: seq<Uri>, urls: seq<Uri>, key: UriKey)
    ensures var merged := context + Fresh(context, urls, key);
      && merged[..|context|] == context
      && (forall x :: x in merged ==> x in context || x in urls)
      && Keys(merged, key) == Keys(context, key) + Keys(urls, key)
      && DistinctKeys(merged[|context|..], key)
      && (forall i :: |context| <= i < |merged| ==> key(merged[i]) !in Keys(context, key))
  {
    var added := Fresh(context, urls, key);
    var merged := context + added;
    assert merged[|context|..] == added;
    FreshHasNoDuplicates(context, urls, key);
    KeysAppend(context, added, key);
    FreshKeys(context, urls, key);
    forall x | x in merged
      ensures x in context || x in urls
    {
      if x !in context {
        FreshMembership(context, urls, key, x);
      }
    }
    forall i | |context| <= i < |merged|
      ensures key(merged[i]) !in Keys(context, key)
    {
      assert merged[i] == added[i - |context|];
      FreshMembership(context, urls, key, merged[i]);
    }
  }

  /** Merging the same URLs a second time changes nothing. */
  lemma MergeIdempotent(context: seq<Uri>, urls: seq<Uri>, key: UriKey)
    ensures var merged := context + Fresh(context, urls, key);
      merged + Fresh(merged, urls, key) == merged
  {
    var merged := context + Fresh(context, urls, key);
    MergedContextProperties(context, urls, key);
    NothingFreshWhenPresent(merged, urls, key);
  }

  /**
   * `getDocument`: the document of the aggregate's DID, whose key is the
   * aggregate's key id, and whose context is the default context with the
   * configured URLs merged in.
   */
  method GetDocument(agg: WalletAggregate, defaultContext: seq<Uri>, key: UriKey) returns (doc: DidDocument)
    ensures doc.id == agg.did && doc.keyId == agg.keyId
    ensures doc.context == defaultContext + Fresh(defaultContext, agg.contextUrls, key)
  {
    var context := MergeContext(defaultContext, agg.contextUrls, key);
    doc := DidDocument(agg.did, agg.keyId, context);
  }

  /** The builder; an unset field (Java null) is `None`. */
  class Builder {
    var host: Option<string>
    var bpn: Option<string>
    var contextUrls: Option<seq<Uri>>

    constructor()
      ensures host == None && bpn == None && contextUrls == None
    {
      host := None;
      bpn := None;
      contextUrls := None;
    }

    method WithHost(x: Option<string>) returns (o: Outcome)
      modifies this`host
      ensures o == if x.Some? then Pass else Fail(NullPointer("host"))
      ensures host == if x.Some? then x else old(host)
    {
      if x.None? {
        return Fail(NullPointer("host"));
      }
      host := x;
      return Pass;
    }

    method WithBpn(x: Option<string>) returns (o: Outcome)
      modifies this`bpn
      ensures o == if x.Some? then Pass else Fail(NullPointer("bpn"))
      ensures bpn == if x.Some? then x else old(bpn)
    {
      if x.None? {
        return Fail(NullPointer("bpn"));
      }
      bpn := x;
      return Pass;
    }

    method WithContextUrls(x: Option<seq<Uri>>) returns (o: Outcome)
      modifies this`contextUrls
      ensures o == if x.Some? then Pass else Fail(NullPointer("contextUrls"))
      ensures contextUrls == if x.Some? then x else old(contextUrls)
    {
      if x.None? {
        return Fail(NullPointer("contextUrls"));
      }
      contextUrls := x;
      return Pass;
    }

    /**
     * `build()`: IllegalStateException when host, bpn or contextUrls (in
     * that order) is unset, or when contextUrls is empty. Otherwise an
     * aggregate with a freshly generated key pair and key id (given here as
     * arguments) and the DID `didOf(host, bpn)`.
     */
    method Build(keyPair: KeyPair, keyId: string, didOf: (string, string) -> string) returns (r: Result<WalletAggregate>)
      ensures r.Ok? <==> host.Some? && bpn.Some? && contextUrls.Some? && |contextUrls.value| > 0
      ensures host.None? ==> r == Err(IllegalState("host"))
      ensures host.Some? && bpn.None? ==> r == Err(IllegalState("bpn"))
      ensures host.Some? && bpn.Some? && contextUrls.None? ==> r == Err(IllegalState("contextUrls"))
      ensures host.Some? && bpn.Some? && contextUrls.Some? && |contextUrls.value| == 0
              ==> r == Err(IllegalState("contextUrls must not be empty"))
      ensures r.Ok? ==> r.value == WalletAggregate(host.value, bpn.value, contextUrls.value, keyPair, keyId,
                                                   didOf(host.value, bpn.value))
    {
      if host.None? { return Err(IllegalState("host")); }
      if bpn.None? { return Err(IllegalState("bpn")); }
      if contextUrls.None? { return Err(IllegalState("contextUrls")); }
      if |contextUrls.value| == 0 { return Err(IllegalState("contextUrls must not be empty")); }
      return Ok(WalletAggregate(host.value, bpn.value, contextUrls.value, keyPair, keyId, didOf(host.value, bpn.value)));
    }
  }

  /** An empty context URL list is rejected even though it is non-null. */
  method EmptyContextUrls(host: string, bpn: string, keyPair: KeyPair, keyId: string, didOf: (string, string) -> string)
    returns (r: Result<WalletAggregate>)
    ensures r == Err(IllegalState("contextUrls must not be empty"))
  {
    var b := new Builder();
    var _ := b.WithHost(Some(host));
    var _ := b.WithBpn(Some(bpn));
    var _ := b.WithContextUrls(Some([]));
    r := b.Build(keyPair, keyId, didOf);
  }


  /** A configured URL listed twice and one already in the default context are each kept once. */
  method MergeExample(a: Uri, b: Uri, c: Uri, key: UriKey) returns (merged: seq<Uri>)
    requires key(a) != key(b) && key(b) != key(c) && key(a) != key(c)
    ensures merged == [a, b, c]
  {
    merged := MergeContext([a], [b, a, b, c], key);
    assert [b, a, b, c][..3] == [b, a, b];
    assert [b, a, b][..2] == [b, a];
    assert [b, a][..1] == [b];
    assert [a][..0] == [] && [b][..0] == [];
    assert Keys([a], key) == {key(a)};
    assert Fresh([a], [b], key) == [b];
    assert Fresh([a], [b, a], key) == [b];
    assert Fresh([a], [b, a, b], key) == [b];
    assert Fresh([a], [b, a, b, c], key) == [b, c];
  }

  /**
   * A configured URL that differs from a default one only where `URI.equals`
   * ignores case (for instance the host's letters) is not appended.
   */
  method EqualUriNotAppended(a: Uri, b: Uri, key: UriKey) returns (merged: seq<Uri>)
    requires key(a) == key(b)
    ensures merged == [a]
  {
    merged := MergeContext([a], [b], key);
    assert [a][..0] == [] && [b][..0] == [];
    assert Keys([a], key) == {key(a)};
  }
}
