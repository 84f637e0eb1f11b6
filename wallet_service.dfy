/**
 * `WalletService`: wallet creation (for a caller, and for the operator's
 * authority wallet at start-up), storing a credential in a wallet, and
 * reading a wallet, each with the access checks that guard it.
 */
module WalletServices {
  import opened Wrappers
  import opened DomainTypes
  import opened Ascii
  import opened Identifiers
  import opened WalletAggregates
  import opened WalletStores
  import opened CommonServices
  import opened TypeLabels
  import opened CreateWalletCommands
  import opened StoreCredentialCommands

  /** The settings the service reads: host, authority wallet BPN and name, and the context URLs. */
  datatype Settings = Settings(
    host: string,
    authorityWalletBpn: BPN,
    authorityWalletName: string,
    didDocumentContextUrls: seq<Uri>)

  /** No two stored wallets have the same BPN. */
  predicate UniqueBpns(wallets: seq<Wallet>)
  {
    forall i, j :: 0 <= i < j < |wallets| ==> wallets[i].bpn != wallets[j].bpn
  }

  /** Appending a wallet whose BPN is new keeps the BPNs unique. */
  lemma UniqueBpnsAppend(wallets: seq<Wallet>, w: Wallet)
    requires UniqueBpns(wallets)
    requires forall i :: 0 <= i < |wallets| ==> wallets[i].bpn != w.bpn
    ensures UniqueBpns(wallets + [w])
  {
  }

  /** The message `storeCredential` answers with. */
  function StoredMessage(id: string): map<string, string>
  {
    map["message" := "Credential with id " + id + " has been successfully stored"]
  }

  class WalletService {
    const store: WalletStore
    const common: CommonService
    const settings: Settings
    /** `DidWebFactory.fromHostnameAndPath(host, bpn)`, rendered as a URI string. */
    const didOf: (string, string) -> string
    /** The context a fresh DID document starts with. */
    const defaultContext: seq<Uri>
    /** How `URI.equals` compares two context URLs. */
    const uriKey: UriKey
    /** `getEncryptedPrivateKey`: PEM-wrap as "PRIVATE KEY" and encrypt with the service's key. */
    const encryptPrivate: seq<bv8> -> string
    /** `getEncryptedPublicKey`: PEM-wrap as "PUBLIC KEY" and encrypt with the service's key. */
    const encryptPublic: seq<bv8> -> string

    predicate Valid()
      reads store
    {
      common.store == store && store.Valid() && UniqueBpns(store.wallets)
    }

    constructor(store: WalletStore, common: CommonService, settings: Settings,
                didOf: (string, string) -> string, defaultContext: seq<Uri>, uriKey: UriKey,
                encryptPrivate: seq<bv8> -> string, encryptPublic: seq<bv8> -> string)
      requires common.store == store && store.Valid() && UniqueBpns(store.wallets)
      ensures Valid()
      ensures this.store == store && this.common == common && this.settings == settings
      ensures this.didOf == didOf && this.defaultContext == defaultContext
      ensures this.uriKey == uriKey
      ensures this.encryptPrivate == encryptPrivate && this.encryptPublic == encryptPublic
    {
      this.store := store;
      this.common := common;
      this.settings := settings;
      this.didOf := didOf;
      this.defaultContext := defaultContext;
      this.uriKey := uriKey;
      this.encryptPrivate := encryptPrivate;
      this.encryptPublic := encryptPublic;
    }

    /**
     * `validateCreateWallet`: a caller that is not the authority (ignoring
     * case) is Forbidden; otherwise an existing wallet for the BPN is a
     * Duplicate. Forbidden is decided first.
     */
    function ValidateCreateWallet(bpn: BPN, caller: BPN): (r: Outcome)
      reads store
      ensures r.Pass? <==> EqualsIgnoreCase(caller.value, settings.authorityWalletBpn.value)
                           && forall i :: 0 <= i < |store.wallets| ==> store.wallets[i].bpn != bpn.value
      ensures r.Fail? ==> (r.error == Forbidden <==> !EqualsIgnoreCase(caller.value, settings.authorityWalletBpn.value))
      ensures r.Fail? ==> r.error == Forbidden || r.error == Duplicate
    {
      if !EqualsIgnoreCase(caller.value, settings.authorityWalletBpn.value) then Fail(Forbidden)
      else if store.ExistsByBpn(bpn.value) then Fail(Duplicate)
      else Pass
    }

    /** A non-authority caller is Forbidden even for a BPN that already has a wallet. */
    lemma ForbiddenBeforeDuplicate(bpn: BPN, caller: BPN)
      requires !EqualsIgnoreCase(caller.value, settings.authorityWalletBpn.value)
      requires store.ExistsByBpn(bpn.value)
      ensures ValidateCreateWallet(bpn, caller) == Fail(Forbidden)
    {
    }

    /** The document of a new wallet for `bpn` with key id `keyId`. */
    function NewDocument(bpn: BPN, keyId: string): DidDocument
    {
      DidDocument(didOf(settings.host, bpn.value), keyId,
                  defaultContext + Fresh(defaultContext, settings.didDocumentContextUrls, uriKey))
    }

    /**
     * What the private `createWallet` does to the store: on a failed
     * validation or an empty context URL list it saves nothing and reports
     * the error; otherwise it saves exactly one wallet (next id, the BPN,
     * the name, the aggregate's DID and document) and one key record for it.
     */
    twostate predicate CreateWalletEffect(bpn: BPN, name: string, caller: BPN, keyPair: KeyPair, keyId: string,
                                          new r: Result<Wallet>)
      reads store
    {
      var check := old(ValidateCreateWallet(bpn, caller));
      && (check.Fail? ==> r == Err(check.error))
      && (check.Pass? && |settings.didDocumentContextUrls| == 0 ==> r == Err(IllegalState("contextUrls must not be empty")))
      && (r.Ok? <==> check.Pass? && |settings.didDocumentContextUrls| > 0)
      && (r.Err? ==> store.wallets == old(store.wallets) && store.keys == old(store.keys))
      && (r.Ok? ==>
            && r.value == Wallet(|old(store.wallets)|, bpn.value, name, didOf(settings.host, bpn.value),
                                 NewDocument(bpn, keyId), None)
            && store.wallets == old(store.wallets) + [r.value]
            && store.keys == old(store.keys) + [WalletKey(r.value.id, keyId, encryptPrivate(keyPair.privateKey),
                                                          encryptPublic(keyPair.publicKey))])
    }

    /**
     * The private `createWallet`. `authority` only decides whether the BPN
     * credential issued afterwards is self-issued; that issuance is not part
     * of this model. The key pair and key id are the freshly generated ones.
     */
    method CreateWalletAs(bpn: BPN, name: string, authority: bool, caller: BPN, keyPair: KeyPair, keyId: string)
      returns (r: Result<Wallet>)
      requires Valid()
      modifies store
      ensures Valid()
      ensures CreateWalletEffect(bpn, name, caller, keyPair, keyId, r)
    {
      var check := ValidateCreateWallet(bpn, caller);
      if check.Fail? {
        return Err(check.error);
      }
      var builder := new WalletAggregates.Builder();
      var _ := builder.WithBpn(Some(bpn.value));
      var _ := builder.WithHost(Some(settings.host));
      var _ := builder.WithContextUrls(Some(settings.didDocumentContextUrls));
      var aggregate := builder.Build(keyPair, keyId, didOf);
      if aggregate.Err? {
        return Err(aggregate.error);
      }
      ghost var wallets0 := store.wallets;
      var doc := GetDocument(aggregate.value, defaultContext, uriKey);
      assert doc == NewDocument(bpn, keyId);
      var wallet := store.CreateWallet(bpn.value, name, aggregate.value.did, doc);
      UniqueBpnsAppend(wallets0, wallet);
      store.SaveKey(WalletKey(wallet.id, aggregate.value.keyId, encryptPrivate(keyPair.privateKey), encryptPublic(keyPair.publicKey)));
      r := Ok(wallet);
    }

    /** The public `createWallet`: a wallet for the command's BPN and name, not for the authority. */
    method CreateWallet(cmd: CreateWalletCommand, keyPair: KeyPair, keyId: string) returns (r: Result<Wallet>)
      requires Valid()
      modifies store
      ensures Valid()
      ensures CreateWalletEffect(cmd.bpn, cmd.name, cmd.caller, keyPair, keyId, r)
    {
      r := CreateWalletAs(cmd.bpn, cmd.name, false, cmd.caller, keyPair, keyId);
    }

    /**
     * `createAuthorityWallet`: when no wallet has the authority BPN, create
     * it on the authority's own behalf (`None` means it already existed and
     * nothing changed).
     */
    method CreateAuthorityWallet(keyPair: KeyPair, keyId: string) returns (created: Option<Result<Wallet>>)
      requires Valid()
      modifies store
      ensures Valid()
      ensures created.None? <==> old(store.ExistsByBpn(settings.authorityWalletBpn.value))
      ensures created.None? ==> store.wallets == old(store.wallets) && store.keys == old(store.keys)
                                && store.credentials == old(store.credentials)
      ensures created.Some? ==> CreateWalletEffect(settings.authorityWalletBpn, settings.authorityWalletName,
                                                   settings.authorityWalletBpn, keyPair, keyId, created.value)
      ensures created.Some? ==> (created.value.Ok? <==> |settings.didDocumentContextUrls| > 0)
      ensures |settings.didDocumentContextUrls| > 0 ==> store.ExistsByBpn(settings.authorityWalletBpn.value)
    {
      var authority := settings.authorityWalletBpn;
      if store.ExistsByBpn(authority.value) {
        return None;
      }
      var r := CreateWalletAs(authority, settings.authorityWalletName, true, authority, keyPair, keyId);
      if r.Ok? {
        assert store.wallets[|store.wallets| - 1].bpn == authority.value;
      }
      return Some(r);
    }

    /** A second start-up leaves the store as the first one left it. */
    method CreateAuthorityWalletTwice(keyPair: KeyPair, keyId: string, keyPair2: KeyPair, keyId2: string)
      returns (first: Option<Result<Wallet>>, second: Option<Result<Wallet>>)
      requires Valid()
      requires |settings.didDocumentContextUrls| > 0
      modifies store
      ensures second == None
      ensures |store.wallets| == |old(store.wallets)| + (if first.Some? then 1 else 0)
    {
      first := CreateAuthorityWallet(keyPair, keyId);
      second := CreateAuthorityWallet(keyPair2, keyId2);
    }

    /**
     * The wallet an identifier names: looked up by DID when `checkIfDid`
     * holds for its value, else by BPN.
     */
    function LookupWallet(identifier: Identifier): (r: Result<Wallet>)
      reads common.store
      ensures r.Ok? ==> r.value in common.store.wallets
      ensures r.Ok? && CheckIfDid(identifier) ==> r.value.did == identifier
      ensures r.Ok? && !CheckIfDid(identifier) ==> r.value.bpn == identifier
      ensures r.Err? ==> r.error == NotFound
    {
      if CheckIfDid(identifier) then common.GetWalletByDid(identifier)
      else common.GetWalletByBpn(BPN(identifier))
    }

    /** Every Identifier is a DID, so the by-BPN branch of the lookup is never taken. */
    lemma LookupIsByDid(identifier: Identifier)
      ensures LookupWallet(identifier) == common.GetWalletByDid(identifier)
    {
      IdentifiersAreDids(identifier);
    }

    /**
     * `storeCredential`: the wallet must exist (else NotFound) and belong to
     * the caller ignoring case (else Forbidden), and the credential must list
     * a type (else BadData). Then one holder's credential is saved for the
     * wallet's DID: not self-issued, stored, labelled with the remaining types.
     */
    method StoreCredential(cmd: StoreCredentialCommand) returns (r: Result<map<string, string>>)
      modifies store`credentials
      ensures var lookup := old(LookupWallet(cmd.identifier));
              var vc := cmd.verifiableCredential;
              && (lookup.Err? ==> r == Err(NotFound))
              && (lookup.Ok? && !EqualsIgnoreCase(cmd.caller.value, lookup.value.bpn) ==> r == Err(Forbidden))
              && (lookup.Ok? && EqualsIgnoreCase(cmd.caller.value, lookup.value.bpn) && |vc.types| == 0
                  ==> r == Err(BadData))
              && (r.Ok? <==> lookup.Ok? && EqualsIgnoreCase(cmd.caller.value, lookup.value.bpn) && |vc.types| > 0)
              && (r.Err? ==> store.credentials == old(store.credentials))
              && (r.Ok? ==> r.value == StoredMessage(vc.id)
                            && store.credentials == old(store.credentials)
                               + [HoldersCredential(lookup.value.did, vc.issuer, TypeLabel(vc.types), vc, false, true, vc.id)])
    {
      var lookup := LookupWallet(cmd.identifier);
      if lookup.Err? {
        return Err(lookup.error);
      }
      var wallet := lookup.value;
      if !EqualsIgnoreCase(cmd.caller.value, wallet.bpn) {
        return Err(Forbidden);
      }
      var vc := cmd.verifiableCredential;
      if |vc.types| == 0 {
        return Err(BadData);
      }
      var cloneTypes := vc.types;
      cloneTypes := RemoveFirst(cloneTypes, VerifiableCredentialType);
      store.SaveCredential(HoldersCredential(wallet.did, vc.issuer, Join(cloneTypes, ','), vc, false, true, vc.id));
      r := Ok(StoredMessage(vc.id));
    }

    /**
     * `getWalletByIdentifier`: a caller exactly equal to the authority BPN
     * reads any wallet; any other caller only the wallet whose BPN equals
     * theirs ignoring case (else Forbidden). The holder's credentials are
     * attached only when asked for.
     */
    function GetWalletByIdentifier(identifier: Identifier, withCredentials: bool, caller: BPN): (r: Result<Wallet>)
      reads common.store
      ensures LookupWallet(identifier).Err? ==> r == Err(NotFound)
      ensures r.Ok? <==> LookupWallet(identifier).Ok?
                         && (caller.value == settings.authorityWalletBpn.value
                             || EqualsIgnoreCase(caller.value, LookupWallet(identifier).value.bpn))
      ensures r.Err? && LookupWallet(identifier).Ok? ==> r.error == Forbidden
      ensures r.Ok? ==> var w := LookupWallet(identifier).value;
                        && r.value.(verifiableCredentials := w.verifiableCredentials) == w
                        && r.value.verifiableCredentials == if withCredentials then Some(common.store.GetCredentialsByHolder(w.did))
                                                            else w.verifiableCredentials
    {
      match LookupWallet(identifier)
      case Err(e) => Err(e)
      case Ok(wallet) =>
        if caller.value != settings.authorityWalletBpn.value && !EqualsIgnoreCase(caller.value, wallet.bpn) then
          Err(Forbidden)
        else if withCredentials then
          Ok(wallet.(verifiableCredentials := Some(common.store.GetCredentialsByHolder(wallet.did))))
        else
          Ok(wallet)
    }

    /**
     * Wallet creation compares the caller with the authority ignoring case,
     * but reading a wallet compares exactly: a lower-cased authority BPN may
     * create wallets yet is refused another holder's wallet.
     */
    lemma AuthorityComparisonsDiffer(identifier: Identifier, caller: BPN, bpn: BPN)
      requires caller.value != settings.authorityWalletBpn.value
      requires EqualsIgnoreCase(caller.value, settings.authorityWalletBpn.value)
      requires common.store == store && !store.ExistsByBpn(bpn.value)
      requires LookupWallet(identifier).Ok? && !EqualsIgnoreCase(caller.value, LookupWallet(identifier).value.bpn)
      ensures ValidateCreateWallet(bpn, caller) == Pass
      ensures GetWalletByIdentifier(identifier, false, caller) == Err(Forbidden)
    {
    }
  }
}
