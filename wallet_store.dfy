/**
 * The persisted wallets, wallet keys and holders' credentials, and the
 * repository queries the services use: wallet by BPN, wallet by DID,
 * existence by BPN and credentials by holder DID.
 */
module WalletStores {
  import opened Wrappers
  import opened DomainTypes
  import opened WalletAggregates
  import Vocabulary

  /** A stored wallet; `verifiableCredentials` is filled in only on request. */
  datatype Wallet = Wallet(
    id: nat,
    bpn: string,
    name: string,
    did: string,
    didDocument: DidDocument,
    verifiableCredentials: Option<seq<HoldersCredential>>)

  /** A stored key record: the wallet it belongs to, its key id and the encrypted key pair. */
  datatype WalletKey = WalletKey(walletId: nat, keyId: string, privateKey: string, publicKey: string)

  /** A credential held by a wallet, with its comma-joined type label. */
  datatype HoldersCredential = HoldersCredential(
    holderDid: string,
    issuerDid: string,
    credentialType: string,
    data: VerifiableCredential,
    selfIssued: bool,
    stored: bool,
    credentialId: string)

  function BpnOf(w: Wallet): string { w.bpn }

  function DidOf(w: Wallet): string { w.did }

  /** The credentials whose holder is `did`, each as often as it is stored. */
  function CredentialsByHolder(cs: seq<HoldersCredential>, did: string): (r: seq<HoldersCredential>)
    ensures forall c :: c in r <==> c in cs && c.holderDid == did
    ensures forall c :: multiset(r)[c] == if c.holderDid == did then multiset(cs)[c] else 0
  {
    if |cs| == 0 then []
    else
      assert cs == [cs[0]] + cs[1..];
      assert forall c :: c in cs <==> c == cs[0] || c in cs[1..];
      (if cs[0].holderDid == did then [cs[0]] else []) + CredentialsByHolder(cs[1..], did)
  }

  /** Wallet, key and credential repositories in one store. */
  class WalletStore {
    var wallets: seq<Wallet>
    var keys: seq<WalletKey>
    var credentials: seq<HoldersCredential>

    /** A wallet's id is its position; every key belongs to a stored wallet. */
    predicate Valid()
      reads this
    {
      && (forall i :: 0 <= i < |wallets| ==> wallets[i].id == i)
      && (forall k :: 0 <= k < |keys| ==> keys[k].walletId < |wallets|)
    }

    constructor()
      ensures Valid()
      ensures wallets == [] && keys == [] && credentials == []
    {
      wallets := [];
      keys := [];
      credentials := [];
    }

    /** `getByBpn`: the wallet with exactly this BPN, or null. */
    function GetByBpn(bpn: string): (r: Option<Wallet>)
      reads this
      ensures r.Some? ==> r.value in wallets && r.value.bpn == bpn
      ensures r.None? <==> forall i :: 0 <= i < |wallets| ==> wallets[i].bpn != bpn
    {
      Vocabulary.Find(wallets, BpnOf, bpn)
    }

    /** `getByDid`: the wallet with exactly this DID, or null. */
    function GetByDid(did: string): (r: Option<Wallet>)
      reads this
      ensures r.Some? ==> r.value in wallets && r.value.did == did
      ensures r.None? <==> forall i :: 0 <= i < |wallets| ==> wallets[i].did != did
    {
      Vocabulary.Find(wallets, DidOf, did)
    }

    /** `existsByBpn`. */
    function ExistsByBpn(bpn: string): (r: bool)
      reads this
      ensures r <==> exists i :: 0 <= i < |wallets| && wallets[i].bpn == bpn
    {
      GetByBpn(bpn).Some?
    }

    /** `getCredentialsByHolder`. */
    function GetCredentialsByHolder(did: string): (r: seq<HoldersCredential>)
      reads this
      ensures forall c :: c in r <==> c in credentials && c.holderDid == did
      ensures forall c :: multiset(r)[c] == if c.holderDid == did then multiset(credentials)[c] else 0
    {
      CredentialsByHolder(credentials, did)
    }

    /** Saves a new wallet under the next id. */
    method CreateWallet(bpn: string, name: string, did: string, doc: DidDocument) returns (saved: Wallet)
      requires Valid()
      modifies this`wallets
      ensures Valid()
      ensures saved == Wallet(|old(wallets)|, bpn, name, did, doc, None)
      ensures wallets == old(wallets) + [saved]
    {
      saved := Wallet(|wallets|, bpn, name, did, doc, None);
      wallets := wallets + [saved];
    }

    /** Saves a key record for a stored wallet. */
    method SaveKey(key: WalletKey)
      requires Valid() && key.walletId < |wallets|
      modifies this`keys
      ensures Valid()
      ensures keys == old(keys) + [key]
    {
      keys := keys + [key];
    }

    /** Saves a holder's credential. */
    method SaveCredential(c: HoldersCredential)
      modifies this`credentials
      ensures credentials == old(credentials) + [c]
    {
      credentials := credentials + [c];
    }
  }
}
