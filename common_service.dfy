/**
 * `CommonService`: the DID test, the credential expiry check that records
 * its verdict in a response map, and wallet lookups that fail with
 * WalletNotFoundProblem.
 */
module CommonServices {
  import opened Wrappers
  import opened DomainTypes
  import opened Ascii
  import opened CharClasses
  import opened Identifiers
  import opened WalletStores

  /** `checkIfDid`: whether the lower-cased string starts with `did:`. */
  function CheckIfDid(s: string): (r: bool)
    ensures r <==> && |s| >= 4
                   && (s[0] == 'd' || s[0] == 'D')
                   && (s[1] == 'i' || s[1] == 'I')
                   && (s[2] == 'd' || s[2] == 'D')
                   && s[3] == ':'
  {
    var lower := Lower(s);
    assert |s| >= 4 ==> lower[..4] == [ToLower(s[0]), ToLower(s[1]), ToLower(s[2]), ToLower(s[3])];
    StartsWith(lower, "did:")
  }

  /** Every string the Identifier pattern accepts counts as a DID. */
  lemma IdentifiersAreDids(s: string)
    requires IsIdentifier(s)
    ensures CheckIfDid(s)
  {
    assert s[..|DidWebPrefix|][..4] == "did:";
  }

  /** The test ignores case, and a bare BPN is no DID. */
  lemma CheckIfDidExamples()
    ensures CheckIfDid("DID:web:x")
    ensures !CheckIfDid("BPNL000000000000")
    ensures !CheckIfDid("did")
  {
  }

  /** A value in the response map of presentation validation. */
  datatype ResponseValue = Flag(flag: bool) | Other(json: string)

  /** The response map a caller hands to `validateExpiry`, which adds to it in place. */
  class Response {
    var entries: map<string, ResponseValue>

    constructor(entries: map<string, ResponseValue>)
      ensures this.entries == entries
    {
      this.entries := entries;
    }
  }

  /**
   * `validateExpiry`: with the flag off, true and the response untouched.
   * With the flag on, the credential is valid unless its expiry is strictly
   * before `now`, and the verdict is written under `validateExpiryDateKey`
   * (StringPool.VALIDATE_EXPIRY_DATE) and returned.
   */
  method ValidateExpiry(withCredentialExpiryDate: bool, vc: VerifiableCredential, now: int,
                        response: Response, validateExpiryDateKey: string) returns (valid: bool)
    requires withCredentialExpiryDate ==> vc.expirationDate.Some?
    modifies response
    ensures !withCredentialExpiryDate ==> valid && response.entries == old(response.entries)
    ensures withCredentialExpiryDate ==> valid == (vc.expirationDate.value >= now)
    ensures withCredentialExpiryDate ==> response.entries == old(response.entries)[validateExpiryDateKey := Flag(valid)]
  {
    valid := true;
    if withCredentialExpiryDate {
      if vc.expirationDate.value < now {
        valid := false;
        response.entries := response.entries[validateExpiryDateKey := Flag(false)];
      } else {
        response.entries := response.entries[validateExpiryDateKey := Flag(true)];
      }
    }
  }

  /** A credential expiring exactly now is still valid, and the verdict is recorded. */
  method ExpiringNowIsValid(vc: VerifiableCredential, now: int, key: string) returns (valid: bool, recorded: map<string, ResponseValue>)
    requires vc.expirationDate == Some(now)
    ensures valid
    ensures recorded == map[key := Flag(true)]
  {
    var response := new Response(map[]);
    valid := ValidateExpiry(true, vc, now, response, key);
    recorded := response.entries;
  }

  /** With the flag off an expired credential passes and nothing is recorded. */
  method FlagOffSkipsCheck(vc: VerifiableCredential, now: int, key: string) returns (valid: bool, recorded: map<string, ResponseValue>)
    ensures valid
    ensures recorded == map[]
  {
    var response := new Response(map[]);
    valid := ValidateExpiry(false, vc, now, response, key);
    recorded := response.entries;
  }

  /** The wallet lookups, over the wallet repository. */
  class CommonService {
    const store: WalletStore

    constructor(store: WalletStore)
      ensures this.store == store
    {
      this.store := store;
    }

    /** `getWalletByBPN`: the stored wallet with this BPN, else WalletNotFoundProblem. */
    function GetWalletByBpn(bpn: BPN): (r: Result<Wallet>)
      reads store
      ensures r.Ok? <==> store.ExistsByBpn(bpn.value)
      ensures r.Ok? ==> r.value in store.wallets && r.value.bpn == bpn.value
      ensures r.Err? ==> r.error == NotFound
    {
      match store.GetByBpn(bpn.value)
      case Some(w) => Ok(w)
      case None => Err(NotFound)
    }

    /** `getWalletByDid`: the stored wallet with this DID, else WalletNotFoundProblem. */
    function GetWalletByDid(did: Identifier): (r: Result<Wallet>)
      reads store
      ensures r.Ok? <==> exists i :: 0 <= i < |store.wallets| && store.wallets[i].did == did
      ensures r.Ok? ==> r.value in store.wallets && r.value.did == did
      ensures r.Err? ==> r.error == NotFound
    {
      match store.GetByDid(did)
      case Some(w) => Ok(w)
      case None => Err(NotFound)
    }
  }
}
