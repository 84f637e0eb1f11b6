/**
 * Types the domain layer passes around but does not define here: the BPN
 * wrapper, sort directions and columns, activity types, and the parts of a
 * verifiable credential or presentation that the wallet logic reads.
 */
module DomainTypes {
  import opened Wrappers

  /** A Business Partner Number; only its `value()` string is used. */
  datatype BPN = BPN(value: string)

  /** A sort direction. `SortType.valueOf(t.name())` maps each direction to itself. */
  datatype SortType = Asc | Desc

  /** A column wallets may be sorted by, known only by its `value` label. */
  datatype WalletSortColumn = WalletSortColumn(value: string)

  /** The activity a dismantler credential is issued for. */
  datatype ActivityType = ActivityType(value: string)

  /**
   * A verifiable credential: its id and issuer as strings, its `type` list
   * in document order and its expiration instant (null when absent).
   */
  datatype VerifiableCredential = VerifiableCredential(
    id: string,
    issuer: string,
    types: seq<string>,
    expirationDate: Option<int>)

  /** A verifiable presentation in its JSON-LD form. */
  datatype VerifiablePresentation = VerifiablePresentation(json: string)

  /** A verifiable presentation as a serialized JWT. */
  datatype Jwt = Jwt(serialized: string)
}
