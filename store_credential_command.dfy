/** `StoreCredentialCommand`: the record asking to store a credential in the wallet `identifier` names. */
module StoreCredentialCommands {
  import opened Wrappers
  import opened DomainTypes
  import opened Identifiers

  datatype StoreCredentialCommand = StoreCredentialCommand(
    verifiableCredential: VerifiableCredential,
    identifier: Identifier,
    caller: BPN)

  /**
   * The record constructor: NullPointerException for the first null argument
   * in the order verifiableCredential, identifier, caller; otherwise a record
   * whose accessors return the arguments unchanged.
   */
  function NewStoreCredentialCommand(vc: Option<VerifiableCredential>, identifier: Option<Identifier>, caller: Option<BPN>)
    : (r: Result<StoreCredentialCommand>)
    ensures r.Ok? <==> vc.Some? && identifier.Some? && caller.Some?
    ensures vc.None? ==> r == Err(NullPointer("verifiableCredential"))
    ensures vc.Some? && identifier.None? ==> r == Err(NullPointer("identifier"))
    ensures vc.Some? && identifier.Some? && caller.None? ==> r == Err(NullPointer("caller"))
    ensures r.Ok? ==> r.value.verifiableCredential == vc.value && r.value.identifier == identifier.value
                      && r.value.caller == caller.value
  {
    if vc.None? then Err(NullPointer("verifiableCredential"))
    else if identifier.None? then Err(NullPointer("identifier"))
    else if caller.None? then Err(NullPointer("caller"))
    else Ok(StoreCredentialCommand(vc.value, identifier.value, caller.value))
  }

  /** The identifier of every command is a string the DID pattern accepts. */
  lemma IdentifierMatchesPattern(cmd: StoreCredentialCommand)
    ensures MatchesPattern(cmd.identifier)
  {
    PatternIffRecogniser(cmd.identifier);
  }
}
