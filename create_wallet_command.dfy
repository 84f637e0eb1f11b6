/** `CreateWalletCommand`: the record asking for a wallet named `name` for `bpn`, on behalf of `caller`. */
module CreateWalletCommands {
  import opened Wrappers
  import opened DomainTypes

  datatype CreateWalletCommand = CreateWalletCommand(name: string, bpn: BPN, caller: BPN)

  /**
   * The record constructor: NullPointerException for the first null argument
   * in the order name, bpn, caller; otherwise a record whose accessors return
   * the arguments unchanged.
   */
  function NewCreateWalletCommand(name: Option<string>, bpn: Option<BPN>, caller: Option<BPN>)
    : (r: Result<CreateWalletCommand>)
    ensures r.Ok? <==> name.Some? && bpn.Some? && caller.Some?
    ensures name.None? ==> r == Err(NullPointer("name"))
    ensures name.Some? && bpn.None? ==> r == Err(NullPointer("bpn"))
    ensures name.Some? && bpn.Some? && caller.None? ==> r == Err(NullPointer("caller"))
    ensures r.Ok? ==> r.value.name == name.value && r.value.bpn == bpn.value && r.value.caller == caller.value
  {
    if name.None? then Err(NullPointer("name"))
    else if bpn.None? then Err(NullPointer("bpn"))
    else if caller.None? then Err(NullPointer("caller"))
    else Ok(CreateWalletCommand(name.value, bpn.value, caller.value))
  }

  /** Only nullness is checked: an empty name is accepted. */
  lemma EmptyNameAccepted(bpn: BPN, caller: BPN)
    ensures NewCreateWalletCommand(Some(""), Some(bpn), Some(caller)) == Ok(CreateWalletCommand("", bpn, caller))
  {
  }
}
