/**
 * `CreatePresentationCommand`: the credentials to wrap into a verifiable
 * presentation, the output form (JWT or JSON-LD), an optional audience and
 * the caller.
 */
module CreatePresentationCommands {
  import opened Wrappers
  import opened DomainTypes

  datatype CreatePresentationCommand = CreatePresentationCommand(
    verifiableCredentials: seq<VerifiableCredential>,
    asJwt: bool,
    audience: Option<string>,
    caller: BPN)

  /** The builder; `asJwt` starts false, the other fields unset. */
  class Builder {
    var verifiableCredentials: Option<seq<VerifiableCredential>>
    var asJwt: bool
    var audience: Option<string>
    var caller: Option<BPN>

    constructor()
      ensures verifiableCredentials == None && !asJwt && audience == None && caller == None
    {
      verifiableCredentials := None;
      asJwt := false;
      audience := None;
      caller := None;
    }

    method SetVerifiableCredentials(x: Option<seq<VerifiableCredential>>) returns (o: Outcome)
      modifies this`verifiableCredentials
      ensures o == if x.Some? then Pass else Fail(NullPointer("verifiableCredentials"))
      ensures verifiableCredentials == if x.Some? then x else old(verifiableCredentials)
    {
      if x.None? {
        return Fail(NullPointer("verifiableCredentials"));
      }
      verifiableCredentials := x;
      return Pass;
    }

    /** `setAsJwt` takes a primitive and cannot fail. */
    method SetAsJwt(b: bool)
      modifies this`asJwt
      ensures asJwt == b
    {
      asJwt := b;
    }

    method SetAudience(x: Option<string>) returns (o: Outcome)
      modifies this`audience
      ensures o == if x.Some? then Pass else Fail(NullPointer("audience"))
      ensures audience == if x.Some? then x else old(audience)
    {
      if x.None? {
        return Fail(NullPointer("audience"));
      }
      audience := x;
      return Pass;
    }

    method SetCaller(x: Option<BPN>) returns (o: Outcome)
      modifies this`caller
      ensures o == if x.Some? then Pass else Fail(NullPointer("caller"))
      ensures caller == if x.Some? then x else old(caller)
    {
      if x.None? {
        return Fail(NullPointer("caller"));
      }
      caller := x;
      return Pass;
    }

    /**
     * `build()`: IllegalStateException when the credential list, then the
     * caller, is unset; the audience is optional in both output forms.
     */
    method Build() returns (r: Result<CreatePresentationCommand>)
      ensures r.Ok? <==> verifiableCredentials.Some? && caller.Some?
      ensures verifiableCredentials.None? ==> r == Err(IllegalState("verifiableCredentials"))
      ensures verifiableCredentials.Some? && caller.None? ==> r == Err(IllegalState("caller"))
      ensures r.Ok? ==> r.value == CreatePresentationCommand(verifiableCredentials.value, asJwt, audience, caller.value)
    {
      if verifiableCredentials.None? { return Err(IllegalState("verifiableCredentials")); }
      if caller.None? { return Err(IllegalState("caller")); }
      return Ok(CreatePresentationCommand(verifiableCredentials.value, asJwt, audience, caller.value));
    }
  }

  /**
   * An empty credential list builds, as JSON-LD by default, and a JWT
   * presentation needs no audience either.
   */
  method EmptyCredentialList(caller: BPN, jwt: bool) returns (r: Result<CreatePresentationCommand>)
    ensures r == Ok(CreatePresentationCommand([], jwt, None, caller))
  {
    var b := new Builder();
    var _ := b.SetVerifiableCredentials(Some([]));
    var _ := b.SetCaller(Some(caller));
    if jwt {
      b.SetAsJwt(true);
    }
    r := b.Build();
  }
}
