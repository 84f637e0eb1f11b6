/**
 * `ValidatePresentationCommand`: a presentation to validate, given either
 * as a JWT or as JSON-LD according to `asJwt`, with an optional audience and
 * a flag asking for the credentials' expiry dates to be checked.
 */
module ValidatePresentationCommands {
  import opened Wrappers
  import opened DomainTypes

  datatype ValidatePresentationCommand = ValidatePresentationCommand(
    asJwt: bool,
    audience: Option<string>,
    vpJson: Option<VerifiablePresentation>,
    vpJwt: Option<Jwt>,
    withCredentialExpiryDate: bool)

  /** The builder; both flags start false, the other fields unset. */
  class Builder {
    var asJwt: bool
    var audience: Option<string>
    var vpJson: Option<VerifiablePresentation>
    var vpJwt: Option<Jwt>
    var withCredentialExpiryDate: bool

    constructor()
      ensures !asJwt && audience == None && vpJson == None && vpJwt == None && !withCredentialExpiryDate
    {
      asJwt := false;
      audience := None;
      vpJson := None;
      vpJwt := None;
      withCredentialExpiryDate := false;
    }

    method SetAsJwt(b: bool)
      modifies this`asJwt
      ensures asJwt == b
    {
      asJwt := b;
    }

    method SetAudience(x: Option<string>) returns (o: Outcome)
      modifies this`audience
      ensures o == if x.Some? then Pass else Fail(NullPointer("audience"))
      ensures audience == if x.Some? then x else old(audience)
    {
      if x.None? {
        return Fail(NullPointer("audience"));
      }
      audience := x;
      return Pass;
    }

    method SetWithCredentialExpiryDate(b: bool)
      modifies this`withCredentialExpiryDate
      ensures withCredentialExpiryDate == b
    {
      withCredentialExpiryDate := b;
    }

    method SetVpJson(x: Option<VerifiablePresentation>) returns (o: Outcome)
      modifies this`vpJson
      ensures o == if x.Some? then Pass else Fail(NullPointer("vpJson"))
      ensures vpJson == if x.Some? then x else old(vpJson)
    {
      if x.None? {
        return Fail(NullPointer("vpJson"));
      }
      vpJson := x;
      return Pass;
    }

    method SetVpJwt(x: Option<Jwt>) returns (o: Outcome)
      modifies this`vpJwt
      ensures o == if x.Some? then Pass else Fail(NullPointer("vpJwt"))
      ensures vpJwt == if x.Some? then x else old(vpJwt)
    {
      if x.None? {
        return Fail(NullPointer("vpJwt"));
      }
      vpJwt := x;
      return Pass;
    }

    /**
     * `build()`: the representation `asJwt` selects must be present (the JWT
     * when true, the JSON-LD presentation when false), else
     * IllegalStateException. The other representation and the audience are
     * not checked; all five fields are copied.
     */
    method Build() returns (r: Result<ValidatePresentationCommand>)
      ensures asJwt ==> (r.Ok? <==> vpJwt.Some?)
      ensures !asJwt ==> (r.Ok? <==> vpJson.Some?)
      ensures r.Err? ==> r.error == IllegalState(if asJwt then "vpJwt" else "vpJson")
      ensures r.Ok? ==> r.value == ValidatePresentationCommand(asJwt, audience, vpJson, vpJwt, withCredentialExpiryDate)
    {
      if asJwt {
        if vpJwt.None? { return Err(IllegalState("vpJwt")); }
      } else {
        if vpJson.None? { return Err(IllegalState("vpJson")); }
      }
      return Ok(ValidatePresentationCommand(asJwt, audience, vpJson, vpJwt, withCredentialExpiryDate));
    }
  }

  /** A builder holding only a JSON-LD presentation builds, with both flags false. */
  method JsonOnly(vp: VerifiablePresentation) returns (r: Result<ValidatePresentationCommand>)
    ensures r == Ok(ValidatePresentationCommand(false, None, Some(vp), None, false))
  {
    var b := new Builder();
    var _ := b.SetVpJson(Some(vp));
    r := b.Build();
  }

  /** Both representations set still builds: only the selected one is checked. */
  method BothRepresentations(vp: VerifiablePresentation, jwt: Jwt, asJwt: bool)
    returns (r: Result<ValidatePresentationCommand>)
    ensures r == Ok(ValidatePresentationCommand(asJwt, None, Some(vp), Some(jwt), false))
  {
    var b := new Builder();
    var _ := b.SetVpJson(Some(vp));
    var _ := b.SetVpJwt(Some(jwt));
    b.SetAsJwt(asJwt);
    r := b.Build();
  }

  /** Asking for a JWT while holding only JSON-LD does not build. */
  method JwtSelectedButOnlyJson(vp: VerifiablePresentation) returns (r: Result<ValidatePresentationCommand>)
    ensures r == Err(IllegalState("vpJwt"))
  {
    var b := new Builder();
    var _ := b.SetVpJson(Some(vp));
    b.SetAsJwt(true);
    r := b.Build();
  }
}
