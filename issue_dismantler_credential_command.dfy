/**
 * `IssueDismantlerCredentialCommand`: the request to issue a dismantler
 * credential. `build()` requires bpn, caller and activity type; the set of
 * allowed vehicle brands is optional.
 */
module IssueDismantlerCredentialCommands {
  import opened Wrappers
  import opened DomainTypes

  /**
   * A built command. `bpn` and `caller` are the fields handed to the
   * `IssueCredentialCommand` superclass; the brand set may be null.
   */
  datatype IssueDismantlerCredentialCommand = IssueDismantlerCredentialCommand(
    bpn: BPN,
    caller: BPN,
    activityType: ActivityType,
    allowedVehicleBrands: Option<set<string>>)

  /** The builder; an unset field (Java null) is `None`. */
  class Builder {
    var bpn: Option<BPN>
    var caller: Option<BPN>
    var activityType: Option<ActivityType>
    var allowedVehicleBrands: Option<set<string>>

    constructor()
      ensures bpn == None && caller == None && activityType == None && allowedVehicleBrands == None
    {
      bpn := None;
      caller := None;
      activityType := None;
      allowedVehicleBrands := None;
    }

    method WithBpn(x: Option<BPN>) returns (o: Outcome)
      modifies this`bpn
      ensures o == if x.Some? then Pass else Fail(NullPointer("bpn"))
      ensures bpn == if x.Some? then x else old(bpn)
    {
      if x.None? {
        return Fail(NullPointer("bpn"));
      }
      bpn := x;
      return Pass;
    }

    method WithCaller(x: Option<BPN>) returns (o: Outcome)
      modifies this`caller
      ensures o == if x.Some? then Pass else Fail(NullPointer("caller"))
      ensures caller == if x.Some? then x else old(caller)
    {
      if x.None? {
        return Fail(NullPointer("caller"));
      }
      caller := x;
      return Pass;
    }

    method WithActivityType(x: Option<ActivityType>) returns (o: Outcome)
      modifies this`activityType
      ensures o == if x.Some? then Pass else Fail(NullPointer("activityType"))
      ensures activityType == if x.Some? then x else old(activityType)
    {
      if x.None? {
        return Fail(NullPointer("activityType"));
      }
      activityType := x;
      return Pass;
    }

    method WithAllowedVehicleBrands(x: Option<set<string>>) returns (o: Outcome)
      modifies this`allowedVehicleBrands
      ensures o == if x.Some? then Pass else Fail(NullPointer("allowedVehicleBrands"))
      ensures allowedVehicleBrands == if x.Some? then x else old(allowedVehicleBrands)
    {
      if x.None? {
        return Fail(NullPointer("allowedVehicleBrands"));
      }
      allowedVehicleBrands := x;
      return Pass;
    }

    /**
     * `build()`: IllegalStateException naming the first unset field in the
     * order bpn, caller, activityType; the brand set is not checked and is
     * copied as it stands, null included.
     */
    method Build() returns (r: Result<IssueDismantlerCredentialCommand>)
      ensures r.Ok? <==> bpn.Some? && caller.Some? && activityType.Some?
      ensures bpn.None? ==> r == Err(IllegalState("bpn"))
      ensures bpn.Some? && caller.None? ==> r == Err(IllegalState("caller"))
      ensures bpn.Some? && caller.Some? && activityType.None? ==> r == Err(IllegalState("activityType"))
      ensures r.Ok? ==> r.value == IssueDismantlerCredentialCommand(bpn.value, caller.value,
                                    activityType.value, allowedVehicleBrands)
    {
      if bpn.None? { return Err(IllegalState("bpn")); }
      if caller.None? { return Err(IllegalState("caller")); }
      if activityType.None? { return Err(IllegalState("activityType")); }
      return Ok(IssueDismantlerCredentialCommand(bpn.value, caller.value, activityType.value, allowedVehicleBrands));
    }
  }

  /** A command builds with the brand set never given (null) ... */
  method BuildWithoutBrands(bpn: BPN, caller: BPN, activity: ActivityType)
    returns (r: Result<IssueDismantlerCredentialCommand>)
    ensures r == Ok(IssueDismantlerCredentialCommand(bpn, caller, activity, None))
  {
    var b := new Builder();
    var _ := b.WithBpn(Some(bpn));
    var _ := b.WithCaller(Some(caller));
    var _ := b.WithActivityType(Some(activity));
    r := b.Build();
  }

  /** ... and with an empty brand set. */
  method BuildWithEmptyBrands(bpn: BPN, caller: BPN, activity: ActivityType)
    returns (r: Result<IssueDismantlerCredentialCommand>)
    ensures r == Ok(IssueDismantlerCredentialCommand(bpn, caller, activity, Some({})))
  {
    var b := new Builder();
    var _ := b.WithAllowedVehicleBrands(Some({}));
    var _ := b.WithBpn(Some(bpn));
    var _ := b.WithCaller(Some(caller));
    var _ := b.WithActivityType(Some(activity));
    r := b.Build();
  }

  /** Brands alone do not build: the bpn is checked first. */
  method BuildWithOnlyBrands(brands: set<string>)
    returns (r: Result<IssueDismantlerCredentialCommand>)
    ensures r == Err(IllegalState("bpn"))
  {
    var b := new Builder();
    var _ := b.WithAllowedVehicleBrands(Some(brands));
    r := b.Build();
  }
}
