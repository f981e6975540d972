/**
 * The light platform of the generic LED controller integration: setup picks
 * the controller family, the entity derives its unique id from the family's
 * id and the endpoint, reads its state from the controller's cached
 * brightness and forwards on/off commands to the controller.
 */
module GenericLight {
  import opened Wrappers
  import opened Text
  import opened Device
  import opened Host
  import opened Helpers

  const KeyPrefix := "led_controller_light_"

  /** The configuration entry of one device. */
  datatype Entry = Entry(runtimeData: Connection, controllerType: ControllerType, configuredId: nat)

  /** What setup hands to the entity. */
  datatype Description = Description(
    key: string,
    name: string,
    controller: Controller,
    handler: TcpHandler,
    controllerType: ControllerType)

  /** The module id and display name chosen for each family. */
  datatype Dispatched = Dispatched(id: Option<nat>, name: string)

  function Dispatch(kind: ControllerType, configuredId: nat): Dispatched {
    match kind
    case Multivision => Dispatched(Some(configuredId), "Module #" + NatToString(configuredId))
    case OnlyGlass => Dispatched(None, "Brightness")
  }

  /** `id or 0`: a missing id (and the id 0) counts as 0. */
  function KeyId(id: Option<nat>): nat {
    match id
    case None => 0
    case Some(k) => k
  }

  function Key(id: Option<nat>): string {
    KeyPrefix + NatToString(KeyId(id))
  }

  function UniqueId(key: string, host: string, port: nat): string {
    key + "_" + HostPort(host, port)
  }

  /** Reads a unique id back into its key id, host and port. */
  function ParseUniqueId(s: string): Option<(nat, string, nat)> {
    if |s| < |KeyPrefix| || s[..|KeyPrefix|] != KeyPrefix then None
    else
      match SplitFirst(s[|KeyPrefix|..], '_')
      case None => None
      case Some(p) =>
        match (ParseNat(p.0), ParseHostPort(p.1))
        case (Some(id), Some(hp)) => Some((id, hp.0, hp.1))
        case _ => None
  }

  /** A unique id determines the key id, the host and the port it was built from. */
  lemma UniqueIdRoundTrip(id: Option<nat>, host: string, port: nat)
    ensures ParseUniqueId(UniqueId(Key(id), host, port)) == Some((KeyId(id), host, port))
  {
    var digits := NatToString(KeyId(id));
    var tail := HostPort(host, port);
    var s := UniqueId(Key(id), host, port);
    assert s == KeyPrefix + (digits + ['_'] + tail);
    assert s[..|KeyPrefix|] == KeyPrefix;
    assert s[|KeyPrefix|..] == digits + ['_'] + tail;
    DigitsExclude(digits, '_');
    SplitFirstOf(digits, '_', tail);
    ParseNatToString(KeyId(id));
    HostPortRoundTrip(host, port);
  }

  /**
   * Devices that differ in family id, host or port get different unique ids,
   * given that configured Multivision ids are positive.
   */
  lemma UniqueIdsDistinct(
    kind1: ControllerType, id1: nat, host1: string, port1: nat,
    kind2: ControllerType, id2: nat, host2: string, port2: nat)
    requires id1 > 0 && id2 > 0
    requires (Dispatch(kind1, id1).id, host1, port1) != (Dispatch(kind2, id2).id, host2, port2)
    ensures UniqueId(Key(Dispatch(kind1, id1).id), host1, port1)
         != UniqueId(Key(Dispatch(kind2, id2).id), host2, port2)
  {
    var d1, d2 := Dispatch(kind1, id1).id, Dispatch(kind2, id2).id;
    UniqueIdRoundTrip(d1, host1, port1);
    UniqueIdRoundTrip(d2, host2, port2);
  }

  /**
   * `is_on` as the source computes it: `not brightness` holds for None and
   * for 0 alike, so a light at brightness 0 reads as unknown, never as off.
   */
  function IsOnAsWritten(brightness: Option<int>): (r: Option<bool>)
    ensures brightness.None? || brightness.value >= 0 ==> r != Some(false)
  {
    if brightness == None || brightness == Some(0) then None else Some(brightness.value > 0)
  }

  /** The tri-state the entity is meant to report: unknown until read, then on iff above 0. */
  function IsOnOf(brightness: Option<int>): (r: Option<bool>)
    ensures r == None <==> brightness == None
    ensures r == Some(true) <==> brightness.Some? && brightness.value > 0
    ensures r == Some(false) <==> brightness.Some? && brightness.value <= 0
  {
    match brightness
    case None => None
    case Some(v) => Some(v > 0)
  }

  /** The two disagree exactly on a light that has been read at brightness 0. */
  lemma IsOnAsWrittenDiffers(brightness: Option<int>)
    ensures IsOnAsWritten(brightness) != IsOnOf(brightness) <==> brightness == Some(0)
    ensures IsOnAsWritten(Some(0)) == None && IsOnOf(Some(0)) == Some(false)
  {
  }

  class LightEntity {
    const description: Description
    const uniqueId: string

    constructor (description: Description)
      ensures this.description == description
      ensures uniqueId == UniqueId(description.key, description.handler.host, description.handler.port)
    {
      this.description := description;
      uniqueId := UniqueId(description.key, description.handler.host, description.handler.port);
    }

    /** The controller's cached brightness, untransformed. */
    function Brightness(): Option<int>
      reads description.controller
    {
      description.controller.brightness8bit
    }

    /**
     * The entity's on/off state as written: unknown while unread and also at
     * brightness 0, so a light read at 0 is never reported as off.
     */
    function IsOn(): (r: Option<bool>)
      reads description.controller
      ensures r == None <==> Brightness() == None || Brightness() == Some(0)
      ensures r == Some(true) <==> Brightness().Some? && Brightness().value > 0
      ensures Brightness().None? || Brightness().value >= 0 ==> r != Some(false)
    {
      IsOnAsWritten(Brightness())
    }

    /** Writes the requested brightness, full brightness by default, through the 8-bit path. */
    method AsyncTurnOn(brightness: Option<int>, fault: Option<DeviceError>) returns (r: Outcome<Error>)
      modifies description.controller
      ensures description.controller.sent == old(description.controller.sent) + [Write8bit(Some(brightness.GetOr(255)))]
      ensures Brightness() == old(Brightness())
      ensures r == if fault.Some? then Fail(Raised(fault.value)) else Pass
    {
      var value := brightness.GetOr(255);
      var raised := description.controller.SetBrightness8bit(Some(value), fault);
      if raised.Some? {
        return Fail(Raised(raised.value));
      }
      return Pass;
    }

    /** Writes 0 percent; the 8-bit path is not used. */
    method AsyncTurnOff(fault: Option<DeviceError>) returns (r: Outcome<Error>)
      modifies description.controller
      ensures description.controller.sent == old(description.controller.sent) + [WritePercent(0)]
      ensures Brightness() == old(Brightness())
      ensures r == if fault.Some? then Fail(Raised(fault.value)) else Pass
    {
      var raised := description.controller.SetBrightnessPercent(0, fault);
      if raised.Some? {
        return Fail(Raised(raised.value));
      }
      return Pass;
    }

    /** Refreshes the controller; any exception it raises becomes UpdateFailed. */
    method AsyncUpdate(outcome: UpdateOutcome) returns (r: Outcome<Error>)
      modifies description.controller
      ensures r == if outcome.UpdateRaises? then Fail(UpdateFailed("", Some(outcome.error))) else Pass
      ensures Brightness() == if outcome.Reported? then outcome.brightness else old(Brightness())
      ensures description.controller.sent == old(description.controller.sent)
    {
      var raised := description.controller.Update(outcome);
      if raised.Some? {
        return Fail(UpdateFailed("", raised));
      }
      return Pass;
    }
  }

  /**
   * Looks up the entry's handler and builds the entity for the configured
   * family. A lookup that raises propagates; a lookup that finds no match
   * yields None, and reading its host raises AttributeError.
   */
  method AsyncSetupEntry(hass: Hass, entry: Entry) returns (r: Result<LightEntity, Error>)
    ensures Domain !in hass.data ==> r == Failure(KeyError(Domain))
    ensures Domain in hass.data && ConnHandlers !in hass.data[Domain] ==> r == Failure(KeyError(ConnHandlers))
    ensures Domain in hass.data && ConnHandlers in hass.data[Domain] && hass.data[Domain][ConnHandlers] == [] ==>
              r == Failure(HandlerLookup(NoConnectionMessage(entry.runtimeData)))
    ensures Handlers(hass.data) != [] && FindFirst(Handlers(hass.data), entry.runtimeData).None? ==>
              r == Failure(AttributeError("host"))
    ensures r.Success? <==> FindFirst(Handlers(hass.data), entry.runtimeData).Some?
    ensures r.Success? ==>
              var handlers, d := Handlers(hass.data), Dispatch(entry.controllerType, entry.configuredId);
              var desc := r.value.description;
              && fresh(r.value) && fresh(desc.controller)
              && desc.handler == handlers[FindFirst(handlers, entry.runtimeData).value]
              && desc.key == Key(d.id)
              && desc.name == d.name
              && desc.controllerType == entry.controllerType
              && desc.controller.kind == entry.controllerType
              && desc.controller.controllerId == d.id
              && desc.controller.handler == desc.handler
              && desc.controller.brightness8bit == None
              && r.value.uniqueId == UniqueId(Key(d.id), entry.runtimeData.host, entry.runtimeData.port)
  {
    var found := GetHandler(hass, entry.runtimeData);
    if found.Failure? {
      return Failure(found.error);
    }
    if found.value.None? {
      return Failure(AttributeError("host"));
    }
    var handler := found.value.value;

    var d := Dispatch(entry.controllerType, entry.configuredId);
    var controller := new Controller(entry.controllerType, handler, d.id);
    var description := Description(Key(d.id), d.name, controller, handler, entry.controllerType);
    var entity := new LightEntity(description);
    return Success(entity);
  }
}
