/**
 * The light platform of the Multivision integration: setup registers module
 * ids 1..count on the shared manager, one entity is created per registered
 * controller, and each entity keeps its own brightness and on/off record,
 * which its commands and its refresh update step by step.
 */
module MultivisionLight {
  import opened Wrappers
  import opened Text
  import opened Device
  import opened Host

  const UniquePrefix := "multivision_led_"

  /** Message of the UpdateFailed raised when the device sent no usable data. */
  const NoDataMessage := "Didnt receive Data from the device yet (or received invalid Data)."

  /** Message of the TypeError raised by `None > 0`. */
  const NoneComparisonMessage := "'>' not supported between instances of 'NoneType' and 'int'"

  function UniqueId(id: nat, host: string, port: nat): string {
    UniquePrefix + NatToString(id) + "_@_" + HostPort(host, port)
  }

  /** Reads a unique id back into its module id, host and port. */
  function ParseUniqueId(s: string): Option<(nat, string, nat)> {
    if |s| < |UniquePrefix| || s[..|UniquePrefix|] != UniquePrefix then None
    else
      match SplitFirst(s[|UniquePrefix|..], '_')
      case None => None
      case Some(p) =>
        if |p.1| < 2 || p.1[..2] != "@_" then None
        else
          match (ParseNat(p.0), ParseHostPort(p.1[2..]))
          case (Some(id), Some(hp)) => Some((id, hp.0, hp.1))
          case _ => None
  }

  lemma UniqueIdRoundTrip(id: nat, host: string, port: nat)
    ensures ParseUniqueId(UniqueId(id, host, port)) == Some((id, host, port))
  {
    var digits := NatToString(id);
    var tail := "@_" + HostPort(host, port);
    var s := UniqueId(id, host, port);
    assert s == UniquePrefix + (digits + ['_'] + tail);
    assert s[..|UniquePrefix|] == UniquePrefix;
    assert s[|UniquePrefix|..] == digits + ['_'] + tail;
    DigitsExclude(digits, '_');
    SplitFirstOf(digits, '_', tail);
    assert tail[..2] == "@_" && tail[2..] == HostPort(host, port);
    ParseNatToString(id);
    HostPortRoundTrip(host, port);
  }

  /** Entities that differ in module id, host or port get different unique ids. */
  lemma UniqueIdsDistinct(id1: nat, host1: string, port1: nat, id2: nat, host2: string, port2: nat)
    requires (id1, host1, port1) != (id2, host2, port2)
    ensures UniqueId(id1, host1, port1) != UniqueId(id2, host2, port2)
  {
    UniqueIdRoundTrip(id1, host1, port1);
    UniqueIdRoundTrip(id2, host2, port2);
  }

  /** The entity's own record of the light: `_attr_brightness` and `_attr_is_on`. */
  datatype Snapshot = Snapshot(brightness: Option<int>, isOn: bool)

  /**
   * What `async_update` does to the record, given how the controller's
   * update ended. The brightness is stored before it is compared with 0, so
   * a refresh that leaves the cache empty clears the stored brightness and
   * keeps the on/off flag.
   */
  function Refresh(s: Snapshot, outcome: UpdateOutcome): (r: (Snapshot, Outcome<Error>))
    ensures r.1 == Pass <==> outcome.Reported? && outcome.brightness.Some?
    ensures r.1 == Pass ==> r.0 == Snapshot(outcome.brightness, outcome.brightness.value > 0)
    ensures outcome.UpdateRaises? ==> r.0 == s
    ensures outcome == Reported(None) ==> r.0 == Snapshot(None, s.isOn)
    ensures r.1 != Pass ==> r.0.isOn == s.isOn && r.1.error.UpdateFailed?
    ensures (outcome.UpdateRaises? && outcome.error.TypeError?) || outcome == Reported(None) ==>
              r.1 == Fail(UpdateFailed(NoDataMessage, None))
    ensures outcome.UpdateRaises? && outcome.error.OtherException? ==>
              r.1 == Fail(UpdateFailed(outcome.error.message, None))
  {
    match outcome
    case UpdateRaises(TypeError(_)) => (s, Fail(UpdateFailed(NoDataMessage, None)))
    case UpdateRaises(OtherException(m)) => (s, Fail(UpdateFailed(m, None)))
    case Reported(None) => (Snapshot(None, s.isOn), Fail(UpdateFailed(NoDataMessage, None)))
    case Reported(Some(b)) => (Snapshot(Some(b), b > 0), Pass)
  }

  /** The record just before `async_turn_on` writes to the device. */
  function TurnOnRequest(s: Snapshot, requested: Option<int>): (r: Snapshot)
    ensures r.isOn
    ensures r.brightness == if requested.Some? then requested else s.brightness
  {
    Snapshot(if requested.Some? then requested else s.brightness, true)
  }

  /** The record just before `async_turn_off` writes to the device. */
  function TurnOffRequest(s: Snapshot): (r: Snapshot)
    ensures !r.isOn && r.brightness == s.brightness
  {
    Snapshot(s.brightness, false)
  }

  /** Example: turning off and then reading 0 back from the device leaves the light recorded as off. */
  lemma TurnOffThenReadZero(s: Snapshot)
    ensures Refresh(TurnOffRequest(s), Reported(Some(0))) == (Snapshot(Some(0), false), Pass)
  {
  }

  /**
   * A refresh that reads a brightness forgets how the record got there: any
   * two records, whatever commands produced them, agree after it.
   */
  lemma LastCommandWins(s1: Snapshot, s2: Snapshot, reported: int)
    ensures Refresh(s1, Reported(Some(reported))) == Refresh(s2, Reported(Some(reported)))
    ensures Refresh(s1, Reported(Some(reported))).0.isOn <==> reported > 0
  {
  }

  class LightEntity {
    const controller: Controller
    const id: nat
    const entryId: string
    const host: string
    const port: nat
    const name: string
    const uniqueId: string
    var attrIsOn: bool
    var attrBrightness: Option<int>

    function State(): Snapshot
      reads this
    {
      Snapshot(attrBrightness, attrIsOn)
    }

    /** The controller's brightness must have been read: `None > 0` raises TypeError. */
    constructor (controller: Controller, manager: ControllerManager, entryId: string)
      requires controller.controllerId.Some?
      requires controller.brightness8bit.Some?
      ensures this.controller == controller && id == controller.controllerId.value && this.entryId == entryId
      ensures host == manager.tcpHandler.host && port == manager.tcpHandler.port
      ensures name == "LED Controller #" + NatToString(id)
      ensures uniqueId == UniqueId(id, host, port)
      ensures attrBrightness == controller.brightness8bit
      ensures attrIsOn == (controller.brightness8bit.value > 0)
    {
      this.controller := controller;
      id := controller.controllerId.value;
      this.entryId := entryId;
      host := manager.tcpHandler.host;
      port := manager.tcpHandler.port;
      name := "LED Controller #" + NatToString(controller.controllerId.value);
      uniqueId := UniqueId(controller.controllerId.value, manager.tcpHandler.host, manager.tcpHandler.port);
      attrIsOn := controller.brightness8bit.value > 0;
      attrBrightness := controller.brightness8bit;
    }

    /** Refreshes the controller and copies its brightness into the record. */
    method AsyncUpdate(outcome: UpdateOutcome) returns (r: Outcome<Error>)
      modifies this, controller
      ensures (State(), r) == Refresh(old(State()), outcome)
      ensures controller.brightness8bit == if outcome.Reported? then outcome.brightness else old(controller.brightness8bit)
      ensures controller.sent == old(controller.sent)
    {
      var raised := controller.Update(outcome);
      if raised.Some? {
        match raised.value
        case TypeError(_) =>
          return Fail(UpdateFailed(NoDataMessage, None));
        case OtherException(m) =>
          return Fail(UpdateFailed(m, None));
      }
      var brightness := controller.brightness8bit;
      attrBrightness := brightness;
      if brightness.None? {
        // `None > 0` raises TypeError, caught by the first handler
        return Fail(UpdateFailed(NoDataMessage, None));
      }
      attrIsOn := brightness.value > 0;
      return Pass;
    }

    /**
     * Stores the requested brightness (or keeps the stored one), marks the
     * light on, writes the stored brightness and refreshes.
     */
    method AsyncTurnOn(brightness: Option<int>, writeFault: Option<DeviceError>, refresh: UpdateOutcome)
      returns (r: Outcome<Error>)
      modifies this, controller
      ensures var request := TurnOnRequest(old(State()), brightness);
              && controller.sent == old(controller.sent) + [Write8bit(request.brightness)]
              && (writeFault.Some? ==>
                    State() == request && r == Fail(Raised(writeFault.value))
                    && controller.brightness8bit == old(controller.brightness8bit))
              && (writeFault.None? ==>
                    (State(), r) == Refresh(request, refresh)
                    && controller.brightness8bit == if refresh.Reported? then refresh.brightness else old(controller.brightness8bit))
    {
      if brightness.Some? {
        attrBrightness := brightness;
      }
      attrIsOn := true;
      var raised := controller.SetBrightness8bit(attrBrightness, writeFault);
      if raised.Some? {
        return Fail(Raised(raised.value));
      }
      r := AsyncUpdate(refresh);
    }

    /** Marks the light off, writes 0 percent and refreshes. */
    method AsyncTurnOff(writeFault: Option<DeviceError>, refresh: UpdateOutcome) returns (r: Outcome<Error>)
      modifies this, controller
      ensures var request := TurnOffRequest(old(State()));
              && controller.sent == old(controller.sent) + [WritePercent(0)]
              && (writeFault.Some? ==>
                    State() == request && r == Fail(Raised(writeFault.value))
                    && controller.brightness8bit == old(controller.brightness8bit))
              && (writeFault.None? ==>
                    (State(), r) == Refresh(request, refresh)
                    && controller.brightness8bit == if refresh.Reported? then refresh.brightness else old(controller.brightness8bit))
    {
      attrIsOn := false;
      var raised := controller.SetBrightnessPercent(0, writeFault);
      if raised.Some? {
        return Fail(Raised(raised.value));
      }
      r := AsyncUpdate(refresh);
    }
  }

  /** Position of the first refresh that raises, if any. */
  function FirstRaise(outcomes: seq<UpdateOutcome>): (r: Option<nat>)
    ensures r.Some? ==> r.value < |outcomes| && outcomes[r.value].UpdateRaises?
    ensures r.Some? ==> forall k :: 0 <= k < r.value ==> outcomes[k].Reported?
    ensures r.None? ==> forall k :: 0 <= k < |outcomes| ==> outcomes[k].Reported?
  {
    if outcomes == [] then None
    else if outcomes[0].UpdateRaises? then Some(0)
    else
      match FirstRaise(outcomes[1..])
      case None => None
      case Some(k) => Some(k + 1)
  }

  /**
   * Registers Multivision modules 1..count on the manager, refreshing each
   * right after it is added (refresh k ends as `refreshes[k - 1]`); an
   * exception of a refresh propagates. Then builds one entity per
   * controller of the manager, in list order.
   */
  method AsyncSetupEntry(manager: ControllerManager, entryId: string, count: nat, refreshes: seq<UpdateOutcome>)
    returns (r: Result<seq<LightEntity>, Error>)
    requires |refreshes| == count
    requires forall c <- manager.controllers :: c.controllerId.Some?
    modifies manager
    ensures |old(manager.controllers)| <= |manager.controllers|
    ensures manager.controllers[..|old(manager.controllers)|] == old(manager.controllers)
    ensures forall c <- manager.controllers :: c.controllerId.Some?
    ensures var n0 := |old(manager.controllers)|;
            && |manager.controllers| - n0 == (match FirstRaise(refreshes) case Some(k) => k + 1 case None => count)
            && forall j :: n0 <= j < |manager.controllers| ==>
                 var c := manager.controllers[j];
                 && fresh(c) && c.kind == Multivision && c.controllerId == Some(j - n0 + 1)
                 && c.handler == manager.tcpHandler && c.sent == []
                 && c.brightness8bit == (if refreshes[j - n0].Reported? then refreshes[j - n0].brightness else None)
    ensures FirstRaise(refreshes).Some? ==> r == Failure(Raised(refreshes[FirstRaise(refreshes).value].error))
    ensures FirstRaise(refreshes).None? ==>
              (r.Success? <==> forall c <- manager.controllers :: c.brightness8bit.Some?)
    ensures FirstRaise(refreshes).None? && r.Failure? ==> r.error == Raised(TypeError(NoneComparisonMessage))
    ensures r.Success? ==>
              && |r.value| == |manager.controllers|
              && forall i :: 0 <= i < |r.value| ==>
                   var e, c := r.value[i], manager.controllers[i];
                   && fresh(e) && e.controller == c && e.id == c.controllerId.value
                   && e.uniqueId == UniqueId(e.id, manager.tcpHandler.host, manager.tcpHandler.port)
                   && e.State() == Snapshot(c.brightness8bit, c.brightness8bit.value > 0)
  {
    ghost var n0 := |manager.controllers|;
    var i := 1;
    while i <= count
      invariant 1 <= i <= count + 1
      invariant |manager.controllers| == n0 + i - 1
      invariant manager.controllers[..n0] == old(manager.controllers)
      invariant forall c <- manager.controllers :: c.controllerId.Some?
      invariant forall k :: 0 <= k < i - 1 ==> refreshes[k].Reported?
      invariant forall j :: n0 <= j < |manager.controllers| ==>
                  var c := manager.controllers[j];
                  && fresh(c) && c.kind == Multivision && c.controllerId == Some(j - n0 + 1)
                  && c.handler == manager.tcpHandler && c.sent == []
                  && c.brightness8bit == refreshes[j - n0].brightness
    {
      manager.AddController(Multivision, i);
      var added := manager.controllers[|manager.controllers| - 1];
      var raised := added.Update(refreshes[i - 1]);
      if raised.Some? {
        return Failure(Raised(raised.value));
      }
      i := i + 1;
    }

    var controllers := manager.controllers;
    var entities: seq<LightEntity> := [];
    var j := 0;
    while j < |controllers|
      modifies {}
      invariant 0 <= j <= |controllers|
      invariant |entities| == j
      invariant forall k :: 0 <= k < j ==> controllers[k].brightness8bit.Some?
      invariant forall k :: 0 <= k < j ==>
                  var e, c := entities[k], controllers[k];
                  && fresh(e) && e.controller == c && e.id == c.controllerId.value
                  && e.uniqueId == UniqueId(e.id, manager.tcpHandler.host, manager.tcpHandler.port)
                  && e.State() == Snapshot(c.brightness8bit, c.brightness8bit.value > 0)
    {
      var c := controllers[j];
      if c.brightness8bit.None? {
        return Failure(Raised(TypeError(NoneComparisonMessage)));
      }
      var e := new LightEntity(c, manager, entryId);
      entities := entities + [e];
      j := j + 1;
    }
    return Success(entities);
  }
}
