/**
 * The Multivision manager wrapper: it creates the library's controller
 * manager for the configured endpoint, keeps it only when the connection
 * succeeds, and registers further controllers on it one at a time.
 */
module Manager {
  import opened Wrappers
  import opened Text
  import opened Device
  import opened Host

  /** The configuration data of a Multivision entry. */
  datatype EntryData = EntryData(host: string, port: nat)

  /** The not-ready message naming the endpoint that did not connect. */
  function NotConnectedMessage(host: string, port: nat): string {
    "Couldnt connect to Multivision Controller Manager @ tcp://" + HostPort(host, port)
  }

  class MultivisionManager {
    const configEntry: EntryData
    var manager: ControllerManager?

    /** Once connected, the library manager talks to the configured endpoint and
        every controller on it is a numbered module sharing its handler. */
    ghost predicate Valid()
      reads this, manager
    {
      manager != null ==>
        && manager.tcpHandler.host == Host()
        && manager.tcpHandler.port == Port()
        && forall c <- manager.controllers :: c.controllerId.Some? && c.handler == manager.tcpHandler
    }

    constructor (configEntry: EntryData)
      ensures this.configEntry == configEntry && manager == null && Valid()
    {
      this.configEntry := configEntry;
      manager := null;
    }

    function Host(): string {
      configEntry.host
    }

    function Port(): nat {
      configEntry.port
    }

    /** The library manager's controller list; reading it before a successful
        initialisation is an attribute read on None. */
    function Controllers(): (r: Result<seq<Controller>, Error>)
      reads this, manager
      ensures manager == null <==> r == Failure(AttributeError("controllers"))
      ensures manager != null ==> r == Success(manager.controllers)
    {
      if manager == null then Failure(AttributeError("controllers")) else Success(manager.controllers)
    }

    /**
     * Creates a library manager for the configured endpoint and connects it
     * once; the manager is kept only when the connection succeeded.
     */
    method AsyncInitializeManager(outcome: ConnectOutcome) returns (r: Result<bool, Error>)
      requires Valid()
      modifies this
      ensures Valid()
      ensures outcome.ConnectRaises? ==>
                r == Failure(ConfigEntryNotReady(outcome.error.message, None)) && manager == old(manager)
      ensures outcome.ReturnsDisconnected? ==>
                r == Failure(ConfigEntryNotReady(NotConnectedMessage(Host(), Port()), None))
                && manager == old(manager)
      ensures outcome.ReturnsConnected? ==>
                && r == Success(true)
                && manager != null && fresh(manager) && fresh(manager.tcpHandler)
                && manager.tcpHandler.connected
                && manager.controllers == []
    {
      var m := new ControllerManager(Host(), Port());
      var raised := m.ConnectTcpHost(outcome);
      if raised.Some? {
        return Failure(ConfigEntryNotReady(raised.value.message, None));
      }
      if !m.tcpHandler.connected {
        return Failure(ConfigEntryNotReady(NotConnectedMessage(Host(), Port()), None));
      }
      manager := m;
      return Success(true);
    }

    /** Registers Multivision module `id` and refreshes it; an exception of the refresh propagates. */
    method AddController(id: nat, refresh: UpdateOutcome) returns (r: Outcome<Error>)
      requires Valid()
      modifies manager
      ensures Valid()
      ensures manager == null ==> r == Fail(AttributeError("add_controller"))
      ensures manager != null ==>
                && |manager.controllers| == |old(manager.controllers)| + 1
                && manager.controllers[..|old(manager.controllers)|] == old(manager.controllers)
                && var c := manager.controllers[|manager.controllers| - 1];
                   && fresh(c) && c.kind == Multivision && c.controllerId == Some(id)
                   && c.handler == manager.tcpHandler && c.sent == []
                   && c.brightness8bit == (if refresh.Reported? then refresh.brightness else None)
                   && r == if refresh.UpdateRaises? then Fail(Raised(refresh.error)) else Pass
    {
      if manager == null {
        return Fail(AttributeError("add_controller"));
      }
      manager.AddController(Multivision, id);
      var added := manager.controllers[|manager.controllers| - 1];
      var raised := added.Update(refresh);
      if raised.Some? {
        return Fail(Raised(raised.value));
      }
      return Pass;
    }
  }
}
