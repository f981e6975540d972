/**
 * The external device libraries (`ledcontroller`, `multivision`) as far as
 * the integration uses them. Their wire protocol is not part of this model:
 * every call that talks to the hardware takes the outcome the device or the
 * transport produced as a parameter.
 */
module Device {
  import opened Wrappers

  /** An exception raised inside the device library. */
  datatype DeviceError =
    | TypeError(message: string)       // no data, or data of an unexpected shape
    | OtherException(message: string)  // any other transport or protocol failure

  /** How one `connect()` call ends. */
  datatype ConnectOutcome =
    | ConnectRaises(error: DeviceError)
    | ReturnsDisconnected  // returned without raising, yet `connected` is false
    | ReturnsConnected

  /** How one `update()` call ends: it raises, or returns with the cached
      `brightness_8bit` the device reported (None when nothing usable arrived). */
  datatype UpdateOutcome =
    | UpdateRaises(error: DeviceError)
    | Reported(brightness: Option<int>)

  /** A write issued to a controller. */
  datatype Command =
    | Write8bit(value: Option<int>)
    | WritePercent(percent: int)

  /** The two hardware families. */
  datatype ControllerType = Multivision | OnlyGlass

  /** The TCP session to one endpoint. */
  class TcpHandler {
    const host: string
    const port: nat
    var connected: bool

    constructor (host: string, port: nat)
      ensures this.host == host && this.port == port && !connected
    {
      this.host := host;
      this.port := port;
      connected := false;
    }

    /** One connection attempt; its outcome is decided by the network. */
    method Connect(outcome: ConnectOutcome) returns (raised: Option<DeviceError>)
      modifies this
      ensures raised == if outcome.ConnectRaises? then Some(outcome.error) else None
      ensures connected == match outcome
                           case ConnectRaises(_) => old(connected)
                           case ReturnsDisconnected => false
                           case ReturnsConnected => true
    {
      match outcome
      case ConnectRaises(e) =>
        raised := Some(e);
      case ReturnsDisconnected =>
        connected := false;
        raised := None;
      case ReturnsConnected =>
        connected := true;
        raised := None;
    }
  }

  /**
   * One addressable LED module or channel bound to a handler. The cache
   * `brightness8bit` changes only on `Update`; `sent` records the writes
   * issued to the device, in order.
   */
  class Controller {
    const kind: ControllerType
    const handler: TcpHandler
    const controllerId: Option<nat>  // module id of a Multivision module, None for OnlyGlass
    var brightness8bit: Option<int>
    var sent: seq<Command>

    constructor (kind: ControllerType, handler: TcpHandler, controllerId: Option<nat>)
      ensures this.kind == kind && this.handler == handler && this.controllerId == controllerId
      ensures brightness8bit == None && sent == []
    {
      this.kind := kind;
      this.handler := handler;
      this.controllerId := controllerId;
      brightness8bit := None;
      sent := [];
    }

    method Update(outcome: UpdateOutcome) returns (raised: Option<DeviceError>)
      modifies this
      ensures raised == if outcome.UpdateRaises? then Some(outcome.error) else None
      ensures brightness8bit == if outcome.Reported? then outcome.brightness else old(brightness8bit)
      ensures sent == old(sent)
    {
      match outcome
      case UpdateRaises(e) =>
        raised := Some(e);
      case Reported(b) =>
        brightness8bit := b;
        raised := None;
    }

    method SetBrightness8bit(value: Option<int>, fault: Option<DeviceError>) returns (raised: Option<DeviceError>)
      modifies this
      ensures raised == fault
      ensures sent == old(sent) + [Write8bit(value)]
      ensures brightness8bit == old(brightness8bit)
    {
      sent := sent + [Write8bit(value)];
      raised := fault;
    }

    method SetBrightnessPercent(percent: int, fault: Option<DeviceError>) returns (raised: Option<DeviceError>)
      modifies this
      ensures raised == fault
      ensures sent == old(sent) + [WritePercent(percent)]
      ensures brightness8bit == old(brightness8bit)
    {
      sent := sent + [WritePercent(percent)];
      raised := fault;
    }
  }

  /** The Multivision library's manager: one handler and the controllers registered on it. */
  class ControllerManager {
    const tcpHandler: TcpHandler
    var controllers: seq<Controller>

    constructor (host: string, port: nat)
      ensures fresh(tcpHandler) && tcpHandler.host == host && tcpHandler.port == port
      ensures !tcpHandler.connected && controllers == []
    {
      tcpHandler := new TcpHandler(host, port);
      controllers := [];
    }

    method ConnectTcpHost(outcome: ConnectOutcome) returns (raised: Option<DeviceError>)
      modifies tcpHandler
      ensures raised == if outcome.ConnectRaises? then Some(outcome.error) else None
      ensures tcpHandler.connected == match outcome
                                      case ConnectRaises(_) => old(tcpHandler.connected)
                                      case ReturnsDisconnected => false
                                      case ReturnsConnected => true
    {
      raised := tcpHandler.Connect(outcome);
    }

    /** Registers a new controller of the given family and id at the end of the list. */
    method AddController(kind: ControllerType, id: nat)
      modifies this
      ensures |controllers| == |old(controllers)| + 1
      ensures controllers[..|old(controllers)|] == old(controllers)
      ensures var c := controllers[|controllers| - 1];
              fresh(c) && c.kind == kind && c.controllerId == Some(id) && c.handler == tcpHandler
              && c.brightness8bit == None && c.sent == []
    {
      var c := new Controller(kind, tcpHandler, Some(id));
      controllers := controllers + [c];
    }
  }
}

/** The exceptions the integration raises towards the host platform. */
module Host {
  import opened Wrappers
  import opened Device

  datatype Error =
    | ConfigEntryNotReady(message: string, cause: Option<DeviceError>)  // setup is retried later by the host
    | UpdateFailed(message: string, cause: Option<DeviceError>)         // a refresh failed
    | HandlerLookup(message: string)   // the bare Exception raised when no handler is registered at all
    | KeyError(key: string)            // a missing dictionary key
    | AttributeError(attribute: string)  // an attribute read on None
    | Raised(error: DeviceError)       // a device-library exception that propagates untranslated
}
