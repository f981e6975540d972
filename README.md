# LED wall controller integrations — a Dafny model

Two home-automation integrations expose TCP-connected LED controllers as
dimmable lights: a generic one (Multivision modules or a single OnlyGlass
channel per entry) and a Multivision-only one built around a manager that
owns one connection and many numbered modules. This project models their own
logic:

- the process-wide handler registry (at most one TCP handler per
  `(host, port)` endpoint) and the connect-or-fail sequence with its two
  failure exits (`helpers.dfy`);
- the generic light platform: family dispatch at setup, the key and unique
  id, the `brightness`/`is_on` properties and the on/off/update commands
  (`generic_light.dfy`);
- the Multivision light entity, whose own brightness and on/off record is
  updated step by step by its commands and its refresh, and the setup loop
  that registers modules `1..count` (`multivision_light.dfy`);
- the Multivision manager wrapper: connect-or-fail, keeping the library
  manager only on success, and incremental registration (`manager.dfy`).

The device libraries are abstract (`device.dfy`): a `TcpHandler` with host,
port and a `connected` flag; a `Controller` with a cached `brightness8bit`
and a log `sent` of the writes issued to it; the Multivision library's
`ControllerManager`. Every call that reaches the hardware takes its outcome
as a parameter (`ConnectOutcome`, `UpdateOutcome`, a write fault), so each
operation is proved for every way the device or the network can answer.
Exceptions are values: `Host.Error` lists what the integration raises
towards the host, `Device.DeviceError` what the libraries raise.
`text.dfy` renders integers the way Python's f-strings do and proves that a
rendered `host:port` suffix can be read back, which is what makes unique ids
collision-free.

Where the design description and the code disagree, the model follows the
code:

- The lookup in `ha-ledcontroller/helpers.py:47-54` raises only on an
  empty list. On a non-empty list without a match it returns None instead
  of failing.
- The generic entity's turn-on and turn-off only schedule a refresh with the
  host; they do not refresh themselves.
- `is_on` is never "off": the entity reports unknown both before the first
  read and at brightness 0 (see Findings, which also gives the intended
  tri-state).

## Model

| member | source | states |
|---|---|---|
| `Helpers.FromHandler` | ha-ledcontroller/helpers.py:13-18 | the endpoint of a handler carries exactly its host and port; endpoints compare structurally |
| `Helpers.FindFirst` | ha-ledcontroller/helpers.py:52-54 | the scan finds the first handler whose endpoint equals the connection, and finds none only when no handler matches |
| `Helpers.UniqueMatch` | ha-ledcontroller/helpers.py:33 | in a list without duplicate endpoints, any handler for the connection is the one the scan finds: one handler per endpoint |
| `Helpers.FindFirstAppend` | ha-ledcontroller/helpers.py:42-45 | a handler appended for an endpoint not yet registered is the first match, at the end of the list |
| `Helpers.AppendKeepsUnique` | ha-ledcontroller/helpers.py:42-45 | appending a handler for an endpoint not yet registered keeps the list free of duplicate endpoints |
| `Helpers.SetOrCreateHandler` | ha-ledcontroller/helpers.py:32-45 | creates the integration dictionary and empty list only when absent and leaves other entries alone; with a match the whole state is unchanged (so a second call is a no-op); otherwise exactly one fresh unconnected handler for the connection is appended after the unchanged earlier ones, where it is the first match; afterwards a match exists; no-duplicates is preserved |
| `Helpers.GetHandler` | ha-ledcontroller/helpers.py:47-54 | KeyError when the dictionaries were never created; the lookup exception naming `host:port` exactly when the list is empty; otherwise the first matching handler, or None exactly when nothing matches |
| `Helpers.AsyncSetupConnectionHandler` | ha-ledcontroller/helpers.py:20-30 | registers the handler, whose lookup right after is never None; handlers of other endpoints keep their connected flag; a raising connect gives ConfigEntryNotReady caused by that exception; a connect that returns unconnected gives ConfigEntryNotReady naming `tcp://host:port`; otherwise it passes and the registered handler is connected |
| `Text.NatToString` | ha-ledcontroller/light.py:52 | integers render as non-empty digit strings whose first digit is 0 only for 0 (no leading zeros) |
| `Text.ParseNatToString` | ha-ledcontroller/light.py:59 | the rendering of a number reads back as that number |
| `Text.HostPortRoundTrip` | ha-ledcontroller/light.py:80 | `host:port` reads back as host and port: the port is numeric, so the last `:` separates them |
| `GenericLight.UniqueIdRoundTrip` | ha-ledcontroller/light.py:80 | the unique id `led_controller_light_<id or 0>_<host>:<port>` determines the key id, host and port it was built from |
| `GenericLight.UniqueIdsDistinct` | ha-ledcontroller/light.py:47-59 | with positive configured ids, devices that differ in family id (Multivision id, or none for OnlyGlass), host or port get different unique ids |
| `GenericLight.IsOnAsWritten` | ha-ledcontroller/light.py:101-106 | as written, `is_on` is never False for a non-negative brightness |
| `GenericLight.IsOnOf` | ha-ledcontroller/light.py:101-106 | the intended tri-state: unknown exactly when brightness is unset, on exactly when above 0, off otherwise |
| `GenericLight.IsOnAsWrittenDiffers` | ha-ledcontroller/light.py:103-104 | the code as written and the intended tri-state disagree exactly on a light read at brightness 0, which is reported unknown instead of off |
| `GenericLight.LightEntity.IsOn` | ha-ledcontroller/light.py:97-106 | as written: the entity's state is unknown exactly when the controller's cached brightness is unset or 0, on exactly when it is above 0, and never off for a non-negative brightness |
| `GenericLight.LightEntity.constructor` | ha-ledcontroller/light.py:77-80 | the unique id is `<key>_<host>:<port>` of the description's handler |
| `GenericLight.LightEntity.AsyncTurnOn` | ha-ledcontroller/light.py:108-116 | exactly one 8-bit write of the requested brightness, 255 when none is given; the cached brightness is unchanged; a write exception propagates |
| `GenericLight.LightEntity.AsyncTurnOff` | ha-ledcontroller/light.py:118-122 | exactly one write of 0 through the percent path and no 8-bit write; a write exception propagates |
| `GenericLight.LightEntity.AsyncUpdate` | ha-ledcontroller/light.py:124-129 | a successful refresh passes silently and the entity's brightness becomes the reported value; any exception becomes UpdateFailed caused by it, leaving the brightness as it was |
| `GenericLight.AsyncSetupEntry` | ha-ledcontroller/light.py:37-67 | lookup failures propagate and a missing match fails reading `host`; otherwise a fresh controller on the registered handler: Multivision with the configured id and name `Module #<id>`, OnlyGlass with no id and name `Brightness`; key `led_controller_light_<id or 0>` and unique id `<key>_<host>:<port>` |
| `MultivisionLight.UniqueIdRoundTrip` | multivision_ha/light.py:52 | the unique id `multivision_led_<id>_@_<host>:<port>` determines the module id, host and port |
| `MultivisionLight.UniqueIdsDistinct` | multivision_ha/light.py:52 | entities that differ in module id, host or port get different unique ids |
| `MultivisionLight.Refresh` | multivision_ha/light.py:92-104 | a refresh passes exactly when the device reported a brightness, and then records it with on exactly when above 0; an exception of the update leaves the record untouched; a TypeError or an empty cache gives the "Didnt receive Data" UpdateFailed, any other exception UpdateFailed with its message; no failure changes the on/off flag |
| `MultivisionLight.TurnOnRequest` | multivision_ha/light.py:77-80 | before the write, the record holds the requested brightness or keeps the stored one, and is on |
| `MultivisionLight.TurnOffRequest` | multivision_ha/light.py:88 | before the write, the record is off and keeps its brightness |
| `MultivisionLight.TurnOffThenReadZero` | multivision_ha/light.py:85-99 | example: turning off and reading 0 back records brightness 0 and off |
| `MultivisionLight.LastCommandWins` | multivision_ha/light.py:92-99 | once a refresh reads a brightness, the record depends only on that reading, whatever turn-on, turn-off or refresh produced the record before |
| `MultivisionLight.FirstRaise` | multivision_ha/light.py:30-32 | the first refresh that raises is found, with every earlier refresh having succeeded |
| `MultivisionLight.AsyncSetupEntry` | multivision_ha/light.py:23-37 | appends fresh Multivision controllers with ids 1, 2, … in order, each refreshed right after it is added; stops at the first refresh that raises and propagates its exception; otherwise fails with TypeError exactly when some controller has no brightness, else returns one entity per controller in list order |
| `MultivisionLight.LightEntity.constructor` | multivision_ha/light.py:43-57 | the stored brightness is the controller's, on exactly when it is above 0; the unique id is `multivision_led_<id>_@_<host>:<port>` of the manager's handler |
| `MultivisionLight.LightEntity.AsyncUpdate` | multivision_ha/light.py:92-104 | the record and the result are those `Refresh` gives for the old record |
| `MultivisionLight.LightEntity.AsyncTurnOn` | multivision_ha/light.py:74-83 | stores the requested brightness (or keeps the stored one), sets on, writes the stored brightness through the 8-bit path, then refreshes; a write exception propagates with the record left as set |
| `MultivisionLight.LightEntity.AsyncTurnOff` | multivision_ha/light.py:85-90 | sets off, writes 0 percent, then refreshes; a write exception propagates with the record left as set |
| `Manager.MultivisionManager.constructor` | multivision_ha/manager.py:11-14 | starts without a library manager |
| `Manager.MultivisionManager.Controllers` | multivision_ha/manager.py:24-26 | the library manager's own list, and an attribute error before initialisation |
| `Manager.MultivisionManager.AsyncInitializeManager` | multivision_ha/manager.py:28-39 | a raising connect gives ConfigEntryNotReady with its message and an unconnected return gives ConfigEntryNotReady naming `tcp://host:port`, both leaving the manager unset; on success a fresh, connected library manager for the configured host and port is kept and True is returned |
| `Manager.MultivisionManager.AddController` | multivision_ha/manager.py:41-43 | appends one fresh Multivision controller with the given id on the shared handler, refreshes it, and propagates a refresh exception; every controller keeps sharing the manager's handler |

## Left out

- The wire protocol and the internals of the `ledcontroller` and `multivision` libraries are not part of this model. They appear only as the abstract classes and outcome parameters of `device.dfy`. Nothing there decides what a raising `connect()` does to `connected` beyond leaving it as it was.
- The `asyncio.sleep` pauses (multivision_ha/light.py:33 and 96) are left out. So are the host's scheduling calls `async_schedule_update_ha_state` and `async_write_ha_state`. Every `await` is a sequential call. In particular, the generic entity's turn-on and turn-off do not refresh in the model: the host does that later.
- `async_add_entities`, including `update_before_add=True`, belongs to the host platform. The setup methods return the entities they would register.
- `hass.data` is modelled as dictionaries whose values are handler lists. Other integrations' entries are only shown to be left unchanged.
- The config flows, the constants files (their values are inlined), `device_info` and logging are not part of this model.
- The two `__init__.py` entry points are not part of this model.
- The controller type is a two-valued enumeration, because the config flow accepts only Multivision and OnlyGlass. The source would fail on any other value, with `name` unbound.
- Ids and ports are natural numbers, as the config flow guarantees. Negative numbers would render with a sign and are not modelled.
- Exception chaining is recorded only where the source writes `from e`. Python's implicit exception context is not modelled.
- `MultivisionLight.LightEntity.constructor` requires a read brightness and a module id. The TypeError that `None > 0` raises there is modelled by `MultivisionLight.AsyncSetupEntry`, which checks each controller before building its entity.
- `GenericLight.AsyncSetupEntry` does not build the controller when the lookup returns None. The source builds one on `None` and then fails reading `host`, and the model returns only that failure.
- `Helpers.AsyncSetupConnectionHandler`: its contract on the registry is weaker than `Helpers.SetOrCreateHandler`'s. It states only that earlier handlers are kept, at most one is added, a match exists and no-duplicates is preserved.
- Concurrent setup of two entries on one endpoint is not modelled: every operation runs to completion before the next one starts.

## Findings

| source | as written | input that shows it | evidently intended | confidence | as-written member | corrected member |
|---|---|---|---|---|---|---|
| ha-ledcontroller/light.py:103-106 | `if not self.brightness: return None` treats brightness 0 like an unset brightness, so the following `brightness > 0` is never False and a light that is off is reported as unknown (`GenericLight.IsOnAsWrittenDiffers` exhibits it) | cached `brightness_8bit == 0`, e.g. after turning off and refreshing: `is_on` is None | unknown only while the brightness is unset (`is None`), otherwise `brightness > 0`, so an off light reads as off | high, not executed | `GenericLight.IsOnAsWritten` | `GenericLight.IsOnOf` |
