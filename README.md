# Flo water-valve integration for Home Assistant, modelled in Dafny

This project models the core of a Home Assistant integration for Flo smart
water valves. The integration logs in to the Flo web service, keeps a shared
cache of location and device records keyed by id, and exposes these entities:

- a binary sensor with the valve's physical position;
- a switch that opens and closes the valve;
- flow-rate, temperature and pressure sensors;
- a monitoring-mode sensor;
- a per-location water-consumption sensor that keeps an hourly running total.

Each entity derives its state from the device's record through a few small
rules. Each rule either changes one stored field or leaves it alone.

The modules follow the source files:

- `Values` (values.dfy): the loosely typed JSON records the service returns.
  It gives Python's truthiness (`Truthy`) and `dict.get` (`Lookup`, `Get`).
- `Flo` (flo.dfy, from `__init__.py`): component setup, the shared cache
  (`FloData`), and the entity base classes (`FloEntity`, `FloDeviceEntity`,
  `FloLocationEntity`). It also holds what the three platforms' setups share.
- `BinarySensor` (binary_sensor.py), `Switch` (switch.py) and `Sensor`
  (sensor.py): the platforms and their entities.

Entities whose fields the source updates are classes with `modifies` clauses.
Python inheritance becomes composition, because a concrete entity holds its
`FloDeviceEntity` or `FloEntity`. The pure decisions of each update are
functions, and each update method is proved against them. For example,
`ValvePosition` gives what the binary sensor's `update` hands to
`update_state`, and `Tick` gives what one consumption update does.

The network calls become parameters of the operations that make them:

- logging in becomes `connect`;
- `flo.locations()` becomes a sequence of records;
- `flo.device(id)` becomes `fetch`;
- `flo.location(id)` becomes the `FloService` snapshot;
- `flo.consumption(...)` becomes `ConsumptionService`.

Commands sent to the service, such as opening the valve or setting a preset
mode, become out-parameters (`ValveCommand`, `PresetRequest`). Time is an
abstract `Instant` that keeps only the hour of the day and the second of the
minute. Readings are integers in hundredths of their unit.

Where the code as written cannot run, the model follows the evident intent:

- The per-device sensors in sensor.py (sensor.py:76, 106, 136, 249) subclass
  `FloEntity`. They call `get_telemetry` and `device_state` and use
  `_device_id`, but only `FloDeviceEntity` defines these
  (`__init__.py:221-238`). The model keeps the device id each constructor
  receives, and the device's cache entry is an explicit argument of
  `Update`. Their attributes hold the attribution only, as `FloEntity`
  gives them.
- sensor.py:21 imports `CONF_STARTDATE` and switch.py:20 imports `FLO_CACHE`,
  but `__init__.py` defines neither, so both modules would fail to import.
  The model uses the key `"startdate"` and does not need `FLO_CACHE`.
- `setup` passes discovery info holding only `location_id`
  (`__init__.py:147`). The sensor platform reads `startdate` from it
  (sensor.py:44), so the model requires that key wherever the platform reads
  it.
- `self.device_state['systemMode']` (sensor.py:275) raises when the key is
  absent. The model makes its presence a precondition (`ModeReadable`).

The comment at sensor.py:231-232 speaks of the first second of the hour, but
the test at sensor.py:233 is `now.second == 0` on an update that enters a new
hour. That is second 0 of any minute, so an update entering a new hour at
6:17:00 also shows the total alone. The reading added on top
(sensor.py:236-237) covers the 60 minutes up to now, not the time since the
start of the hour. `Tick` follows the code.

Every other place where the Python would raise is a precondition. These are
`.get` on a value that is not a dict, `x['k']` on a missing key, and `round`
of a missing reading. Missing or falsy records that the source tolerates are
modelled as the no-ops they are.

Three values come from modules outside the source shown:

- `ATTRIBUTION` comes from `.const` and is left unspecified (an uninitialised
  constant).
- `FLO_MODES` is taken to be `home`, `away` and `sleep`, as the comments at
  sensor.py:248 and sensor.py:265 describe.
- `ATTR_ATTRIBUTION` is Home Assistant's `"attribution"`.

## Model

| member | source | states |
|---|---|---|
| `Flo.LoginName` | custom_components/flo/__init__.py:65-68 | the login name is `email` when it is set and non-empty, and falls back to `username` otherwise |
| `Flo.DiscoveredIds` | custom_components/flo/__init__.py:98-102 | discovery yields one id per location the service lists, position by position, in the service's order |
| `Flo.DiscoverLocations` | custom_components/flo/__init__.py:98-102 | the discovery loop appends exactly `DiscoveredIds` of what the service returns, so the ids come in the service's order |
| `Flo.PlatformLoadsShape` | custom_components/flo/__init__.py:145-150 | the loads are exactly a sensor load and then a switch load for each location, in location order, so there are 2·n of them |
| `Flo.RequestLoads` | custom_components/flo/__init__.py:145-150 | the nested loading loops request exactly `PlatformLoads` of the locations, whose shape `PlatformLoadsShape` gives |
| `Flo.Setup` | custom_components/flo/__init__.py:57-152 | returns `None` without a `flo:` section and `False` when the login (with the email/username fallback) does not connect, loading nothing. Otherwise it returns `True` and uses the configured locations, or the discovered ids in service order when none are configured. It loads both platforms for each location, so no locations means `True` with no loads |
| `Flo.FloData.constructor` | custom_components/flo/__init__.py:82-85 | the shared cache starts empty |
| `Flo.FloData.UpdateFloData` | custom_components/flo/__init__.py:114-127 | the nested loops leave the cache equal to `FillCache`: each location record stored under its id, then each of its devices' fetched records under the device id, in service order |
| `Flo.FillDevicesSpec` | custom_components/flo/__init__.py:124-127 | writing a device list stores `fetch(id)` under every listed id, adds exactly those keys and leaves every other entry unchanged |
| `Flo.FillCacheKeepsOtherEntries` | custom_components/flo/__init__.py:119-127 | a refresh adds exactly the returned location and device ids as keys. No other entry is changed or removed, so stale entries stay |
| `Flo.FillCacheStoresLocations` | custom_components/flo/__init__.py:119-122 | when location ids are distinct from each other and from device ids, every returned location id maps to its location record after the refresh |
| `Flo.FillCacheStoresDevices` | custom_components/flo/__init__.py:119-127 | when no location id is also a device id, every returned device id maps to the record fetched for it after the refresh, even when the device is listed twice or two locations share an id |
| `Flo.FloEntity.constructor` | custom_components/flo/__init__.py:158-167 | a new entity has the given name, state `None`, and attributes holding exactly the attribution |
| `Flo.FloEntity.UpdateState` | custom_components/flo/__init__.py:192-194 | after `update_state(s)` the state is `s` and nothing else of the entity changes, so a second call with the same `s` changes nothing |
| `Flo.Telemetry` | custom_components/flo/__init__.py:226-238 | the reading is `None` when the record or its `telemetry` is falsy. Otherwise it is the field of `telemetry.current`, returned unchanged even when it is falsy, and any non-`None` reading comes from there |
| `Flo.FloDeviceEntity.constructor` | custom_components/flo/__init__.py:214-219 | a device entity's attributes are the attribution plus `device_id` |
| `Flo.FloDeviceEntity.DeviceState` | custom_components/flo/__init__.py:221-224 | the device's cache entry, or `None` when the cache has no entry for the id |
| `Flo.FloDeviceEntity.GetTelemetry` | custom_components/flo/__init__.py:226-231 | a non-`None` reading implies the device has a truthy record in the cache |
| `Flo.FloLocationEntity.constructor` | custom_components/flo/__init__.py:244-249 | a location entity's attributes are the attribution plus `location_id` |
| `Flo.FloLocationEntity.LocationState` | custom_components/flo/__init__.py:251-254 | the location's cache entry, or `None` when the cache has no entry for the id |
| `Flo.PlatformOption` | custom_components/flo/binary_sensor.py:20-23 | a platform option comes from the discovery info when that is truthy, and from the platform config otherwise |
| `Flo.DeviceIds` | custom_components/flo/binary_sensor.py:32-33 | one id per device entry, position by position, in the location's device order |
| `BinarySensor.ValvePosition` | custom_components/flo/binary_sensor.py:58-63 | `update` writes a state iff the record and its `valve` are both truthy, and the state written is a boolean that is true iff `valve.lastKnown == 'open'` |
| `BinarySensor.MissingLastKnownReadsClosed` | custom_components/flo/binary_sensor.py:61-63 | a valve record without `lastKnown` reads as closed |
| `BinarySensor.PhysicalValveUniqueId` | custom_components/flo/binary_sensor.py:65-67 | the unique id is the prefix `flo_physical_valve_` followed by the device id, and the device id can be read back from it |
| `BinarySensor.PhysicalValveUniqueIdInjective` | custom_components/flo/binary_sensor.py:65-67 | distinct devices get distinct unique ids |
| `BinarySensor.FloPhysicalValveSensor.constructor` | custom_components/flo/binary_sensor.py:42-44 | a new sensor has its device id, name, device attributes and the state of one `update` from `None`. Its state is `None` or a boolean |
| `BinarySensor.FloPhysicalValveSensor.Update` | custom_components/flo/binary_sensor.py:58-63 | the new state is `ValvePosition` of the device's cache entry, or the old state when that gives nothing. The state stays `None` or a boolean |
| `BinarySensor.FloPhysicalValveSensor.IsOn` | custom_components/flo/binary_sensor.py:46-49 | on iff the state is `True` |
| `BinarySensor.FloPhysicalValveSensor.Icon` | custom_components/flo/binary_sensor.py:51-56 | the icon is `mdi:valve-open` iff the state is truthy, else `mdi:valve-closed` |
| `BinarySensor.FloPhysicalValveSensor.IconShowsIsOn` | custom_components/flo/binary_sensor.py:46-56 | on a sensor whose state is `None` or a boolean, the open icon shows exactly when the sensor is on |
| `BinarySensor.FloPhysicalValveSensor.UniqueId` | custom_components/flo/binary_sensor.py:65-67 | the sensor's unique id is derived from its device id alone |
| `BinarySensor.SetupPlatform` | custom_components/flo/binary_sensor.py:12-36 | registers nothing when the service is missing or disconnected, or when the location lookup is falsy. Otherwise it registers exactly one sensor per device, in device order, each with its own device id and first reading |
| `Switch.ValveSetting` | custom_components/flo/switch.py:121-133 | nothing when the record or `valve` is falsy. A truthy `target` decides (`target == 'open'`); otherwise a truthy `lastKnown` decides; otherwise nothing |
| `Switch.TargetOverridesLastKnown` | custom_components/flo/switch.py:127-131 | two valve records with the same truthy target give the same setting whatever their `lastKnown` |
| `Switch.ValveUniqueId` | custom_components/flo/switch.py:135-137 | the unique id is the prefix `flo_valve_` followed by the device id, and the device id can be read back from it |
| `Switch.FloWaterValve.constructor` | custom_components/flo/switch.py:75-81 | the `nickname` attribute is copied only when the device's record is truthy, and the state is that of one `update` from `None` |
| `Switch.FloWaterValve.Update` | custom_components/flo/switch.py:121-133 | the new state is `ValveSetting` of the device's cache entry, or the old state when that gives nothing. The state stays `None` or a boolean |
| `Switch.FloWaterValve.TurnOn` | custom_components/flo/switch.py:95-100 | sends `open_valve` for the device and leaves the state `True`, whatever the device reports later |
| `Switch.FloWaterValve.TurnOff` | custom_components/flo/switch.py:102-107 | sends `close_valve` for the device and leaves the state `False`, whatever the device reports later |
| `Switch.FloWaterValve.IsOn` | custom_components/flo/switch.py:90-93 | on iff the state is `True` |
| `Switch.FloWaterValve.Icon` | custom_components/flo/switch.py:83-88 | the icon is `mdi:valve-open` iff the switch is on |
| `Switch.FloWaterValve.UniqueId` | custom_components/flo/switch.py:135-137 | the switch's unique id is derived from its device id alone |
| `Switch.SetupPlatform` | custom_components/flo/switch.py:38-62 | registers nothing when the service is missing or disconnected, or when the location is not found. Otherwise it registers exactly one switch per device, in device order |
| `Sensor.FloTelemetrySensor.constructor` | custom_components/flo/sensor.py:79-83 | a new telemetry sensor has its kind's name and shows its first reading |
| `Sensor.FloTelemetrySensor.Update` | custom_components/flo/sensor.py:99-104 | the state is the device's current reading of the sensor's field (`gpm`, `tempF`, `psi`), so an equal reading leaves the state as it is |
| `Sensor.ModeReading` | custom_components/flo/sensor.py:272-283 | with a device record, a truthy `target` wins over `lastKnown`. When both are falsy, or without a record, there is no new mode. A new mode is never falsy |
| `Sensor.FloMonitoringMode.constructor` | custom_components/flo/sensor.py:252-256 | the mode is that of one `update` from `None` |
| `Sensor.FloMonitoringMode.Update` | custom_components/flo/sensor.py:272-283 | the mode becomes `ModeReading` of the record or stays as it was, and the method returns the current mode. A known mode is never replaced by a falsy one |
| `Sensor.FloMonitoringMode.SetPresetMode` | custom_components/flo/sensor.py:285-294 | a mode outside `FLO_MODES` makes no service request and leaves the mode unchanged. A valid mode requests that mode for the device and is shown at once |
| `Sensor.Consumption` | custom_components/flo/sensor.py:203-208 | a failed (falsy) answer counts as 0; otherwise it is the reported gallons |
| `Sensor.InitialTally` | custom_components/flo/sensor.py:210-219 | state and total are both the single reading from the start date to now, and the last update time is now |
| `Sensor.Tick` | custom_components/flo/sensor.py:221-246 | the total grows by the closed hour's reading exactly when the hour of the day changed, and is unchanged otherwise. The state shown is the new total plus the reading for the 60 minutes up to now, except that an update entering a new hour at second 0 of a minute shows the total alone. The last update time becomes now |
| `Sensor.RunTotal` | custom_components/flo/sensor.py:224-229 | over any sequence of updates, the total grows by exactly the readings of the hours the updates close, each counted once |
| `Sensor.SameHourKeepsTotal` | custom_components/flo/sensor.py:224-229 | updates within the hour of the last update leave the total unchanged and record the last update time |
| `Sensor.RunTotalNeverShrinks` | custom_components/flo/sensor.py:228-229 | when the service never reports negative consumption, the total never decreases |
| `Sensor.FloConsumptionSensor.constructor` | custom_components/flo/sensor.py:169-177 | the sensor is named `Flo Water Consumption`, its attributes hold its location id, and its bookkeeping is the initial reading |
| `Sensor.FloConsumptionSensor.InitialUpdate` | custom_components/flo/sensor.py:210-219 | state, total and last update time become `InitialTally` |
| `Sensor.FloConsumptionSensor.Update` | custom_components/flo/sensor.py:221-246 | state, total and last update time become `Tick` of the old ones |
| `Sensor.CreateDeviceSensors` | custom_components/flo/sensor.py:66-71 | creates the rate, temperature, pressure and mode sensors of one device, in that order, each for that device and showing its first reading |
| `Sensor.CreateLocationSensors` | custom_components/flo/sensor.py:65-71 | creates four sensors per device, 4·n in all, with the group at 4·i belonging to the i-th device in the location's order |
| `Sensor.SetupPlatform` | custom_components/flo/sensor.py:34-73 | registers nothing when the service is missing or disconnected, or when the location is not found. Otherwise it registers 1 + 4·n sensors: first the location's consumption sensor with its initial reading, then rate, temperature, pressure and mode for each device, in device order |

## Left out

- Network calls (login, `locations`, `location`, `device`, `consumption`, `open_valve`, `close_valve`, `set_preset_mode`, `run_health_test`) are parameters or returned requests. Their timing, failures other than a falsy answer, and `ConnectTimeout`/`HTTPError` are not modelled beyond `ConnectError` in `Setup`.
- The persistent notification shown on a connection error, `save_password`, `clear_cache`, and storing the client and the empty cache in `hass.data` are host-side effects. They are not modelled; `FloData` is created empty by its constructor.
- The `DataUpdateCoordinator`, asyncio, `run_coroutine_threadsafe`, dispatcher signals, service registration (switch.py:64-70, 109-119), `async_added_to_hass`, `async_setup_entry`, `schedule_update_ha_state` and `discovery.load_platform` are host plumbing. `Setup` returns the platform loads it would request instead of performing them.
- Logging, including the `unit_of_measurement` lookup in `update_state`, and the voluptuous schemas are not modelled.
- Floating point is not modelled: readings are integers in hundredths, so `round(x, 2)` in the pressure sensor and in `readConsumption` is the identity.
- Date parsing and clocks are not modelled: `strptime` of the start date (and its `ValueError`), the "beginning of the year" default (`StartOfYear`) and `utcnow` are abstract.
- The consumption request whose result is discarded (sensor.py:239) is left out, because it changes no state.
- Python's cross-type equality (`1 == True`) is not modelled: values compare structurally. Valve states are only ever `None` or booleans, so this matters only to the telemetry sensors' `!=` test, whose outcome is the same state either way.
- Non-string location or device ids are not modelled: ids are strings.
- The static properties that only return constants (units, `should_poll`, `device_state_attributes`, the sensors' icons) are not modelled. The names are kept as the constructors set them, including the consumption sensor's (sensor.py:171).
- Flo.FillCacheStoresLocations: states the per-id contents only when location ids are distinct from each other and from device ids. Otherwise the later write wins, and `UpdateFloData`'s `FillCache` postcondition still describes that exactly.
- Flo.FillCacheStoresDevices: states the per-id contents only when no location id is also a device id. Otherwise a location record written later can replace a device record.
- Sensor.SetupPlatform: requires a `startdate` entry in the discovery info or the platform config. The discovery info that `Setup` sends holds only `location_id` (`__init__.py:147`), so in the source the platform cannot be set up through discovery, and the model does not cover that path.
- Sensor.SetupPlatform: requires every device of the location to have a cache record with a numeric `psi` reading and a `systemMode` entry. Right after setup the first refresh is only scheduled (`__init__.py:140`), so the cache may still be empty. The pressure sensor's `round(None, 2)` would then raise (sensor.py:162), and the model does not cover that case.
- config_flow.py (the config-flow UI) and entity.py (an abstract plumbing base class) are not part of this model.
