/** The valve-position binary sensor: the physical position the Flo device
    last reported for its valve (which may lag behind the valve switch). */
module BinarySensor {
  import opened Values
  import opened Flo

  const NAME := "Water Valve Position"
  const UNIQUE_ID_PREFIX := "flo_physical_valve_"

  /** What `update` hands to `update_state` for a device record: whether
      `valve.lastKnown` is `'open'`, or nothing when the record or its `valve`
      is missing or falsy. */
  function ValvePosition(deviceState: Value): (position: Option<Value>)
    requires ValveReadable(deviceState)
    ensures position.Some? <==> Truthy(deviceState) && Truthy(Get(deviceState, "valve"))
    ensures position.Some? ==>
      position.value.Bool? &&
      (position.value.b <==> Get(Get(deviceState, "valve"), "lastKnown") == Str("open"))
  {
    if Truthy(deviceState) then
      var valve := Get(deviceState, "valve");
      if Truthy(valve) then Some(Bool(Get(valve, "lastKnown") == Str("open"))) else None
    else None
  }

  /** A valve record without `lastKnown` reads as closed, not as unknown. */
  lemma MissingLastKnownReadsClosed(deviceState: Value)
    requires ValveReadable(deviceState) && Truthy(deviceState)
    requires Truthy(Get(deviceState, "valve")) && "lastKnown" !in Get(deviceState, "valve").d
    ensures ValvePosition(deviceState) == Some(Bool(false))
  {
  }

  /** `unique_id` of the sensor of a device. The device id can be read back
      from it, so distinct devices get distinct ids. */
  function PhysicalValveUniqueId(deviceId: string): (id: string)
    ensures |id| == |UNIQUE_ID_PREFIX| + |deviceId|
    ensures id[..|UNIQUE_ID_PREFIX|] == UNIQUE_ID_PREFIX
    ensures id[|UNIQUE_ID_PREFIX|..] == deviceId
  {
    UNIQUE_ID_PREFIX + deviceId
  }

  lemma PhysicalValveUniqueIdInjective(a: string, b: string)
    ensures PhysicalValveUniqueId(a) == PhysicalValveUniqueId(b) ==> a == b
  {
  }

  class FloPhysicalValveSensor {
    const device: FloDeviceEntity

    /** The state is `None` until the first reading and a boolean after it. */
    ghost predicate Valid()
      reads device.base
    {
      device.base.state.Null? || device.base.state.Bool?
    }

    constructor (data: FloData, deviceId: string)
      requires ValveReadable(Lookup(data.cache, deviceId))
      ensures device.deviceId == deviceId && fresh(device) && fresh(device.base)
      ensures device.base.name == NAME
      ensures device.base.attrs == map[ATTR_ATTRIBUTION := Str(ATTRIBUTION), ATTR_DEVICE_ID := Str(deviceId)]
      ensures device.base.state == UpdatedBy(Null, ValvePosition(Lookup(data.cache, deviceId)))
      ensures Valid()
    {
      device := new FloDeviceEntity(NAME, deviceId);
      new;
      Update(data);
    }

    /** Re-reads the valve position from the shared cache; a missing or falsy
        record or `valve` leaves the state as it was. */
    method Update(data: FloData)
      requires Valid()
      requires ValveReadable(device.DeviceState(data))
      modifies device.base`state
      ensures Valid()
      ensures device.base.state == UpdatedBy(old(device.base.state), ValvePosition(device.DeviceState(data)))
    {
      var deviceState := device.DeviceState(data);
      if Truthy(deviceState) {
        var valve := Get(deviceState, "valve");
        if Truthy(valve) {
          device.base.UpdateState(Bool(Get(valve, "lastKnown") == Str("open")));
        }
      }
    }

    function IsOn(): (on: bool)
      reads device.base
      ensures on <==> device.base.state == Bool(true)
    {
      device.base.state == Bool(true)
    }

    function Icon(): (icon: string)
      reads device.base
      ensures icon == ICON_OPEN || icon == ICON_CLOSED
      ensures icon == ICON_OPEN <==> Truthy(device.base.state)
    {
      if Truthy(device.base.state) then ICON_OPEN else ICON_CLOSED
    }

    /** On a valid sensor the icon shows the open valve exactly when the
        sensor is on. */
    lemma IconShowsIsOn()
      requires Valid()
      ensures Icon() == ICON_OPEN <==> IsOn()
    {
    }

    function UniqueId(): (id: string)
      ensures id == PhysicalValveUniqueId(device.deviceId)
    {
      PhysicalValveUniqueId(device.deviceId)
    }
  }

  /** A location lookup result that platform setup can go through: when it is
      truthy, it lists devices with ids, and each device's cache entry can be
      read by `update`. */
  predicate LocationReady(location: Value, data: FloData)
    reads data
  {
    Truthy(location) ==>
      && HasDevices(location)
      && forall j :: 0 <= j < |LocationDeviceIds(location)| ==>
           ValveReadable(Lookup(data.cache, LocationDeviceIds(location)[j]))
  }

  /** The sensor platform set up for `deviceId` holds the sensor of that device
      with its first reading taken. */
  ghost predicate Registered(sensor: FloPhysicalValveSensor, deviceId: string, data: FloData)
    reads sensor.device.base, data
  {
    && sensor.device.deviceId == deviceId
    && sensor.Valid()
    && ValveReadable(Lookup(data.cache, deviceId))
    && sensor.device.base.state == UpdatedBy(Null, ValvePosition(Lookup(data.cache, deviceId)))
  }

  /** `setup_platform`: `None` when the service is missing or disconnected or
      the location is unknown (the source returns `False` and registers
      nothing); otherwise the sensors handed to the host, one per device of the
      location, in the location's device order. */
  method SetupPlatform(service: Option<FloService>, config: map<string, string>,
                       discovery: Option<map<string, string>>, data: FloData)
    returns (added: Option<seq<FloPhysicalValveSensor>>)
    requires ServiceReady(service) ==> HasPlatformOption(config, discovery, CONF_LOCATION_ID)
    requires ServiceReady(service) ==>
      LocationReady(LocationOf(service.value, PlatformOption(config, discovery, CONF_LOCATION_ID)), data)
    ensures !ServiceReady(service) ==> added.None?
    ensures ServiceReady(service) ==>
      (added.None? <==> !Truthy(LocationOf(service.value, PlatformOption(config, discovery, CONF_LOCATION_ID))))
    ensures added.Some? ==>
      ServiceReady(service) &&
      var ids := LocationDeviceIds(LocationOf(service.value, PlatformOption(config, discovery, CONF_LOCATION_ID)));
      |added.value| == |ids| &&
      forall i :: 0 <= i < |ids| ==> Registered(added.value[i], ids[i], data)
  {
    if service.None? || !service.value.isConnected {
      return None;
    }
    var locationId := if UsesDiscovery(discovery) then discovery.value[CONF_LOCATION_ID] else config[CONF_LOCATION_ID];
    var location := LocationOf(service.value, locationId);
    if !Truthy(location) {
      return None;
    }
    var devices := LocationDevices(location);
    var ids := LocationDeviceIds(location);
    var sensors: seq<FloPhysicalValveSensor> := [];
    var i := 0;
    while i < |devices|
      invariant 0 <= i <= |devices|
      invariant |sensors| == i
      invariant forall k :: 0 <= k < i ==> Registered(sensors[k], ids[k], data)
    {
      var deviceId := DeviceId(devices[i]);
      var sensor := new FloPhysicalValveSensor(data, deviceId);
      sensors := sensors + [sensor];
      i := i + 1;
    }
    return Some(sensors);
  }
}
