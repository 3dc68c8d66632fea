/** The valve switch: opens and closes the Flo device's valve and shows the
    position the valve is set to. */
module Switch {
  import opened Values
  import opened Flo

  const NAME := "Water Valve"
  const ATTR_NICKNAME := "nickname"
  const UNIQUE_ID_PREFIX := "flo_valve_"

  /** The command the switch sends to the web service (`open_valve` or
      `close_valve`) for a device. */
  datatype ValveCommand = OpenValve(deviceId: string) | CloseValve(deviceId: string)

  /** The constructor can also read the device's `nickname`. */
  predicate SwitchReadable(deviceState: Value) {
    ValveReadable(deviceState) && (Truthy(deviceState) ==> ATTR_NICKNAME in deviceState.d)
  }

  /** What `update` hands to `update_state` for a device record: whether the
      valve's `target` is `'open'` when a target is set, otherwise whether
      `lastKnown` is `'open'` when that is set, and nothing when neither is
      set or the record or its `valve` is missing or falsy. */
  function ValveSetting(deviceState: Value): (setting: Option<Value>)
    requires ValveReadable(deviceState)
    ensures !Truthy(deviceState) || !Truthy(Get(deviceState, "valve")) ==> setting.None?
    ensures Truthy(deviceState) && Truthy(Get(deviceState, "valve")) ==>
      var valve := Get(deviceState, "valve");
      var target := Get(valve, "target");
      var lastKnown := Get(valve, "lastKnown");
      && (Truthy(target) ==> setting == Some(Bool(target == Str("open"))))
      && (!Truthy(target) && Truthy(lastKnown) ==> setting == Some(Bool(lastKnown == Str("open"))))
      && (!Truthy(target) && !Truthy(lastKnown) ==> setting.None?)
  {
    if Truthy(deviceState) then
      var valve := Get(deviceState, "valve");
      if Truthy(valve) then
        var target := Get(valve, "target");
        var lastKnown := Get(valve, "lastKnown");
        if Truthy(target) then Some(Bool(target == Str("open")))
        else if Truthy(lastKnown) then Some(Bool(lastKnown == Str("open")))
        else None
      else None
    else None
  }

  /** A set target decides the switch on its own: two valve records with the
      same truthy target give the same setting whatever they report as
      `lastKnown`. */
  lemma TargetOverridesLastKnown(valve1: map<string, Value>, valve2: map<string, Value>, rest: map<string, Value>)
    requires "target" in valve1 && "target" in valve2 && valve1["target"] == valve2["target"]
    requires Truthy(valve1["target"])
    ensures ValveSetting(Dict(rest["valve" := Dict(valve1)])) == ValveSetting(Dict(rest["valve" := Dict(valve2)]))
  {
    var ds1 := Dict(rest["valve" := Dict(valve1)]);
    var ds2 := Dict(rest["valve" := Dict(valve2)]);
    assert Get(ds1, "valve") == Dict(valve1) && Get(ds2, "valve") == Dict(valve2);
  }

  /** `unique_id` of the switch of a device. The device id can be read back
      from it, so distinct devices get distinct ids. */
  function ValveUniqueId(deviceId: string): (id: string)
    ensures |id| == |UNIQUE_ID_PREFIX| + |deviceId|
    ensures id[..|UNIQUE_ID_PREFIX|] == UNIQUE_ID_PREFIX
    ensures id[|UNIQUE_ID_PREFIX|..] == deviceId
  {
    UNIQUE_ID_PREFIX + deviceId
  }

  class FloWaterValve {
    const device: FloDeviceEntity

    /** The state is `None` until the first setting and a boolean after it. */
    ghost predicate Valid()
      reads device.base
    {
      device.base.state.Null? || device.base.state.Bool?
    }

    /** Creates the switch; when the device has a record in the cache, copies
        its nickname into the attributes and takes a first reading. */
    constructor (data: FloData, deviceId: string)
      requires SwitchReadable(Lookup(data.cache, deviceId))
      ensures device.deviceId == deviceId && fresh(device) && fresh(device.base)
      ensures device.base.name == NAME
      ensures var deviceState := Lookup(data.cache, deviceId);
        var attrs := map[ATTR_ATTRIBUTION := Str(ATTRIBUTION), ATTR_DEVICE_ID := Str(deviceId)];
        && device.base.attrs == (if Truthy(deviceState) then attrs[ATTR_NICKNAME := deviceState.d[ATTR_NICKNAME]] else attrs)
        && device.base.state == UpdatedBy(Null, ValveSetting(deviceState))
      ensures Valid()
    {
      device := new FloDeviceEntity(NAME, deviceId);
      new;
      var deviceState := device.DeviceState(data);
      if Truthy(deviceState) {
        device.base.attrs := device.base.attrs[ATTR_NICKNAME := deviceState.d[ATTR_NICKNAME]];
        Update(data);
      }
    }

    /** Re-reads the valve setting from the shared cache: the target position
        when one is set, otherwise the last known one; without either the
        state stays as it was. */
    method Update(data: FloData)
      requires Valid()
      requires ValveReadable(device.DeviceState(data))
      modifies device.base`state
      ensures Valid()
      ensures device.base.state == UpdatedBy(old(device.base.state), ValveSetting(device.DeviceState(data)))
    {
      var deviceState := device.DeviceState(data);
      if !Truthy(deviceState) {
        return;
      }
      var valve := Get(deviceState, "valve");
      if Truthy(valve) {
        var target := Get(valve, "target");
        var lastKnown := Get(valve, "lastKnown");
        if Truthy(target) {
          device.base.UpdateState(Bool(target == Str("open")));
        } else if Truthy(lastKnown) {
          device.base.UpdateState(Bool(lastKnown == Str("open")));
        }
      }
    }

    /** Asks the service to open the valve and shows the switch as on at once,
        before the device reports the new position. */
    method TurnOn() returns (command: ValveCommand)
      requires Valid()
      modifies device.base`state
      ensures Valid()
      ensures command == OpenValve(device.deviceId)
      ensures device.base.state == Bool(true)
    {
      command := OpenValve(device.deviceId);
      device.base.UpdateState(Bool(true));
    }

    /** Asks the service to close the valve and shows the switch as off at
        once, before the device reports the new position. */
    method TurnOff() returns (command: ValveCommand)
      requires Valid()
      modifies device.base`state
      ensures Valid()
      ensures command == CloseValve(device.deviceId)
      ensures device.base.state == Bool(false)
    {
      command := CloseValve(device.deviceId);
      device.base.UpdateState(Bool(false));
    }

    function IsOn(): (on: bool)
      reads device.base
      ensures on <==> device.base.state == Bool(true)
    {
      device.base.state == Bool(true)
    }

    function Icon(): (icon: string)
      reads device.base
      ensures icon == ICON_OPEN || icon == ICON_CLOSED
      ensures icon == ICON_OPEN <==> IsOn()
    {
      if device.base.state == Bool(true) then ICON_OPEN else ICON_CLOSED
    }

    function UniqueId(): (id: string)
      ensures id == ValveUniqueId(device.deviceId)
    {
      ValveUniqueId(device.deviceId)
    }
  }

  /** A location lookup result that platform setup can go through: when it is
      truthy, it lists devices with ids, and each device's cache entry can be
      read by the switch's constructor. */
  predicate LocationReady(location: Value, data: FloData)
    reads data
  {
    Truthy(location) ==>
      && HasDevices(location)
      && forall j :: 0 <= j < |LocationDeviceIds(location)| ==>
           SwitchReadable(Lookup(data.cache, LocationDeviceIds(location)[j]))
  }

  /** The switch set up for `deviceId` is that device's switch with its first
      reading taken. */
  ghost predicate Registered(switch: FloWaterValve, deviceId: string, data: FloData)
    reads switch.device.base, data
  {
    && switch.device.deviceId == deviceId
    && switch.Valid()
    && ValveReadable(Lookup(data.cache, deviceId))
    && switch.device.base.state == UpdatedBy(Null, ValveSetting(Lookup(data.cache, deviceId)))
  }

  /** `setup_platform`: `None` when the service is missing or disconnected or
      the location is unknown (the source returns `False` and registers
      nothing); otherwise the switches handed to the host, one per device of
      the location, in the location's device order. */
  method SetupPlatform(service: Option<FloService>, config: map<string, string>,
                       discovery: Option<map<string, string>>, data: FloData)
    returns (added: Option<seq<FloWaterValve>>)
    requires ServiceReady(service) ==> HasPlatformOption(config, discovery, CONF_LOCATION_ID)
    requires ServiceReady(service) ==>
      LocationReady(LocationOf(service.value, PlatformOption(config, discovery, CONF_LOCATION_ID)), data)
    ensures !ServiceReady(service) ==> added.None?
    ensures ServiceReady(service) ==>
      (added.None? <==> !Truthy(LocationOf(service.value, PlatformOption(config, discovery, CONF_LOCATION_ID))))
    ensures added.Some? ==>
      ServiceReady(service) &&
      var ids := LocationDeviceIds(LocationOf(service.value, PlatformOption(config, discovery, CONF_LOCATION_ID)));
      |added.value| == |ids| &&
      forall i :: 0 <= i < |ids| ==> Registered(added.value[i], ids[i], data)
  {
    if service.None? || !service.value.isConnected {
      return None;
    }
    var locationId := if UsesDiscovery(discovery) then discovery.value[CONF_LOCATION_ID] else config[CONF_LOCATION_ID];
    var location := LocationOf(service.value, locationId);
    if !Truthy(location) {
      return None;
    }
    var devices := LocationDevices(location);
    var ids := LocationDeviceIds(location);
    var switches: seq<FloWaterValve> := [];
    var i := 0;
    while i < |devices|
      invariant 0 <= i <= |devices|
      invariant |switches| == i
      invariant forall k :: 0 <= k < i ==> Registered(switches[k], ids[k], data)
    {
      var valve := new FloWaterValve(data, DeviceId(devices[i]));
      switches := switches + [valve];
      i := i + 1;
    }
    return Some(switches);
  }
}
