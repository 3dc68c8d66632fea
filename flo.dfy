/** The integration's shared core: component setup, the shared cache of Flo
    records refreshed from the web service, and the entity base classes the
    platforms build on. */
module Flo {
  import opened Values

  const CONF_LOCATION_ID := "location_id"
  const ATTR_ATTRIBUTION := "attribution"
  const ATTR_DEVICE_ID := "device_id"
  const ATTR_LOCATION_ID := "location_id"
  /** The attribution text of the integration; its value is defined outside this model. */
  const ATTRIBUTION: string
  /** The platforms `Setup` loads for every location, in this order. */
  const PLATFORMS: seq<string> := ["sensor", "switch"]

  // ---------------------------------------------------------------------------
  // Record shapes
  // ---------------------------------------------------------------------------

  /** An entry of a location's `devices` list: a dict with a string `id`. */
  predicate DeviceRef(v: Value) {
    v.Dict? && "id" in v.d && v.d["id"].Str?
  }

  function DeviceId(v: Value): string
    requires DeviceRef(v)
  {
    v.d["id"].s
  }

  /** A location record whose `devices` can be iterated and whose devices have ids. */
  predicate HasDevices(v: Value) {
    && v.Dict? && "devices" in v.d && v.d["devices"].List?
    && forall j :: 0 <= j < |v.d["devices"].items| ==> DeviceRef(v.d["devices"].items[j])
  }

  function LocationDevices(v: Value): (devices: seq<Value>)
    requires HasDevices(v)
    ensures forall j :: 0 <= j < |devices| ==> DeviceRef(devices[j])
  {
    v.d["devices"].items
  }

  /** A location record as `flo.locations()` returns it: a string `id` and a device list. */
  predicate LocationRecord(v: Value) {
    HasDevices(v) && "id" in v.d && v.d["id"].Str?
  }

  function LocationId(v: Value): string
    requires LocationRecord(v)
  {
    v.d["id"].s
  }

  predicate AllLocationRecords(locations: seq<Value>) {
    forall i :: 0 <= i < |locations| ==> LocationRecord(locations[i])
  }

  /** The ids of a device list, in list order. */
  function DeviceIds(devices: seq<Value>): (ids: seq<string>)
    requires forall j :: 0 <= j < |devices| ==> DeviceRef(devices[j])
    ensures |ids| == |devices|
    ensures forall j :: 0 <= j < |devices| ==> ids[j] == DeviceId(devices[j])
  {
    if devices == [] then []
    else DeviceIds(devices[..|devices| - 1]) + [DeviceId(devices[|devices| - 1])]
  }

  /** The ids of the devices of one location record, in the record's order. */
  function LocationDeviceIds(location: Value): (ids: seq<string>)
    requires HasDevices(location)
    ensures |ids| == |LocationDevices(location)|
    ensures forall j :: 0 <= j < |ids| ==> ids[j] == DeviceId(LocationDevices(location)[j])
  {
    DeviceIds(LocationDevices(location))
  }

  // ---------------------------------------------------------------------------
  // Component setup (`setup` in __init__.py)
  // ---------------------------------------------------------------------------

  /** The `flo:` section of the host configuration. */
  datatype FloConfig = FloConfig(
    email: Option<string>,
    username: Option<string>,
    password: string,
    locations: seq<string>)

  /** What logging in to the web service yields: a connected client, a client
      that reports it is not connected, or a connect timeout / HTTP error. */
  datatype Connection = Connected | NotConnected | ConnectError

  /** `setup` returns `None` without a `flo:` section, `False` when the service
      cannot be reached and `True` otherwise. */
  datatype SetupResult = NoConfig | SetupFailed | SetupDone

  /** A request to the host to load one platform for one location. */
  datatype PlatformLoad = PlatformLoad(component: string, locationId: string)

  /** The account name used to log in: `email`, or `username` when `email` is
      missing or empty (the deprecated key). */
  function LoginName(conf: FloConfig): (name: Option<string>)
    ensures conf.email.Some? && conf.email.value != "" ==> name == conf.email
    ensures conf.email.None? || conf.email.value == "" ==> name == conf.username
  {
    match conf.email
    case Some(e) => if e != "" then conf.email else conf.username
    case None => conf.username
  }

  predicate Connects(conf: FloConfig, connect: (Option<string>, string) -> Connection) {
    connect(LoginName(conf), conf.password) == Connected
  }

  /** A location record from `flo.locations()` that discovery can read: it
      needs a string `id` and, for the log line, a `nickname`. */
  predicate DiscoveredLocation(v: Value) {
    v.Dict? && "id" in v.d && v.d["id"].Str? && "nickname" in v.d
  }

  function DiscoveredId(v: Value): string
    requires DiscoveredLocation(v)
  {
    v.d["id"].s
  }

  /** The ids discovery appends, in the order the service lists the locations. */
  function DiscoveredIds(locations: seq<Value>): (ids: seq<string>)
    requires forall i :: 0 <= i < |locations| ==> DiscoveredLocation(locations[i])
    ensures |ids| == |locations|
    ensures forall i :: 0 <= i < |locations| ==> ids[i] == DiscoveredId(locations[i])
  {
    if locations == [] then []
    else DiscoveredIds(locations[..|locations| - 1]) + [DiscoveredId(locations[|locations| - 1])]
  }

  /** The platform loads for one location. */
  function LoadsFor(locationId: string): (loads: seq<PlatformLoad>)
    ensures |loads| == |PLATFORMS|
    ensures forall k :: 0 <= k < |PLATFORMS| ==> loads[k] == PlatformLoad(PLATFORMS[k], locationId)
  {
    seq(|PLATFORMS|, k requires 0 <= k < |PLATFORMS| => PlatformLoad(PLATFORMS[k], locationId))
  }

  /** Every platform of PLATFORMS for every location, location by location. */
  function PlatformLoads(locations: seq<string>): seq<PlatformLoad>
  {
    if locations == [] then []
    else PlatformLoads(locations[..|locations| - 1]) + LoadsFor(locations[|locations| - 1])
  }

  /** `PlatformLoads` asks for a sensor platform and then a switch platform for
      each location, in location order, and for nothing else. */
  lemma {:induction false} PlatformLoadsShape(locations: seq<string>)
    ensures |PlatformLoads(locations)| == 2 * |locations|
    ensures forall i :: 0 <= i < |locations| ==>
      PlatformLoads(locations)[2 * i] == PlatformLoad("sensor", locations[i]) &&
      PlatformLoads(locations)[2 * i + 1] == PlatformLoad("switch", locations[i])
  {
    if locations != [] {
      var prefix := locations[..|locations| - 1];
      PlatformLoadsShape(prefix);
      assert forall i :: 0 <= i < |prefix| ==> prefix[i] == locations[i];
    }
  }

  /** Sets up the component: log in with `email` (or the deprecated
      `username`), take the configured locations or, when there are none,
      discover every location of the account, then load the sensor and switch
      platforms for each location. `discovered` is what `flo.locations()`
      returns and `connect` stands for logging in to the web service. */
  method Setup(conf: Option<FloConfig>, connect: (Option<string>, string) -> Connection, discovered: seq<Value>)
    returns (result: SetupResult, locations: seq<string>, loads: seq<PlatformLoad>)
    requires conf.Some? && Connects(conf.value, connect) && conf.value.locations == [] ==>
      forall i :: 0 <= i < |discovered| ==> DiscoveredLocation(discovered[i])
    ensures conf.None? <==> result == NoConfig
    ensures conf.Some? ==> (result == SetupFailed <==> !Connects(conf.value, connect))
    ensures result == SetupDone && conf.value.locations != [] ==> locations == conf.value.locations
    ensures result == SetupDone && conf.value.locations == [] ==> locations == DiscoveredIds(discovered)
    ensures result != SetupDone ==> locations == []
    ensures loads == PlatformLoads(locations)
  {
    if conf.None? {
      return NoConfig, [], [];
    }
    var c := conf.value;
    var email := if c.email.Some? && c.email.value != "" then c.email else c.username;
    if connect(email, c.password) != Connected {
      return SetupFailed, [], [];
    }
    result := SetupDone;
    locations := c.locations;
    if locations == [] {
      locations := DiscoverLocations(discovered);
      if locations == [] {
        return SetupDone, [], [];
      }
    }
    loads := RequestLoads(locations);
  }

  /** The discovery loop of `setup`: appends the id of every location the
      service returns, in the service's order. */
  method DiscoverLocations(discovered: seq<Value>) returns (locations: seq<string>)
    requires forall i :: 0 <= i < |discovered| ==> DiscoveredLocation(discovered[i])
    ensures locations == DiscoveredIds(discovered)
  {
    locations := [];
    var i := 0;
    while i < |discovered|
      invariant 0 <= i <= |discovered|
      invariant locations == DiscoveredIds(discovered[..i])
    {
      assert discovered[..i + 1][..i] == discovered[..i];
      locations := locations + [DiscoveredId(discovered[i])];
      i := i + 1;
    }
    assert discovered[..|discovered|] == discovered;
  }

  /** The loading loop of `setup`: every platform of PLATFORMS for every
      location, location by location. */
  method RequestLoads(locations: seq<string>) returns (loads: seq<PlatformLoad>)
    ensures loads == PlatformLoads(locations)
  {
    loads := [];
    var i := 0;
    while i < |locations|
      invariant 0 <= i <= |locations|
      invariant loads == PlatformLoads(locations[..i])
    {
      assert locations[..i + 1][..i] == locations[..i];
      var j := 0;
      while j < |PLATFORMS|
        invariant 0 <= j <= |PLATFORMS|
        invariant loads == PlatformLoads(locations[..i]) + LoadsFor(locations[i])[..j]
      {
        assert LoadsFor(locations[i])[..j + 1] == LoadsFor(locations[i])[..j] + [PlatformLoad(PLATFORMS[j], locations[i])];
        loads := loads + [PlatformLoad(PLATFORMS[j], locations[i])];
        j := j + 1;
      }
      assert LoadsFor(locations[i])[..|PLATFORMS|] == LoadsFor(locations[i]);
      i := i + 1;
    }
    assert locations[..|locations|] == locations;
  }

  // ---------------------------------------------------------------------------
  // The shared cache (`update_flo_data` in __init__.py)
  // ---------------------------------------------------------------------------

  /** Cache entries written for a device list, the last device written last. */
  function FillDevices(cache: map<string, Value>, devices: seq<Value>, fetch: string -> Value): map<string, Value>
    requires forall j :: 0 <= j < |devices| ==> DeviceRef(devices[j])
  {
    if devices == [] then cache
    else
      var id := DeviceId(devices[|devices| - 1]);
      FillDevices(cache, devices[..|devices| - 1], fetch)[id := fetch(id)]
  }

  /** Cache entries written for one location: its record under its id, then
      every device's record under the device id. */
  function FillLocation(cache: map<string, Value>, location: Value, fetch: string -> Value): map<string, Value>
    requires LocationRecord(location)
  {
    FillDevices(cache[LocationId(location) := location], LocationDevices(location), fetch)
  }

  /** The cache after a refresh over `locations`, in the service's order. */
  function FillCache(cache: map<string, Value>, locations: seq<Value>, fetch: string -> Value): map<string, Value>
    requires AllLocationRecords(locations)
  {
    if locations == [] then cache
    else FillLocation(FillCache(cache, locations[..|locations| - 1], fetch), locations[|locations| - 1], fetch)
  }

  /** Every key a refresh over `locations` writes, in write order. */
  function RefreshedIds(locations: seq<Value>): seq<string>
    requires AllLocationRecords(locations)
  {
    if locations == [] then []
    else
      var last := locations[|locations| - 1];
      RefreshedIds(locations[..|locations| - 1]) + [LocationId(last)] + LocationDeviceIds(last)
  }

  /** The device ids of every location, location by location. */
  function AllDeviceIds(locations: seq<Value>): seq<string>
    requires AllLocationRecords(locations)
  {
    if locations == [] then []
    else AllDeviceIds(locations[..|locations| - 1]) + LocationDeviceIds(locations[|locations| - 1])
  }

  /** Writing a device list stores `fetch(id)` under every listed id and
      leaves every other key as it was. */
  lemma {:induction false} FillDevicesSpec(cache: map<string, Value>, devices: seq<Value>, fetch: string -> Value)
    requires forall j :: 0 <= j < |devices| ==> DeviceRef(devices[j])
    ensures FillDevices(cache, devices, fetch).Keys == cache.Keys + set k | k in DeviceIds(devices)
    ensures forall k :: k in DeviceIds(devices) ==> FillDevices(cache, devices, fetch)[k] == fetch(k)
    ensures forall k :: k in cache && k !in DeviceIds(devices) ==> FillDevices(cache, devices, fetch)[k] == cache[k]
  {
    if devices != [] {
      var prefix := devices[..|devices| - 1];
      FillDevicesSpec(cache, prefix, fetch);
      assert DeviceIds(devices) == DeviceIds(prefix) + [DeviceId(devices[|devices| - 1])];
    }
  }

  /** A refresh adds exactly the returned location and device ids to the
      cache and never removes or rewrites any other entry. */
  lemma {:induction false} FillCacheKeepsOtherEntries(cache: map<string, Value>, locations: seq<Value>, fetch: string -> Value)
    requires AllLocationRecords(locations)
    ensures FillCache(cache, locations, fetch).Keys == cache.Keys + set k | k in RefreshedIds(locations)
    ensures forall k :: k in cache && k !in RefreshedIds(locations) ==> FillCache(cache, locations, fetch)[k] == cache[k]
  {
    if locations != [] {
      var prefix := locations[..|locations| - 1];
      var last := locations[|locations| - 1];
      FillCacheKeepsOtherEntries(cache, prefix, fetch);
      var before := FillCache(cache, prefix, fetch);
      FillDevicesSpec(before[LocationId(last) := last], LocationDevices(last), fetch);
    }
  }

  /** No location id is also the id of a device. */
  predicate LocationIdsNotDeviceIds(locations: seq<Value>)
    requires AllLocationRecords(locations)
  {
    forall i :: 0 <= i < |locations| ==> LocationId(locations[i]) !in AllDeviceIds(locations)
  }

  /** Location ids are pairwise distinct and never the id of a device. */
  predicate DistinctLocationIds(locations: seq<Value>)
    requires AllLocationRecords(locations)
  {
    && (forall i, j :: 0 <= i < j < |locations| ==> LocationId(locations[i]) != LocationId(locations[j]))
    && LocationIdsNotDeviceIds(locations)
  }

  /** Keeping location ids apart from device ids survives dropping the last
      location, whose devices' ids are the last part of all device ids. */
  lemma LocationIdsNotDeviceIdsDropLast(locations: seq<Value>)
    requires AllLocationRecords(locations) && LocationIdsNotDeviceIds(locations) && locations != []
    ensures AllLocationRecords(locations[..|locations| - 1])
    ensures LocationIdsNotDeviceIds(locations[..|locations| - 1])
    ensures AllDeviceIds(locations) == AllDeviceIds(locations[..|locations| - 1]) + LocationDeviceIds(locations[|locations| - 1])
  {
    var n := |locations| - 1;
    var prefix := locations[..n];
    assert AllLocationRecords(prefix) by {
      forall i | 0 <= i < n ensures LocationRecord(prefix[i]) {
        assert prefix[i] == locations[i];
      }
    }
    var ids := AllDeviceIds(prefix);
    assert AllDeviceIds(locations) == ids + LocationDeviceIds(locations[n]);
    forall i | 0 <= i < n
      ensures LocationId(prefix[i]) !in ids
    {
      assert prefix[i] == locations[i];
      assert LocationId(locations[i]) !in AllDeviceIds(locations);
    }
  }

  /** Distinctness survives dropping the last location. */
  lemma DistinctLocationIdsDropLast(locations: seq<Value>)
    requires AllLocationRecords(locations) && DistinctLocationIds(locations) && locations != []
    ensures AllLocationRecords(locations[..|locations| - 1])
    ensures DistinctLocationIds(locations[..|locations| - 1])
    ensures AllDeviceIds(locations) == AllDeviceIds(locations[..|locations| - 1]) + LocationDeviceIds(locations[|locations| - 1])
  {
    LocationIdsNotDeviceIdsDropLast(locations);
    var n := |locations| - 1;
    var prefix := locations[..n];
    forall i, j | 0 <= i < j < n
      ensures LocationId(prefix[i]) != LocationId(prefix[j])
    {
      assert prefix[i] == locations[i] && prefix[j] == locations[j];
    }
  }

  /** When location ids are distinct from each other and from device ids, a
      refresh leaves every returned location id mapped to its location record. */
  lemma {:induction false} FillCacheStoresLocations(cache: map<string, Value>, locations: seq<Value>, fetch: string -> Value)
    requires AllLocationRecords(locations)
    requires DistinctLocationIds(locations)
    ensures forall i :: 0 <= i < |locations| ==>
      LocationId(locations[i]) in FillCache(cache, locations, fetch) &&
      FillCache(cache, locations, fetch)[LocationId(locations[i])] == locations[i]
  {
    if locations != [] {
      var n := |locations| - 1;
      var prefix := locations[..n];
      var last := locations[n];
      DistinctLocationIdsDropLast(locations);
      FillCacheStoresLocations(cache, prefix, fetch);
      var before := FillCache(cache, prefix, fetch);
      var lastIds := LocationDeviceIds(last);
      forall i | 0 <= i < |locations|
        ensures LocationId(locations[i]) in FillCache(cache, locations, fetch)
        ensures FillCache(cache, locations, fetch)[LocationId(locations[i])] == locations[i]
      {
        var id := LocationId(locations[i]);
        assert id !in lastIds;
        if i < n {
          assert prefix[i] == locations[i];
          FillLocationKeeps(before, last, fetch, id);
        } else {
          FillLocationStoresItself(before, last, fetch);
        }
      }
    }
  }

  /** Writing one location leaves an entry alone whose key is neither the
      location's id nor one of its devices' ids. */
  lemma FillLocationKeeps(before: map<string, Value>, last: Value, fetch: string -> Value, id: string)
    requires LocationRecord(last)
    requires id in before && id != LocationId(last) && id !in LocationDeviceIds(last)
    ensures id in FillLocation(before, last, fetch) && FillLocation(before, last, fetch)[id] == before[id]
  {
    FillDevicesSpec(before[LocationId(last) := last], LocationDevices(last), fetch);
  }

  /** Writing one location stores it under its own id, unless one of its
      devices has the same id. */
  lemma FillLocationStoresItself(before: map<string, Value>, last: Value, fetch: string -> Value)
    requires LocationRecord(last)
    requires LocationId(last) !in LocationDeviceIds(last)
    ensures LocationId(last) in FillLocation(before, last, fetch)
    ensures FillLocation(before, last, fetch)[LocationId(last)] == last
  {
    FillDevicesSpec(before[LocationId(last) := last], LocationDevices(last), fetch);
  }

  /** When no location id is also a device id, a refresh leaves every returned
      device id mapped to the device record fetched for it. */
  lemma {:induction false} FillCacheStoresDevices(cache: map<string, Value>, locations: seq<Value>, fetch: string -> Value)
    requires AllLocationRecords(locations)
    requires LocationIdsNotDeviceIds(locations)
    ensures forall k :: k in AllDeviceIds(locations) ==>
      k in FillCache(cache, locations, fetch) && FillCache(cache, locations, fetch)[k] == fetch(k)
  {
    if locations != [] {
      var n := |locations| - 1;
      var prefix := locations[..n];
      var last := locations[n];
      LocationIdsNotDeviceIdsDropLast(locations);
      FillCacheStoresDevices(cache, prefix, fetch);
      var before := FillCache(cache, prefix, fetch);
      var lastIds := LocationDeviceIds(last);
      assert LocationId(last) !in AllDeviceIds(locations);
      forall k | k in AllDeviceIds(locations)
        ensures k in FillCache(cache, locations, fetch) && FillCache(cache, locations, fetch)[k] == fetch(k)
      {
        if k in lastIds {
          FillDevicesSpec(before[LocationId(last) := last], LocationDevices(last), fetch);
        } else {
          FillLocationKeeps(before, last, fetch, k);
        }
      }
    }
  }

  /** `hass.data[FLO_DOMAIN][ATTR_CACHE]`: the records of the account's
      locations and devices, keyed by id, shared by every entity. */
  class FloData {
    var cache: map<string, Value>

    constructor ()
      ensures cache == map[]
    {
      cache := map[];
    }

    /** Refreshes the cache: stores each location the service returns under
        its id and the freshly fetched record of each of its devices under the
        device id. `locations` is what `flo.locations()` returns and `fetch`
        stands for `flo.device`. */
    method UpdateFloData(locations: seq<Value>, fetch: string -> Value)
      requires AllLocationRecords(locations)
      modifies this
      ensures cache == FillCache(old(cache), locations, fetch)
    {
      var i := 0;
      while i < |locations|
        invariant 0 <= i <= |locations|
        invariant cache == FillCache(old(cache), locations[..i], fetch)
      {
        assert locations[..i + 1][..i] == locations[..i];
        var location := locations[i];
        cache := cache[LocationId(location) := location];
        var devices := LocationDevices(location);
        var j := 0;
        while j < |devices|
          invariant 0 <= j <= |devices|
          invariant cache == FillDevices(FillCache(old(cache), locations[..i], fetch)[LocationId(location) := location], devices[..j], fetch)
        {
          assert devices[..j + 1][..j] == devices[..j];
          var deviceId := DeviceId(devices[j]);
          cache := cache[deviceId := fetch(deviceId)];
          j := j + 1;
        }
        assert devices[..|devices|] == devices;
        i := i + 1;
      }
      assert locations[..|locations|] == locations;
    }
  }

  // ---------------------------------------------------------------------------
  // Entity base classes
  // ---------------------------------------------------------------------------

  /** The state shared by every Flo entity: its display name, its state and
      its state attributes. */
  class FloEntity {
    var name: string
    var state: Value
    var attrs: map<string, Value>

    constructor (name: string)
      ensures this.name == name && state == Null
      ensures attrs == map[ATTR_ATTRIBUTION := Str(ATTRIBUTION)]
    {
      this.name := name;
      state := Null;
      attrs := map[ATTR_ATTRIBUTION := Str(ATTRIBUTION)];
    }

    /** Stores `s` as the entity's state, writing only when it differs. */
    method UpdateState(s: Value)
      modifies this`state
      ensures state == s
    {
      if s != state {
        state := s;
      }
    }
  }

  /** The state after an update that either hands a new state to
      `update_state` (`Some`) or leaves the state alone (`None`). */
  function UpdatedBy(state: Value, update: Option<Value>): (r: Value)
    ensures update.Some? ==> r == update.value
    ensures update.None? ==> r == state
  {
    match update
    case Some(s) => s
    case None => state
  }

  const ICON_OPEN := "mdi:valve-open"
  const ICON_CLOSED := "mdi:valve-closed"

  /** The valve entities' `update` may read this far into a device record
      without raising. */
  predicate ValveReadable(deviceState: Value) {
    DictIfTruthy(deviceState) && (Truthy(deviceState) ==> DictIfTruthy(Get(deviceState, "valve")))
  }

  /** `device_state` and `get_telemetry` may read this far into a device record. */
  predicate TelemetryReadable(deviceState: Value) {
    && DictIfTruthy(deviceState)
    && (Truthy(deviceState) ==>
          var telemetry := Get(deviceState, "telemetry");
          DictIfTruthy(telemetry) && (Truthy(telemetry) ==> Get(telemetry, "current").Dict?))
  }

  /** `get_telemetry(field)` over a device record: the field of the record's
      current telemetry, or `None` when there is no record or no telemetry.
      A falsy reading is returned as it is (the source only logs a warning). */
  function Telemetry(deviceState: Value, field: string): (r: Value)
    requires TelemetryReadable(deviceState)
    ensures !Truthy(deviceState) ==> r == Null
    ensures Truthy(deviceState) && !Truthy(Get(deviceState, "telemetry")) ==> r == Null
    ensures r != Null ==>
      var current := Get(Get(deviceState, "telemetry"), "current");
      field in current.d && r == current.d[field]
    ensures Truthy(deviceState) && Truthy(Get(deviceState, "telemetry")) &&
            field in Get(Get(deviceState, "telemetry"), "current").d ==>
      r == Get(Get(deviceState, "telemetry"), "current").d[field]
  {
    if Truthy(deviceState) then
      var telemetry := Get(deviceState, "telemetry");
      if Truthy(telemetry) then Get(Get(telemetry, "current"), field) else Null
    else Null
  }

  /** A Flo entity tied to one device. */
  class FloDeviceEntity {
    const base: FloEntity
    const deviceId: string

    constructor (name: string, deviceId: string)
      ensures this.deviceId == deviceId && fresh(base)
      ensures base.name == name && base.state == Null
      ensures base.attrs == map[ATTR_ATTRIBUTION := Str(ATTRIBUTION), ATTR_DEVICE_ID := Str(deviceId)]
    {
      this.deviceId := deviceId;
      var entity := new FloEntity(name);
      entity.attrs := entity.attrs[ATTR_DEVICE_ID := Str(deviceId)];
      base := entity;
    }

    /** This device's record in the shared cache, or `None` when it has none. */
    function DeviceState(data: FloData): (r: Value)
      reads data
      ensures deviceId in data.cache ==> r == data.cache[deviceId]
      ensures deviceId !in data.cache ==> r == Null
    {
      Lookup(data.cache, deviceId)
    }

    function GetTelemetry(data: FloData, field: string): (r: Value)
      reads data
      requires TelemetryReadable(DeviceState(data))
      ensures r != Null ==> deviceId in data.cache && Truthy(data.cache[deviceId])
    {
      Telemetry(DeviceState(data), field)
    }
  }

  /** A Flo entity tied to one location. */
  class FloLocationEntity {
    const base: FloEntity
    const locationId: string

    constructor (name: string, locationId: string)
      ensures this.locationId == locationId && fresh(base)
      ensures base.name == name && base.state == Null
      ensures base.attrs == map[ATTR_ATTRIBUTION := Str(ATTRIBUTION), ATTR_LOCATION_ID := Str(locationId)]
    {
      this.locationId := locationId;
      var entity := new FloEntity(name);
      entity.attrs := entity.attrs[ATTR_LOCATION_ID := Str(locationId)];
      base := entity;
    }

    /** This location's record in the shared cache, or `None` when it has none. */
    function LocationState(data: FloData): (r: Value)
      reads data
      ensures locationId in data.cache ==> r == data.cache[locationId]
      ensures locationId !in data.cache ==> r == Null
    {
      Lookup(data.cache, locationId)
    }
  }

  // ---------------------------------------------------------------------------
  // What the three platforms' `setup_platform` share
  // ---------------------------------------------------------------------------

  /** The client handle a platform finds in `hass.data`: whether it is
      connected, and what `flo.location(id)` answers for each id. */
  datatype FloService = FloService(isConnected: bool, locations: map<string, Value>)

  /** `flo` is set and connected. */
  predicate ServiceReady(service: Option<FloService>) {
    service.Some? && service.value.isConnected
  }

  /** `flo.location(id)`: the record, or `None` for an unknown location. */
  function LocationOf(service: FloService, locationId: string): Value {
    Lookup(service.locations, locationId)
  }

  /** `if discovery_info:` -- the platform reads its options from discovery. */
  predicate UsesDiscovery(discovery: Option<map<string, string>>) {
    discovery.Some? && discovery.value != map[]
  }

  predicate HasPlatformOption(config: map<string, string>, discovery: Option<map<string, string>>, key: string) {
    if UsesDiscovery(discovery) then key in discovery.value else key in config
  }

  /** A platform option, read from the discovery info when there is any and
      from the platform configuration otherwise. */
  function PlatformOption(config: map<string, string>, discovery: Option<map<string, string>>, key: string): (r: string)
    requires HasPlatformOption(config, discovery, key)
    ensures UsesDiscovery(discovery) ==> r == discovery.value[key]
    ensures !UsesDiscovery(discovery) ==> r == config[key]
  {
    if UsesDiscovery(discovery) then discovery.value[key] else config[key]
  }
}
