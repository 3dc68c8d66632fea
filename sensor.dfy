/** The sensor platform: per-device telemetry sensors (flow rate, temperature,
    pressure), the monitoring-mode sensor, and a per-location water
    consumption sensor that keeps a running total hour by hour. */
module Sensor {
  import opened Values
  import opened Flo

  const CONF_STARTDATE := "startdate"
  const CONSUMPTION_NAME := "Flo Water Consumption"
  /** The monitoring modes the Flo service accepts (home, away, sleep). */
  const FLO_MODES: seq<string> := ["home", "away", "sleep"]

  // ---------------------------------------------------------------------------
  // Telemetry sensors (FloRateSensor, FloTempSensor, FloPressureSensor)
  // ---------------------------------------------------------------------------

  /** The three telemetry sensors differ only in the reading they show. */
  datatype TelemetryKind = FlowRate | Temperature | Pressure

  function Field(kind: TelemetryKind): string {
    match kind
    case FlowRate => "gpm"
    case Temperature => "tempF"
    case Pressure => "psi"
  }

  function SensorName(kind: TelemetryKind): string {
    match kind
    case FlowRate => "Flo Water Flow Rate"
    case Temperature => "Flo Water Temperature"
    case Pressure => "Flo Water Pressure"
  }

  /** A device record a telemetry sensor of this kind can read. The pressure
      sensor rounds its reading, which needs a number. */
  predicate ReadingAvailable(kind: TelemetryKind, deviceState: Value) {
    TelemetryReadable(deviceState) && (kind == Pressure ==> Telemetry(deviceState, "psi").Num?)
  }

  class FloTelemetrySensor {
    const kind: TelemetryKind
    const deviceId: string
    const entity: FloEntity

    constructor (kind: TelemetryKind, deviceId: string, deviceState: Value)
      requires ReadingAvailable(kind, deviceState)
      ensures this.kind == kind && this.deviceId == deviceId && fresh(entity)
      ensures entity.name == SensorName(kind)
      ensures entity.attrs == map[ATTR_ATTRIBUTION := Str(ATTRIBUTION)]
      ensures entity.state == Telemetry(deviceState, Field(kind))
    {
      this.kind := kind;
      this.deviceId := deviceId;
      entity := new FloEntity(SensorName(kind));
      new;
      Update(deviceState);
    }

    /** Shows the device's current reading for this sensor's field, whatever
        it is (`None` when the device has no telemetry). Pressure readings are
        rounded to hundredths, which leaves a reading kept in hundredths as it
        is. */
    method Update(deviceState: Value)
      requires ReadingAvailable(kind, deviceState)
      modifies entity`state
      ensures entity.state == Telemetry(deviceState, Field(kind))
    {
      var reading := Telemetry(deviceState, Field(kind));
      if entity.state != reading {
        entity.state := reading;
      }
    }
  }

  // ---------------------------------------------------------------------------
  // Monitoring mode (FloMonitoringMode)
  // ---------------------------------------------------------------------------

  /** The service call `set_preset_mode` makes for a device. */
  datatype PresetRequest = PresetRequest(deviceId: string, mode: string)

  /** `update` may read this far into a device record without raising: a
      present record must carry a `systemMode` dict. */
  predicate ModeReadable(deviceState: Value) {
    DictIfTruthy(deviceState) &&
    (Truthy(deviceState) ==> "systemMode" in deviceState.d && deviceState.d["systemMode"].Dict?)
  }

  /** The mode `update` takes from a device record: the target mode when one
      is set, else the last known mode when that is set, else nothing. */
  function ModeReading(deviceState: Value): (mode: Option<Value>)
    requires ModeReadable(deviceState)
    ensures !Truthy(deviceState) ==> mode.None?
    ensures mode.Some? ==> Truthy(mode.value)
    ensures Truthy(deviceState) ==>
      var systemMode := deviceState.d["systemMode"];
      && (Truthy(Get(systemMode, "target")) ==> mode == Some(Get(systemMode, "target")))
      && (!Truthy(Get(systemMode, "target")) && Truthy(Get(systemMode, "lastKnown")) ==>
            mode == Some(Get(systemMode, "lastKnown")))
      && (!Truthy(Get(systemMode, "target")) && !Truthy(Get(systemMode, "lastKnown")) ==> mode.None?)
  {
    if Truthy(deviceState) then
      var systemMode := deviceState.d["systemMode"];
      var target := Get(systemMode, "target");
      var lastKnown := Get(systemMode, "lastKnown");
      if Truthy(target) then Some(target)
      else if Truthy(lastKnown) then Some(lastKnown)
      else None
    else None
  }

  class FloMonitoringMode {
    const deviceId: string
    const entity: FloEntity
    var mode: Value

    /** Once a mode is known it is never replaced by a missing or empty one. */
    ghost predicate Valid()
      reads this
    {
      mode == Null || Truthy(mode)
    }

    constructor (deviceId: string, deviceState: Value)
      requires ModeReadable(deviceState)
      ensures this.deviceId == deviceId && fresh(entity)
      ensures entity.name == "Flo Monitoring Mode"
      ensures entity.attrs == map[ATTR_ATTRIBUTION := Str(ATTRIBUTION)]
      ensures mode == UpdatedBy(Null, ModeReading(deviceState))
      ensures Valid()
    {
      this.deviceId := deviceId;
      entity := new FloEntity("Flo Monitoring Mode");
      mode := Null;
      new;
      var _ := Update(deviceState);
    }

    /** Re-reads the mode from the device record and returns the mode shown. */
    method Update(deviceState: Value) returns (current: Value)
      requires Valid()
      requires ModeReadable(deviceState)
      modifies this`mode
      ensures Valid()
      ensures mode == UpdatedBy(old(mode), ModeReading(deviceState))
      ensures current == mode
    {
      if Truthy(deviceState) {
        var systemMode := deviceState.d["systemMode"];
        var target := Get(systemMode, "target");
        var lastKnown := Get(systemMode, "lastKnown");
        if Truthy(target) {
          mode := target;
        } else if Truthy(lastKnown) {
          mode := lastKnown;
        }
      }
      current := mode;
    }

    /** Asks the service to switch the device to `newMode` and shows it at
        once; a mode outside FLO_MODES is ignored and no request is made. */
    method SetPresetMode(newMode: string) returns (request: Option<PresetRequest>)
      requires Valid()
      modifies this`mode
      ensures Valid()
      ensures newMode !in FLO_MODES ==> request.None? && mode == old(mode)
      ensures newMode in FLO_MODES ==> request == Some(PresetRequest(deviceId, newMode)) && mode == Str(newMode)
    {
      if newMode !in FLO_MODES {
        return None;
      }
      request := Some(PresetRequest(deviceId, newMode));
      mode := Str(newMode);
    }
  }

  // ---------------------------------------------------------------------------
  // Water consumption (FloConsumptionSensor)
  // ---------------------------------------------------------------------------

  /** A UTC time, of which the bookkeeping looks only at the hour of the day
      and the second of the minute. */
  datatype Instant = Instant(hour: nat, second: nat)

  /** Where the consumption total starts: the configured date, or the start
      of the current year when none is configured. */
  datatype StartDate = StartOfYear | FromDate(date: string)

  /** The periods the sensor asks the service about:
      from the start date to `end` by month; the full hour that ends at
      `hour`:00 by hour; the 60 minutes up to `end` by hour. */
  datatype Window = SinceStart(start: StartDate, end: Instant) | FullHourBefore(hour: nat) | HourUntil(end: Instant)

  /** `flo.consumption(location_id, start, end, interval)`: the gallons used
      in a window, in hundredths, or `None` for a failed (falsy) answer. */
  type ConsumptionService = (string, Window) -> Option<int>

  /** `readConsumption`: the gallons the service reports for a window, with a
      failed request counted as 0. */
  function Consumption(service: ConsumptionService, locationId: string, window: Window): (gallons: int)
    ensures service(locationId, window).None? ==> gallons == 0
    ensures service(locationId, window).Some? ==> gallons == service(locationId, window).value
  {
    match service(locationId, window)
    case None => 0
    case Some(g) => g
  }

  function StartDateOf(startdate: string): StartDate {
    if startdate != "" then FromDate(startdate) else StartOfYear
  }

  /** The sensor's bookkeeping: the state shown, the running total of the
      hours already closed, and the time of the last update. */
  datatype Tally = Tally(state: int, total: int, lastEnd: Instant)

  /** The reading taken at start-up: everything since the start date, both
      as the state and as the total. */
  function InitialTally(service: ConsumptionService, locationId: string, start: StartDate, now: Instant): (t: Tally)
    ensures t.state == t.total == Consumption(service, locationId, SinceStart(start, now))
    ensures t.lastEnd == now
  {
    var gallons := Consumption(service, locationId, SinceStart(start, now));
    Tally(gallons, gallons, now)
  }

  predicate HourCrossed(lastEnd: Instant, now: Instant) {
    now.hour != lastEnd.hour
  }

  /** The consumption of the hour that has just been closed, added to the
      total when an update falls in a new hour. */
  function ClosedHour(service: ConsumptionService, locationId: string, lastEnd: Instant, now: Instant): int {
    if HourCrossed(lastEnd, now) then Consumption(service, locationId, FullHourBefore(now.hour)) else 0
  }

  /** The consumption shown on top of the total: the reading for the 60
      minutes up to `now`. An update that enters a new hour at second 0 of a
      minute takes it as 0 instead, so that the closed hour just added to the
      total is not counted again; the test looks at the second of the minute
      only, so an update entering a new hour at 6:17:00 shows 0 as well. */
  function CurrentHour(service: ConsumptionService, locationId: string, lastEnd: Instant, now: Instant): int {
    if HourCrossed(lastEnd, now) && now.second == 0 then 0
    else Consumption(service, locationId, HourUntil(now))
  }

  /** One update at time `now`. */
  function Tick(t: Tally, now: Instant, service: ConsumptionService, locationId: string): (r: Tally)
    ensures r.total == t.total + ClosedHour(service, locationId, t.lastEnd, now)
    ensures !HourCrossed(t.lastEnd, now) ==> r.total == t.total
    ensures HourCrossed(t.lastEnd, now) && now.second == 0 ==> r.state == r.total
    ensures !(HourCrossed(t.lastEnd, now) && now.second == 0) ==>
      r.state == r.total + Consumption(service, locationId, HourUntil(now))
    ensures r.lastEnd == now
  {
    var total := t.total + ClosedHour(service, locationId, t.lastEnd, now);
    Tally(total + CurrentHour(service, locationId, t.lastEnd, now), total, now)
  }

  /** Updates at the times `nows`, in order. */
  function Run(t: Tally, nows: seq<Instant>, service: ConsumptionService, locationId: string): Tally
    decreases |nows|
  {
    if nows == [] then t else Run(Tick(t, nows[0], service, locationId), nows[1..], service, locationId)
  }

  /** The hours an update sequence closes: the hour of every update that
      falls in a different hour of the day than the update before it. */
  function ClosedHours(lastEnd: Instant, nows: seq<Instant>): seq<nat>
    decreases |nows|
  {
    if nows == [] then []
    else (if HourCrossed(lastEnd, nows[0]) then [nows[0].hour] else []) + ClosedHours(nows[0], nows[1..])
  }

  /** The consumption the service reports for a list of closed hours. */
  function HoursConsumption(service: ConsumptionService, locationId: string, hours: seq<nat>): int
    decreases |hours|
  {
    if hours == [] then 0
    else Consumption(service, locationId, FullHourBefore(hours[0])) + HoursConsumption(service, locationId, hours[1..])
  }

  lemma {:induction false} HoursConsumptionAppend(service: ConsumptionService, locationId: string, a: seq<nat>, b: seq<nat>)
    ensures HoursConsumption(service, locationId, a + b) ==
            HoursConsumption(service, locationId, a) + HoursConsumption(service, locationId, b)
    decreases |a|
  {
    if a != [] {
      assert (a + b)[0] == a[0];
      assert (a + b)[1..] == a[1..] + b;
      HoursConsumptionAppend(service, locationId, a[1..], b);
    } else {
      assert a + b == b;
    }
  }

  /** Over any sequence of updates the total grows by exactly the reported
      consumption of the hours the updates close, each counted once. */
  lemma {:induction false} RunTotal(t: Tally, nows: seq<Instant>, service: ConsumptionService, locationId: string)
    ensures Run(t, nows, service, locationId).total ==
            t.total + HoursConsumption(service, locationId, ClosedHours(t.lastEnd, nows))
    decreases |nows|
  {
    if nows != [] {
      var next := Tick(t, nows[0], service, locationId);
      var first := if HourCrossed(t.lastEnd, nows[0]) then [nows[0].hour] else [];
      RunTotal(next, nows[1..], service, locationId);
      HoursConsumptionAppend(service, locationId, first, ClosedHours(nows[0], nows[1..]));
      if first != [] {
        assert first[1..] == [];
      }
    }
  }

  /** Updates that all fall in the hour of the last update close no hour and
      leave the total as it was. */
  lemma {:induction false} SameHourKeepsTotal(t: Tally, nows: seq<Instant>, service: ConsumptionService, locationId: string)
    requires forall k :: 0 <= k < |nows| ==> nows[k].hour == t.lastEnd.hour
    ensures Run(t, nows, service, locationId).total == t.total
    ensures nows != [] ==> Run(t, nows, service, locationId).lastEnd == nows[|nows| - 1]
    decreases |nows|
  {
    if nows != [] {
      var next := Tick(t, nows[0], service, locationId);
      SameHourKeepsTotal(next, nows[1..], service, locationId);
    }
  }

  /** When the service never reports a negative consumption, the total never
      shrinks. */
  lemma {:induction false} RunTotalNeverShrinks(t: Tally, nows: seq<Instant>, service: ConsumptionService, locationId: string)
    requires forall w :: service(locationId, w).Some? ==> service(locationId, w).value >= 0
    ensures Run(t, nows, service, locationId).total >= t.total
    decreases |nows|
  {
    if nows != [] {
      var next := Tick(t, nows[0], service, locationId);
      RunTotalNeverShrinks(next, nows[1..], service, locationId);
    }
  }

  class FloConsumptionSensor {
    const name: string
    const locationId: string
    const attrs: map<string, Value>
    var state: int
    var total: int
    var lastEnd: Instant

    function Snapshot(): Tally
      reads this
    {
      Tally(state, total, lastEnd)
    }

    /** Creates the sensor and takes the reading since the start date. */
    constructor (locationId: string, start: StartDate, now: Instant, service: ConsumptionService)
      ensures name == CONSUMPTION_NAME
      ensures this.locationId == locationId
      ensures attrs == map[ATTR_LOCATION_ID := Str(locationId)]
      ensures Snapshot() == InitialTally(service, locationId, start, now)
    {
      name := CONSUMPTION_NAME;
      this.locationId := locationId;
      attrs := map[ATTR_LOCATION_ID := Str(locationId)];
      new;
      InitialUpdate(start, now, service);
    }

    method InitialUpdate(start: StartDate, now: Instant, service: ConsumptionService)
      modifies this`state, this`total, this`lastEnd
      ensures Snapshot() == InitialTally(service, locationId, start, now)
    {
      state := Consumption(service, locationId, SinceStart(start, now));
      total := state;
      lastEnd := now;
    }

    /** The periodic update at time `now`: on entering a new hour, add the
        closed hour to the total; then show the total plus the last 60 minutes. */
    method Update(now: Instant, service: ConsumptionService)
      modifies this`state, this`total, this`lastEnd
      ensures Snapshot() == Tick(old(Snapshot()), now, service, locationId)
    {
      var crossed := now.hour != lastEnd.hour;
      if crossed {
        var previousHour := Consumption(service, locationId, FullHourBefore(now.hour));
        total := total + previousHour;
      }
      var current;
      if crossed && now.second == 0 {
        current := 0;
      } else {
        current := Consumption(service, locationId, HourUntil(now));
      }
      var newState := total + current;
      lastEnd := now;
      if state != newState {
        state := newState;
      }
    }
  }

  // ---------------------------------------------------------------------------
  // Platform setup
  // ---------------------------------------------------------------------------

  /** The entities the sensor platform hands to the host. */
  datatype SensorEntity =
    | ConsumptionEntity(consumption: FloConsumptionSensor)
    | TelemetryEntity(telemetry: FloTelemetrySensor)
    | ModeEntity(monitoring: FloMonitoringMode)

  /** A device record all four per-device sensors can read. */
  predicate DeviceSensorsReady(deviceState: Value) {
    ReadingAvailable(Pressure, deviceState) && ModeReadable(deviceState)
  }

  predicate LocationReady(location: Value, data: FloData)
    reads data
  {
    Truthy(location) ==>
      && HasDevices(location)
      && forall j :: 0 <= j < |LocationDeviceIds(location)| ==>
           DeviceSensorsReady(Lookup(data.cache, LocationDeviceIds(location)[j]))
  }

  /** The objects whose fields an entity's state lives in. */
  function StateObjects(e: SensorEntity): set<object> {
    match e
    case ConsumptionEntity(c) => {c}
    case TelemetryEntity(t) => {t.entity}
    case ModeEntity(m) => {m}
  }

  ghost predicate ShowsReading(e: SensorEntity, kind: TelemetryKind, deviceId: string, deviceState: Value)
    reads StateObjects(e)
    requires TelemetryReadable(deviceState)
  {
    && e.TelemetryEntity?
    && e.telemetry.kind == kind
    && e.telemetry.deviceId == deviceId
    && e.telemetry.entity.state == Telemetry(deviceState, Field(kind))
  }

  /** The four sensors of one device starting at `at`, in the order the
      platform creates them: flow rate, temperature, pressure, monitoring
      mode, each with its first reading taken. */
  ghost predicate DeviceSensorsAt(sensors: seq<SensorEntity>, at: nat, deviceId: string, deviceState: Value)
    requires at + 4 <= |sensors|
    reads StateObjects(sensors[at]), StateObjects(sensors[at + 1]), StateObjects(sensors[at + 2]), StateObjects(sensors[at + 3])
  {
    && DeviceSensorsReady(deviceState)
    && ShowsReading(sensors[at], FlowRate, deviceId, deviceState)
    && ShowsReading(sensors[at + 1], Temperature, deviceId, deviceState)
    && ShowsReading(sensors[at + 2], Pressure, deviceId, deviceState)
    && sensors[at + 3].ModeEntity?
    && sensors[at + 3].monitoring.deviceId == deviceId
    && sensors[at + 3].monitoring.mode == UpdatedBy(Null, ModeReading(deviceState))
  }

  lemma DeviceSensorsAtPrefix(s: seq<SensorEntity>, t: seq<SensorEntity>, at: nat, deviceId: string, deviceState: Value)
    requires at + 4 <= |s|
    ensures DeviceSensorsAt(s + t, at, deviceId, deviceState) == DeviceSensorsAt(s, at, deviceId, deviceState)
  {
    assert (s + t)[at] == s[at] && (s + t)[at + 1] == s[at + 1];
    assert (s + t)[at + 2] == s[at + 2] && (s + t)[at + 3] == s[at + 3];
  }

  lemma DeviceSensorsAtShift(s: seq<SensorEntity>, t: seq<SensorEntity>, at: nat, deviceId: string, deviceState: Value)
    requires at + 4 <= |t|
    ensures DeviceSensorsAt(s + t, |s| + at, deviceId, deviceState) == DeviceSensorsAt(t, at, deviceId, deviceState)
  {
    assert (s + t)[|s| + at] == t[at] && (s + t)[|s| + at + 1] == t[at + 1];
    assert (s + t)[|s| + at + 2] == t[at + 2] && (s + t)[|s| + at + 3] == t[at + 3];
  }

  /** Creates the four sensors of one device. */
  method CreateDeviceSensors(deviceId: string, deviceState: Value) returns (group: seq<SensorEntity>)
    requires DeviceSensorsReady(deviceState)
    ensures |group| == 4 && DeviceSensorsAt(group, 0, deviceId, deviceState)
    ensures forall k :: 0 <= k < 4 ==> fresh(StateObjects(group[k]))
  {
    var rate := new FloTelemetrySensor(FlowRate, deviceId, deviceState);
    var temp := new FloTelemetrySensor(Temperature, deviceId, deviceState);
    var pressure := new FloTelemetrySensor(Pressure, deviceId, deviceState);
    var mode := new FloMonitoringMode(deviceId, deviceState);
    group := [TelemetryEntity(rate), TelemetryEntity(temp), TelemetryEntity(pressure), ModeEntity(mode)];
  }

  /** Creates the four sensors of each device, device by device, in the order
      of `ids`. */
  method CreateLocationSensors(ids: seq<string>, data: FloData) returns (sensors: seq<SensorEntity>)
    requires forall j :: 0 <= j < |ids| ==> DeviceSensorsReady(Lookup(data.cache, ids[j]))
    ensures |sensors| == 4 * |ids|
    ensures forall i :: 0 <= i < |ids| ==> DeviceSensorsAt(sensors, 4 * i, ids[i], Lookup(data.cache, ids[i]))
  {
    sensors := [];
    var i := 0;
    while i < |ids|
      invariant 0 <= i <= |ids|
      invariant |sensors| == 4 * i
      invariant forall k :: 0 <= k < i ==> DeviceSensorsAt(sensors, 4 * k, ids[k], Lookup(data.cache, ids[k]))
    {
      var group := CreateDeviceSensors(ids[i], Lookup(data.cache, ids[i]));
      forall k | 0 <= k < i
        ensures DeviceSensorsAt(sensors + group, 4 * k, ids[k], Lookup(data.cache, ids[k]))
      {
        DeviceSensorsAtPrefix(sensors, group, 4 * k, ids[k], Lookup(data.cache, ids[k]));
      }
      DeviceSensorsAtShift(sensors, group, 0, ids[i], Lookup(data.cache, ids[i]));
      sensors := sensors + group;
      i := i + 1;
    }
  }

  /** `setup_platform`: `None` when the service is missing or disconnected or
      the location is unknown (the source returns `False` and registers
      nothing); otherwise the consumption sensor of the location followed by
      the four sensors of each device, in the location's device order. `now`
      is the time of setup and `consumption` stands for the service's
      consumption query. */
  method SetupPlatform(service: Option<FloService>, config: map<string, string>,
                       discovery: Option<map<string, string>>, data: FloData,
                       now: Instant, consumption: ConsumptionService)
    returns (added: Option<seq<SensorEntity>>)
    requires ServiceReady(service) ==>
      HasPlatformOption(config, discovery, CONF_LOCATION_ID) && HasPlatformOption(config, discovery, CONF_STARTDATE)
    requires ServiceReady(service) ==>
      LocationReady(LocationOf(service.value, PlatformOption(config, discovery, CONF_LOCATION_ID)), data)
    ensures !ServiceReady(service) ==> added.None?
    ensures ServiceReady(service) ==>
      (added.None? <==> !Truthy(LocationOf(service.value, PlatformOption(config, discovery, CONF_LOCATION_ID))))
    ensures added.Some? ==>
      ServiceReady(service) &&
      var locationId := PlatformOption(config, discovery, CONF_LOCATION_ID);
      var start := StartDateOf(PlatformOption(config, discovery, CONF_STARTDATE));
      var ids := LocationDeviceIds(LocationOf(service.value, locationId));
      && |added.value| == 1 + 4 * |ids|
      && added.value[0].ConsumptionEntity?
      && added.value[0].consumption.locationId == locationId
      && added.value[0].consumption.Snapshot() == InitialTally(consumption, locationId, start, now)
      && forall i :: 0 <= i < |ids| ==> DeviceSensorsAt(added.value, 1 + 4 * i, ids[i], Lookup(data.cache, ids[i]))
  {
    if service.None? || !service.value.isConnected {
      return None;
    }
    var locationId, startdate;
    if UsesDiscovery(discovery) {
      locationId := discovery.value[CONF_LOCATION_ID];
      startdate := discovery.value[CONF_STARTDATE];
    } else {
      locationId := config[CONF_LOCATION_ID];
      startdate := config[CONF_STARTDATE];
    }
    var start := StartDateOf(startdate);
    var location := LocationOf(service.value, locationId);
    if !Truthy(location) {
      return None;
    }
    var ids := LocationDeviceIds(location);
    var total := new FloConsumptionSensor(locationId, start, now, consumption);
    var deviceSensors := CreateLocationSensors(ids, data);
    var sensors := [ConsumptionEntity(total)] + deviceSensors;
    forall i | 0 <= i < |ids|
      ensures DeviceSensorsAt(sensors, 1 + 4 * i, ids[i], Lookup(data.cache, ids[i]))
    {
      DeviceSensorsAtShift([ConsumptionEntity(total)], deviceSensors, 4 * i, ids[i], Lookup(data.cache, ids[i]));
    }
    return Some(sensors);
  }
}
