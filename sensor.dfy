/** The sensor platform (custom_components/repelbridge/sensor.py): three
    sensors per bus and two system sensors, each a view of the coordinator's
    flag and data. */
module SensorPlatform {
  import opened Wrappers
  import opened Text
  import opened Numeric
  import opened DeviceData
  import opened Entity
  import Coordinator

  datatype Sensor = RuntimeHours(bus: int) | CartridgeLife(bus: int) | RepellerCount(bus: int) | WifiStatus | Uptime

  predicate IsBusSensor(s: Sensor) { s.RuntimeHours? || s.CartridgeLife? || s.RepellerCount? }

  /** `RepelBridgeSensorBase.available`. */
  predicate Available(s: Sensor, success: bool, data: Snapshot) {
    if IsBusSensor(s) then BusAvailable(success, data, s.bus) else SystemAvailable(success, data)
  }

  /** The part of a bus sensor's unique id after the bus number. */
  function KindSuffix(s: Sensor): (r: string)
    requires IsBusSensor(s)
    ensures |r| > 0 && r[0] == '_'
  {
    match s
    case RuntimeHours(_) => "_runtime_hours"
    case CartridgeLife(_) => "_cartridge_life"
    case RepellerCount(_) => "_repeller_count"
  }

  /** `_attr_unique_id`: `repelbridge_bus_{id}_<kind>` for bus sensors. These
      ids are not scoped by config entry. */
  function UniqueId(s: Sensor): string {
    if IsBusSensor(s) then UnscopedId(s.bus, KindSuffix(s))
    else if s.WifiStatus? then "repelbridge_wifi_status"
    else "repelbridge_uptime"
  }

  /** Different sensors never share a unique id. */
  lemma UniqueIdInjective(s: Sensor, t: Sensor)
    requires UniqueId(s) == UniqueId(t)
    ensures s == t
  {
    if IsBusSensor(s) && IsBusSensor(t) && s != t {
      UnscopedIdsDistinct(s.bus, KindSuffix(s), t.bus, KindSuffix(t));
    }
  }

  /** `device_info`: the bus's device for bus sensors, the system device for
      the WiFi and uptime sensors. */
  function Device(s: Sensor): (r: DeviceInfo)
    ensures r.identifier == "system" <==> !IsBusSensor(s)
  {
    if IsBusSensor(s) then
      assert BusDevice(s.bus).identifier[0] == 'b';
      BusDevice(s.bus)
    else
      SystemDevice
  }

  /** Two sensors share a device exactly when both are system sensors or
      both are bus sensors of the same bus. */
  lemma SameDeviceIff(s: Sensor, t: Sensor)
    ensures Device(s).identifier == Device(t).identifier <==>
              IsBusSensor(s) == IsBusSensor(t) && (IsBusSensor(s) ==> s.bus == t.bus)
  {
    if IsBusSensor(s) && IsBusSensor(t) && s.bus != t.bus {
      BusDevicesDistinct(s.bus, t.bus);
    }
  }

  /** Runtime hours: the cartridge's `runtime_hours`, 0 when absent, None when unavailable. */
  function RuntimeHoursValue(success: bool, data: Snapshot, bus: int): (r: Option<int>)
    ensures r.None? <==> !BusAvailable(success, data, bus)
    ensures r.Some? && data.buses[bus].cartridge.runtimeHours.None? ==> r.value == 0
    ensures r.Some? && data.buses[bus].cartridge.runtimeHours.Some? ==>
              r.value == data.buses[bus].cartridge.runtimeHours.value
  {
    if !BusAvailable(success, data, bus) then None
    else Some(data.buses[bus].cartridge.runtimeHours.GetOr(0))
  }

  function RuntimeHoursAttributes(success: bool, data: Snapshot, bus: int): (r: map<string, Attr>)
    ensures r == map[] <==> !BusAvailable(success, data, bus)
    ensures r != map[] ==> r.Keys == {"bus_id", "active_seconds"} && r["bus_id"] == AInt(bus)
    ensures r != map[] ==> r["active_seconds"] == AInt(data.buses[bus].cartridge.activeSeconds.GetOr(0))
  {
    if !BusAvailable(success, data, bus) then map[]
    else
      var m := map["bus_id" := AInt(bus),
                   "active_seconds" := AInt(data.buses[bus].cartridge.activeSeconds.GetOr(0))];
      assert "bus_id" in m;
      m
  }

  /** Cartridge life: the cartridge's `percent_left`, 0 when absent. */
  function CartridgeLifeValue(success: bool, data: Snapshot, bus: int): (r: Option<int>)
    ensures r.None? <==> !BusAvailable(success, data, bus)
    ensures r.Some? && data.buses[bus].cartridge.percentLeft.None? ==> r.value == 0
    ensures r.Some? && data.buses[bus].cartridge.percentLeft.Some? ==>
              r.value == data.buses[bus].cartridge.percentLeft.value
  {
    if !BusAvailable(success, data, bus) then None
    else Some(data.buses[bus].cartridge.percentLeft.GetOr(0))
  }

  function CartridgeLifeAttributes(success: bool, data: Snapshot, bus: int): (r: map<string, Attr>)
    ensures r == map[] <==> !BusAvailable(success, data, bus)
    ensures r != map[] ==> r.Keys == {"bus_id", "runtime_hours", "warn_at_hours"}
    ensures r != map[] ==> r["bus_id"] == AInt(bus)
    ensures r != map[] ==> r["runtime_hours"] == AInt(data.buses[bus].cartridge.runtimeHours.GetOr(0))
    ensures r != map[] ==> r["warn_at_hours"] == AInt(data.buses[bus].warnAt.warnAtHours.GetOr(0))
  {
    if !BusAvailable(success, data, bus) then map[]
    else
      var record := data.buses[bus];
      var m := map["bus_id" := AInt(bus),
                   "runtime_hours" := AInt(record.cartridge.runtimeHours.GetOr(0)),
                   "warn_at_hours" := AInt(record.warnAt.warnAtHours.GetOr(0))];
      assert "bus_id" in m;
      m
  }

  /** Repeller count: the bus status's `repeller_count`, 0 when absent. */
  function RepellerCountValue(success: bool, data: Snapshot, bus: int): (r: Option<int>)
    ensures r.None? <==> !BusAvailable(success, data, bus)
    ensures r.Some? && data.buses[bus].status.repellerCount.None? ==> r.value == 0
    ensures r.Some? && data.buses[bus].status.repellerCount.Some? ==>
              r.value == data.buses[bus].status.repellerCount.value
  {
    if !BusAvailable(success, data, bus) then None
    else Some(data.buses[bus].status.repellerCount.GetOr(0))
  }

  function RepellerCountAttributes(success: bool, data: Snapshot, bus: int): (r: map<string, Attr>)
    ensures r == map[] <==> !BusAvailable(success, data, bus)
    ensures r != map[] ==> r.Keys == {"bus_id", "bus_state"}
    ensures r != map[] ==> r["bus_id"] == AInt(bus)
    ensures r != map[] && data.buses[bus].status.state.None? ==> r["bus_state"] == AStr("unknown")
    ensures r != map[] && data.buses[bus].status.state.Some? ==> r["bus_state"] == AStr(data.buses[bus].status.state.value)
  {
    if !BusAvailable(success, data, bus) then map[]
    else
      var m := map["bus_id" := AInt(bus), "bus_state" := AStr(data.buses[bus].status.state.GetOr("unknown"))];
      assert "bus_id" in m;
      m
  }

  /** WiFi status: "unknown" when unavailable (not None), otherwise
      "connected" exactly when `wifi_connected` is true (false when absent). */
  function WifiStatusValue(success: bool, data: Snapshot): (r: string)
    ensures r == "unknown" <==> !SystemAvailable(success, data)
    ensures r == "connected" <==> SystemAvailable(success, data) && data.system.wifiConnected == Some(true)
    ensures r == "disconnected" <==> SystemAvailable(success, data) && data.system.wifiConnected != Some(true)
  {
    if !SystemAvailable(success, data) then "unknown"
    else if data.system.wifiConnected.GetOr(false) then "connected"
    else "disconnected"
  }

  function WifiStatusAttributes(success: bool, data: Snapshot): (r: map<string, Attr>)
    ensures r == map[] <==> !SystemAvailable(success, data)
    ensures r != map[] ==> r.Keys == {"ssid", "ip_address", "free_heap"}
    ensures r != map[] ==> r["ssid"] == AStr(data.system.wifiSsid.GetOr(""))
    ensures r != map[] ==> r["ip_address"] == AStr(data.system.wifiIp.GetOr(""))
    ensures r != map[] ==> r["free_heap"] == AInt(data.system.freeHeap.GetOr(0))
  {
    if !SystemAvailable(success, data) then map[]
    else
      var m := map["ssid" := AStr(data.system.wifiSsid.GetOr("")),
                   "ip_address" := AStr(data.system.wifiIp.GetOr("")),
                   "free_heap" := AInt(data.system.freeHeap.GetOr(0))];
      assert "ssid" in m;
      m
  }

  /** Uptime in seconds: `int(uptime_ms / 1000)`, `uptime_ms` 0 when absent. */
  function UptimeValue(success: bool, data: Snapshot): (r: Option<int>)
    ensures r.None? <==> !SystemAvailable(success, data)
    ensures r.Some? && data.system.uptimeMs.None? ==> r.value == 0
  {
    if !SystemAvailable(success, data) then None
    else Some(TruncToInt(data.system.uptimeMs.GetOr(0) as real / 1000.0))
  }

  function UptimeAttributes(success: bool, data: Snapshot): (r: map<string, Attr>)
    ensures r == map[] <==> !SystemAvailable(success, data)
    ensures r != map[] ==> r.Keys == {"uptime_ms", "device_name"}
    ensures r != map[] ==> r["uptime_ms"] == AInt(data.system.uptimeMs.GetOr(0))
    ensures r != map[] ==> r["device_name"] == AStr(data.system.deviceName.GetOr(""))
  {
    if !SystemAvailable(success, data) then map[]
    else
      var m := map["uptime_ms" := AInt(data.system.uptimeMs.GetOr(0)),
                   "device_name" := AStr(data.system.deviceName.GetOr(""))];
      assert "uptime_ms" in m;
      m
  }

  /** For a non-negative `uptime_ms` the uptime is whole seconds, rounded
      down, and agrees with the `uptime_ms` attribute. */
  lemma UptimeIsWholeSeconds(success: bool, data: Snapshot)
    requires SystemAvailable(success, data)
    requires data.system.uptimeMs.GetOr(0) >= 0
    ensures UptimeValue(success, data) == Some(data.system.uptimeMs.GetOr(0) / 1000)
    ensures UptimeValue(success, data).value == UptimeAttributes(success, data)["uptime_ms"].i / 1000
  {
    TruncDivThousand(data.system.uptimeMs.GetOr(0));
  }

  /** Every value sensor and its attributes agree: no value exactly when no
      attributes. The WiFi sensor says "unknown" exactly when it has none. */
  lemma ValueAndAttributesAgree(success: bool, data: Snapshot, bus: int)
    ensures RuntimeHoursValue(success, data, bus).None? <==> RuntimeHoursAttributes(success, data, bus) == map[]
    ensures CartridgeLifeValue(success, data, bus).None? <==> CartridgeLifeAttributes(success, data, bus) == map[]
    ensures RepellerCountValue(success, data, bus).None? <==> RepellerCountAttributes(success, data, bus) == map[]
    ensures UptimeValue(success, data).None? <==> UptimeAttributes(success, data) == map[]
    ensures WifiStatusValue(success, data) == "unknown" <==> WifiStatusAttributes(success, data) == map[]
  {
  }

  /** After a successful cycle, the cartridge-life sensor of a bus reports
      the `percent_left` the device returned (0 when absent) exactly when all
      four reads of that bus returned; otherwise it has no value. */
  lemma CartridgeLifeAfterRefresh(dev: Device, bus: int)
    requires Coordinator.RefreshSpec(dev).Updated?
    ensures var v := CartridgeLifeValue(true, Coordinator.RefreshSpec(dev).snapshot, bus);
            && (v.Some? <==> (bus == 0 || bus == 1) && Coordinator.AllReadsOk(dev, bus))
            && (v.Some? ==> v.value == dev.cartridge(bus).value.percentLeft.GetOr(0))
  {
    Coordinator.StoredIffAllReadsOk(dev, bus);
  }

  /** The sensors for the given buses, three per bus, in order. */
  function BusSensors(ids: seq<int>): seq<Sensor>
    decreases |ids|
  {
    if ids == [] then []
    else
      var b := ids[|ids| - 1];
      BusSensors(ids[..|ids| - 1]) + [RuntimeHours(b), CartridgeLife(b), RepellerCount(b)]
  }

  /** Distinct sensors have distinct unique ids. */
  lemma DistinctUniqueIds(xs: seq<Sensor>)
    requires forall i, j :: 0 <= i < j < |xs| ==> xs[i] != xs[j]
    ensures forall i, j :: 0 <= i < j < |xs| ==> UniqueId(xs[i]) != UniqueId(xs[j])
  {
    forall i, j | 0 <= i < j < |xs|
      ensures UniqueId(xs[i]) != UniqueId(xs[j])
    {
      if UniqueId(xs[i]) == UniqueId(xs[j]) {
        UniqueIdInjective(xs[i], xs[j]);
      }
    }
  }

  /** All sensors of a hub whose buses are `ids`: the bus sensors, then the system sensors. */
  function AllSensors(ids: seq<int>): seq<Sensor> {
    BusSensors(ids) + [WifiStatus, Uptime]
  }

  /** The hub's sensors: eight of them, three for each of buses 0 and 1 and
      the two system sensors. */
  lemma HubSensors()
    ensures var all := AllSensors(BusIds);
            && |all| == 8
            && (forall b :: b in {0, 1} ==>
                  RuntimeHours(b) in all && CartridgeLife(b) in all && RepellerCount(b) in all)
            && WifiStatus in all && Uptime in all
            && (forall s :: s in all && IsBusSensor(s) ==> s.bus in {0, 1})
            && all == [RuntimeHours(0), CartridgeLife(0), RepellerCount(0),
                       RuntimeHours(1), CartridgeLife(1), RepellerCount(1), WifiStatus, Uptime]
  {
    var all := AllSensors(BusIds);
    assert BusIds[..1] == [0] && [0][..0] == [];
    assert all == [RuntimeHours(0), CartridgeLife(0), RepellerCount(0),
                   RuntimeHours(1), CartridgeLife(1), RepellerCount(1), WifiStatus, Uptime];
  }

  /** No two of the hub's sensors share a unique id. */
  lemma HubSensorIdsDistinct()
    ensures var all := AllSensors(BusIds);
            forall i, j :: 0 <= i < j < |all| ==> UniqueId(all[i]) != UniqueId(all[j])
  {
    var all := AllSensors(BusIds);
    HubSensors();
    assert all == [RuntimeHours(0), CartridgeLife(0), RepellerCount(0),
                   RuntimeHours(1), CartridgeLife(1), RepellerCount(1), WifiStatus, Uptime];
    assert forall i, j :: 0 <= i < j < |all| ==> all[i] != all[j];
    DistinctUniqueIds(all);
  }

  /** `async_setup_entry`: three sensors for each bus id in turn, then the
      two system sensors. */
  method Setup() returns (entities: seq<Sensor>)
    ensures entities == AllSensors(BusIds)
  {
    entities := [];
    var ids := BusIds;
    for i := 0 to |ids|
      invariant entities == BusSensors(ids[..i])
    {
      assert ids[..i + 1][..i] == ids[..i];
      entities := entities + [RuntimeHours(ids[i]), CartridgeLife(ids[i]), RepellerCount(ids[i])];
    }
    assert ids[..|ids|] == ids;
    entities := entities + [WifiStatus, Uptime];
  }
}
