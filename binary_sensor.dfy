/** The binary sensor platform (custom_components/repelbridge/binary_sensor.py):
    one "cartridge low" problem sensor per bus. */
module BinarySensorPlatform {
  import opened Wrappers
  import opened Text
  import opened DeviceData
  import opened Entity
  import Coordinator
  import SensorPlatform

  /** `DEFAULT_CARTRIDGE_LOW_THRESHOLD`, the only threshold `_get_threshold` returns. */
  const LowThreshold: int := 5

  /** `_attr_unique_id`: `repelbridge_bus_{bus_id}_cartridge_low`, not scoped
      by config entry. */
  function UniqueId(bus: int): string {
    UnscopedId(bus, "_cartridge_low")
  }

  /** `is_on`: false when unavailable; otherwise whether `percent_left` is at
      most the threshold, a missing `percent_left` counting as 100 (not low). */
  function IsLow(success: bool, data: Snapshot, bus: int): (r: bool)
    ensures r <==> BusAvailable(success, data, bus) && data.buses[bus].cartridge.percentLeft.Some?
                   && data.buses[bus].cartridge.percentLeft.value <= LowThreshold
  {
    BusAvailable(success, data, bus) && data.buses[bus].cartridge.percentLeft.GetOr(100) <= LowThreshold
  }

  /** `icon`: the alert battery exactly when the sensor is on. */
  function Icon(success: bool, data: Snapshot, bus: int): (r: string)
    ensures r == "mdi:battery-alert" <==> IsLow(success, data, bus)
    ensures r == "mdi:battery" <==> !IsLow(success, data, bus)
  {
    if IsLow(success, data, bus) then "mdi:battery-alert" else "mdi:battery"
  }

  /** `extra_state_attributes`: empty when unavailable. */
  function Attributes(success: bool, data: Snapshot, bus: int): (r: map<string, Attr>)
    ensures r == map[] <==> !BusAvailable(success, data, bus)
    ensures r != map[] ==> r.Keys == {"bus_id", "percent_left", "runtime_hours", "threshold"}
    ensures r != map[] ==> r["threshold"] == AInt(LowThreshold)
    ensures r != map[] ==> r["bus_id"] == AInt(bus)
    ensures r != map[] ==> r["percent_left"] == AInt(data.buses[bus].cartridge.percentLeft.GetOr(100))
    ensures r != map[] ==> r["runtime_hours"] == AInt(data.buses[bus].cartridge.runtimeHours.GetOr(0))
    ensures r != map[] ==> r["percent_left"].AInt? && (IsLow(success, data, bus) <==> r["percent_left"].i <= r["threshold"].i)
  {
    if !BusAvailable(success, data, bus) then map[]
    else
      var cartridge := data.buses[bus].cartridge;
      var m := map["bus_id" := AInt(bus),
                   "percent_left" := AInt(cartridge.percentLeft.GetOr(100)),
                   "runtime_hours" := AInt(cartridge.runtimeHours.GetOr(0)),
                   "threshold" := AInt(LowThreshold)];
      assert "bus_id" in m;
      m
  }

  /** With `percent_left` missing, the two cartridge views disagree: the
      cartridge-life sensor shows 0 percent, yet the cartridge-low sensor
      reads the same missing value as 100 and stays off. */
  lemma MissingPercentLeftReadsTwoWays(data: Snapshot, bus: int)
    requires bus in data.buses && data.buses[bus].cartridge.percentLeft.None?
    ensures SensorPlatform.CartridgeLifeValue(true, data, bus) == Some(0)
    ensures !IsLow(true, data, bus)
    ensures Attributes(true, data, bus)["percent_left"] == AInt(100)
  {
  }

  /** After a successful cycle, the cartridge-low sensor of a bus is on
      exactly when all four reads of that bus returned and the cartridge
      reported at most 5 percent left. */
  lemma LowAfterRefresh(dev: Device, bus: int)
    requires Coordinator.RefreshSpec(dev).Updated?
    ensures IsLow(true, Coordinator.RefreshSpec(dev).snapshot, bus) <==>
              && (bus == 0 || bus == 1) && Coordinator.AllReadsOk(dev, bus)
              && dev.cartridge(bus).value.percentLeft.Some?
              && dev.cartridge(bus).value.percentLeft.value <= LowThreshold
  {
    Coordinator.StoredIffAllReadsOk(dev, bus);
  }

  /** `async_setup_entry`: one cartridge-low sensor per bus id, identified
      by its bus. */
  method Setup() returns (entities: seq<int>)
    ensures entities == BusIds
    ensures UniqueId(entities[0]) != UniqueId(entities[1])
  {
    entities := [];
    var ids := BusIds;
    for i := 0 to |ids|
      invariant entities == ids[..i]
    {
      entities := entities + [ids[i]];
    }
    assert ids[..|ids|] == ids;
    UnscopedIdsDistinct(0, "_cartridge_low", 1, "_cartridge_low");
  }
}
