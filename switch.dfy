/** The switch platform (custom_components/repelbridge/switch.py): one power
    switch per bus. */
module SwitchPlatform {
  import opened Wrappers
  import opened Text
  import opened DeviceData
  import opened Entity
  import opened Api
  import opened Calls
  import opened Commands
  import LightPlatform

  /** `_attr_unique_id`: `repelbridge_bus_{bus_id}_power`, not scoped by
      config entry. */
  function UniqueId(bus: int): string {
    UnscopedId(bus, "_power")
  }

  /** `is_on`: false when unavailable, else the bus's `powered`, false when absent. */
  function IsOn(success: bool, data: Snapshot, bus: int): (r: bool)
    ensures r ==> BusAvailable(success, data, bus)
  {
    BusAvailable(success, data, bus) && data.buses[bus].status.powered.GetOr(false)
  }

  /** The switch and the light of a bus always agree on whether it is on. */
  lemma SwitchAgreesWithLight(success: bool, data: Snapshot, bus: int)
    ensures IsOn(success, data, bus) == LightPlatform.IsOn(success, data, bus)
    ensures IsOn(success, data, bus) <==> BusAvailable(success, data, bus) && data.buses[bus].status.powered == Some(true)
  {
  }

  /** `extra_state_attributes`: empty when unavailable. Unlike the light's
      brightness, the `brightness` attribute is the raw reported value, not
      capped at 255, and `color` is the reported colour object. */
  function Attributes(success: bool, data: Snapshot, bus: int): (r: map<string, Attr>)
    ensures r == map[] <==> !BusAvailable(success, data, bus)
    ensures r != map[] ==>
              r.Keys == {"bus_id", "bus_state", "repeller_count", "runtime_hours",
                         "cartridge_percent_left", "brightness", "color"}
    ensures r != map[] ==> r["bus_id"] == AInt(bus)
    ensures r != map[] ==> r["bus_state"] == AStr(data.buses[bus].status.state.GetOr("unknown"))
    ensures r != map[] ==> r["repeller_count"] == AInt(data.buses[bus].status.repellerCount.GetOr(0))
    ensures r != map[] ==> r["runtime_hours"] == AInt(data.buses[bus].cartridge.runtimeHours.GetOr(0))
    ensures r != map[] ==> r["cartridge_percent_left"] == AInt(data.buses[bus].cartridge.percentLeft.GetOr(0))
    ensures r != map[] ==> r["brightness"] == AInt(data.buses[bus].status.brightness.GetOr(0))
    ensures r != map[] && data.buses[bus].status.color.None? ==> r["color"] == AColor(Color(None, None, None))
    ensures r != map[] && data.buses[bus].status.color.Some? ==> r["color"] == AColor(data.buses[bus].status.color.value)
  {
    if !BusAvailable(success, data, bus) then map[]
    else
      var status := data.buses[bus].status;
      var cartridge := data.buses[bus].cartridge;
      var m := map["bus_id" := AInt(bus),
                   "bus_state" := AStr(status.state.GetOr("unknown")),
                   "repeller_count" := AInt(status.repellerCount.GetOr(0)),
                   "runtime_hours" := AInt(cartridge.runtimeHours.GetOr(0)),
                   "cartridge_percent_left" := AInt(cartridge.percentLeft.GetOr(0)),
                   "brightness" := AInt(status.brightness.GetOr(0)),
                   "color" := AColor(status.color.GetOr(Color(None, None, None)))];
      assert "bus_id" in m;
      m
  }

  /** The switch and the light of a bus show the same bus id, bus state,
      repeller count, runtime hours and percent left. */
  lemma AttributesAgreeWithLight(success: bool, data: Snapshot, bus: int)
    ensures var sw := Attributes(success, data, bus);
            var light := LightPlatform.Attributes(success, data, bus);
            && (sw == map[] <==> light == map[])
            && (sw != map[] ==>
                  && sw["bus_id"] == light["bus_id"] && sw["bus_state"] == light["bus_state"]
                  && sw["repeller_count"] == light["repeller_count"]
                  && sw["runtime_hours"] == light["runtime_hours"]
                  && sw["cartridge_percent_left"] == light["cartridge_percent_left"])
  {
  }

  /** `async_turn_on`: power on, then a refresh request if it returned. */
  method TurnOn(log: CommandLog, host: string, bus: int, ok: Operation -> bool) returns (raised: bool)
    modifies log
    ensures log.effects == old(log.effects) + CommandEffects(host, [SetPower(bus, true)], ok)
    ensures raised <==> !ok(SetPower(bus, true))
  {
    raised := log.SendThenRefresh(host, SetPower(bus, true), ok);
  }

  /** `async_turn_off`: power off, then a refresh request if it returned. */
  method TurnOff(log: CommandLog, host: string, bus: int, ok: Operation -> bool) returns (raised: bool)
    modifies log
    ensures log.effects == old(log.effects) + CommandEffects(host, [SetPower(bus, false)], ok)
    ensures raised <==> !ok(SetPower(bus, false))
  {
    raised := log.SendThenRefresh(host, SetPower(bus, false), ok);
  }

  /** Turning the switch on sends exactly what the light sends when turned
      on without brightness or colour. */
  lemma TurnOnMatchesBareLightTurnOn(bus: int)
    ensures LightPlatform.TurnOnOps(bus, None, None) == [SetPower(bus, true)]
  {
  }

  /** `async_setup_entry`: one power switch per bus id, identified by its bus. */
  method Setup() returns (entities: seq<int>)
    ensures entities == BusIds
    ensures UniqueId(entities[0]) != UniqueId(entities[1])
  {
    entities := [];
    var ids := BusIds;
    for i := 0 to |ids|
      invariant entities == ids[..i]
    {
      entities := entities + [ids[i]];
    }
    assert ids[..|ids|] == ids;
    UnscopedIdsDistinct(0, "_power", 1, "_power");
  }
}
