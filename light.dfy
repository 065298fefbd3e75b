/** The light platform (custom_components/repelbridge/light.py): one RGB
    light per bus, showing the bus's power, brightness and colour and
    sending power, brightness and colour commands. */
module LightPlatform {
  import opened Wrappers
  import opened Text
  import opened DeviceData
  import opened Entity
  import opened Api
  import opened Calls
  import opened Commands

  /** An RGB triple as Home Assistant passes and shows it. */
  datatype Rgb = Rgb(red: int, green: int, blue: int)

  /** A light entity: the config entry it belongs to and its bus. */
  datatype Light = Light(entryId: string, bus: int)

  /** `_attr_unique_id`: `{entry_id}_bus_{bus_id}_light`. */
  function UniqueId(light: Light): string {
    EntryBusDeviceId(light.entryId, light.bus) + "_light"
  }

  /** `device_info["name"]`. */
  function DeviceName(light: Light): string {
    EntryDeviceName(light.entryId, light.bus)
  }

  /** The two lights of an entry have different unique ids. */
  lemma UniqueIdsDistinct(entryId: string, b: int, c: int)
    requires b != c
    ensures UniqueId(Light(entryId, b)) != UniqueId(Light(entryId, c))
  {
    EntryScopedIdsDistinct(entryId, b, "_light", c, "_light");
  }

  /** `is_on`: false when unavailable, else the bus's `powered`, false when absent. */
  function IsOn(success: bool, data: Snapshot, bus: int): (r: bool)
    ensures r <==> BusAvailable(success, data, bus) && data.buses[bus].status.powered == Some(true)
  {
    BusAvailable(success, data, bus) && data.buses[bus].status.powered.GetOr(false)
  }

  /** `brightness`: None when unavailable, else the reported brightness (0
      when absent) capped at 255. */
  function Brightness(success: bool, data: Snapshot, bus: int): (r: Option<int>)
    ensures r.None? <==> !BusAvailable(success, data, bus)
    ensures r.Some? ==> r.value <= 255
    ensures r.Some? ==> var reported := data.buses[bus].status.brightness.GetOr(0);
                        (reported <= 255 ==> r.value == reported) && (reported > 255 ==> r.value == 255)
  {
    if !BusAvailable(success, data, bus) then None
    else
      var reported := data.buses[bus].status.brightness.GetOr(0);
      Some(if reported < 255 then reported else 255)
  }

  /** `rgb_color`: None when unavailable, else the reported colour with each
      missing channel (or a missing colour) read as 0. */
  function RgbColor(success: bool, data: Snapshot, bus: int): (r: Option<Rgb>)
    ensures r.None? <==> !BusAvailable(success, data, bus)
    ensures r.Some? && data.buses[bus].status.color.None? ==> r.value == Rgb(0, 0, 0)
    ensures r.Some? && data.buses[bus].status.color.Some? ==>
              var c := data.buses[bus].status.color.value;
              r.value == Rgb(c.red.GetOr(0), c.green.GetOr(0), c.blue.GetOr(0))
  {
    if !BusAvailable(success, data, bus) then None
    else
      var c := data.buses[bus].status.color.GetOr(Color(None, None, None));
      Some(Rgb(c.red.GetOr(0), c.green.GetOr(0), c.blue.GetOr(0)))
  }

  /** `extra_state_attributes`: empty when unavailable. `auto_shutoff_seconds`
      is read from the cartridge status, not from the auto-shutoff setting. */
  function Attributes(success: bool, data: Snapshot, bus: int): (r: map<string, Attr>)
    ensures r == map[] <==> !BusAvailable(success, data, bus)
    ensures r != map[] ==>
              r.Keys == {"bus_id", "bus_state", "repeller_count", "runtime_hours",
                         "cartridge_percent_left", "auto_shutoff_seconds"}
    ensures r != map[] ==> r["bus_id"] == AInt(bus)
    ensures r != map[] ==> r["bus_state"] == AStr(data.buses[bus].status.state.GetOr("unknown"))
    ensures r != map[] ==> r["repeller_count"] == AInt(data.buses[bus].status.repellerCount.GetOr(0))
    ensures r != map[] ==> r["runtime_hours"] == AInt(data.buses[bus].cartridge.runtimeHours.GetOr(0))
    ensures r != map[] ==> r["cartridge_percent_left"] == AInt(data.buses[bus].cartridge.percentLeft.GetOr(0))
    ensures r != map[] ==>
              r["auto_shutoff_seconds"] == AInt(data.buses[bus].cartridge.autoShutoffSeconds.GetOr(0))
  {
    if !BusAvailable(success, data, bus) then map[]
    else
      var status := data.buses[bus].status;
      var cartridge := data.buses[bus].cartridge;
      var m := map["bus_id" := AInt(bus),
                   "bus_state" := AStr(status.state.GetOr("unknown")),
                   "repeller_count" := AInt(status.repellerCount.GetOr(0)),
                   "runtime_hours" := AInt(cartridge.runtimeHours.GetOr(0)),
                   "cartridge_percent_left" := AInt(cartridge.percentLeft.GetOr(0)),
                   "auto_shutoff_seconds" := AInt(cartridge.autoShutoffSeconds.GetOr(0))];
      assert "bus_id" in m;
      m
  }

  /** The device brightness for a Home Assistant brightness: capped at 254. */
  function DeviceBrightness(haBrightness: int): (v: int)
    ensures v <= 254
    ensures haBrightness <= 254 ==> v == haBrightness
  {
    if haBrightness < 254 then haBrightness else 254
  }

  /** The brightness call of `async_turn_on`, if a brightness is given. */
  function BrightnessOps(bus: int, brightness: Option<int>): seq<Operation> {
    if brightness.Some? then [SetBrightness(bus, DeviceBrightness(brightness.value))] else []
  }

  /** The colour call of `async_turn_on`, if a colour is given. */
  function ColorOps(bus: int, rgb: Option<Rgb>): seq<Operation> {
    if rgb.Some? then [SetColor(bus, rgb.value.red, rgb.value.green, rgb.value.blue)] else []
  }

  /** The calls `async_turn_on` awaits: brightness if given, colour if
      given, then power on. */
  function TurnOnOps(bus: int, brightness: Option<int>, rgb: Option<Rgb>): seq<Operation> {
    BrightnessOps(bus, brightness) + (ColorOps(bus, rgb) + [SetPower(bus, true)])
  }

  /** Turning on always ends by powering the bus on, and powers nothing
      before that; it sets a brightness exactly when one is given, capped at
      254, and a colour exactly when one is given; every call is for the
      light's own bus. */
  lemma TurnOnOpsShape(bus: int, brightness: Option<int>, rgb: Option<Rgb>)
    ensures var ops := TurnOnOps(bus, brightness, rgb);
            && |ops| >= 1 && ops[|ops| - 1] == SetPower(bus, true)
            && (forall i :: 0 <= i < |ops| - 1 ==> !ops[i].SetPower?)
            && (forall v :: SetBrightness(bus, v) in ops <==> brightness.Some? && v == DeviceBrightness(brightness.value))
            && (forall c: Rgb :: SetColor(bus, c.red, c.green, c.blue) in ops <==> rgb == Some(c))
            && (forall i :: 0 <= i < |ops| ==> !ops[i].GetSystemStatus? && ops[i].bus == bus)
  {
  }

  /** The part of `async_turn_on` after the brightness call. */
  method ColorThenPowerOn(log: CommandLog, host: string, bus: int, rgb: Option<Rgb>, ok: Operation -> bool)
    returns (raised: bool)
    modifies log
    ensures log.effects == old(log.effects) + CommandEffects(host, ColorOps(bus, rgb) + [SetPower(bus, true)], ok)
    ensures raised <==> !AllOk(ColorOps(bus, rgb) + [SetPower(bus, true)], ok)
  {
    var power := SetPower(bus, true);
    if rgb.Some? {
      var op := SetColor(bus, rgb.value.red, rgb.value.green, rgb.value.blue);
      assert ColorOps(bus, rgb) + [power] == [op] + [power];
      CommandEffectsCons(host, op, [power], ok);
      var sent := log.Send(host, op, ok);
      if !sent {
        return true;
      }
    } else {
      assert ColorOps(bus, rgb) + [power] == [power];
    }
    raised := log.SendThenRefresh(host, power, ok);
  }

  /** `async_turn_on`: the awaited calls in order, stopping at the first that
      raises, then a refresh request if none raised. */
  method TurnOn(log: CommandLog, host: string, bus: int, brightness: Option<int>, rgb: Option<Rgb>,
                ok: Operation -> bool) returns (raised: bool)
    modifies log
    ensures log.effects == old(log.effects) + CommandEffects(host, TurnOnOps(bus, brightness, rgb), ok)
    ensures raised <==> !AllOk(TurnOnOps(bus, brightness, rgb), ok)
  {
    ghost var ops := TurnOnOps(bus, brightness, rgb);
    var rest := ColorOps(bus, rgb) + [SetPower(bus, true)];
    ghost var before := log.effects;
    if brightness.Some? {
      var op := SetBrightness(bus, DeviceBrightness(brightness.value));
      assert ops == [op] + rest;
      CommandEffectsCons(host, op, rest, ok);
      var sent := log.Send(host, op, ok);
      if !sent {
        return true;
      }
      before := before + [Call(host, op)];
    } else {
      assert ops == rest;
    }
    assert before + CommandEffects(host, rest, ok) == old(log.effects) + CommandEffects(host, ops, ok);
    raised := ColorThenPowerOn(log, host, bus, rgb, ok);
  }

  /** `async_turn_off`: power off, then a refresh request if it returned. */
  method TurnOff(log: CommandLog, host: string, bus: int, ok: Operation -> bool) returns (raised: bool)
    modifies log
    ensures log.effects == old(log.effects) + CommandEffects(host, [SetPower(bus, false)], ok)
    ensures raised <==> !ok(SetPower(bus, false))
  {
    raised := log.SendThenRefresh(host, SetPower(bus, false), ok);
  }

  /** A brightness set from Home Assistant and reported back by the device
      shows as what was set, except that 255 shows as 254. */
  lemma BrightnessRoundTrip(data: Snapshot, bus: int, haBrightness: int)
    requires 0 <= haBrightness <= 255
    requires bus in data.buses
    requires data.buses[bus].status.brightness == Some(DeviceBrightness(haBrightness))
    ensures Brightness(true, data, bus) == Some(if haBrightness == 255 then 254 else haBrightness)
  {
  }

  /** A colour set from Home Assistant and reported back by the device shows
      as what was set. */
  lemma ColorRoundTrip(data: Snapshot, bus: int, c: Rgb)
    requires bus in data.buses
    requires data.buses[bus].status.color == Some(Color(Some(c.red), Some(c.green), Some(c.blue)))
    ensures RgbColor(true, data, bus) == Some(c)
  {
  }

  /** The lights of an entry, one per bus id. */
  function LightsFor(entryId: string, ids: seq<int>): (r: seq<Light>)
    ensures |r| == |ids|
    ensures forall i :: 0 <= i < |ids| ==> r[i] == Light(entryId, ids[i])
    decreases |ids|
  {
    if ids == [] then [] else LightsFor(entryId, ids[..|ids| - 1]) + [Light(entryId, ids[|ids| - 1])]
  }

  /** `async_setup_entry`: one light for each bus id in turn. */
  method Setup(entryId: string) returns (entities: seq<Light>)
    ensures entities == LightsFor(entryId, BusIds)
  {
    entities := [];
    var ids := BusIds;
    for i := 0 to |ids|
      invariant entities == LightsFor(entryId, ids[..i])
    {
      assert ids[..i + 1][..i] == ids[..i];
      entities := entities + [Light(entryId, ids[i])];
    }
    assert ids[..|ids|] == ids;
  }

  /** An entry's two lights are for buses 0 and 1, with different unique ids
      and device names that show only the entry id's first '-'-separated part. */
  lemma EntryLights(entryId: string)
    ensures var all := LightsFor(entryId, BusIds);
            && all == [Light(entryId, 0), Light(entryId, 1)]
            && UniqueId(all[0]) != UniqueId(all[1])
            && DeviceName(all[0]) == "RepelBridge " + EntryShort(entryId) + " Bus 0"
            && DeviceName(all[1]) == "RepelBridge " + EntryShort(entryId) + " Bus 1"
  {
    UniqueIdsDistinct(entryId, 0, 1);
    assert IntToString(0) == "0" && IntToString(1) == "1";
  }
}
