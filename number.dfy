/** The number platform (custom_components/repelbridge/number.py): per bus,
    the auto-shutoff time in minutes and the cartridge warning threshold in
    hours, each shown from the coordinator's data and set through the API. */
module NumberPlatform {
  import opened Wrappers
  import opened Text
  import opened Numeric
  import opened DeviceData
  import opened Entity
  import opened Api
  import opened Calls
  import opened Commands

  datatype Kind = AutoShutoffMinutes | CartridgeWarnAtHours

  /** A number entity: its kind, its config entry and its bus. */
  datatype NumberEntity = NumberEntity(kind: Kind, entryId: string, bus: int)

  /** `native_min_value`, `native_max_value` (step 1): 0..960 minutes
      (16 hours) for auto shutoff, 1..1000 hours for the warning threshold. */
  function MinValue(kind: Kind): int {
    match kind
    case AutoShutoffMinutes => 0
    case CartridgeWarnAtHours => 1
  }

  function MaxValue(kind: Kind): int {
    match kind
    case AutoShutoffMinutes => 960
    case CartridgeWarnAtHours => 1000
  }

  /** The value shown when the device leaves the field out: 0 minutes (auto
      shutoff disabled), 97 hours. */
  function DefaultValue(kind: Kind): (v: int)
    ensures MinValue(kind) <= v <= MaxValue(kind)
  {
    match kind
    case AutoShutoffMinutes => 0
    case CartridgeWarnAtHours => 97
  }

  function KindSuffix(kind: Kind): (r: string)
    ensures |r| > 0 && r[0] == '_'
  {
    match kind
    case AutoShutoffMinutes => "_auto_shutoff"
    case CartridgeWarnAtHours => "_cartridge_warn_at"
  }

  /** `_attr_unique_id`: `{entry_id}_bus_{bus_id}_auto_shutoff` or
      `{entry_id}_bus_{bus_id}_cartridge_warn_at`. */
  function UniqueId(n: NumberEntity): string {
    EntryBusDeviceId(n.entryId, n.bus) + KindSuffix(n.kind)
  }

  /** `_attr_name`: the entry-scoped device name followed by the setting. */
  function Name(n: NumberEntity): string {
    EntryDeviceName(n.entryId, n.bus) + (match n.kind
                                         case AutoShutoffMinutes => " Auto Shutoff"
                                         case CartridgeWarnAtHours => " Cartridge Warning")
  }

  /** `_attr_name` shows only the part of the entry id before its first '-':
      entry ids that share that part give the same name. */
  lemma NameUsesShortId(kind: Kind, prefix: string, rest: string, bus: int)
    requires '-' !in prefix
    ensures var setting := if kind.AutoShutoffMinutes? then " Auto Shutoff" else " Cartridge Warning";
            && Name(NumberEntity(kind, prefix + "-" + rest, bus)) == "RepelBridge " + prefix + " Bus " + IntToString(bus) + setting
            && Name(NumberEntity(kind, prefix, bus)) == "RepelBridge " + prefix + " Bus " + IntToString(bus) + setting
  {
    EntryDeviceNameUsesShortId(prefix, rest, bus);
  }

  /** Within one entry, different numbers have different unique ids. */
  lemma UniqueIdsDistinct(m: NumberEntity, n: NumberEntity)
    requires m.entryId == n.entryId && m != n
    ensures UniqueId(m) != UniqueId(n)
  {
    EntryScopedIdsDistinct(m.entryId, m.bus, KindSuffix(m.kind), n.bus, KindSuffix(n.kind));
  }

  /** `native_value`: None when unavailable, else the stored setting, or the
      kind's default when the device left it out. */
  function NativeValue(kind: Kind, success: bool, data: Snapshot, bus: int): (r: Option<int>)
    ensures r.None? <==> !BusAvailable(success, data, bus)
    ensures r.Some? && kind.AutoShutoffMinutes? && data.buses[bus].autoShutoff.autoShutoffMinutes.Some? ==>
              r.value == data.buses[bus].autoShutoff.autoShutoffMinutes.value
    ensures r.Some? && kind.CartridgeWarnAtHours? && data.buses[bus].warnAt.warnAtHours.Some? ==>
              r.value == data.buses[bus].warnAt.warnAtHours.value
  {
    if !BusAvailable(success, data, bus) then None
    else
      match kind
      case AutoShutoffMinutes => Some(data.buses[bus].autoShutoff.autoShutoffMinutes.GetOr(DefaultValue(kind)))
      case CartridgeWarnAtHours => Some(data.buses[bus].warnAt.warnAtHours.GetOr(DefaultValue(kind)))
  }

  /** With the field left out, the value shown is the kind's default. */
  lemma MissingFieldShowsDefault(kind: Kind, data: Snapshot, bus: int)
    requires bus in data.buses
    requires kind.AutoShutoffMinutes? ==> data.buses[bus].autoShutoff.autoShutoffMinutes.None?
    requires kind.CartridgeWarnAtHours? ==> data.buses[bus].warnAt.warnAtHours.None?
    ensures NativeValue(kind, true, data, bus) == Some(DefaultValue(kind))
  {
  }

  /** `extra_state_attributes`: empty when unavailable. */
  function Attributes(kind: Kind, success: bool, data: Snapshot, bus: int): (r: map<string, Attr>)
    ensures r == map[] <==> !BusAvailable(success, data, bus)
    ensures r != map[] && kind.AutoShutoffMinutes? ==> r.Keys == {"bus_id", "description", "max_hours"}
    ensures r != map[] ==> "bus_id" in r && r["bus_id"] == AInt(bus)
    ensures r != map[] && kind.AutoShutoffMinutes? ==>
              r["description"] == AStr("Automatic shutoff time in minutes (0 = disabled)")
    ensures r != map[] && kind.AutoShutoffMinutes? ==> r["max_hours"] == AInt(MaxValue(kind) / 60)
    ensures r != map[] && kind.CartridgeWarnAtHours? ==>
              r.Keys == {"bus_id", "description", "current_runtime_hours", "percent_left"}
    ensures r != map[] && kind.CartridgeWarnAtHours? ==>
              r["description"] == AStr("Cartridge replacement warning threshold in hours")
    ensures r != map[] && kind.CartridgeWarnAtHours? ==>
              r["current_runtime_hours"] == AInt(data.buses[bus].cartridge.runtimeHours.GetOr(0))
    ensures r != map[] && kind.CartridgeWarnAtHours? ==>
              r["percent_left"] == AInt(data.buses[bus].cartridge.percentLeft.GetOr(0))
  {
    if !BusAvailable(success, data, bus) then map[]
    else
      var m := match kind
        case AutoShutoffMinutes =>
          map["bus_id" := AInt(bus),
              "description" := AStr("Automatic shutoff time in minutes (0 = disabled)"),
              "max_hours" := AInt(16)]
        case CartridgeWarnAtHours =>
          var cartridge := data.buses[bus].cartridge;
          map["bus_id" := AInt(bus),
              "description" := AStr("Cartridge replacement warning threshold in hours"),
              "current_runtime_hours" := AInt(cartridge.runtimeHours.GetOr(0)),
              "percent_left" := AInt(cartridge.percentLeft.GetOr(0))];
      assert "bus_id" in m;
      m
  }

  /** The call `async_set_native_value` awaits: the value truncated toward
      zero, as `int(value)` does. */
  function SetOp(kind: Kind, bus: int, value: real): (op: Operation)
    ensures op.SetAutoShutoff? <==> kind.AutoShutoffMinutes?
    ensures op.SetWarnAt? <==> kind.CartridgeWarnAtHours?
    ensures (op.SetAutoShutoff? || op.SetWarnAt?) && op.bus == bus
    ensures var sent := if op.SetAutoShutoff? then op.minutes else op.hours;
            value >= 0.0 ==> sent as real <= value < sent as real + 1.0
  {
    match kind
    case AutoShutoffMinutes => SetAutoShutoff(bus, TruncToInt(value))
    case CartridgeWarnAtHours => SetWarnAt(bus, TruncToInt(value))
  }

  /** The whole number sent for a value within the entity's range is within
      that range too, and is the value itself when it is whole. */
  lemma SetOpWithinRange(kind: Kind, bus: int, value: real)
    requires MinValue(kind) as real <= value <= MaxValue(kind) as real
    ensures var op := SetOp(kind, bus, value);
            var sent := if op.SetAutoShutoff? then op.minutes else op.hours;
            && MinValue(kind) <= sent <= MaxValue(kind)
            && (value == value.Floor as real ==> sent as real == value)
  {
    TruncWithin(value, MinValue(kind), MaxValue(kind));
    if value == value.Floor as real {
      TruncOfInt(value.Floor);
    }
  }

  /** `async_set_native_value`: the set call, then a refresh request if it
      returned. */
  method SetNativeValue(log: CommandLog, host: string, n: NumberEntity, value: real, ok: Operation -> bool)
    returns (raised: bool)
    modifies log
    ensures log.effects == old(log.effects) + CommandEffects(host, [SetOp(n.kind, n.bus, value)], ok)
    ensures raised <==> !ok(SetOp(n.kind, n.bus, value))
  {
    raised := log.SendThenRefresh(host, SetOp(n.kind, n.bus, value), ok);
  }

  /** A whole value set from Home Assistant and stored by the device shows
      as what was set. */
  lemma SetValueRoundTrip(kind: Kind, bus: int, v: int, data: Snapshot)
    requires bus in data.buses
    requires var op := SetOp(kind, bus, v as real);
             if op.SetAutoShutoff? then data.buses[bus].autoShutoff.autoShutoffMinutes == Some(op.minutes)
             else data.buses[bus].warnAt.warnAtHours == Some(op.hours)
    ensures NativeValue(kind, true, data, bus) == Some(v)
  {
    TruncOfInt(v);
  }

  /** The numbers of an entry: the auto-shutoff and warning numbers of each
      bus id in turn. */
  function NumbersFor(entryId: string, ids: seq<int>): (r: seq<NumberEntity>)
    ensures |r| == 2 * |ids|
    decreases |ids|
  {
    if ids == [] then []
    else
      var b := ids[|ids| - 1];
      NumbersFor(entryId, ids[..|ids| - 1]) + [NumberEntity(AutoShutoffMinutes, entryId, b), NumberEntity(CartridgeWarnAtHours, entryId, b)]
  }

  /** `async_setup_entry`. */
  method Setup(entryId: string) returns (entities: seq<NumberEntity>)
    ensures entities == NumbersFor(entryId, BusIds)
  {
    entities := [];
    var ids := BusIds;
    for i := 0 to |ids|
      invariant entities == NumbersFor(entryId, ids[..i])
    {
      assert ids[..i + 1][..i] == ids[..i];
      entities := entities + [NumberEntity(AutoShutoffMinutes, entryId, ids[i]), NumberEntity(CartridgeWarnAtHours, entryId, ids[i])];
    }
    assert ids[..|ids|] == ids;
  }

  /** An entry's four numbers: both settings of buses 0 and 1, with four
      different unique ids. */
  lemma EntryNumbers(entryId: string)
    ensures var all := NumbersFor(entryId, BusIds);
            && all == [NumberEntity(AutoShutoffMinutes, entryId, 0), NumberEntity(CartridgeWarnAtHours, entryId, 0),
                       NumberEntity(AutoShutoffMinutes, entryId, 1), NumberEntity(CartridgeWarnAtHours, entryId, 1)]
            && forall i, j :: 0 <= i < j < |all| ==> UniqueId(all[i]) != UniqueId(all[j])
  {
    var all := NumbersFor(entryId, BusIds);
    assert BusIds[..1] == [0] && [0][..0] == [];
    assert all == [NumberEntity(AutoShutoffMinutes, entryId, 0), NumberEntity(CartridgeWarnAtHours, entryId, 0),
                   NumberEntity(AutoShutoffMinutes, entryId, 1), NumberEntity(CartridgeWarnAtHours, entryId, 1)];
    forall i, j | 0 <= i < j < |all|
      ensures UniqueId(all[i]) != UniqueId(all[j])
    {
      UniqueIdsDistinct(all[i], all[j]);
    }
  }
}
