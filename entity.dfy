/** What every entity platform shares: the `available` rule over the
    coordinator's flag and data, the attribute values, and the two device
    identifier schemes the platforms use. */
module Entity {
  import opened Wrappers
  import opened Text
  import opened DeviceData
  import Coordinator

  /** An extra-state-attribute value. */
  datatype Attr = AInt(i: int) | AStr(s: string) | AColor(color: Color)

  /** `available` of every per-bus entity (sensor, light, number, switch,
      binary sensor, button): the last cycle succeeded and the bus is a key
      of `data["buses"]`. */
  predicate BusAvailable(success: bool, data: Snapshot, bus: int) {
    success && bus in data.buses
  }

  /** `available` of the system sensors: the last cycle succeeded and
      `"system"` is a key of the data, which it is in every Snapshot. */
  predicate SystemAvailable(success: bool, data: Snapshot) {
    success
  }

  /** Device identifier of the sensor, switch, number and binary sensor
      platforms: `bus_{bus_id}`. */
  function BusDeviceId(bus: int): string {
    "bus_" + IntToString(bus)
  }

  /** Device identifier of the light and button platforms:
      `{entry_id}_bus_{bus_id}`. */
  function EntryBusDeviceId(entryId: string, bus: int): string {
    entryId + "_bus_" + IntToString(bus)
  }

  /** The unique ids of the sensor, switch and binary sensor entities:
      `repelbridge_bus_{bus_id}` followed by a kind that starts with `_`.
      They are not scoped by config entry. */
  function UnscopedId(bus: int, kind: string): string {
    "repelbridge_bus_" + IntToString(bus) + kind
  }

  /** Two unscoped ids are equal only for the same bus and kind. */
  lemma UnscopedIdsDistinct(b: int, kind1: string, c: int, kind2: string)
    requires |kind1| > 0 && kind1[0] == '_' && |kind2| > 0 && kind2[0] == '_'
    requires b != c || kind1 != kind2
    ensures UnscopedId(b, kind1) != UnscopedId(c, kind2)
  {
    if UnscopedId(b, kind1) == UnscopedId(c, kind2) {
      NoUnderscoreInInt(b);
      NoUnderscoreInInt(c);
      SplitAtSeparator("repelbridge_bus_", IntToString(b), kind1, IntToString(c), kind2, '_');
      if b != c {
        IntToStringInjective(b, c);
      }
    }
  }

  /** The identifier and the name of a `device_info`. */
  datatype DeviceInfo = DeviceInfo(identifier: string, name: string)

  /** `device_info` of a bus in the sensor, switch and binary sensor platforms. */
  function BusDevice(bus: int): DeviceInfo {
    DeviceInfo(BusDeviceId(bus), "Liv Repeller Bus " + IntToString(bus))
  }

  /** `device_info` of the system sensors. */
  const SystemDevice: DeviceInfo := DeviceInfo("system", "Liv Repeller System")

  /** `device_info` of a bus in the number platform: the same identifier as
      `BusDevice`, under another name. */
  function NumberBusDevice(bus: int): DeviceInfo {
    DeviceInfo(BusDeviceId(bus), "Bus " + IntToString(bus))
  }

  /** Different buses are different devices with different names, and no bus
      device is the system device. */
  lemma BusDevicesDistinct(b: int, c: int)
    requires b != c
    ensures BusDevice(b).identifier != BusDevice(c).identifier
    ensures BusDevice(b).name != BusDevice(c).name
    ensures NumberBusDevice(b).name != NumberBusDevice(c).name
    ensures BusDevice(b).identifier != SystemDevice.identifier
  {
    IntToStringInjective(b, c);
    AppendDistinct("bus_", IntToString(b), IntToString(c));
    AppendDistinct("Liv Repeller Bus ", IntToString(b), IntToString(c));
    AppendDistinct("Bus ", IntToString(b), IntToString(c));
    assert BusDevice(b).identifier[0] == 'b';
  }

  /** The number platform and the sensor, switch and binary sensor platforms
      describe the same device under two different names. */
  lemma BusDeviceNamedTwice(bus: int)
    ensures BusDevice(bus).identifier == NumberBusDevice(bus).identifier
    ensures BusDevice(bus).name != NumberBusDevice(bus).name
  {
    assert BusDevice(bus).name[0] == 'L';
  }

  /** After a cycle, a per-bus entity is available exactly when the cycle
      succeeded, the bus is 0 or 1, and all four reads of that bus returned. */
  lemma AvailableAfterRefresh(dev: Device, bus: int)
    ensures var u := Coordinator.RefreshSpec(dev);
            u.Updated? ==> (BusAvailable(true, u.snapshot, bus) <==>
                              (bus == 0 || bus == 1) && Coordinator.AllReadsOk(dev, bus))
  {
    if Coordinator.RefreshSpec(dev).Updated? {
      Coordinator.StoredIffAllReadsOk(dev, bus);
    }
  }

  /** The two identifier schemes never produce the same identifier, so the
      light and button of a bus land on a different device than its sensors,
      switch and numbers. */
  lemma DeviceIdSchemesDisjoint(entryId: string, bus: int, other: int)
    ensures BusDeviceId(bus) != EntryBusDeviceId(entryId, other)
  {
    var a := BusDeviceId(bus);
    var b := EntryBusDeviceId(entryId, other);
    var k := |entryId| + 1;
    assert b[k] == 'b';
    if k < |a| {
      assert k >= 4 ==> a[k] == IntToString(bus)[k - 4];
      assert a[k] != 'b';
    }
  }

  /** The entry-scoped unique ids of the light, number and button entities:
      `{entry_id}_bus_{bus_id}` followed by a kind that starts with `_`.
      Within one entry, two such ids are equal only for the same bus and kind. */
  lemma EntryScopedIdsDistinct(entryId: string, b: int, kind1: string, c: int, kind2: string)
    requires |kind1| > 0 && kind1[0] == '_' && |kind2| > 0 && kind2[0] == '_'
    requires b != c || kind1 != kind2
    ensures EntryBusDeviceId(entryId, b) + kind1 != EntryBusDeviceId(entryId, c) + kind2
  {
    if EntryBusDeviceId(entryId, b) + kind1 == EntryBusDeviceId(entryId, c) + kind2 {
      NoUnderscoreInInt(b);
      NoUnderscoreInInt(c);
      SplitAtSeparator(entryId + "_bus_", IntToString(b), kind1, IntToString(c), kind2, '_');
      if b != c {
        IntToStringInjective(b, c);
      }
    }
  }

  /** Device name of the light and button platforms, and the stem of the
      number entities' names: `RepelBridge {entry_short} Bus {bus_id}`, where
      `entry_short` is the entry id up to its first '-'. */
  function EntryDeviceName(entryId: string, bus: int): string {
    "RepelBridge " + EntryShort(entryId) + " Bus " + IntToString(bus)
  }

  /** The name shows only the part of the entry id before the first '-':
      entry ids that share it give the same device name. */
  lemma EntryDeviceNameUsesShortId(prefix: string, rest: string, bus: int)
    requires '-' !in prefix
    ensures EntryDeviceName(prefix + "-" + rest, bus) == "RepelBridge " + prefix + " Bus " + IntToString(bus)
    ensures EntryDeviceName(prefix, bus) == "RepelBridge " + prefix + " Bus " + IntToString(bus)
  {
    var s := prefix + "-" + rest;
    assert s[..|prefix|] == prefix;
    EntryShortUnique(s, prefix);
    assert prefix[..|prefix|] == prefix;
    EntryShortUnique(prefix, prefix);
  }
}
