/** The button platform (custom_components/repelbridge/button.py): one
    "reset cartridge" button per bus. */
module ButtonPlatform {
  import opened Wrappers
  import opened Text
  import opened DeviceData
  import opened Entity
  import opened Api
  import opened Calls
  import opened Commands

  /** A button entity: its config entry and its bus. */
  datatype Button = Button(entryId: string, bus: int)

  /** `_attr_unique_id`: `{entry_id}_bus_{bus_id}_reset_cartridge`. */
  function UniqueId(button: Button): string {
    EntryBusDeviceId(button.entryId, button.bus) + "_reset_cartridge"
  }

  /** `entity_id` as the constructor assigns it:
      `{entry_short}_bus_{bus_id}_reset_cartridge`, with no `button.` domain. */
  function EntityId(button: Button): string {
    EntryShort(button.entryId) + "_bus_" + IntToString(button.bus) + "_reset_cartridge"
  }

  /** `_attr_name`. */
  function Name(button: Button): string {
    "Bus " + IntToString(button.bus) + " Reset Cartridge"
  }

  /** `device_info["name"]`, shared with the light of the same bus. */
  function DeviceName(button: Button): string {
    EntryDeviceName(button.entryId, button.bus)
  }

  lemma UniqueIdsDistinct(entryId: string, b: int, c: int)
    requires b != c
    ensures UniqueId(Button(entryId, b)) != UniqueId(Button(entryId, c))
  {
    EntryScopedIdsDistinct(entryId, b, "_reset_cartridge", c, "_reset_cartridge");
  }

  /** The entity id keeps only the entry id's part before the first '-': two
      entries whose ids share that part ask for the same entity id for the
      same bus, although their unique ids differ. */
  lemma EntityIdUsesShortId(prefix: string, rest1: string, rest2: string, bus: int)
    requires '-' !in prefix && rest1 != rest2
    ensures EntityId(Button(prefix + "-" + rest1, bus)) == EntityId(Button(prefix + "-" + rest2, bus))
    ensures UniqueId(Button(prefix + "-" + rest1, bus)) != UniqueId(Button(prefix + "-" + rest2, bus))
  {
    var e1 := prefix + "-" + rest1;
    var e2 := prefix + "-" + rest2;
    assert e1[..|prefix|] == prefix && e2[..|prefix|] == prefix;
    EntryShortUnique(e1, prefix);
    EntryShortUnique(e2, prefix);
    AppendDistinct(prefix + "-", rest1, rest2);
    var tail := "_bus_" + IntToString(bus) + "_reset_cartridge";
    assert UniqueId(Button(e1, bus)) == e1 + tail;
    assert UniqueId(Button(e2, bus)) == e2 + tail;
    if |e1| == |e2| {
      assert (e1 + tail)[..|e1|] == e1;
      assert (e2 + tail)[..|e2|] == e2;
    }
  }

  /** `async_press`: reset the cartridge, then request a refresh; a failed
      reset is logged and re-raised, and no refresh is requested. */
  method Press(log: CommandLog, host: string, bus: int, ok: Operation -> bool) returns (raised: bool)
    modifies log
    ensures log.effects == old(log.effects) + CommandEffects(host, [ResetCartridge(bus)], ok)
    ensures raised <==> !ok(ResetCartridge(bus))
  {
    raised := log.SendThenRefresh(host, ResetCartridge(bus), ok);
  }

  /** The buttons of an entry, one per bus id. */
  function ButtonsFor(entryId: string, ids: seq<int>): (r: seq<Button>)
    ensures |r| == |ids|
    ensures forall i :: 0 <= i < |ids| ==> r[i] == Button(entryId, ids[i])
    decreases |ids|
  {
    if ids == [] then [] else ButtonsFor(entryId, ids[..|ids| - 1]) + [Button(entryId, ids[|ids| - 1])]
  }

  /** `async_setup_entry`: one button for each bus id in turn. */
  method Setup(entryId: string) returns (entities: seq<Button>)
    ensures entities == ButtonsFor(entryId, BusIds)
    ensures UniqueId(entities[0]) != UniqueId(entities[1])
  {
    entities := [];
    var ids := BusIds;
    for i := 0 to |ids|
      invariant entities == ButtonsFor(entryId, ids[..i])
    {
      assert ids[..i + 1][..i] == ids[..i];
      entities := entities + [Button(entryId, ids[i])];
    }
    assert ids[..|ids|] == ids;
    UniqueIdsDistinct(entryId, 0, 1);
  }
}
