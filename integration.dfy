/** Entry setup and unload and the `reset_cartridge` service
    (custom_components/repelbridge/__init__.py, lines 180-239): the
    per-domain table of set-up entries in `hass.data`, and the service
    registered on every setup and removed with the last entry. */
module Integration {
  import opened Wrappers
  import opened DeviceData
  import opened Api
  import opened Calls
  import opened Commands
  import Coordinator

  /** `hass.data[DOMAIN][entry_id]`: the entry's API (seen through its host)
      and its coordinator. */
  datatype EntryRuntime = EntryRuntime(host: string, coordinator: Coordinator.Coordinator)

  datatype SetupOutcome = Loaded | NotReady

  datatype UnloadOutcome = Unloaded | NotUnloaded | KeyErrorRaised

  /** How a call of `repelbridge.reset_cartridge` ends: no such service, the
      schema rejects the bus id, the reset and refresh request are done, or
      the reset raised and the handler logged it. */
  datatype ServiceOutcome = ServiceNotFound | InvalidBusId | ResetDone | ResetFailedLogged

  /** Whether setup succeeds: the connection probe must return, and then the
      first refresh must succeed or `async_config_entry_first_refresh`
      raises ConfigEntryNotReady. */
  function SetupSpec(probe: Fetch<SystemStatus>, dev: Device): (r: SetupOutcome)
    ensures r == Loaded ==> probe.Ok? && dev.system.Ok?
  {
    if probe.Ok? && Coordinator.RefreshSpec(dev).Updated? then Loaded else NotReady
  }

  /** Setup fails exactly when the probe fails, the first refresh's system
      read fails, or a bus read fails with something other than a
      ClientError; a bus that only fails with ClientErrors does not stop it. */
  lemma SetupLoadedIff(probe: Fetch<SystemStatus>, dev: Device)
    ensures SetupSpec(probe, dev) == NotReady <==>
              !probe.Ok? || !dev.system.Ok?
              || Coordinator.FetchBus(dev, 0).Aborted? || Coordinator.FetchBus(dev, 1).Aborted?
  {
    Coordinator.RefreshFailsIff(dev);
  }

  /** The `vol.In([0, 1])` schema of the service. */
  predicate ValidBusId(busId: int) {
    busId == 0 || busId == 1
  }

  /** The effects of one service call on the handler registered last. */
  function ServiceEffects(service: Option<EntryRuntime>, busId: int, ok: Operation -> bool): seq<Effect> {
    if service.None? || !ValidBusId(busId) then []
    else CommandEffects(service.value.host, [ResetCartridge(busId)], ok)
  }

  /** A service call does nothing unless the service is registered and the
      bus id is 0 or 1; then it resets that bus's cartridge on the host of
      the entry set up last, and requests a refresh exactly when the reset
      returned. */
  lemma ServiceEffectsCases(service: Option<EntryRuntime>, busId: int, ok: Operation -> bool)
    ensures ServiceEffects(service, busId, ok) == [] <==> service.None? || !ValidBusId(busId)
    ensures service.Some? && ValidBusId(busId) ==>
              var host := service.value.host;
              ServiceEffects(service, busId, ok) ==
                [Call(host, ResetCartridge(busId))] + (if ok(ResetCartridge(busId)) then [RefreshRequest(host)] else [])
  {
    if service.Some? && ValidBusId(busId) {
      CommandEffectsCons(service.value.host, ResetCartridge(busId), [], ok);
      CommandEffectsNil(service.value.host, ok);
      assert [ResetCartridge(busId)] + [] == [ResetCartridge(busId)];
    }
  }

  /** `hass.data[DOMAIN]` and the service registration. */
  class Registry {
    var entries: map<string, EntryRuntime>
    /** The registered handler, through the runtime it closes over. */
    var service: Option<EntryRuntime>

    /** The service is registered exactly while some entry is set up. */
    predicate Valid()
      reads this
    {
      service.Some? <==> entries != map[]
    }

    constructor ()
      ensures entries == map[] && service == None && Valid()
    {
      entries := map[];
      service := None;
    }

    /** `async_setup_entry`: probe the host with a system-status read; on failure raise
        ConfigEntryNotReady with nothing stored. Then create the coordinator
        and run its first refresh; on failure raise ConfigEntryNotReady with
        nothing stored. Otherwise store the entry's runtime and (re-)register
        the service with a handler for this entry. `trace` is every read
        sent: the probe, then the first refresh's reads. */
    method SetupEntry(entryId: string, host: string, probe: Fetch<SystemStatus>, dev: Device)
      returns (outcome: SetupOutcome, trace: seq<Operation>)
      requires Valid()
      modifies this
      ensures Valid()
      ensures outcome == SetupSpec(probe, dev)
      ensures !probe.Ok? ==> trace == [GetSystemStatus]
      ensures probe.Ok? ==> trace == [GetSystemStatus] + Coordinator.RefreshTrace(dev)
      ensures outcome == NotReady ==> entries == old(entries) && service == old(service)
      ensures outcome == Loaded ==>
                && entryId in entries && entries == old(entries)[entryId := entries[entryId]]
                && service == Some(entries[entryId])
                && entries[entryId].host == host
                && fresh(entries[entryId].coordinator)
                && entries[entryId].coordinator.lastUpdateSuccess
                && entries[entryId].coordinator.data == Some(Coordinator.RefreshSpec(dev).snapshot)
    {
      if !probe.Ok? {
        return NotReady, [GetSystemStatus];
      }
      var coordinator := new Coordinator.Coordinator(host);
      var refreshReads := coordinator.Refresh(dev);
      trace := [GetSystemStatus] + refreshReads;
      if !coordinator.lastUpdateSuccess {
        return NotReady, trace;
      }
      var runtime := EntryRuntime(host, coordinator);
      entries := entries[entryId := runtime];
      service := Some(runtime);
      assert entryId in entries;
      outcome := Loaded;
    }

    /** `async_unload_entry`: when the platforms unload, pop the entry (a
        KeyError when it is not there) and remove the service if no entry is
        left. The service stays bound to the entry set up last even when
        that entry is the one unloaded and others remain. */
    method UnloadEntry(entryId: string, platformsUnloaded: bool) returns (outcome: UnloadOutcome)
      requires Valid()
      modifies this
      ensures Valid()
      ensures !platformsUnloaded ==> outcome == NotUnloaded
      ensures platformsUnloaded && entryId !in old(entries) ==> outcome == KeyErrorRaised
      ensures outcome != Unloaded ==> entries == old(entries) && service == old(service)
      ensures outcome == Unloaded <==> platformsUnloaded && entryId in old(entries)
      ensures outcome == Unloaded ==> entries == old(entries) - {entryId}
      ensures outcome == Unloaded && entries == map[] ==> service == None
      ensures outcome == Unloaded && entries != map[] ==> service == old(service)
    {
      if !platformsUnloaded {
        return NotUnloaded;
      }
      if entryId !in entries {
        return KeyErrorRaised;
      }
      entries := entries - {entryId};
      if entries == map[] {
        service := None;
      }
      outcome := Unloaded;
    }

    /** A call of `repelbridge.reset_cartridge` with `bus_id`. The handler
        catches every exception from the reset or the refresh request and
        only logs it. */
    method CallResetService(busId: int, log: CommandLog, ok: Operation -> bool) returns (outcome: ServiceOutcome)
      modifies log
      ensures log.effects == old(log.effects) + ServiceEffects(service, busId, ok)
      ensures service.None? ==> outcome == ServiceNotFound
      ensures service.Some? && !ValidBusId(busId) ==> outcome == InvalidBusId
      ensures service.Some? && ValidBusId(busId) ==>
                outcome == (if ok(ResetCartridge(busId)) then ResetDone else ResetFailedLogged)
    {
      if service.None? {
        return ServiceNotFound;
      }
      if !ValidBusId(busId) {
        return InvalidBusId;
      }
      var raised := log.SendThenRefresh(service.value.host, ResetCartridge(busId), ok);
      assert AllOk([ResetCartridge(busId)], ok) <==> ok(ResetCartridge(busId));
      outcome := if raised then ResetFailedLogged else ResetDone;
    }
  }
}
