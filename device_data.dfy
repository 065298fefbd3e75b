/** The JSON the device returns, as read by the integration, and the snapshot
    the coordinator assembles from it (custom_components/repelbridge/__init__.py,
    lines 147-177). A key the device leaves out is `None`, so every
    `dict.get(key, default)` of the entity platforms is `GetOr(default)`. */
module DeviceData {
  import opened Wrappers

  /** `GET /api/system/status`. */
  datatype SystemStatus = SystemStatus(
    deviceName: Option<string>,
    wifiConnected: Option<bool>,
    wifiSsid: Option<string>,
    wifiIp: Option<string>,
    freeHeap: Option<int>,
    uptimeMs: Option<int>)

  /** The `color` object of a bus status; `{}` is all three channels absent. */
  datatype Color = Color(red: Option<int>, green: Option<int>, blue: Option<int>)

  /** `GET /api/bus/{id}/status`. */
  datatype BusStatus = BusStatus(
    powered: Option<bool>,
    brightness: Option<int>,
    color: Option<Color>,
    state: Option<string>,
    repellerCount: Option<int>)

  /** `GET /api/bus/{id}/cartridge`. `autoShutoffSeconds` is not a documented
      field of this endpoint; the light platform reads it from here anyway. */
  datatype CartridgeStatus = CartridgeStatus(
    percentLeft: Option<int>,
    runtimeHours: Option<int>,
    activeSeconds: Option<int>,
    autoShutoffSeconds: Option<int>)

  /** `GET /api/bus/{id}/auto_shutoff`. */
  datatype AutoShutoff = AutoShutoff(autoShutoffMinutes: Option<int>)

  /** `GET /api/bus/{id}/warn_at`. */
  datatype WarnAt = WarnAt(warnAtHours: Option<int>)

  /** `data["buses"][bus_id]`: exactly the four responses of one bus. */
  datatype BusRecord = BusRecord(
    status: BusStatus,
    cartridge: CartridgeStatus,
    autoShutoff: AutoShutoff,
    warnAt: WarnAt)

  /** `{"system": ..., "buses": {...}}`, the coordinator's data. Both keys are
      always present in every snapshot a refresh returns. */
  datatype Snapshot = Snapshot(system: SystemStatus, buses: map<int, BusRecord>)

  /** The outcome of one awaited API call: the decoded body, an
      `aiohttp.ClientError`, or any other exception. */
  datatype Fetch<+T> = Ok(value: T) | ClientErr | OtherErr

  /** What the device (and the network in between) answers to each read, as
      an oracle; the answer for a bus is a function of its id. */
  datatype Device = Device(
    system: Fetch<SystemStatus>,
    status: int -> Fetch<BusStatus>,
    cartridge: int -> Fetch<CartridgeStatus>,
    autoShutoff: int -> Fetch<AutoShutoff>,
    warnAt: int -> Fetch<WarnAt>)

  /** The fixed bus ids, in the order the coordinator visits them. */
  const BusIds: seq<int> := [0, 1]
}
