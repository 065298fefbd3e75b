# RepelBridge for Home Assistant, modelled in Dafny

This project models the RepelBridge custom integration for Home Assistant. The integration talks over HTTP to a RepelBridge hub, which drives two buses (0 and 1) of Liv mosquito repellers. The model covers five parts.

- **The refresh coordinator** (`Coordinator`): one update cycle.
  - It reads the system status first; any failure there fails the cycle.
  - It then reads each bus's status, cartridge, auto-shutoff and warn-at values, in that order, stopping at the first failure.
  - A bus is dropped, with a warning, when one of its reads raises an `aiohttp.ClientError`. Any other exception fails the whole cycle.
  - A failed cycle clears the success flag and keeps the previous data.
  - The device's answers are an oracle value (`DeviceData.Device`): each read is `Ok(payload)`, `ClientErr` or `OtherErr`.
- **The HTTP API** (`Api`): each API method as one request (method, URL, body). A decoder is proved to invert it.
- **The entity platforms**:
  - sensor, light, number, binary sensor, switch, button;
  - each entity's state, attributes and availability, as functions of the coordinator's success flag and snapshot;
  - each command handler, as a method that appends to a log of effects (`Commands.CommandLog`): the awaited API calls in order, then a refresh request. A call that raises ends the handler.
- **The config flow** (`ConfigFlow`): how `validate_input` classifies a probe, the user step, and the zeroconf discovery and confirmation steps.
- **Setup, unload and the `reset_cartridge` service** (`Integration`): the per-domain table of entries and the service registration.

Several behaviours of the code are reproduced as they are, not corrected:

- `InvalidHost` is raised inside `validate_input`'s `try`, but the broad `except Exception` turns it into `CannotConnect`. The user step's `invalid_host` error is therefore never shown (`ConfigFlow.OnlyCannotConnectEscapes`, `ConfigFlow.UserStepOutcomes`), even though the user step has an `except InvalidHost` branch for it (config_flow.py:73-74). The model follows the code: a probe answered without `device_name` fails with `CannotConnect`.
- The platforms use two device-identifier schemes:
  - `bus_{id}` for sensor, switch, number and binary sensor;
  - `{entry_id}_bus_{id}` for light and button.
  
  `Entity.DeviceIdSchemesDisjoint` proves the two never coincide, so each bus appears as two devices. The number platform also names the `bus_{id}` device "Bus {id}", where sensor, switch and binary sensor name it "Liv Repeller Bus {id}" (`Entity.BusDeviceNamedTwice`).
- The unique ids of the sensor, switch and binary sensor entities are not scoped by config entry. The ids of the light, number and button entities are.
- The light's `auto_shutoff_seconds` attribute is read from the cartridge status, so it is 0 unless the device puts that field there.
- The cartridge-life sensor shows a missing `percent_left` as 0. The cartridge-low binary sensor reads the same missing value as 100, so it reports "not low".
- The service handler closes over the API and coordinator of the entry set up last. After that entry is unloaded, while other entries remain, the service still resets cartridges through the unloaded entry's host (`Integration.Registry.UnloadEntry`).
- The API itself does not clamp brightness. `set_brightness(0, 300)` would send 300. The light clamps to 254 before calling it (`LightPlatform.DeviceBrightness`).

## Model

| member | source | states |
|---|---|---|
| Api.ToRequest | custom_components/repelbridge/__init__.py:43-127 | An operation's request is a GET exactly for the five read methods and a POST otherwise. `set_power` sends the form field `state` as `"true"` or `"false"`. |
| Api.DecodeToRequest | custom_components/repelbridge/__init__.py:43-127 | Decoding an operation's request gives the operation back. The method, the URL (`http://{host}`, the fixed path, the bus id) and the body therefore carry everything the call says. |
| Api.RequestsDistinct | custom_components/repelbridge/__init__.py:45-127 | Two different operations never send the same request. |
| Api.BusRequestUrl | custom_components/repelbridge/__init__.py:52-127 | Every bus operation's URL starts with `http://{host}/api/bus/{bus_id}/`. |
| Text.ParseIntToString | custom_components/repelbridge/__init__.py:54 | A bus id written into a path with f-string formatting reads back as the same integer, negative ids included. |
| Text.IntToStringInjective | custom_components/repelbridge/__init__.py:54 | Different bus ids are written as different strings. |
| Text.EntryShort | custom_components/repelbridge/light.py:64 | `entry_id.split('-')[0]`: the result has no `-`. It is a prefix of the entry id, followed either by a `-` or by nothing. |
| Calls.UntilFailure | custom_components/repelbridge/__init__.py:157-161 | The calls made are a prefix of the sequence. Every call but the last returned. The sequence stops early only at a call that raised. All calls are made exactly when all return. |
| Coordinator.BusTraceCases | custom_components/repelbridge/__init__.py:157-161 | The reads sent for a bus are status, cartridge, auto-shutoff and warn-at, in that order. Each is sent only after the previous one returned. |
| Coordinator.BusOutcomeByReads | custom_components/repelbridge/__init__.py:157-172 | A bus record is stored exactly when all four reads return, and it holds those four responses. Otherwise the last read sent is the one that failed. The bus is dropped (not fatal) exactly when that failure is a ClientError. |
| Coordinator.VisitNext | custom_components/repelbridge/__init__.py:156-172 | One loop iteration: a stored bus adds its record, a dropped bus adds a warning, and an aborting bus ends the cycle. |
| Coordinator.AbortIsFinal | custom_components/repelbridge/__init__.py:156-177 | Once a bus raised a non-ClientError, later bus ids are neither read nor stored. |
| Coordinator.RefreshFailsIff | custom_components/repelbridge/__init__.py:149-177 | A cycle raises UpdateFailed exactly when the system status read fails or a read of bus 0 or 1 raises something other than a ClientError. |
| Coordinator.StoredIffAllReadsOk | custom_components/repelbridge/__init__.py:156-168 | In a successful cycle, a bus is a key of `buses` exactly when it is 0 or 1 and its four reads returned. Its record holds exactly those four responses, so there are no partial records. |
| Coordinator.BusesWithinFixedIds | custom_components/repelbridge/__init__.py:154-174 | A successful snapshot's `buses` keys are within {0, 1}. |
| Coordinator.RefreshTraceShape | custom_components/repelbridge/__init__.py:151-161 | The reads, in order: system status; if it failed, nothing else. Otherwise bus 0's reads up to its first failure, then bus 1's unless bus 0 aborted the cycle. |
| Coordinator.TraceOnlyFixedBuses | custom_components/repelbridge/__init__.py:156-161 | No read of a cycle names a bus other than 0 or 1. |
| Coordinator.WarningsAreDroppedBuses | custom_components/repelbridge/__init__.py:169-172 | In a successful cycle, warnings are logged for exactly the dropped buses, in order. |
| Coordinator.OneBusDropped | custom_components/repelbridge/__init__.py:156-174 | If bus 0 answers everything and bus 1's cartridge read fails with a ClientError, the cycle succeeds with bus 0's record alone and one warning, for bus 1. |
| Coordinator.Coordinator.FetchBusData | custom_components/repelbridge/__init__.py:157-172 | The per-bus `try` block returns the outcome and the reads that FetchBus and BusTrace specify. |
| Coordinator.Coordinator.FetchBuses | custom_components/repelbridge/__init__.py:156-172 | The loop over bus ids fills `buses` in place and gives the map, reads and warnings that BusesAfter, TraceAfter and WarningsAfter specify. |
| Coordinator.Coordinator.FetchData | custom_components/repelbridge/__init__.py:147-177 | `_async_update_data` gives RefreshSpec's result, RefreshTrace's reads and RefreshWarnings' warnings. |
| Coordinator.Coordinator.Refresh | custom_components/repelbridge/__init__.py:147-177 | A successful cycle stores the snapshot and sets the success flag. A failed cycle clears the flag and keeps the previous data. |
| Numeric.TruncToInt | custom_components/repelbridge/number.py:108 | `int(x)` truncates toward zero: the result is within 1 of x, on the side of zero. |
| Numeric.TruncDivThousand | custom_components/repelbridge/sensor.py:251 | For a non-negative millisecond count, `int(ms / 1000)` is integer division by 1000. |
| Commands.RefreshOnlyAfterSuccess | custom_components/repelbridge/light.py:135-160 | A handler requests a refresh exactly when every call returned, once, after all the calls. Otherwise the calls sent are those up to and including the one that raised. |
| Commands.CommandEffectsCons | custom_components/repelbridge/light.py:135-153 | A handler's first call is always sent. The rest of the handler runs only if that call returned. |
| Commands.CommandLog.SendThenRefresh | custom_components/repelbridge/switch.py:99-104 | Awaiting one call and then the refresh request appends exactly that call's effects. It raises exactly when the call raised. |
| Entity.AvailableAfterRefresh | custom_components/repelbridge/sensor.py:83-89 | After a successful cycle, a per-bus entity is available exactly when its bus is 0 or 1 and all four of that bus's reads returned. |
| Entity.BusAvailable | custom_components/repelbridge/sensor.py:82-88 | `available` of every per-bus entity: the last cycle succeeded and the bus is a key of `data["buses"]`. No contract of its own; AvailableAfterRefresh states it after a cycle. |
| Entity.DeviceIdSchemesDisjoint | custom_components/repelbridge/light.py:64-67 | `bus_{id}` (sensor, switch, number, binary sensor) never equals `{entry_id}_bus_{id}` (light, button). |
| Entity.EntryScopedIdsDistinct | custom_components/repelbridge/light.py:55 | Within one entry, the entry-scoped unique ids `{entry_id}_bus_{id}{kind}` differ whenever the bus or the kind differs. |
| Entity.UnscopedIdsDistinct | custom_components/repelbridge/sensor.py:103-173 | The unscoped ids `repelbridge_bus_{id}{kind}` of the sensor, switch and binary sensor entities differ whenever the bus or the kind differs. |
| Entity.BusDevicesDistinct | custom_components/repelbridge/sensor.py:63-79 | Different buses are different devices with different names, under both naming schemes, and no bus device is the system device. |
| Entity.BusDeviceNamedTwice | custom_components/repelbridge/number.py:56-65 | The number platform uses the same identifier `bus_{id}` as the sensor platform, but names the device "Bus {id}" rather than "Liv Repeller Bus {id}". |
| Entity.EntryDeviceNameUsesShortId | custom_components/repelbridge/light.py:64-67 | The device name `RepelBridge {entry_short} Bus {id}` shows only the entry id's part before the first `-`. It is the device name of the light (LightPlatform.DeviceName) and the button (ButtonPlatform.DeviceName) of a bus, and the stem of the number names (NumberPlatform.Name). |
| SensorPlatform.RuntimeHoursValue | custom_components/repelbridge/sensor.py:109-116 | None exactly when unavailable. Otherwise the cartridge's `runtime_hours`, or 0 when it is missing. |
| SensorPlatform.RuntimeHoursAttributes | custom_components/repelbridge/sensor.py:118-128 | `{}` exactly when unavailable. Otherwise `bus_id` and `active_seconds` (default 0). |
| SensorPlatform.CartridgeLifeValue | custom_components/repelbridge/sensor.py:142-149 | None exactly when unavailable. Otherwise `percent_left`, or 0 when it is missing. |
| SensorPlatform.CartridgeLifeAttributes | custom_components/repelbridge/sensor.py:151-164 | `{}` exactly when unavailable. Otherwise `bus_id` is the bus, `runtime_hours` the cartridge's runtime and `warn_at_hours` the stored threshold, each 0 when missing. |
| SensorPlatform.RepellerCountValue | custom_components/repelbridge/sensor.py:177-184 | None exactly when unavailable. Otherwise `repeller_count`, or 0 when it is missing. |
| SensorPlatform.RepellerCountAttributes | custom_components/repelbridge/sensor.py:186-196 | `{}` exactly when unavailable. Otherwise `bus_id` is the bus and `bus_state` the reported state, or `"unknown"` when it is missing. |
| SensorPlatform.WifiStatusValue | custom_components/repelbridge/sensor.py:208-215 | `"unknown"` exactly when unavailable (not None). `"connected"` exactly when available and `wifi_connected` is true. `"disconnected"` when it is false or missing. |
| SensorPlatform.WifiStatusAttributes | custom_components/repelbridge/sensor.py:217-228 | `{}` exactly when unavailable. Otherwise `ssid` and `ip_address` are the reported values (`""` when missing) and `free_heap` the reported heap (0 when missing). |
| SensorPlatform.UptimeValue | custom_components/repelbridge/sensor.py:243-251 | None exactly when unavailable. It is 0 when `uptime_ms` is missing. |
| SensorPlatform.UptimeIsWholeSeconds | custom_components/repelbridge/sensor.py:243-263 | For a non-negative `uptime_ms`, the uptime is `uptime_ms` div 1000, and it is the `uptime_ms` attribute div 1000. |
| SensorPlatform.UptimeAttributes | custom_components/repelbridge/sensor.py:253-263 | `{}` exactly when unavailable. Otherwise `uptime_ms` is the reported uptime (0 when missing) and `device_name` the reported name (`""` when missing). |
| SensorPlatform.ValueAndAttributesAgree | custom_components/repelbridge/sensor.py:109-263 | Every sensor has no value exactly when it has no attributes. For the WiFi sensor, "no value" means `"unknown"`. |
| SensorPlatform.CartridgeLifeAfterRefresh | custom_components/repelbridge/sensor.py:142-149 | After a successful cycle, the cartridge-life sensor has a value exactly when its bus's four reads returned. The value is the reported `percent_left`, or 0 when it is missing. |
| SensorPlatform.UniqueIdInjective | custom_components/repelbridge/sensor.py:103-237 | Different sensors never share a unique id. |
| SensorPlatform.Available | custom_components/repelbridge/sensor.py:82-94 | `available`: bus sensors are available when the cycle succeeded and their bus is stored; system sensors when the cycle succeeded. No contract of its own; every value and attribute function states its result in terms of it. |
| SensorPlatform.Device | custom_components/repelbridge/sensor.py:62-80 | The device is `system` exactly for the WiFi and uptime sensors. |
| SensorPlatform.SameDeviceIff | custom_components/repelbridge/sensor.py:62-80 | Two sensors share a device exactly when both are system sensors, or both are bus sensors of the same bus. |
| SensorPlatform.Setup | custom_components/repelbridge/sensor.py:24-47 | The setup loop gives three bus sensors per bus id in turn, then the WiFi and uptime sensors (AllSensors). |
| SensorPlatform.HubSensors | custom_components/repelbridge/sensor.py:32-45 | There are eight sensors: runtime, cartridge life and repeller count for buses 0 and 1, plus WiFi status and uptime. No sensor is for another bus. |
| SensorPlatform.HubSensorIdsDistinct | custom_components/repelbridge/sensor.py:32-45 | The eight sensors' unique ids are pairwise different. |
| LightPlatform.IsOn | custom_components/repelbridge/light.py:81-88 | On exactly when available and `powered` is true (missing counts as false). |
| LightPlatform.Brightness | custom_components/repelbridge/light.py:90-100 | None exactly when unavailable. Otherwise the reported brightness (0 when missing) capped at 255. |
| LightPlatform.RgbColor | custom_components/repelbridge/light.py:102-115 | None exactly when unavailable. A missing colour shows as (0, 0, 0). A reported colour shows each channel as reported, a missing channel as 0. |
| LightPlatform.Attributes | custom_components/repelbridge/light.py:117-133 | `{}` exactly when unavailable. Otherwise six keys: `bus_id` is the bus, `bus_state` the reported state (`"unknown"` when missing), and `repeller_count`, `runtime_hours`, `cartridge_percent_left` and `auto_shutoff_seconds` the reported values (0 when missing). `auto_shutoff_seconds` is taken from the cartridge status. |
| LightPlatform.DeviceBrightness | custom_components/repelbridge/light.py:138-141 | The brightness sent never exceeds 254. It equals the requested value when that is at most 254. |
| LightPlatform.TurnOnOpsShape | custom_components/repelbridge/light.py:135-150 | Turn-on ends with power on and powers nothing before that. It sets brightness exactly when one is given, as `min(h, 254)`, and a colour exactly when one is given. Every call is for the light's bus. |
| LightPlatform.TurnOn | custom_components/repelbridge/light.py:135-153 | The log gains CommandEffects of brightness, colour, power on: the calls up to the first that raised, and the refresh request if none raised. The handler raises exactly when some call raised. |
| LightPlatform.ColorThenPowerOn | custom_components/repelbridge/light.py:144-153 | The colour call if given, then power on, then the refresh request, each only if everything before it returned. |
| LightPlatform.TurnOff | custom_components/repelbridge/light.py:155-160 | Power off, then a refresh request exactly when it returned. |
| LightPlatform.BrightnessRoundTrip | custom_components/repelbridge/light.py:96-142 | A Home Assistant brightness h in 0..255, sent and reported back, shows as h, except that 255 shows as 254. |
| LightPlatform.ColorRoundTrip | custom_components/repelbridge/light.py:108-147 | A colour sent and reported back shows as that colour. |
| LightPlatform.UniqueIdsDistinct | custom_components/repelbridge/light.py:55 | An entry's two lights have different unique ids. |
| LightPlatform.DeviceName | custom_components/repelbridge/light.py:61-71 | `device_info["name"]` is `RepelBridge {entry_short} Bus {id}` (Entity.EntryDeviceName). No contract of its own; Entity.EntryDeviceNameUsesShortId and EntryLights state it. |
| LightPlatform.LightsFor | custom_components/repelbridge/light.py:34-36 | One light per bus id, in order. |
| LightPlatform.Setup | custom_components/repelbridge/light.py:34-38 | The setup loop gives LightsFor the fixed bus ids. |
| LightPlatform.EntryLights | custom_components/repelbridge/light.py:34-71 | An entry gets lights for buses 0 and 1, with different unique ids. Their device names are `RepelBridge {entry_short} Bus 0` and `… Bus 1`. |
| NumberPlatform.DefaultValue | custom_components/repelbridge/number.py:91-154 | The defaults are 0 minutes and 97 hours. Each lies within its range: 0..960 and 1..1000. |
| NumberPlatform.NativeValue | custom_components/repelbridge/number.py:97-154 | None exactly when unavailable. Otherwise the stored `auto_shutoff_minutes` or `warn_at_hours`. |
| NumberPlatform.MissingFieldShowsDefault | custom_components/repelbridge/number.py:104-154 | A missing field shows as the default: 0 for auto shutoff, 97 for warn-at. |
| NumberPlatform.Attributes | custom_components/repelbridge/number.py:113-175 | `{}` exactly when unavailable. Otherwise `bus_id` is the bus and `description` the kind's fixed text. Auto shutoff adds `max_hours` 16 = 960 / 60. Warn-at adds `current_runtime_hours` and `percent_left` from the cartridge, 0 when missing. |
| NumberPlatform.SetOpWithinRange | custom_components/repelbridge/number.py:91-108 | `int(value)` of a value in the entity's range stays in the range. It equals the value when the value is whole. |
| NumberPlatform.SetOp | custom_components/repelbridge/number.py:106-161 | The set call matches the kind (auto shutoff or warn-at) and targets the entity's bus. For a non-negative value, the number sent is the value truncated to a whole number. |
| NumberPlatform.SetNativeValue | custom_components/repelbridge/number.py:106-111 | The log gains the matching setter with `int(value)`, then a refresh request exactly when the setter returned. |
| NumberPlatform.SetValueRoundTrip | custom_components/repelbridge/number.py:97-111 | A whole value set and stored by the device shows as that value, 0 ("disabled") included. |
| NumberPlatform.UniqueIdsDistinct | custom_components/repelbridge/number.py:88-138 | Within an entry, different numbers (kind or bus) have different unique ids. |
| NumberPlatform.Name | custom_components/repelbridge/number.py:89-140 | `RepelBridge {entry_short} Bus {id} Auto Shutoff` (lines 89-90) or `… Cartridge Warning` (lines 139-140). No contract of its own; NameUsesShortId states it. |
| NumberPlatform.NameUsesShortId | custom_components/repelbridge/number.py:89-140 | A number's name shows only the entry id's part before the first `-`, followed by the bus id and the setting. Entry ids sharing that part give the same name. |
| NumberPlatform.NumbersFor | custom_components/repelbridge/number.py:30-35 | There are two numbers per bus id. |
| NumberPlatform.Setup | custom_components/repelbridge/number.py:30-37 | The setup loop gives NumbersFor the fixed bus ids. |
| NumberPlatform.EntryNumbers | custom_components/repelbridge/number.py:30-37 | An entry gets four numbers, both kinds for buses 0 and 1, with pairwise different unique ids. |
| BinarySensorPlatform.IsLow | custom_components/repelbridge/binary_sensor.py:76-87 | On exactly when available and `percent_left` is present and at most 5. A missing value reads as 100. |
| BinarySensorPlatform.Icon | custom_components/repelbridge/binary_sensor.py:89-94 | `mdi:battery-alert` exactly when on, `mdi:battery` exactly when off. |
| BinarySensorPlatform.Attributes | custom_components/repelbridge/binary_sensor.py:96-115 | `{}` exactly when unavailable. Otherwise `bus_id` is the bus, `percent_left` the reported value (100 when missing), `runtime_hours` the reported hours (0 when missing), and `threshold` always 5. The sensor is on exactly when `percent_left` ≤ `threshold`. |
| BinarySensorPlatform.LowAfterRefresh | custom_components/repelbridge/binary_sensor.py:76-87 | After a successful cycle, on exactly when the bus's reads returned and the reported `percent_left` is at most 5. |
| BinarySensorPlatform.MissingPercentLeftReadsTwoWays | custom_components/repelbridge/binary_sensor.py:80-87 | With `percent_left` missing, the cartridge-life sensor shows 0, but the cartridge-low sensor reads 100 and stays off. |
| BinarySensorPlatform.Setup | custom_components/repelbridge/binary_sensor.py:33-52 | One sensor per bus 0 and 1, with different unique ids. |
| SwitchPlatform.IsOn | custom_components/repelbridge/switch.py:71-78 | The switch is on only when available. |
| SwitchPlatform.SwitchAgreesWithLight | custom_components/repelbridge/switch.py:71-78 | The switch and the light of a bus always agree on whether it is on: available and `powered` is true. |
| SwitchPlatform.Attributes | custom_components/repelbridge/switch.py:80-97 | `{}` exactly when unavailable. Otherwise `bus_id` is the bus and `bus_state` the reported state (`"unknown"` when missing). `repeller_count`, `runtime_hours`, `cartridge_percent_left` and `brightness` are the raw reported values (0 when missing). `color` is the reported colour object, or `{}` when missing. |
| SwitchPlatform.AttributesAgreeWithLight | custom_components/repelbridge/switch.py:80-97 | The switch and the light of a bus are empty together. Otherwise they show the same `bus_id`, `bus_state`, `repeller_count`, `runtime_hours` and `cartridge_percent_left`. |
| SwitchPlatform.TurnOn | custom_components/repelbridge/switch.py:99-104 | Power on, then a refresh request exactly when it returned. |
| SwitchPlatform.TurnOff | custom_components/repelbridge/switch.py:106-111 | Power off, then a refresh request exactly when it returned. |
| SwitchPlatform.TurnOnMatchesBareLightTurnOn | custom_components/repelbridge/switch.py:99-104 | The switch's turn-on sends what the light sends when turned on with neither brightness nor colour. |
| SwitchPlatform.Setup | custom_components/repelbridge/switch.py:28-49 | One switch per bus 0 and 1, with different unique ids. |
| ButtonPlatform.Press | custom_components/repelbridge/button.py:76-86 | Reset, then a refresh request exactly when the reset returned. Press raises exactly when the reset raised, and then no refresh is requested. |
| ButtonPlatform.EntityIdUsesShortId | custom_components/repelbridge/button.py:50-52 | Two entry ids sharing the part before the first `-` give the same `entity_id` for a bus, but different unique ids. |
| ButtonPlatform.EntityId | custom_components/repelbridge/button.py:51-52 | `{entry_short}_bus_{id}_reset_cartridge`. No contract of its own; EntityIdUsesShortId states what it shows of the entry id. |
| ButtonPlatform.Name | custom_components/repelbridge/button.py:53 | `Bus {id} Reset Cartridge`. No contract of its own. |
| ButtonPlatform.DeviceName | custom_components/repelbridge/button.py:56-66 | `device_info["name"]`: the same `RepelBridge {entry_short} Bus {id}` as the light of that bus (Entity.EntryDeviceName). No contract of its own; Entity.EntryDeviceNameUsesShortId states it. |
| ButtonPlatform.UniqueIdsDistinct | custom_components/repelbridge/button.py:50 | An entry's two buttons have different unique ids. |
| ButtonPlatform.ButtonsFor | custom_components/repelbridge/button.py:29-31 | One button per bus id, in order. |
| ButtonPlatform.Setup | custom_components/repelbridge/button.py:28-33 | The setup loop gives ButtonsFor the fixed bus ids, with different unique ids. |
| ConfigFlow.ProbeUrl | custom_components/repelbridge/config_flow.py:38 | The probe fetches the same URL as the API's system-status request. |
| ConfigFlow.TryBlock | custom_components/repelbridge/config_flow.py:37-46 | The `try` body raises nothing exactly when the response has status 200 and a JSON object with a `device_name` key. A non-200 status raises CannotConnect. A 200 object without `device_name` raises InvalidHost. A ClientError, any other exception, or an undecodable body passes its own exception on. |
| ConfigFlow.ValidateInput | custom_components/repelbridge/config_flow.py:28-55 | It succeeds exactly when the `try` body raises nothing. It then returns `{title: name, host}`. |
| ConfigFlow.OnlyCannotConnectEscapes | custom_components/repelbridge/config_flow.py:37-52 | Every failure leaves `validate_input` as CannotConnect. For every 200 body without `device_name`, InvalidHost is raised inside, and the result is still CannotConnect. |
| ConfigFlow.ApplySchema | custom_components/repelbridge/config_flow.py:20-25 | `host` is kept. `name` is kept when given, and defaults to "RepelBridge" otherwise. |
| ConfigFlow.UserStep | custom_components/repelbridge/config_flow.py:63-87 | Without input, the empty user form. With input, never the confirmation form. Its full outcomes are stated by UserStepOutcomes. |
| ConfigFlow.UserStepOutcomes | custom_components/repelbridge/config_flow.py:63-87 | The form is re-shown exactly when the probe fails, always with `cannot_connect`, never `invalid_host` or `unknown`. The step aborts exactly for a valid but already configured host. Otherwise it creates an entry titled with the name and holding the input. |
| ConfigFlow.Flow.StepUser | custom_components/repelbridge/config_flow.py:63-87 | The step returns UserStep's result. It sets the unique id to the host exactly when validation succeeds. |
| ConfigFlow.StripServiceSuffix | custom_components/repelbridge/config_flow.py:92 | A name with no `.`, advertised under `._repelbridge._tcp.local.`, is discovered as that name. |
| ConfigFlow.RemoveAll | custom_components/repelbridge/config_flow.py:92 | `str.replace(pat, "")`: the result is no longer than the input. StripServiceSuffix and RemoveAllAbsent state what it gives for the names the flow sees. |
| ConfigFlow.RemoveAllAbsent | custom_components/repelbridge/config_flow.py:92 | A name with no occurrence of the suffix is left unchanged. |
| ConfigFlow.Flow.StepZeroconf | custom_components/repelbridge/config_flow.py:89-111 | The unique id is set to the host. A configured host aborts before any probe. A failed validation aborts with `cannot_connect`. Otherwise the host and stripped name are stored and the confirmation form is shown. |
| ConfigFlow.Flow.StepZeroconfConfirm | custom_components/repelbridge/config_flow.py:113-133 | Without input: the form naming the discovered device, or "RepelBridge" when there is none. With input: an entry whose host falls back to the unique id and whose name falls back to the placeholder name when they are missing or empty. |
| Integration.SetupLoadedIff | custom_components/repelbridge/__init__.py:187-197 | Setup raises ConfigEntryNotReady exactly when the probe fails or the first refresh fails: the system read fails, or a bus read raises a non-ClientError. |
| Integration.SetupSpec | custom_components/repelbridge/__init__.py:187-197 | Setup loads only if the probe and the first refresh's system read both returned. |
| Integration.ServiceEffectsCases | custom_components/repelbridge/__init__.py:209-223 | A service call has no effect unless the service is registered and `bus_id` is 0 or 1. It then resets that bus and requests a refresh exactly when the reset returned. |
| Integration.Registry.SetupEntry | custom_components/repelbridge/__init__.py:180-225 | If not ready, the table and service are unchanged. Otherwise the entry maps to a fresh coordinator holding the first snapshot, and the service is bound to it. The service is registered exactly while the table is non-empty. The reads sent are the probe's system-status read, then, if it returned, the first refresh's reads. |
| Integration.Registry.UnloadEntry | custom_components/repelbridge/__init__.py:228-239 | Nothing changes unless the platforms unload and the entry exists. The entry is removed. The service is removed exactly when no entry remains; otherwise it stays bound as before. |
| Integration.Registry.CallResetService | custom_components/repelbridge/__init__.py:209-223 | The log gains ServiceEffects. Outcomes: not found without a service, rejected for a bus other than 0 and 1, and otherwise done or failed-and-logged, never raised. |

## Left out

- HTTP transport: aiohttp sessions, `raise_for_status`, JSON decoding, the 10-second probe timeout. Each fetch is an abstract outcome, and JSON values of the wrong type are not modelled.
- Home Assistant machinery is not modelled:
  - coordinator scheduling (the 30-second interval) and refresh debouncing: a refresh request is recorded as an effect, not run;
  - entity registration and `async_forward_entry_setups`;
  - form rendering.
- The platforms' view functions take a snapshot. They do not cover the state before the first successful refresh, when `coordinator.data` is None, because setup never completes without a first refresh.
- async/await concurrency: every call is sequential.
- Logging: only the coordinator's per-bus warnings are kept, as a list of bus ids.
- Home Assistant's own range check of number entity values before `async_set_native_value`: the model accepts any value.
- Python floats: `int(value)` and `uptime_ms / 1000` are modelled on exact reals, without float rounding.
- The service schema is reduced to the `bus_id ∈ {0, 1}` membership rule, and `ServiceNotFound` to an outcome value.
- Device `device_info` fields other than the identifier and the name: manufacturer, model, sw_version. The light and button device names are modelled by `Entity.EntryDeviceName`, the others by `Entity.BusDevice`, `Entity.SystemDevice` and `Entity.NumberBusDevice`. Entity display names are modelled only for the number and button entities.
- RemoveAll: its own contract gives only the length bound. The exact result is stated only for the names the zeroconf step sees, by StripServiceSuffix and RemoveAllAbsent.
- The light's keyword arguments other than brightness and RGB colour.
- ConfigFlow.Flow.StepZeroconfConfirm: the KeyError raised when a fallback is itself missing is modelled as the result None.
- SwitchPlatform.IsOn: its own contract states only that on implies available. The full rule is stated by SwitchPlatform.SwitchAgreesWithLight.
- switch.py at the repository root is a copy of the platform file; it is not part of this model.
- const.py is not part of this model. Its constants appear as literals: domain `repelbridge`, service `reset_cartridge`, attribute `bus_id`.
