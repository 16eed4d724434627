# Xiaomi Air Purifier 3C bridge: a verified model of its device logic

This project models the Homebridge plugin for the Xiaomi Air Purifier 3C
(`zhimi.airpurifier.mb4`). It covers the part of `src/accessory.ts` that has
logic of its own:

- the property registry that `AirPurifierDevice` builds in its constructor;
- `getProperty`, the filter that picks records out of a `get_properties` answer;
- the update of the state record (`setDeviceCharateristics`, `updateProperties`);
- the connection lifecycle (`connect`, its retry timer, `getFirmware`) and the
  power command (`powerSwitch`);
- the accessory's air-quality ladder (`getAirQuality`) and the mapping between
  the device's `power` field and HomeKit's `Active` characteristic
  (`getPower`, `setPower`).

Modules:

- `Wrappers`: `Option`.
- `JsValues`: the run-time values the plugin handles untyped, JavaScript's
  loose `== true` and strict `===` comparisons.
- `Properties`: `{did, siid, piid, value}` records, the nine registered
  pairs, `GetProperty` and its lemmas.
- `Remote`: the miio transport as an oracle. A `Reply` is an answer or a
  failure; a `RemoteCall` is one request put on the wire.
- `Characteristics`: the state record and the update a poll makes, both as
  written and as evidently intended.
- `Device`: the class `AirPurifierDevice`. Its fields are the registry, the
  session, the state record, the device info and the number of armed retry
  timers. It also keeps a ghost trace of the remote calls it has issued.
- `Accessory`: the air-quality ladder and the power mappings.

The device behaves differently from a plain description of such a bridge.
The model follows the code:

- A poll writes only `power`; no other field of the state record is ever
  updated, so `aqi` stays 0.
- There is no change notification and no observer callback.
- Reading `power` takes `.value` off the filter's result array (see Findings).

## Model

| member | source | states |
|---|---|---|
| `Properties.TrackedKeyOf` | src/accessory.ts:73-81 | every state field except the child lock has a registered (siid, piid) pair, and that pair is one of the nine the constructor registers |
| `Properties.TrackedKeysNameDistinctFields` | src/accessory.ts:73-81 | the registry has nine pairs, no two alike; each names a field and no two fields share one |
| `Properties.GetProperty` | src/accessory.ts:99-101 | the result holds exactly the input records keyed (siid, piid), is no longer than the input, and is empty exactly when no record matches (no failure) |
| `Properties.GetPropertyIsSubsequence` | src/accessory.ts:99-101 | the filter keeps the input's order: its result is a subsequence of the input |
| `Properties.GetPropertyKeepsEveryMatch` | src/accessory.ts:99-101 | each matching record occurs in the result as often as in the input; non-matching records never occur |
| `Properties.GetPropertyHeadIsFirstMatch` | src/accessory.ts:99-101 | the first element of the result is the input's first matching record |
| `Characteristics.PolledAsWritten` | src/accessory.ts:103-105 | the update as written changes only `power`, and leaves it `undefined` whatever the answer holds |
| `Characteristics.PolledAsIntended` | src/accessory.ts:103-105 | the corrected update changes only `power`, and changes nothing when the answer has no (2, 1) record |
| `Characteristics.PolledAsIntendedReadsFirstMatch` | src/accessory.ts:103-105 | the corrected update stores the value of the answer's first (2, 1) record |
| `Device.AirPurifierDevice.constructor` | src/accessory.ts:69-84 | the registry holds nine requests in the order (2,1),(2,4),(3,4),(4,1),(4,3),(6,1),(8,1),(9,1),(9,3), each for `config.did` with value null; then one connection attempt is made, as `Connect` states |
| `Device.AirPurifierDevice.GetFirmware` | src/accessory.ts:86-88 | the firmware is "UNKNOWN" until some connection attempt has both opened a session and received the device info |
| `Device.AirPurifierDevice.GetDeviceCharacteristics` | src/accessory.ts:107-109 | every field but `power` still holds its initial value; in particular `aqi` is 0 and the child lock is off |
| `Device.AirPurifierDevice.TrackProperty` | src/accessory.ts:90-97 | appends exactly one `{did, siid, piid, null}` record at the end; earlier records and all other state are unchanged |
| `Device.AirPurifierDevice.SetDeviceCharacteristics` | src/accessory.ts:103-105 | the state record becomes the as-written update of the old one; nothing else changes |
| `Device.AirPurifierDevice.UpdateProperties` | src/accessory.ts:111-118 | with a session it sends one `get_properties` call carrying the whole registry; a failed call, or no session, leaves the state record unchanged |
| `Device.AirPurifierDevice.PowerSwitch` | src/accessory.ts:120-133 | sends one `set_properties` call with the single record `{did, 2, 1, value}`; a follow-up poll is sent only when the write succeeds; without a session nothing is sent |
| `Device.AirPurifierDevice.Connect` | src/accessory.ts:135-147 | on success the firmware is the reported `fw_ver` and exactly one poll follows; on failure the firmware is unchanged (still "UNKNOWN" if no attempt has ever succeeded) and exactly one retry timer is armed; an opened session is kept even if the info call fails |
| `Device.AirPurifierDevice.RetryConnect` | src/accessory.ts:141-146 | a firing retry timer consumes itself and makes a connection attempt, which re-arms one timer if it fails |
| `Device.ReconnectAfterFailure` | src/accessory.ts:135-146 | after a failed first attempt the firmware reads "UNKNOWN"; after a successful retry it reads the reported version and no timer is armed |
| `Accessory.ClassifyAirQuality` | src/accessory.ts:249-255 | the category is never Unknown: it is the first rung whose breakpoint the reading does not exceed, and Poor above all four; a missing breakpoint never matches |
| `Accessory.FirstRungIsFirst` | src/accessory.ts:249-255 | the reference search returns the first matching rung at or after its start |
| `Accessory.ClassifyIsFirstRung` | src/accessory.ts:249-255 | the ladder agrees with the reference search on every reading and breakpoint list |
| `Accessory.ClassifyIsMonotone` | src/accessory.ts:249-255 | a higher reading never gets a better category, for any breakpoints |
| `Accessory.ClassifyBand` | src/accessory.ts:249-255 | with four ascending breakpoints, category k is chosen exactly when the reading lies above breakpoint k-1 and at or below breakpoint k |
| `Accessory.GetPower` | src/accessory.ts:217-230 | HomeKit is shown Active exactly when `power` loosely equals `true`, that is when it is `true` or the number 1; `undefined` and `null` show Inactive |
| `Accessory.SetPower` | src/accessory.ts:232-242 | power on is requested exactly when the value is strictly the number 1 (HomeKit's Active); a boolean `true` or any other number requests power off |
| `Accessory.PowerRequestRoundTrip` | src/accessory.ts:221-236 | the two mappings are inverse on the Active codes: the flag derived from a code maps back to that code |
| `Accessory.PowerFlagRoundTrip` | src/accessory.ts:221-236 | the two mappings are inverse on power flags: a flag shown as a code and sent back gives the same flag |
| `Accessory.PolledAsWrittenShowsInactive` | src/accessory.ts:104 | as written, HomeKit is shown Inactive after every successful poll |
| `Accessory.PowerOnReportIsLost` | src/accessory.ts:104 | an answer reporting power on yields `undefined` and Inactive as written, `true` and Active as intended |
| `Accessory.PowerOnShownInactive` | src/accessory.ts:120-133 | on the device as written, a request for Active whose write succeeds and whose read-back reports power on still leaves HomeKit showing Inactive |
| `Accessory.PolledAsIntendedShowsReportedPower` | src/accessory.ts:103-105 | with the corrected update, HomeKit shows exactly the power flag of the answer's first (2, 1) record |

## Left out

- Homebridge registration, the HAP service and characteristic objects and the callback plumbing (src/accessory.ts:18-21, 174-189): framework wiring with no logic of its own.
- The miio library (`miio.device`, `miioCall`): each call is an oracle `Reply` passed in by the caller; encryption, framing and the handshake are not modelled.
- Asynchrony: calls the code does not await (the poll after a connect or a power write) are taken to complete at once. Overlapping polls and other interleavings are not modelled. The same goes for the accessory reading `getFirmware()` during construction, before any connection can have completed.
- Timers: the 30-second retry delay is not modelled, only the count of armed timers. The periodic `setInterval` poll (src/accessory.ts:191) is also left out; it passes an unbound `this.pollProperties`, so as written it cannot reach the device.
- Logging: side effects with no state.
- Device.AirPurifierDevice.Connect: the firmware is modelled as the reported string; an info answer without `fw_ver` would store `undefined`, which is not modelled.
- JsValues.JsValue: numbers are integers, and strings, objects and floating point are not modelled. The loose and strict comparisons are exact only for the values modelled.
- Accessory.ClassifyAirQuality: breakpoints are integers; a configuration with no `breakpoints` list, or with non-numeric entries, is not modelled.
- A failed `get_properties` call is logged and not retried; the model records only that nothing changes.

## Findings

| source | as written | input that shows it | evidently intended | confidence | as-written member | corrected member |
|---|---|---|---|---|---|---|
| src/accessory.ts:104 | `power` is set from `.value` of the array `getProperty` returns, so it becomes `undefined` and `getPower` reports Inactive after every successful poll | a `get_properties` answer `[{did, siid: 2, piid: 1, value: true}]` | `power` takes the value of the first (2, 1) record, unchanged when there is none | high (not executed) | `Accessory.PowerOnReportIsLost` | `Accessory.PolledAsIntendedShowsReportedPower` |

The device class keeps the update as written (`Characteristics.PolledAsWritten`),
so that every device contract describes what the plugin does. The corrected
update is `Characteristics.PolledAsIntended`. `Characteristics.PolledAsIntendedReadsFirstMatch`
and `Accessory.PolledAsIntendedShowsReportedPower` prove its intended property.
`Accessory.PowerOnShownInactive` follows the as-written defect through the
whole device: a successful power-on command still shows Inactive.
